/**
 * Finding a table again after defragmentation: from the slot it had once, the forwarding map leads to the slot it has
 * now, for as long as the list does not grow back over a slot the table has left.
 */
module Tracking {
  import opened Wrappers
  import opened Protocol
  import opened Invariants
  import opened Refinement
  import opened Objects
  import opened TableList
  import opened Versions
  import opened Forwarding

  // ------------------------------------------------------------------ what the operations do to a table

  /** The number of tables after a sequence of list operations on `n` tables. */
  function LengthAfter(ops: seq<Op<Ref>>, n: int): int
    decreases ops
  {
    if ops == [] then n else LengthAfter(ops[1..], n + Growth(Some(ops[0])))
  }

  /** Where they take the table at position `at`; None once it is dropped. */
  function Whereabouts(ops: seq<Op<Ref>>, at: Option<nat>, n: int): Option<nat>
    decreases ops
  {
    if ops == [] || n < 0 || at.None? then at
    else Whereabouts(ops[1..], Shift(ops[0], at, n), n + Growth(Some(ops[0])))
  }

  /** The slot the table leaves in one operation, or else the one it left before; each is lower than all before it. */
  function LeftBy(op: Op<Ref>, at: nat, n: int, left: Option<nat>): Option<nat> {
    if op.Remove? && at == n - 1 && op.i != at then Some(at) else left
  }

  /** The lowest slot the table has left. */
  function Lowest(ops: seq<Op<Ref>>, at: Option<nat>, n: int, left: Option<nat>): Option<nat>
    decreases ops
  {
    if ops == [] || n < 0 || at.None? then left
    else Lowest(ops[1..], Shift(ops[0], at, n), n + Growth(Some(ops[0])), LeftBy(ops[0], at.value, n, left))
  }

  /** No CREATE takes a slot that the table has left: the list never grows above the lowest of them. */
  predicate Untaken(ops: seq<Op<Ref>>, at: Option<nat>, n: int, left: Option<nat>)
    decreases ops
  {
    ops == [] || n < 0 || at.None? ||
    ((ops[0].Append? && left.Some? ==> n + 1 <= left.value) &&
     Untaken(ops[1..], Shift(ops[0], at, n), n + Growth(Some(ops[0])), LeftBy(ops[0], at.value, n, left)))
  }

  /** The operations can be done one after the other on a list of `n` tables with room for `room`. */
  predicate Fitting(ops: seq<Op<Ref>>, n: int, room: int)
    decreases ops
  {
    0 <= n <= room &&
    (ops == [] ||
     ((ops[0].Remove? ==> 0 <= ops[0].i < n) && Fitting(ops[1..], n + Growth(Some(ops[0])), room)))
  }

  // ------------------------------------------------------------------ the map as a whole

  function Redirected(f: seq<Option<int>>, op: Op<Ref>, n: int): seq<Option<int>> {
    if op.Remove? && 1 <= n <= |f| then f[n - 1 := if op.i == n - 1 then None else Some(op.i)] else f
  }

  /** The effective map after a sequence of list operations. */
  function MapAfter(ops: seq<Op<Ref>>, n: int, f: seq<Option<int>>): seq<Option<int>>
    decreases ops
  {
    if ops == [] then f else MapAfter(ops[1..], n + Growth(Some(ops[0])), Redirected(f, ops[0], n))
  }

  lemma {:induction false} MapIsEntryAfter(ops: seq<Op<Ref>>, n: int, f: seq<Option<int>>, k: nat)
    requires Fitting(ops, n, |f|) && k < |f|
    ensures |MapAfter(ops, n, f)| == |f| && MapAfter(ops, n, f)[k] == EntryAfter(ops, n, k, f[k])
    decreases ops
  {
    if ops != [] {
      MapIsEntryAfter(ops[1..], n + Growth(Some(ops[0])), Redirected(f, ops[0], n), k);
    }
  }

  lemma {:induction false} MapStaysBackward(ops: seq<Op<Ref>>, n: int, f: seq<Option<int>>)
    requires Fitting(ops, n, |f|) && Backward(f)
    ensures |MapAfter(ops, n, f)| == |f| && Backward(MapAfter(ops, n, f))
    decreases ops
  {
    if ops != [] {
      MapStaysBackward(ops[1..], n + Growth(Some(ops[0])), Redirected(f, ops[0], n));
    }
  }

  // ------------------------------------------------------------------ paths

  /** From `p` the map climbs down over slots above `left` to `left`, and from there in one hop to `at`. */
  predicate Leads(f: seq<Option<int>>, p: nat, at: nat, left: nat)
    requires Backward(f)
    decreases p
  {
    && left <= p < |f| && f[p].Some?
    && if p == left then f[p].value == at else Leads(f, f[p].value, at, left)
  }

  /** The table that was at `p` is at `at`, and `left` is the lowest slot it has left since. */
  predicate OnTrack(f: seq<Option<int>>, p: nat, at: nat, left: Option<nat>, n: int)
    requires Backward(f)
  {
    && at < n <= |f|
    && match left
       case None => p == at
       case Some(l) => n <= l && Leads(f, p, at, l)
  }

  lemma {:induction false} LeadsIsFound(f: seq<Option<int>>, p: nat, at: nat, left: nat, n: nat)
    requires Backward(f) && Leads(f, p, at, left) && at < n <= left
    ensures Chase(f, p, n) == Some(at)
    decreases p
  {
    if p != left {
      LeadsIsFound(f, f[p].value, at, left, n);
    }
  }

  /** If the list has grown over the lowest slot left, the chase ends there. */
  lemma {:induction false} LeadsIsLost(f: seq<Option<int>>, p: nat, at: nat, left: nat)
    requires Backward(f) && Leads(f, p, at, left)
    ensures Chase(f, p, left + 1) == Some(left)
    decreases p
  {
    if p != left {
      LeadsIsLost(f, f[p].value, at, left);
    }
  }

  lemma OnTrackIsFound(f: seq<Option<int>>, p: nat, at: nat, left: Option<nat>, n: nat)
    requires Backward(f) && OnTrack(f, p, at, left, n)
    ensures Chase(f, p, n) == Some(at)
  {
    if left.Some? {
      LeadsIsFound(f, p, at, left.value, n);
    }
  }

  /** Entries below the lowest slot left do not matter. */
  lemma {:induction false} LeadsAlike(f: seq<Option<int>>, g: seq<Option<int>>, p: nat, at: nat, left: nat)
    requires Backward(f) && Backward(g) && |f| == |g| && Leads(f, p, at, left)
    requires forall k :: left <= k < |f| ==> g[k] == f[k]
    ensures Leads(g, p, at, left)
    decreases p
  {
    if p != left {
      LeadsAlike(f, g, f[p].value, at, left);
    }
  }

  /** When the table moves on from `at` to `i`, the path gets one hop longer. */
  lemma {:induction false} LeadsOn(f: seq<Option<int>>, g: seq<Option<int>>, p: nat, at: nat, left: nat, i: nat)
    requires Backward(f) && Backward(g) && |f| == |g| && Leads(f, p, at, left) && at < left
    requires forall k :: at < k < |f| ==> g[k] == f[k]
    requires g[at] == Some(i)
    ensures Leads(g, p, i, at)
    decreases p
  {
    if p == left {
      assert Leads(g, at, i, at);
    } else {
      LeadsOn(f, g, f[p].value, at, left, i);
    }
  }

  /** One operation that takes none of the slots left keeps the table on its track. */
  lemma TrackOne(op: Op<Ref>, f: seq<Option<int>>, p: nat, at: nat, n: nat, left: Option<nat>)
    requires Backward(f) && OnTrack(f, p, at, left, n) && Fitting([op], n, |f|)
    requires op.Append? && left.Some? ==> n + 1 <= left.value
    ensures Backward(Redirected(f, op, n))
    ensures Shift(op, Some(at), n).Some? ==>
      OnTrack(Redirected(f, op, n), p, Shift(op, Some(at), n).value, LeftBy(op, at, n, left), n + Growth(Some(op)))
  {
    assert [op][1..] == [];
    var g := Redirected(f, op, n);
    if op.Remove? {
      if at == n - 1 && op.i != at {
        if left.Some? {
          LeadsOn(f, g, p, at, left.value, op.i);
        }
      } else if left.Some? {
        LeadsAlike(f, g, p, at, left.value);
      }
    }
  }

  lemma {:induction false} TrackAll(ops: seq<Op<Ref>>, f: seq<Option<int>>, p: nat, at: nat, n: nat, left: Option<nat>)
    requires Backward(f) && OnTrack(f, p, at, left, n) && Fitting(ops, n, |f|) && Untaken(ops, Some(at), n, left)
    ensures Backward(MapAfter(ops, n, f))
    ensures var now := Whereabouts(ops, Some(at), n);
      now.Some? ==> OnTrack(MapAfter(ops, n, f), p, now.value, Lowest(ops, Some(at), n, left), LengthAfter(ops, n))
    decreases ops
  {
    MapStaysBackward(ops, n, f);
    if ops != [] {
      var op := ops[0];
      assert [op][1..] == [];
      TrackOne(op, f, p, at, n, left);
      var now := Shift(op, Some(at), n);
      if now.Some? {
        TrackAll(ops[1..], Redirected(f, op, n), p, now.value, n + Growth(Some(op)), LeftBy(op, at, n, left));
      }
    }
  }

  // ------------------------------------------------------------------ runs

  lemma OpsHead(s: State, moves: seq<Move>)
    requires Runs(s, moves) && moves != []
    ensures var emitted := Emits(s, moves[0].agent, moves[0].act);
      var rest := Ops(Step(s, moves[0].agent, moves[0].act), moves[1..]);
      && (emitted.None? ==> Ops(s, moves) == rest)
      && (emitted.Some? ==> Ops(s, moves) != [] && Ops(s, moves)[0] == emitted.value && Ops(s, moves)[1..] == rest)
  {
    var emitted := Emits(s, moves[0].agent, moves[0].act);
    var rest := Ops(Step(s, moves[0].agent, moves[0].act), moves[1..]);
    if emitted.Some? {
      assert Ops(s, moves) == [emitted.value] + rest;
    } else {
      assert Ops(s, moves) == rest;
    }
  }

  lemma LengthFits(s: State)
    requires Inv(s)
    ensures 0 <= Length(s) <= Capacity(s)
  {
    LengthShrinks(s);
  }

  /** The operations of a guarded run fit the array, and lead to the length it ends with. */
  lemma {:induction false} OpsFit(s: State, moves: seq<Move>)
    requires Inv(s) && GuardedRun(s, moves) && Runs(s, moves)
    ensures Fitting(Ops(s, moves), Length(s), Capacity(s)) && Inv(Exec(s, moves))
    ensures LengthAfter(Ops(s, moves), Length(s)) == Length(Exec(s, moves)) && Capacity(Exec(s, moves)) == Capacity(s)
    decreases moves
  {
    hide Inv, Step, Emits, Guarded, Enabled, Length, Directory;
    InvShape(s);
    LengthFits(s);
    if moves != [] {
      var a, act := moves[0].agent, moves[0].act;
      KeepsCapacity(s, a, act);
      OpsHead(s, moves);
      OneStepFits(s, a, act);
      OpsFit(Step(s, a, act), moves[1..]);
    }
  }

  lemma OneStepFits(s: State, a: nat, act: Act)
    requires Inv(s) && Enabled(s, a, act) && Guarded(s, a)
    ensures var emitted := Emits(s, a, act); var t := Step(s, a, act);
      && Inv(t) && Length(t) == Length(s) + Growth(emitted)
      && (emitted.Some? && emitted.value.Remove? ==> 0 <= emitted.value.i < Length(s))
  {
    hide Inv, Step, Emits, Guarded, Enabled, Length;
    StepRefines(s, a, act);
    LengthStep(s, a, act);
  }

  /** Over any guarded run the effective map is a function of the list operations. */
  lemma MapRun(s: State, moves: seq<Move>)
    requires Inv(s) && GuardedRun(s, moves) && Runs(s, moves)
    ensures Inv(Exec(s, moves)) && Forward(Exec(s, moves)) == MapAfter(Ops(s, moves), Length(s), Forward(s))
  {
    hide Inv, ForwardAt, Length, Fitting, MapAfter, EntryAfter, Ops, Exec, GuardedRun, Runs;
    OpsFit(s, moves);
    InvShape(s);
    var t := Exec(s, moves);
    InvShape(t);
    MapLength(Ops(s, moves), Length(s), Forward(s));
    forall k: nat | k < Capacity(s)
      ensures Forward(t)[k] == MapAfter(Ops(s, moves), Length(s), Forward(s))[k]
    {
      ForwardRun(s, moves, k);
      MapIsEntryAfter(Ops(s, moves), Length(s), Forward(s), k);
    }
  }

  lemma {:induction false} MapLength(ops: seq<Op<Ref>>, n: int, f: seq<Option<int>>)
    ensures |MapAfter(ops, n, f)| == |f|
    decreases ops
  {
    if ops != [] {
      MapLength(ops[1..], n + Growth(Some(ops[0])), Redirected(f, ops[0], n));
    }
  }

  // ------------------------------------------------------------------ tables

  /** The table `id` is listed at position `p`. */
  ghost predicate Found(s: State, id: nat, p: nat)
    requires Shape(s)
  {
    p < Length(s) && Identities(s)[p] == id
  }

  /** The table is where the operations have taken it, or gone for good. */
  ghost predicate Tracked(s: State, id: nat, at: Option<nat>)
    requires Shape(s)
  {
    match at
    case None => Unlisted(s, id)
    case Some(p) => Found(s, id, p)
  }

  function ShiftBy(emitted: Option<Op<Ref>>, at: Option<nat>, n: nat): Option<nat> {
    if emitted.None? then at else Shift(emitted.value, at, n)
  }

  lemma TrackStep(s: State, a: nat, act: Act, id: nat, p: nat)
    requires Inv(s) && ObjInv(s) && Enabled(s, a, act) && Guarded(s, a) && Found(s, id, p)
    ensures var t := Step(s, a, act);
      Inv(t) && ObjInv(t) && Tracked(t, id, ShiftBy(Emits(s, a, act), Some(p), Length(s)))
  {
    var t := Step(s, a, act);
    var emitted := Emits(s, a, act);
    if emitted == Some(Op.Remove(p)) {
      StepObjInv(s, a, act);
      RemovedForGood(s, a, act, id, RefAt(s, p), p);
    } else {
      StepObjInv(s, a, act);
      StepRefines(s, a, act);
      IdsSurvive(s, a, act);
      IdentitiesAfter(s, t, emitted);
      EffectsAreMeaningful(s, a, act);
      assert Identities(t) == ExpectedIds(Identities(s), IdOp(s, emitted));
      hide Inv, ObjInv, Step, Guarded, Enabled, Identities;
      assert |Identities(s)| == Length(s) && |Identities(t)| == Length(t);
      if emitted.Some? {
        ShiftTracks(Identities(s), emitted.value, IdOp(s, emitted).value, id, p);
      }
    }
  }

  lemma ShiftTracks(ids: seq<nat>, op: Op<Ref>, idOp: Op<nat>, id: nat, p: nat)
    requires Distinct(ids) && Applicable(ids, idOp) && p < |ids| && ids[p] == id && op != Op.Remove(p)
    requires op.Append? ==> idOp.Append?
    requires op.Replace? ==> idOp.Replace? && ids[idOp.i] == idOp.t
    requires op.Remove? ==> idOp == Op.Remove(op.i)
    ensures var q := Shift(op, Some(p), |ids|); var after := Apply(ids, idOp);
      q.Some? && q.value < |after| && after[q.value] == id
  {
  }

  /** Over any guarded run a table is where the list operations have taken it, or gone for good. */
  lemma {:induction false} TrackTable(s: State, moves: seq<Move>, id: nat, p: nat)
    requires Inv(s) && ObjInv(s) && GuardedRun(s, moves) && Runs(s, moves) && Found(s, id, p)
    ensures var t := Exec(s, moves);
      Inv(t) && ObjInv(t) && Tracked(t, id, Whereabouts(Ops(s, moves), Some(p), Length(s)))
    decreases moves
  {
    hide Inv, ObjInv, Step, Emits, Guarded, Enabled, Unlisted, Identities, Length;
    InvShape(s);
    LengthFits(s);
    if moves != [] {
      var a, act := moves[0].agent, moves[0].act;
      KeepsCapacity(s, a, act);
      OpsHead(s, moves);
      OneStepFits(s, a, act);
      var t := Step(s, a, act);
      TrackStep(s, a, act, id, p);
      var now := ShiftBy(Emits(s, a, act), Some(p), Length(s));
      match now
      case Some(q) => TrackTable(t, moves[1..], id, q);
      case None => StaysUnlisted(t, moves[1..], id);
    }
  }

  /** A listed table has one position, and is not gone. */
  lemma FoundOnce(s: State, id: nat, at: Option<nat>, q: nat)
    requires Inv(s) && ObjInv(s) && Tracked(s, id, at) && Found(s, id, q)
    ensures at == Some(q)
  {
    match at
    case None =>
    case Some(p) =>
      if p != q {
        ListedOnce(s, if p < q then p else q, if p < q then q else p);
      }
  }

  /** No CREATE commits in the stretch takes back a slot that the table at `p` has left. */
  predicate TrackKept(s: State, moves: seq<Move>, p: nat)
    requires Shape(s) && Runs(s, moves)
  {
    Untaken(Ops(s, moves), Some(p), Length(s), None)
  }

  lemma {:induction false} CreateFreeIsUntaken(ops: seq<Op<Ref>>, at: Option<nat>, n: int, left: Option<nat>)
    requires forall k :: 0 <= k < |ops| ==> !ops[k].Append?
    ensures Untaken(ops, at, n, left)
    decreases ops
  {
    if ops != [] && n >= 0 && at.Some? {
      CreateFreeIsUntaken(ops[1..], Shift(ops[0], at, n), n + Growth(Some(ops[0])), LeftBy(ops[0], at.value, n, left));
    }
  }

  lemma StartOfTrack(s: State, id: nat, p: nat)
    requires Inv(s) && Backward(s.moved) && Found(s, id, p)
    ensures Backward(Forward(s)) && OnTrack(Forward(s), p, p, None, Length(s))
  {
    ForwardBackward(s);
    LengthFits(s);
  }

  /**
   * The purpose of the map: over any stretch of a run in which no CREATE takes back a slot that the table has left,
   * chasing from the slot the table had at the beginning finds the slot it has at the end, if it still exists.
   */
  lemma SurvivorsAreFound(s: State, moves: seq<Move>, id: nat, p: nat, q: nat)
    requires Inv(s) && ObjInv(s) && Backward(s.moved) && GuardedRun(s, moves)
    requires Shape(s) && Runs(s, moves) && TrackKept(s, moves, p) && Shape(Exec(s, moves))
    requires Found(s, id, p) && Found(Exec(s, moves), id, q)
    ensures Backward(Forward(Exec(s, moves)))
    ensures Chase(Forward(Exec(s, moves)), p, Length(Exec(s, moves))) == Some(q)
  {
    hide Inv, ObjInv, Found, Tracked, Exec, GuardedRun, Runs, Ops, Length, Forward, MapAfter, Untaken, Fitting, OnTrack,
         Lowest, Whereabouts, LengthAfter, Chase, Backward;
    InvShape(s);
    StartOfTrack(s, id, p);
    TrackTable(s, moves, id, p);
    FoundOnce(Exec(s, moves), id, Whereabouts(Ops(s, moves), Some(p), Length(s)), q);
    OpsFit(s, moves);
    MapRun(s, moves);
    LengthFits(s);
    assert |Forward(s)| == Capacity(s) by {
      ForwardLength(s);
    }
    TrackAll(Ops(s, moves), Forward(s), p, p, Length(s), None);
    var t := Exec(s, moves);
    OnTrackIsFound(Forward(t), p, q, Lowest(Ops(s, moves), Some(p), Length(s), None), Length(t));
  }

  lemma ForwardLength(s: State)
    requires Shape(s)
    ensures |Forward(s)| == Capacity(s)
  {
  }

  // ------------------------------------------------------------------ the condition is exact

  lemma {:induction false} Snoc(before: seq<Op<Ref>>, op: Op<Ref>, n: int, f: seq<Option<int>>)
    requires Fitting(before + [op], n, |f|)
    ensures Fitting(before, n, |f|) && Fitting([op], LengthAfter(before, n), |f|)
    ensures LengthAfter(before + [op], n) == LengthAfter(before, n) + Growth(Some(op))
    ensures MapAfter(before + [op], n, f) == Redirected(MapAfter(before, n, f), op, LengthAfter(before, n))
    decreases before
  {
    assert [op][1..] == [];
    if before == [] {
      assert before + [op] == [op];
    } else {
      assert (before + [op])[1..] == before[1..] + [op];
      Snoc(before[1..], op, n + Growth(Some(before[0])), Redirected(f, before[0], n));
    }
  }

  lemma {:induction false} SnocTrack(
    before: seq<Op<Ref>>, op: Op<Ref>, at: Option<nat>, n: int, left: Option<nat>, room: int)
    requires Fitting(before + [op], n, room)
    ensures var now := Whereabouts(before, at, n);
      var m := LengthAfter(before, n);
      var low := Lowest(before, at, n, left);
      && 0 <= m
      && Whereabouts(before + [op], at, n) == Whereabouts([op], now, m)
      && (Untaken(before + [op], at, n, left) <==>
            Untaken(before, at, n, left) && (now.Some? && op.Append? && low.Some? ==> m + 1 <= low.value))
    decreases before
  {
    assert [op][1..] == [];
    if before == [] {
      assert before + [op] == [op];
    } else {
      assert (before + [op])[1..] == before[1..] + [op];
      if at.Some? {
        SnocTrack(before[1..], op, Shift(before[0], at, n), n + Growth(Some(before[0])),
                  LeftBy(before[0], at.value, n, left), room);
      } else {
        SnocTrack(before[1..], op, at, n + Growth(Some(before[0])), left, room);
        GoneIsNowhere(before, n, left);
        GoneIsNowhere(before[1..], n + Growth(Some(before[0])), left);
        GoneIsNowhere(before + [op], n, left);
      }
    }
  }

  lemma GoneIsNowhere(ops: seq<Op<Ref>>, n: int, left: Option<nat>)
    ensures Whereabouts(ops, None, n) == None && Untaken(ops, None, n, left)
  {
  }

  /** After the first operation that takes a slot back, the chase ends at that slot, the last of the list. */
  lemma TakenIsLost(before: seq<Op<Ref>>, op: Op<Ref>, f: seq<Option<int>>, p: nat, n: nat)
    requires Backward(f) && p < n && Fitting(before + [op], n, |f|)
    requires Untaken(before, Some(p), n, None) && !Untaken(before + [op], Some(p), n, None)
    ensures Whereabouts(before, Some(p), n).Some? && op.Append?
    ensures var m := LengthAfter(before + [op], n); var g := MapAfter(before + [op], n, f);
      && 1 <= m && Backward(g) && Whereabouts(before + [op], Some(p), n) == Whereabouts(before, Some(p), n)
      && Whereabouts(before, Some(p), n).value < m - 1
      && Chase(g, p, m) == Some(m - 1)
  {
    assert [op][1..] == [];
    Snoc(before, op, n, f);
    SnocTrack(before, op, Some(p), n, None, |f|);
    FitsRoom(before, n, |f|);
    TrackAll(before, f, p, p, n, None);
    var now := Whereabouts(before, Some(p), n);
    var low := Lowest(before, Some(p), n, None);
    LeadsIsLost(MapAfter(before, n, f), p, now.value, low.value);
  }

  lemma FitsRoom(ops: seq<Op<Ref>>, n: int, room: int)
    requires Fitting(ops, n, room)
    ensures 0 <= n <= room
  {
  }

  lemma {:induction false} ApplySnoc(q: seq<Ref>, before: seq<Op<Ref>>, op: Op<Ref>)
    requires AllApplicable(q, before + [op])
    ensures AllApplicable(q, before) && Applicable(ApplyAll(q, before), op)
    ensures ApplyAll(q, before + [op]) == Apply(ApplyAll(q, before), op)
    decreases before
  {
    if before == [] {
      assert before + [op] == [op] && [op][1..] == [];
      assert ApplyAll(Apply(q, op), []) == Apply(q, op);
    } else {
      assert (before + [op])[1..] == before[1..] + [op];
      ApplySnoc(Apply(q, before[0]), before[1..], op);
    }
  }

  /**
   * The condition is exact: as long as no slot has been taken back, the next operation keeps the table in reach of the
   * chase if and only if it does not take one back either.  Where it does, it is a CREATE, and the chase ends at the
   * created table.
   */
  lemma TrackExact(s: State, moves: seq<Move>, before: seq<Op<Ref>>, op: Op<Ref>, id: nat, p: nat, q: nat)
    requires Inv(s) && ObjInv(s) && Backward(s.moved) && GuardedRun(s, moves) && Shape(s) && Runs(s, moves)
    requires Ops(s, moves) == before + [op] && Untaken(before, Some(p), Length(s), None) && Shape(Exec(s, moves))
    requires Found(s, id, p) && Found(Exec(s, moves), id, q)
    ensures var t := Exec(s, moves);
      Backward(Forward(t)) && (Chase(Forward(t), p, Length(t)) == Some(q) <==> TrackKept(s, moves, p))
    ensures var t := Exec(s, moves);
      !TrackKept(s, moves, p) ==>
        && op.Append? && q < Length(t) - 1
        && Chase(Forward(t), p, Length(t)) == Some(Length(t) - 1) && Directory(t)[Length(t) - 1] == op.t
  {
    hide Inv, ObjInv, Found, Tracked, Exec, GuardedRun, Runs, Ops, Length, Forward, MapAfter, Untaken, Fitting, OnTrack,
         Lowest, Whereabouts, LengthAfter, Chase, Backward, Directory, ApplyAll, AllApplicable;
    if TrackKept(s, moves, p) {
      SurvivorsAreFound(s, moves, id, p, q);
    } else {
      StartOfTrack(s, id, p);
      FoundInList(s, id, p);
      ForwardLength(s);
      OpsFit(s, moves);
      MapRun(s, moves);
      TakenIsLost(before, op, Forward(s), p, Length(s));
      TrackTable(s, moves, id, p);
      FoundOnce(Exec(s, moves), id, Whereabouts(Ops(s, moves), Some(p), Length(s)), q);
      LastIsMade(s, moves, before, op);
    }
  }

  lemma FoundInList(s: State, id: nat, p: nat)
    requires Shape(s) && Found(s, id, p)
    ensures p < Length(s)
  {
  }

  lemma LastIsMade(s: State, moves: seq<Move>, before: seq<Op<Ref>>, op: Op<Ref>)
    requires Inv(s) && GuardedRun(s, moves) && Runs(s, moves) && Ops(s, moves) == before + [op] && op.Append?
    ensures var t := Exec(s, moves); Shape(t) && 1 <= Length(t) && Directory(t)[Length(t) - 1] == op.t
  {
    hide Inv, Exec, GuardedRun, Runs, Ops, Length, ApplyAll, AllApplicable;
    RunRefines(s, moves);
    InvShape(s);
    InvShape(Exec(s, moves));
    ApplySnoc(Directory(s), before, op);
    assert |Directory(Exec(s, moves))| == Length(Exec(s, moves));
  }

  // ------------------------------------------------------------------ the stored map

  /** The stored map finds every survivor of such a stretch whose path is settled. */
  lemma StoredSurvivorsAreFound(s: State, moves: seq<Move>, id: nat, p: nat, q: nat)
    requires Inv(s) && ObjInv(s) && Backward(s.moved) && GuardedRun(s, moves)
    requires Shape(s) && Runs(s, moves) && TrackKept(s, moves, p) && Shape(Exec(s, moves))
    requires Found(s, id, p) && Found(Exec(s, moves), id, q)
    ensures var t := Exec(s, moves);
      && Backward(t.moved)
      && (PathSettled(t, p) ==> Chase(t.moved, p, t.tableCount) == Some(q))
      && (PendingAreFresh(t) ==> (Chase(t.moved, p, t.tableCount) == Some(q) <==> PathSettled(t, p)))
  {
    hide Inv, ObjInv, Found, Exec, GuardedRun, Runs, Ops, Forward, PathSettled, PendingAreFresh, TrackKept;
    SurvivorsAreFound(s, moves, id, p, q);
    GuardedTail(s, moves);
    FoundInList(Exec(s, moves), id, q);
    StoredChaseExact(Exec(s, moves), p, q);
  }

  /** In particular at any moment when no drop is between its effect and its map entry. */
  lemma SettledSurvivorsAreFound(s: State, moves: seq<Move>, id: nat, p: nat, q: nat)
    requires Inv(s) && ObjInv(s) && Backward(s.moved) && GuardedRun(s, moves)
    requires Shape(s) && Runs(s, moves) && TrackKept(s, moves, p) && Shape(Exec(s, moves))
    requires Found(s, id, p) && Found(Exec(s, moves), id, q)
    requires forall b :: 0 <= b < |Exec(s, moves).agents| ==> !ForwardPending(Exec(s, moves).agents[b])
    ensures var t := Exec(s, moves); Backward(t.moved) && Chase(t.moved, p, t.tableCount) == Some(q)
  {
    hide Inv, ObjInv, Found, Exec, GuardedRun, Runs, Ops, Forward, PathSettled, PendingAreFresh, ForwardPending,
         TrackKept;
    SurvivorsAreFound(s, moves, id, p, q);
    GuardedTail(s, moves);
    StoredSurvivorsAreFound(s, moves, id, p, q);
    SettledPath(Exec(s, moves), p);
  }
}
