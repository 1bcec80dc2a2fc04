/**
 * The forwarding map `movedToMap`.  The code only writes it; the chase below is the lookup its design
 * describes for finding a table again after defragmentation.
 */
module Forwarding {
  import opened Wrappers
  import opened Protocol
  import opened Invariants
  import opened Refinement
  import opened TableList

  /** Every entry points to a lower slot. */
  predicate Backward(f: seq<Option<int>>) {
    forall k :: 0 <= k < |f| && f[k].Some? ==> 0 <= f[k].value < k
  }

  /** Follow the map from slot `p` to the first slot below `len`. */
  function Chase(f: seq<Option<int>>, p: nat, len: nat): Option<int>
    requires Backward(f)
    decreases p
  {
    if p < len then Some(p)
    else if p < |f| && f[p].Some? then Chase(f, f[p].value, len)
    else None
  }

  // ------------------------------------------------------------------ the map points downwards

  lemma InitBackward(s: State)
    requires Init(s)
    ensures Backward(s.moved)
  {
  }

  lemma StepBackward(s: State, a: nat, act: Act)
    requires Inv(s) && Enabled(s, a, act) && Backward(s.moved)
    ensures Backward(Step(s, a, act).moved)
  {
    assert Fact(s, s.agents[a]);
    PlanMoved(s, a, act);
  }

  /** What the steps write into the map. */
  lemma PlanMoved(s: State, a: nat, act: Act)
    requires Enabled(s, a, act)
    ensures var (pc, eff) := Plan(s, s.agents[a], act); var was := s.agents[a];
      eff.StoreMoved? ==>
        || (was.LastForward? && eff.i == was.slot && eff.to == None)
        || (was.MoveForward? && eff.i == was.last && eff.to == Some(was.slot))
  {
  }

  // ------------------------------------------------------------------ the effective map

  /** What the map will say about slot `k` once the commit that holds its lock is over. */
  function Pending(pc: Pc, k: int, entry: Option<int>): Option<int> {
    match pc
    case LastCount(i) => if i == k then None else entry
    case LastReserve(i) => if i == k then None else entry
    case LastForward(i) => if i == k then None else entry
    case MoveUnlock(i, last) => if last == k then Some(i) else entry
    case MoveCount(i, last) => if last == k then Some(i) else entry
    case MoveReserve(i, last) => if last == k then Some(i) else entry
    case MoveClear(i, last) => if last == k then Some(i) else entry
    case MoveForward(i, last) => if last == k then Some(i) else entry
    case _ => entry
  }

  function ForwardAt(s: State, k: nat): Option<int>
    requires Shape(s) && k < Capacity(s)
  {
    match s.locks[k]
    case Some(b) => if b < |s.agents| then Pending(s.agents[b], k, s.moved[k]) else s.moved[k]
    case None => s.moved[k]
  }

  function Forward(s: State): seq<Option<int>>
    requires Shape(s)
  {
    seq(Capacity(s), k requires 0 <= k < Capacity(s) => ForwardAt(s, k))
  }

  lemma ForwardBackward(s: State)
    requires Inv(s) && Backward(s.moved)
    ensures Backward(Forward(s))
  {
    forall k | 0 <= k < Capacity(s) && Forward(s)[k].Some?
      ensures 0 <= Forward(s)[k].value < k
    {
      if s.locks[k].Some? {
        assert Fact(s, s.agents[s.locks[k].value]);
      }
    }
  }

  predicate ForwardPending(pc: Pc) {
    pc.LastCount? || pc.LastReserve? || pc.LastForward? || pc.MoveUnlock? || pc.MoveCount? || pc.MoveReserve? ||
    pc.MoveClear? || pc.MoveForward?
  }

  /** When no drop is between its effect and its entry, the effective map is the stored one. */
  lemma SettledForward(s: State)
    requires Inv(s)
    requires forall b :: 0 <= b < |s.agents| ==> !ForwardPending(s.agents[b])
    ensures Forward(s) == s.moved && Length(s) == s.tableCount
  {
    LengthShrinks(s);
  }

  /** The change of the effective map: only the slot a removal cuts off gets a new entry. */
  function Redirect(s: State, emitted: Option<Op<Ref>>, k: nat): Option<int>
    requires Shape(s) && k < Capacity(s)
  {
    if Growth(emitted) == -1 && k == Length(s) - 1 then
      (if emitted.value.i == k then None else Some(emitted.value.i))
    else ForwardAt(s, k)
  }

  /** How a step changes what is pending for a slot. */
  predicate Redirecting(s: State, was: Pc, pc: Pc, eff: Eff, emitted: Option<Op<Ref>>, k: nat)
    requires Shape(s) && k < Capacity(s)
  {
    var entry := if eff.StoreMoved? && eff.i == k then eff.to else s.moved[k];
    && (Holds(was, k) && Holds(pc, k) ==>
          Pending(pc, k, entry) ==
            if Growth(emitted) == -1 && k == s.tableCount - 1 then
              (if emitted.value.i == k then None else Some(emitted.value.i))
            else Pending(was, k, s.moved[k]))
    && (Holds(was, k) && !Holds(pc, k) ==>
          Pending(was, k, s.moved[k]) == entry && !(Growth(emitted) == -1 && k == s.tableCount - 1))
    && (!Holds(was, k) && Holds(pc, k) ==> Pending(pc, k, entry) == s.moved[k] && Growth(emitted) != -1)
    && (!Holds(was, k) ==> entry == s.moved[k] && !(Growth(emitted) == -1 && k == s.tableCount - 1))
  }

  lemma PlanRedirects(s: State, a: nat, act: Act, k: nat)
    requires Shape(s) && Enabled(s, a, act) && Fact(s, s.agents[a]) && k < Capacity(s)
    ensures var (pc, eff) := Plan(s, s.agents[a], act); Redirecting(s, s.agents[a], pc, eff, Emits(s, a, act), k)
  {
    var pc := s.agents[a];
    if CommitsCreate(pc) {
      CreateRedirects(s, a, act, k);
    } else if SearchesLast(pc) {
      SearchRedirects(s, a, act, k);
    } else if MovesLast(pc) {
      MoveRedirects(s, a, act, k);
    } else if CommitsDrop(pc) {
      DropLastRedirects(s, a, act, k);
    } else {
      CallRedirects(s, a, act, k);
    }
  }

  lemma CallRedirects(s: State, a: nat, act: Act, k: nat)
    requires Shape(s) && Enabled(s, a, act) && Fact(s, s.agents[a]) && k < Capacity(s)
    requires !CommitsCreate(s.agents[a]) && !CommitsDrop(s.agents[a])
    ensures var (pc, eff) := PlanCall(s, s.agents[a], act); Redirecting(s, s.agents[a], pc, eff, Emits(s, a, act), k)
  {
  }

  lemma CreateRedirects(s: State, a: nat, act: Act, k: nat)
    requires Shape(s) && Enabled(s, a, act) && Fact(s, s.agents[a]) && k < Capacity(s) && CommitsCreate(s.agents[a])
    ensures var (pc, eff) := PlanCreate(s, s.agents[a]); Redirecting(s, s.agents[a], pc, eff, Emits(s, a, act), k)
  {
  }

  lemma DropLastRedirects(s: State, a: nat, act: Act, k: nat)
    requires Shape(s) && Enabled(s, a, act) && Fact(s, s.agents[a]) && k < Capacity(s)
    requires CommitsDrop(s.agents[a]) && !MovesLast(s.agents[a])
    ensures var (pc, eff) := PlanDropLast(s, s.agents[a]); Redirecting(s, s.agents[a], pc, eff, Emits(s, a, act), k)
  {
  }

  lemma SearchRedirects(s: State, a: nat, act: Act, k: nat)
    requires Shape(s) && Enabled(s, a, act) && Fact(s, s.agents[a]) && k < Capacity(s) && SearchesLast(s.agents[a])
    ensures var (pc, eff) := PlanMove(s, s.agents[a]); Redirecting(s, s.agents[a], pc, eff, Emits(s, a, act), k)
  {
  }

  lemma MoveRedirects(s: State, a: nat, act: Act, k: nat)
    requires Shape(s) && Enabled(s, a, act) && Fact(s, s.agents[a]) && k < Capacity(s)
    requires MovesLast(s.agents[a]) && !SearchesLast(s.agents[a])
    ensures var (pc, eff) := PlanMove(s, s.agents[a]); Redirecting(s, s.agents[a], pc, eff, Emits(s, a, act), k)
  {
  }

  lemma ForwardStep(s: State, a: nat, act: Act, k: nat)
    requires Inv(s) && Enabled(s, a, act) && Guarded(s, a) && k < Capacity(s)
    ensures Inv(Step(s, a, act))
    ensures ForwardAt(Step(s, a, act), k) == Redirect(s, Emits(s, a, act), k)
  {
    assert Fact(s, s.agents[a]);
    StepInv(s, a, act);
    LengthStep(s, a, act);
    var (pc, eff) := Plan(s, s.agents[a], act);
    PlanRedirects(s, a, act, k);
    ForwardAfter(s, a, pc, eff, Emits(s, a, act), k);
  }

  lemma ForwardAfter(s: State, a: nat, pc: Pc, eff: Eff, emitted: Option<Op<Ref>>, k: nat)
    requires Shape(s) && Locking(s) && a < |s.agents| && k < Capacity(s) && Possible(s, eff)
    requires Shape(After(s, a, pc, eff)) && Locking(After(s, a, pc, eff))
    requires Redirecting(s, s.agents[a], pc, eff, emitted, k)
    requires Growth(emitted) != 0 ==> Length(s) == s.tableCount
    ensures ForwardAt(After(s, a, pc, eff), k) == Redirect(s, emitted, k)
  {
    var t := After(s, a, pc, eff);
    assert s.locks[k] == Some(a) <==> Holds(s.agents[a], k);
    assert t.locks[k] == Some(a) <==> Holds(t.agents[a], k);
    assert t.agents[a] == pc;
    if !Holds(s.agents[a], k) && !Holds(pc, k) {
      assert t.locks[k] == s.locks[k];
    }
  }

  // ------------------------------------------------------------------ one step

  /** Where one list operation takes the table at position `at` of a list of `n` tables. */
  function Shift(op: Op<Ref>, at: Option<nat>, n: nat): Option<nat> {
    match op
    case Append(_) => at
    case Replace(_, _) => at
    case Remove(i) =>
      if at == Some(i) then None
      else if at.Some? && at.value == n - 1 && i >= 0 then Some(i)
      else at
  }

  /** Cutting off the last slot: chases that ended there go one hop further. */
  lemma {:induction false} ChaseAfterRemove(f: seq<Option<int>>, g: seq<Option<int>>, p: nat, n: nat, i: int)
    requires Backward(f) && Backward(g) && |f| == |g| && 0 <= i < n <= |f|
    requires forall k :: 0 <= k < |f| && k != n - 1 ==> g[k] == f[k]
    requires g[n - 1] == if i == n - 1 then None else Some(i)
    requires Chase(f, p, n).Some? && Chase(f, p, n).value != i
    ensures Chase(g, p, n - 1) == Some(if Chase(f, p, n).value == n - 1 then i else Chase(f, p, n).value)
    decreases p
  {
    if p < n {
    } else {
      ChaseAfterRemove(f, g, f[p].value, n, i);
    }
  }

  lemma {:induction false} ChaseBelow(f: seq<Option<int>>, p: nat, n: nat)
    requires Backward(f)
    ensures Chase(f, p, n).Some? ==> 0 <= Chase(f, p, n).value < n
    decreases p
  {
    if p >= n && p < |f| && f[p].Some? {
      ChaseBelow(f, f[p].value, n);
    }
  }

  /** One step redirects exactly the slot that its list operation cuts off. */
  lemma RedirectStep(s: State, a: nat, act: Act)
    requires Inv(s) && Enabled(s, a, act) && Guarded(s, a)
    ensures var t := Step(s, a, act); Inv(t) && Capacity(t) == Capacity(s)
    ensures forall k: nat :: k < Capacity(s) ==> Forward(Step(s, a, act))[k] == Redirect(s, Emits(s, a, act), k)
  {
    StepInv(s, a, act);
    var t := Step(s, a, act);
    InvShape(s);
    InvShape(t);
    assert Capacity(t) == Capacity(s);
    forall k: nat | k < Capacity(s)
      ensures Forward(t)[k] == Redirect(s, Emits(s, a, act), k)
    {
      ForwardStep(s, a, act, k);
      hide Inv, Step, Emits, Guarded, Enabled, Redirect;
    }
  }

  /** One step moves the result of a chase exactly as it moves the table that was found there. */
  lemma ChaseStep(s: State, a: nat, act: Act, p: nat)
    requires Inv(s) && Enabled(s, a, act) && Guarded(s, a) && Backward(s.moved) && Backward(Forward(s))
    requires Chase(Forward(s), p, Length(s)).Some?
    ensures var t := Step(s, a, act); Inv(t) && Backward(t.moved) && Backward(Forward(t))
    ensures 0 <= Chase(Forward(s), p, Length(s)).value < Length(s)
    ensures var t := Step(s, a, act); var emitted := Emits(s, a, act); var q := Chase(Forward(s), p, Length(s)).value;
      && (emitted.None? ==> Chase(Forward(t), p, Length(t)) == Some(q))
      && (emitted.Some? && !emitted.value.Append? && Shift(emitted.value, Some(q), Length(s)).Some? ==>
            Chase(Forward(t), p, Length(t)) == Shift(emitted.value, Some(q), Length(s)))
  {
    var t := Step(s, a, act);
    var emitted := Emits(s, a, act);
    StepInv(s, a, act);
    StepBackward(s, a, act);
    ForwardBackward(t);
    StepRefines(s, a, act);
    LengthStep(s, a, act);
    ChaseBelow(Forward(s), p, Length(s));
    InvShape(s);
    InvShape(t);
    RedirectStep(s, a, act);
    hide Inv, Step, Emits, Guarded, Enabled, Forward, Redirect, Directory;
    if emitted.None? || !emitted.value.Append? {
      ChaseRedirected(s, t, emitted, p);
    }
  }

  lemma ChaseRedirected(s: State, t: State, emitted: Option<Op<Ref>>, p: nat)
    requires Shape(s) && Shape(t) && Capacity(t) == Capacity(s) && Backward(Forward(s)) && Backward(Forward(t))
    requires forall k: nat :: k < Capacity(s) ==> Forward(t)[k] == Redirect(s, emitted, k)
    requires Length(t) == Length(s) + Growth(emitted)
    requires emitted.Some? ==> !emitted.value.Append?
    requires emitted.Some? ==> Applicable(Directory(s), emitted.value)
    requires Chase(Forward(s), p, Length(s)).Some? && 0 <= Chase(Forward(s), p, Length(s)).value < Length(s)
    ensures var q := Chase(Forward(s), p, Length(s)).value;
      if emitted.None? then Chase(Forward(t), p, Length(t)) == Some(q)
      else Shift(emitted.value, Some(q), Length(s)).Some? ==>
             Chase(Forward(t), p, Length(t)) == Shift(emitted.value, Some(q), Length(s))
  {
    var q := Chase(Forward(s), p, Length(s)).value;
    if Growth(emitted) == 0 {
      assert Forward(t) == Forward(s);
    } else if q != emitted.value.i {
      ChaseAfterRemove(Forward(s), Forward(t), p, Length(s), emitted.value.i);
    }
  }

  lemma GuardedTail(s: State, moves: seq<Move>)
    requires Inv(s) && GuardedRun(s, moves) && Backward(s.moved)
    ensures Runs(s, moves) && Inv(Exec(s, moves)) && Backward(Exec(s, moves).moved) && Backward(Forward(Exec(s, moves)))
  {
    RunInv(s, moves);
    RunBackward(s, moves);
    ForwardBackward(Exec(s, moves));
  }

  /** The stored map points downwards throughout every guarded run, so the chase terminates. */
  lemma {:induction false} RunBackward(s: State, moves: seq<Move>)
    requires Inv(s) && GuardedRun(s, moves) && Backward(s.moved)
    ensures Runs(s, moves) && Backward(Exec(s, moves).moved)
    decreases moves
  {
    GuardedRunsRun(s, moves);
    if moves != [] {
      StepInv(s, moves[0].agent, moves[0].act);
      StepBackward(s, moves[0].agent, moves[0].act);
      RunBackward(Step(s, moves[0].agent, moves[0].act), moves[1..]);
    }
  }

  // ------------------------------------------------------------------ the stored map

  /** The chase from `p` meets no slot whose drop still has to write its map entry or to lower tableCount. */
  ghost predicate PathSettled(s: State, p: nat)
    requires Shape(s) && Backward(s.moved)
    decreases p
  {
    || p < Length(s)
    || (s.tableCount <= p < Capacity(s) && s.moved[p] == ForwardAt(s, p) &&
        (s.moved[p].Some? ==> PathSettled(s, s.moved[p].value)))
  }

  /** Slots whose entry is still to be written have none from an earlier move. */
  ghost predicate PendingAreFresh(s: State)
    requires Shape(s)
  {
    forall k :: 0 <= k < Capacity(s) && s.moved[k] != ForwardAt(s, k) ==> s.moved[k] == None
  }

  /**
   * The stored map and tableCount give what the effective map gives if the path is settled; and only then, unless an
   * entry left over from an earlier move of the same slot happens to help.
   */
  lemma {:induction false} StoredChaseExact(s: State, p: nat, q: nat)
    requires Inv(s) && Backward(s.moved) && Backward(Forward(s))
    requires Chase(Forward(s), p, Length(s)) == Some(q) && q < Length(s)
    ensures PathSettled(s, p) ==> Chase(s.moved, p, s.tableCount) == Some(q)
    ensures PendingAreFresh(s) ==> (Chase(s.moved, p, s.tableCount) == Some(q) <==> PathSettled(s, p))
    decreases p
  {
    InvShape(s);
    LengthShrinks(s);
    hide Inv, Shrinking;
    if p >= s.tableCount && p < Capacity(s) && s.moved[p] == ForwardAt(s, p) {
      StoredChaseExact(s, s.moved[p].value, q);
    }
  }

  lemma {:induction false} SettledPath(s: State, p: nat)
    requires Inv(s) && Backward(s.moved) && Backward(Forward(s))
    requires forall b :: 0 <= b < |s.agents| ==> !ForwardPending(s.agents[b])
    requires Chase(Forward(s), p, Length(s)).Some?
    ensures PathSettled(s, p)
    decreases p
  {
    InvShape(s);
    SettledForward(s);
    hide Inv;
    assert p < Capacity(s) ==> Forward(s)[p] == ForwardAt(s, p);
    if p >= Length(s) {
      SettledPath(s, s.moved[p].value);
    }
  }

  /**
   * Between its overwrite and its map entry a DROP hides the table it moves: once it has lowered tableCount, chasing
   * the stored map from the table's old slot finds the new slot exactly if an old entry happens to name it.
   */
  lemma WindowHidesTheTable(s: State, a: nat)
    requires Inv(s) && Backward(s.moved) && a < |s.agents|
    requires s.agents[a].MoveReserve? || s.agents[a].MoveClear? || s.agents[a].MoveForward?
    requires s.tableCount == s.agents[a].last
    ensures var pc := s.agents[a];
      && 0 <= pc.slot < pc.last < Capacity(s)
      && ForwardAt(s, pc.last) == Some(pc.slot)
      && (Chase(s.moved, pc.last, s.tableCount) == Some(pc.slot) <==> s.moved[pc.last] == Some(pc.slot))
  {
    var pc := s.agents[a];
    assert Fact(s, pc) && Holds(pc, pc.last);
    assert s.locks[pc.last] == Some(a);
  }

  // ------------------------------------------------------------------ the map as a function of the operations

  /** The entry of slot `k` after a sequence of list operations on a list of `n` tables. */
  function EntryAfter(ops: seq<Op<Ref>>, n: int, k: nat, entry: Option<int>): Option<int>
    decreases ops
  {
    if ops == [] then entry
    else
      var cut := ops[0].Remove? && k == n - 1;
      var now := if !cut then entry else if ops[0].i == k then None else Some(ops[0].i);
      EntryAfter(ops[1..], n + Growth(Some(ops[0])), k, now)
  }

  /** Over any guarded run the effective map depends on the list operations alone, whatever their interleaving. */
  lemma {:induction false} ForwardRun(s: State, moves: seq<Move>, k: nat)
    requires Inv(s) && GuardedRun(s, moves) && Runs(s, moves) && k < Capacity(s)
    ensures Inv(Exec(s, moves)) && Capacity(Exec(s, moves)) == Capacity(s)
    ensures ForwardAt(Exec(s, moves), k) == EntryAfter(Ops(s, moves), Length(s), k, ForwardAt(s, k))
    decreases moves
  {
    hide Inv, Step, Emits, Guarded, Enabled, ForwardAt, Length, Redirect;
    InvShape(s);
    if moves != [] {
      var a, act := moves[0].agent, moves[0].act;
      KeepsCapacity(s, a, act);
      var t := Step(s, a, act);
      var rest := Ops(t, moves[1..]);
      EntryStep(s, a, act, k);
      InvShape(t);
      LengthStep(s, a, act);
      ForwardRun(t, moves[1..], k);
      if Emits(s, a, act).None? {
        assert Ops(s, moves) == rest;
      } else {
        assert Ops(s, moves) == [Emits(s, a, act).value] + rest && Ops(s, moves)[1..] == rest;
      }
    }
  }

  lemma KeepsCapacity(s: State, a: nat, act: Act)
    requires Enabled(s, a, act)
    ensures a < |s.agents| && Capacity(Step(s, a, act)) == Capacity(s)
  {
  }

  /** ForwardStep in terms of `EntryAfter`. */
  lemma EntryStep(s: State, a: nat, act: Act, k: nat)
    requires Inv(s) && Enabled(s, a, act) && Guarded(s, a) && k < Capacity(s)
    ensures Inv(Step(s, a, act)) && k < Capacity(Step(s, a, act))
    ensures var emitted := Emits(s, a, act);
      ForwardAt(Step(s, a, act), k) ==
        if emitted.None? then ForwardAt(s, k) else EntryAfter([emitted.value], Length(s), k, ForwardAt(s, k))
  {
    hide Inv, Step, Emits, Guarded, Enabled, ForwardAt, Length;
    InvShape(s);
    KeepsCapacity(s, a, act);
    ForwardStep(s, a, act, k);
    var emitted := Emits(s, a, act);
    if emitted.Some? {
      assert [emitted.value][1..] == [];
    }
  }
}
