/**
 * Updates compose.  ALTER works on a copy and installs it later; in between the table may have been moved by any
 * number of drops.  Still no update is lost: the listed version of a table descends from every earlier one.
 */
module Versions {
  import opened Wrappers
  import opened Protocol
  import opened Invariants
  import opened Refinement
  import opened Objects
  import opened TableList

  /** `r` is `ancestor`, or was copied from a version that descends from it. */
  predicate Descends(heap: seq<Obj>, r: Ref, ancestor: Ref)
    decreases r
  {
    r == ancestor ||
    (r < |heap| && heap[r].origin.Some? && heap[r].origin.value < r && Descends(heap, heap[r].origin.value, ancestor))
  }

  /** `r` is the listed version of table `id`. */
  ghost predicate Listed(s: State, id: nat, r: Ref)
    requires Shape(s)
  {
    exists k :: 0 <= k < Length(s) && RefAt(s, k) == r && IdOf(s, r) == id
  }

  /** Identity `id` has been given out, and no CREATE is about to publish it. */
  ghost predicate Retired(s: State, id: nat) {
    id < |s.heap| && forall b :: 0 <= b < |s.agents| ==> CreateOwned(s.agents[b]) != Some(id)
  }

  ghost predicate Unlisted(s: State, id: nat)
    requires Shape(s)
  {
    Retired(s, id) && id !in Identities(s)
  }

  lemma ListedIsRetired(s: State, id: nat, r: Ref)
    requires Inv(s) && ObjInv(s) && Listed(s, id, r)
    ensures Retired(s, id)
  {
    var k :| 0 <= k < Length(s) && RefAt(s, k) == r && IdOf(s, r) == id;
    NoHoles(s, k);
    forall b | 0 <= b < |s.agents|
      ensures CreateOwned(s.agents[b]) != Some(id)
    {
      assert Fact(s, s.agents[b]);
      LengthShrinks(s);
      assert !Publishing(s.agents[b], k);
      assert !CarriesId(s, s.agents[b], k);
    }
  }

  lemma RetiredStep(s: State, a: nat, act: Act, id: nat)
    requires Enabled(s, a, act) && HeapValid(s) && Fact(s, s.agents[a]) && Retired(s, id)
    ensures Retired(Step(s, a, act), id)
  {
    var t := Step(s, a, act);
    var (pc, eff) := Plan(s, s.agents[a], act);
    PlanOwning(s, a, act);
    HeapAfter(s, a, pc, eff);
    assert CreateOwned(pc).Some? ==> Owned(pc) == CreateOwned(pc);
    forall b | 0 <= b < |t.agents|
      ensures CreateOwned(t.agents[b]) != Some(id)
    {
      assert b != a ==> t.agents[b] == s.agents[b];
    }
  }

  /** The identities after a step: a retired identity that is not listed stays away. */
  lemma UnlistedStep(s: State, a: nat, act: Act, id: nat)
    requires Inv(s) && ObjInv(s) && Enabled(s, a, act) && Guarded(s, a) && Unlisted(s, id)
    ensures var t := Step(s, a, act); Inv(t) && ObjInv(t) && Unlisted(t, id)
  {
    var t := Step(s, a, act);
    var emitted := Emits(s, a, act);
    assert Fact(s, s.agents[a]) && LineageOf(s, s.agents[a]);
    StepObjInv(s, a, act);
    RetiredStep(s, a, act, id);
    EffectsAreMeaningful(s, a, act);
    StepRefines(s, a, act);
    IdsSurvive(s, a, act);
    IdentitiesAfter(s, t, emitted);
    if emitted.Some? && emitted.value.Append? {
      assert CreateOwned(s.agents[a]) == Some(emitted.value.t);
    }
    NotInApplied(Identities(s), IdOp(s, emitted), id);
  }

  lemma NotInApplied(ids: seq<nat>, op: Option<Op<nat>>, id: nat)
    requires op.Some? ==> Applicable(ids, op.value)
    requires id !in ids && (op.Some? && !op.value.Remove? ==> op.value.t != id)
    ensures id !in ExpectedIds(ids, op)
  {
  }

  /** One step: a listed table keeps its version, gets a version copied from it, or goes away for good. */
  lemma VersionStep(s: State, a: nat, act: Act, id: nat, r: Ref)
    requires Inv(s) && ObjInv(s) && Enabled(s, a, act) && Guarded(s, a) && Listed(s, id, r)
    ensures var t := Step(s, a, act); Inv(t) && ObjInv(t)
    ensures var t := Step(s, a, act);
      || Listed(t, id, r)
      || Unlisted(t, id)
      || (exists o: nat :: Listed(t, id, o) && r < o < |t.heap| && t.heap[o].origin == Some(r))
  {
    var t := Step(s, a, act);
    var emitted := Emits(s, a, act);
    StepObjInv(s, a, act);
    EffectsAreMeaningful(s, a, act);
    StepRefines(s, a, act);
    var k: nat :| k < Length(s) && RefAt(s, k) == r && IdOf(s, r) == id;
    IdsSurvive(s, a, act);
    if emitted == Some(Op.Remove(k)) {
      RemovedForGood(s, a, act, id, r, k);
    } else {
      hide Inv, ObjInv, Step, Guarded;
      VersionKept(s, t, emitted, id, r, k);
      if emitted.Some? && emitted.value.Replace? && emitted.value.i == k {
        var o: nat := emitted.value.t;
        StepKeepsOrigins(s, a, act);
        assert Listed(t, id, o) && r < o < |t.heap| && t.heap[o].origin == Some(r);
      }
    }
  }

  lemma StepKeepsOrigins(s: State, a: nat, act: Act)
    requires Enabled(s, a, act)
    ensures |s.heap| <= |Step(s, a, act).heap|
    ensures forall x :: 0 <= x < |s.heap| ==> Step(s, a, act).heap[x].origin == s.heap[x].origin
  {
    var (pc, eff) := Plan(s, s.agents[a], act);
    HeapAfter(s, a, pc, eff);
  }

  lemma RemovedForGood(s: State, a: nat, act: Act, id: nat, r: Ref, k: nat)
    requires Inv(s) && ObjInv(s) && Enabled(s, a, act) && Guarded(s, a)
    requires k < Length(s) && RefAt(s, k) == r && IdOf(s, r) == id && Emits(s, a, act) == Some(Op.Remove(k))
    ensures Inv(Step(s, a, act)) && Unlisted(Step(s, a, act), id)
  {
    var t := Step(s, a, act);
    assert Fact(s, s.agents[a]);
    assert Identities(s)[k] == id;
    StepRefines(s, a, act);
    IdsSurvive(s, a, act);
    IdentitiesAfter(s, t, Emits(s, a, act));
    RemovedIsGone(Identities(s), k);
    assert Listed(s, id, r);
    ListedIsRetired(s, id, r);
    RetiredStep(s, a, act, id);
  }

  /** Where the list operation leaves the version at position `k`, unless it removes it. */
  lemma VersionKept(s: State, t: State, emitted: Option<Op<Ref>>, id: nat, r: Ref, k: nat)
    requires Shape(s) && Shape(t) && k < Length(s) && RefAt(s, k) == r && IdOf(t, r) == id
    requires emitted.Some? ==> Applicable(Directory(s), emitted.value)
    requires Directory(t) == Expected(Directory(s), emitted) && emitted != Some(Op.Remove(k))
    requires emitted.Some? && emitted.value.Replace? && emitted.value.i == k ==> IdOf(t, emitted.value.t) == id
    ensures if emitted.Some? && emitted.value.Replace? && emitted.value.i == k then Listed(t, id, emitted.value.t)
      else Listed(t, id, r)
  {
    assert |Directory(t)| == Length(t) && Directory(s)[k] == r;
    if emitted.Some? && emitted.value.Remove? && k == Length(s) - 1 {
      StillListed(t, id, r, emitted.value.i);
    } else if emitted.Some? && emitted.value.Replace? && emitted.value.i == k {
      StillListed(t, id, emitted.value.t, k);
    } else {
      StillListed(t, id, r, k);
    }
  }

  lemma StillListed(t: State, id: nat, r: Ref, k: nat)
    requires Shape(t) && k < Length(t) && Directory(t)[k] == r && IdOf(t, r) == id
    ensures Listed(t, id, r)
  {
    assert RefAt(t, k) == r;
  }

  lemma RemovedIsGone(ids: seq<nat>, k: nat)
    requires k < |ids| && Distinct(ids)
    ensures ids[k] !in Apply(ids, Remove(k))
  {
  }

  lemma {:induction false} DescendsFromParent(heap: seq<Obj>, r: Ref, child: Ref, ancestor: Ref)
    requires Descends(heap, r, child)
    requires ancestor < child < |heap| && heap[child].origin == Some(ancestor)
    ensures Descends(heap, r, ancestor)
    decreases r
  {
    if r == child {
      assert Descends(heap, ancestor, ancestor);
    } else {
      DescendsFromParent(heap, heap[r].origin.value, child, ancestor);
    }
  }

  lemma {:induction false} StaysUnlisted(s: State, moves: seq<Move>, id: nat)
    requires Inv(s) && ObjInv(s) && GuardedRun(s, moves) && Runs(s, moves) && Unlisted(s, id)
    ensures var t := Exec(s, moves); Inv(t) && ObjInv(t) && Unlisted(t, id)
    decreases moves
  {
    hide Inv, ObjInv, Step, Guarded, Unlisted;
    if moves != [] {
      UnlistedStep(s, moves[0].agent, moves[0].act, id);
      StaysUnlisted(Step(s, moves[0].agent, moves[0].act), moves[1..], id);
    }
  }

  lemma ListedIsIdentified(s: State, id: nat, r: Ref)
    requires Inv(s) && Listed(s, id, r)
    ensures id in Identities(s)
  {
    var k :| 0 <= k < Length(s) && RefAt(s, k) == r && IdOf(s, r) == id;
    assert Identities(s)[k] == id;
  }

  lemma ListedOneVersion(s: State, id: nat, r: Ref, o: Ref)
    requires Inv(s) && ObjInv(s) && Listed(s, id, r) && Listed(s, id, o)
    ensures r == o
  {
    var j :| 0 <= j < Length(s) && RefAt(s, j) == r && IdOf(s, r) == id;
    var k :| 0 <= k < Length(s) && RefAt(s, k) == o && IdOf(s, o) == id;
    if j < k {
      ListedOnce(s, j, k);
    } else if k < j {
      ListedOnce(s, k, j);
    }
  }

  lemma {:induction false} OriginsStable(s: State, moves: seq<Move>)
    requires Runs(s, moves)
    ensures |s.heap| <= |Exec(s, moves).heap|
    ensures forall x :: 0 <= x < |s.heap| ==> Exec(s, moves).heap[x].origin == s.heap[x].origin
    decreases moves
  {
    if moves != [] {
      StepKeepsOrigins(s, moves[0].agent, moves[0].act);
      OriginsStable(Step(s, moves[0].agent, moves[0].act), moves[1..]);
    }
  }

  /**
   * No lost updates: over any guarded run, the version listed at the end for a table descends, copy by copy, from
   * the version listed at the beginning, wherever drops have moved the table in between.
   */
  lemma {:induction false} UpdatesCompose(s: State, moves: seq<Move>, id: nat, r: Ref, o: Ref)
    requires Inv(s) && ObjInv(s) && GuardedRun(s, moves) && Runs(s, moves) && Shape(Exec(s, moves))
    requires Listed(s, id, r) && Listed(Exec(s, moves), id, o)
    ensures Descends(Exec(s, moves).heap, o, r)
    decreases moves
  {
    hide Inv, ObjInv, Guarded, Unlisted, Listed, Identities, Step, Descends;
    var end := Exec(s, moves);
    RunObjInv(s, moves);
    if moves == [] {
      ListedOneVersion(s, id, r, o);
      DescendsItself(s.heap, r);
    } else {
      var a, act := moves[0].agent, moves[0].act;
      var t := Step(s, a, act);
      VersionStep(s, a, act, id, r);
      InvShape(t);
      if Listed(t, id, r) {
        UpdatesCompose(t, moves[1..], id, r, o);
      } else if Unlisted(t, id) {
        StaysUnlisted(t, moves[1..], id);
        GoneIsNotListed(end, id, o);
      } else {
        var v: nat :| Listed(t, id, v) && r < v < |t.heap| && t.heap[v].origin == Some(r);
        UpdatesCompose(t, moves[1..], id, v, o);
        OriginsStable(t, moves[1..]);
        DescendsFromParent(end.heap, o, v, r);
      }
    }
  }

  lemma DescendsItself(heap: seq<Obj>, r: Ref)
    ensures Descends(heap, r, r)
  {
  }

  lemma GoneIsNotListed(s: State, id: nat, o: Ref)
    requires Inv(s) && Unlisted(s, id)
    ensures !Listed(s, id, o)
  {
    if Listed(s, id, o) {
      ListedIsIdentified(s, id, o);
    }
  }
}
