/**
 * When the unlocked path of CREATE is sound.  On an empty directory complete() takes no lock on a last slot and
 * does not recheck the size.  The guard of `Protocol.Guarded` is what that path relies on: it holds in every run
 * in which commits overlap only while the directory is not empty, and where it fails the directory breaks.
 */
module NonEmpty {
  import opened Wrappers
  import opened Protocol
  import opened Invariants
  import opened Refinement
  import opened Objects
  import opened Deadlock

  /** Two commits are in progress at the same time only while there is at least one table. */
  ghost predicate OverlapNonEmpty(s: State) {
    forall a, b | 0 <= a < |s.agents| && 0 <= b < |s.agents| && a != b ::
      Committing(s.agents[a]) && Committing(s.agents[b]) ==> s.tableCount >= 1
  }

  ghost predicate NonEmptyRun(s: State, moves: seq<Move>)
    decreases moves
  {
    && OverlapNonEmpty(s)
    && (moves == [] ||
        (Enabled(s, moves[0].agent, moves[0].act) &&
         NonEmptyRun(Step(s, moves[0].agent, moves[0].act), moves[1..])))
  }

  /** A CREATE that has seen an empty directory still finds it empty, and one that has not does not. */
  predicate SeenRightly(pc: Pc, count: int) {
    match pc
    case CommitTest(_, n) => (n == 0) == (count == 0)
    case CommitLockNext(_, _, outer) => !outer ==> count == 0
    case CommitStore(_, _, outer) => !outer ==> count == 0
    case _ => true
  }

  ghost predicate AllSeenRightly(s: State) {
    forall b :: 0 <= b < |s.agents| ==> SeenRightly(s.agents[b], s.tableCount)
  }

  lemma PlanSees(s: State, a: nat, act: Act)
    requires Enabled(s, a, act) && SeenRightly(s.agents[a], s.tableCount)
    ensures SeenRightly(Step(s, a, act).agents[a], Step(s, a, act).tableCount)
    ensures Step(s, a, act).tableCount != s.tableCount ==>
      Committing(s.agents[a]) && Committing(Step(s, a, act).agents[a])
  {
    var pc := s.agents[a];
    if CommitsCreate(pc) {
      assert Plan(s, pc, act) == PlanCreate(s, pc);
    } else if MovesLast(pc) {
      assert Plan(s, pc, act) == PlanMove(s, pc);
    } else if CommitsDrop(pc) {
      assert Plan(s, pc, act) == PlanDropLast(s, pc);
    } else {
      assert Plan(s, pc, act) == PlanCall(s, pc, act);
    }
  }

  lemma StepSeesRightly(s: State, a: nat, act: Act)
    requires Inv(s) && AllSeenRightly(s) && Enabled(s, a, act)
    requires OverlapNonEmpty(s) && OverlapNonEmpty(Step(s, a, act))
    ensures Guarded(s, a) && Inv(Step(s, a, act)) && AllSeenRightly(Step(s, a, act))
  {
    var t := Step(s, a, act);
    assert SeenRightly(s.agents[a], s.tableCount) && Fact(s, s.agents[a]);
    StepInv(s, a, act);
    PlanSees(s, a, act);
    forall b | 0 <= b < |t.agents|
      ensures SeenRightly(t.agents[b], t.tableCount)
    {
      if b != a {
        assert t.agents[b] == s.agents[b] && SeenRightly(s.agents[b], s.tableCount);
      }
    }
  }

  /** Runs whose commits overlap only on a non-empty directory are guarded, so everything proved of those applies. */
  lemma {:induction false} NonEmptyRunsAreGuarded(s: State, moves: seq<Move>)
    requires Inv(s) && AllSeenRightly(s) && NonEmptyRun(s, moves)
    ensures GuardedRun(s, moves)
    decreases moves
  {
    if moves != [] {
      StepSeesRightly(s, moves[0].agent, moves[0].act);
      NonEmptyRunsAreGuarded(Step(s, moves[0].agent, moves[0].act), moves[1..]);
    }
  }

  // ------------------------------------------------------------------ the guard is exact

  /**
   * The store at 165 without the lock of a last slot leaves the listed tables alone exactly when the directory is
   * still empty; otherwise it overwrites the first table.
   */
  lemma UnlockedStoreExact(s: State, a: nat)
    requires Inv(s) && HeapValid(s) && Private(s)
    requires a < |s.agents| && s.agents[a].CommitStore? && !s.agents[a].outer
    ensures Enabled(s, a, Go) && Shape(Step(s, a, Go))
    ensures Directory(Step(s, a, Go)) == Directory(s) <==> s.tableCount == s.agents[a].next
  {
    var pc := s.agents[a];
    assert Fact(s, pc) && Holds(pc, 0) && DenseAt(s, 0);
    assert pc.next == 0;
    var t := Step(s, a, Go);
    assert t == s.(tables := s.tables[0 := Some(pc.table)], agents := s.agents[a := CommitCount(pc.table, 0, false)]);
    assert Holds(t.agents[a], 0);
    if s.tableCount >= 1 {
      assert s.locks[0] == Some(a);
      assert Owned(pc) == Some(pc.table);
      assert s.tables[0] != Some(pc.table);
      assert Directory(t)[0] == pc.table && Directory(s)[0] == s.tables[0].value;
    } else {
      assert Length(t) == Length(s) == 0;
    }
  }

  /** Line 137 with nextIndex 0: the index of the last slot is out of range and the agent can never go on. */
  lemma {:induction false} EmptyReadThenNonEmptyIsStuck(s: State, moves: seq<Move>, a: nat)
    requires a < |s.agents| && s.agents[a].CommitLockLast? && s.agents[a].next == 0 && Runs(s, moves)
    ensures |Exec(s, moves).agents| == |s.agents| && Exec(s, moves).agents[a] == s.agents[a]
    ensures !CanMove(s, a)
    decreases moves
  {
    forall act
      ensures !Enabled(s, a, act)
    {
      assert Plan(s, s.agents[a], act) == PlanCreate(s, s.agents[a]);
    }
    if moves != [] {
      assert moves[0].agent != a;
      EmptyReadThenNonEmptyIsStuck(Step(s, moves[0].agent, moves[0].act), moves[1..], a);
    }
  }

  /** A slot below tableCount that nobody has locked is null. */
  predicate Hole(s: State, k: nat) {
    k < |s.tables| && k < |s.locks| && k < s.tableCount && s.locks[k] == None && s.tables[k] == None
  }

  /**
   * Line 131 reads a positive size, line 132 reads zero: left alone, the agent stores behind the end and leaves a
   * hole in slot 0.
   */
  lemma NonEmptyReadThenEmptyLeavesHole(s: State, a: nat) returns (moves: seq<Move>)
    requires Inv(s) && a < |s.agents| && s.agents[a].CommitTest?
    requires s.tableCount == 0 && 1 <= s.agents[a].next < Capacity(s)
    requires s.locks[0] == None && s.locks[s.agents[a].next] == None && s.shared[s.agents[a].next] == {}
    ensures Runs(s, moves) && Hole(Exec(s, moves), 0)
    ensures forall k :: 0 <= k < |moves| ==> moves[k].act == Go
  {
    assert DenseAt(s, 0);
    InvShape(s);
    hide Inv, Runs, Exec, Hole;
    var pc := s.agents[a];
    moves := LockBehindEnd(s, a);
    StoreBehindEnd(Exec(s, moves), a, pc.table, pc.next);
    Extend(s, moves, a, Go);
    moves := moves + [Move(a, Go)];
    Extend(s, moves, a, Go);
    moves := moves + [Move(a, Go)];
  }

  lemma StoreBehindEnd(s: State, a: nat, o: Ref, n: int)
    requires a < |s.agents| && s.agents[a] == CommitStore(o, n, false) && |s.locks| == |s.tables|
    requires s.tableCount == 0 && 1 <= n < Capacity(s) && s.locks[0] == None && s.tables[0] == None
    ensures Enabled(s, a, Go)
    ensures var t := Step(s, a, Go); Enabled(t, a, Go) && Hole(Step(t, a, Go), 0)
  {
    var t := Step(s, a, Go);
    assert t == s.(tables := s.tables[n := Some(o)], agents := s.agents[a := CommitCount(o, n, false)]);
  }

  lemma LockBehindEnd(s: State, a: nat) returns (moves: seq<Move>)
    requires Shape(s) && a < |s.agents| && s.agents[a].CommitTest?
    requires s.tableCount == 0 && 1 <= s.agents[a].next < Capacity(s)
    requires s.locks[s.agents[a].next] == None && s.shared[s.agents[a].next] == {}
    ensures Runs(s, moves) && forall k :: 0 <= k < |moves| ==> moves[k].act == Go
    ensures var pc := s.agents[a];
      Exec(s, moves) == s.(
        agents := s.agents[a := CommitStore(pc.table, pc.next, false)], locks := s.locks[pc.next := Some(a)])
  {
    var pc := s.agents[a];
    moves := [];
    Extend(s, moves, a, Go);
    moves := moves + [Move(a, Go)];
    assert Exec(s, moves) == s.(agents := s.agents[a := CommitLockNext(pc.table, pc.next, false)]);
    Extend(s, moves, a, Go);
    moves := moves + [Move(a, Go)];
  }

  /** With the guard, no reachable state has a hole. */
  lemma GuardedRunsLeaveNoHole(s: State, moves: seq<Move>, k: nat)
    requires Inv(s) && GuardedRun(s, moves)
    ensures Runs(s, moves) && !Hole(Exec(s, moves), k)
  {
    RunInv(s, moves);
    if k < Capacity(Exec(s, moves)) {
      NoHoles(Exec(s, moves), k);
    }
  }
}
