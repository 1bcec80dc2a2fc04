/** The retry loops of complete(): every failed iteration is paid for by another agent's commit. */
module Retry {
  import opened Wrappers
  import opened Protocol
  import opened Invariants
  import opened Refinement

  /** The number of tables the agent's current loop iteration relies on. */
  function Relied(pc: Pc): Option<int> {
    match pc
    case CommitTest(_, n) => Some(n)
    case CommitLockLast(_, n) => Some(n)
    case CommitCheckSlot(_, n) => Some(n)
    case CommitCheckSize(_, n) => Some(n)
    case DropLockLast(_, _, last) => Some(last + 1)
    case DropCheckSlot(_, _, last) => Some(last + 1)
    case DropCheckSize(_, _, last) => Some(last + 1)
    case _ => None
  }

  predicate Retries(pc: Pc) { pc.CommitRetry? || pc.DropRetry? }

  /** The iteration is bound to fail, or has failed: tableCount is no longer what was read. */
  function Stale(s: State, a: nat): nat
    requires a < |s.agents|
  {
    var pc := s.agents[a];
    if Retries(pc) || (Relied(pc).Some? && Relied(pc).value != s.tableCount) then 1 else 0
  }

  /** An iteration fails only if tableCount has changed since the agent read it. */
  lemma FailureMeansChange(s: State, a: nat, act: Act)
    requires Inv(s) && Enabled(s, a, act)
    ensures (if Retries(s.agents[a]) then 1 else 0) + Stale(Step(s, a, act), a) <= Stale(s, a)
  {
    var pc := s.agents[a];
    if CommitsCreate(pc) {
      if pc.CommitCheckSlot? {
        assert Fact(s, pc) && Holds(pc, pc.next - 1) && DenseAt(s, pc.next - 1);
      }
      CreateFailure(s, a, act);
    } else if MovesLast(pc) {
      if pc.DropCheckSlot? {
        assert Fact(s, pc) && Holds(pc, pc.last) && DenseAt(s, pc.last);
      }
      MoveFailure(s, a, act);
    } else if CommitsDrop(pc) {
      DropLastFailure(s, a, act);
    } else {
      CallFailure(s, a, act);
    }
  }

  lemma CreateFailure(s: State, a: nat, act: Act)
    requires Enabled(s, a, act) && CommitsCreate(s.agents[a])
    requires s.agents[a].CommitCheckSlot? && SlotOf(s, s.agents[a].next - 1) == None ==> s.agents[a].next > s.tableCount
    ensures (if Retries(s.agents[a]) then 1 else 0) + Stale(Step(s, a, act), a) <= Stale(s, a)
  {
    assert Plan(s, s.agents[a], act) == PlanCreate(s, s.agents[a]);
  }

  lemma MoveFailure(s: State, a: nat, act: Act)
    requires Enabled(s, a, act) && MovesLast(s.agents[a])
    requires s.agents[a].DropCheckSlot? && SlotOf(s, s.agents[a].last) == None ==> s.agents[a].last >= s.tableCount
    ensures (if Retries(s.agents[a]) then 1 else 0) + Stale(Step(s, a, act), a) <= Stale(s, a)
  {
    assert Plan(s, s.agents[a], act) == PlanMove(s, s.agents[a]);
  }

  lemma DropLastFailure(s: State, a: nat, act: Act)
    requires Enabled(s, a, act) && CommitsDrop(s.agents[a]) && !MovesLast(s.agents[a])
    ensures Stale(Step(s, a, act), a) == 0 == Stale(s, a)
  {
  }

  lemma CallFailure(s: State, a: nat, act: Act)
    requires Enabled(s, a, act) && !CommitsCreate(s.agents[a]) && !CommitsDrop(s.agents[a])
    ensures Stale(Step(s, a, act), a) == 0 == Stale(s, a)
  {
  }

  // ------------------------------------------------------------------ runs

  /** Failed iterations of agent `a` in a run. */
  function Failures(s: State, moves: seq<Move>, a: nat): nat
    requires Runs(s, moves)
    decreases moves
  {
    if moves == [] then 0
    else (if moves[0].agent == a && Retries(s.agents[a]) then 1 else 0)
         + Failures(Step(s, moves[0].agent, moves[0].act), moves[1..], a)
  }

  /** Steps of the other agents that change tableCount. */
  function OtherChanges(s: State, moves: seq<Move>, a: nat): nat
    requires Runs(s, moves)
    decreases moves
  {
    if moves == [] then 0
    else
      var t := Step(s, moves[0].agent, moves[0].act);
      (if moves[0].agent != a && t.tableCount != s.tableCount then 1 else 0) + OtherChanges(t, moves[1..], a)
  }

  /** Retry bound: an agent never retries more often than the others change the number of tables. */
  lemma {:induction false} RetriesArePaidFor(s: State, moves: seq<Move>, a: nat)
    requires Inv(s) && GuardedRun(s, moves) && a < |s.agents|
    ensures Runs(s, moves) && |Exec(s, moves).agents| == |s.agents|
    ensures Failures(s, moves, a) + Stale(Exec(s, moves), a) <= Stale(s, a) + OtherChanges(s, moves, a)
    decreases moves
  {
    GuardedRunsRun(s, moves);
    if moves != [] {
      var b, act := moves[0].agent, moves[0].act;
      StepInv(s, b, act);
      if b == a {
        FailureMeansChange(s, a, act);
      } else {
        assert Step(s, b, act).agents[a] == s.agents[a];
      }
      RetriesArePaidFor(Step(s, b, act), moves[1..], a);
    }
  }

  // ------------------------------------------------------------------ termination

  /** Steps left in complete() if no further retry becomes necessary. */
  function StepsLeft(pc: Pc): nat {
    match pc
    case CommitRead(_) => 10
    case CommitTest(_, _) => 9
    case CommitLockLast(_, _) => 8
    case CommitCheckSlot(_, _) => 7
    case CommitCheckSize(_, _) => 6
    case CommitRetry(_, _) => 1
    case CommitLockNext(_, _, _) => 5
    case CommitStore(_, _, _) => 4
    case CommitCount(_, _, _) => 3
    case CommitUnlockNext(_, _) => 2
    case CommitUnlockLast(_) => 1
    case DropTest(_, _) => 12
    case LastClear(_, _) => 5
    case LastCount(_) => 4
    case LastReserve(_) => 3
    case LastForward(_) => 2
    case LastUnlock(_) => 1
    case DropReadLast(_, _) => 11
    case DropLockLast(_, _, _) => 10
    case DropCheckSlot(_, _, _) => 9
    case DropCheckSize(_, _, _) => 8
    case DropRetry(_, _, _) => 1
    case MoveStore(_, _, _) => 7
    case MoveUnlock(_, _) => 6
    case MoveCount(_, _) => 5
    case MoveReserve(_, _) => 4
    case MoveClear(_, _) => 3
    case MoveForward(_, _) => 2
    case MoveUnlockLast(_) => 1
    case _ => 0
  }

  function Budget(s: State, a: nat): nat
    requires a < |s.agents|
  {
    StepsLeft(s.agents[a]) + 12 * Stale(s, a)
  }

  /** Steps the agent takes inside complete(). */
  function CommitSteps(s: State, moves: seq<Move>, a: nat): nat
    requires Runs(s, moves)
    decreases moves
  {
    if moves == [] then 0
    else (if moves[0].agent == a && Committing(s.agents[a]) then 1 else 0)
         + CommitSteps(Step(s, moves[0].agent, moves[0].act), moves[1..], a)
  }

  lemma CommitStepSpends(s: State, a: nat, act: Act)
    requires Inv(s) && Enabled(s, a, act)
    ensures (if Committing(s.agents[a]) then 1 else 0) + Budget(Step(s, a, act), a)
         <= Budget(s, a) + (if act.Complete? then 12 else 0)
  {
    FailureMeansChange(s, a, act);
    var pc := s.agents[a];
    if CommitsCreate(pc) {
      CreateStepsDown(s, a, act);
    } else if MovesLast(pc) {
      MoveStepsDown(s, a, act);
    } else if CommitsDrop(pc) {
      assert Plan(s, pc, act) == PlanDropLast(s, pc);
    } else {
      assert Plan(s, pc, act) == PlanCall(s, pc, act);
    }
  }

  lemma CreateStepsDown(s: State, a: nat, act: Act)
    requires Enabled(s, a, act) && CommitsCreate(s.agents[a])
    ensures StepsLeft(Step(s, a, act).agents[a]) < StepsLeft(s.agents[a]) + (if Retries(s.agents[a]) then 12 else 0)
  {
    assert Plan(s, s.agents[a], act) == PlanCreate(s, s.agents[a]);
  }

  lemma MoveStepsDown(s: State, a: nat, act: Act)
    requires Enabled(s, a, act) && MovesLast(s.agents[a])
    ensures StepsLeft(Step(s, a, act).agents[a]) < StepsLeft(s.agents[a]) + (if Retries(s.agents[a]) then 12 else 0)
  {
    assert Plan(s, s.agents[a], act) == PlanMove(s, s.agents[a]);
  }

  /**
   * Termination of both loops: the steps an agent spends inside complete() are bounded by a constant for each
   * call plus a constant for each change of tableCount by somebody else.
   */
  lemma {:induction false} CommitsTerminate(s: State, moves: seq<Move>, a: nat)
    requires Inv(s) && GuardedRun(s, moves) && a < |s.agents|
    ensures Runs(s, moves) && |Exec(s, moves).agents| == |s.agents|
    ensures CommitSteps(s, moves, a) + Budget(Exec(s, moves), a)
         <= Budget(s, a) + 12 * (Completes(s, moves, a) + OtherChanges(s, moves, a))
    decreases moves
  {
    GuardedRunsRun(s, moves);
    if moves != [] {
      var b, act := moves[0].agent, moves[0].act;
      StepInv(s, b, act);
      if b == a {
        CommitStepSpends(s, a, act);
      } else {
        assert Step(s, b, act).agents[a] == s.agents[a];
      }
      CommitsTerminate(Step(s, b, act), moves[1..], a);
    }
  }

  // ------------------------------------------------------------------ whole calls

  /** Steps left in the call under way, also outside complete(); DropPick, Open and CreateOpen wait for the client. */
  function CallLeft(pc: Pc): nat {
    match pc
    case CreateStart => 4
    case CreateBump => 3
    case CreateUndo => 1
    case CreateAlloc => 1
    case SlotWait(_, _) => 3
    case SlotRead(_, _) => 2
    case SlotMiss(_) => 1
    case SlotCopy(_, _) => 1
    case AlterUnlock(_) => 1
    case ReadWait(_) => 2
    case Reading(_) => 1
    case _ => StepsLeft(pc)
  }

  function CallBudget(s: State, a: nat): nat
    requires a < |s.agents|
  {
    CallLeft(s.agents[a]) + 12 * Stale(s, a)
  }

  /** Every step but a decision of the client brings the call closer to its end or to the client's next decision. */
  lemma GoSpends(s: State, a: nat, act: Act)
    requires Inv(s) && Enabled(s, a, act)
    ensures CallBudget(Step(s, a, act), a) <= CallBudget(s, a) + (if act.Go? then -1 else 12)
  {
    var pc := s.agents[a];
    if Committing(pc) {
      CommitStepSpends(s, a, act);
      CommitEndsOrGoesOn(s, a, act);
    } else {
      CallFailure(s, a, act);
      CallStepsDown(s, a, act);
    }
  }

  lemma CommitEndsOrGoesOn(s: State, a: nat, act: Act)
    requires Enabled(s, a, act) && Committing(s.agents[a])
    ensures act.Go? && (Committing(Step(s, a, act).agents[a]) || Step(s, a, act).agents[a] == Idle)
    ensures CallLeft(s.agents[a]) == StepsLeft(s.agents[a])
    ensures CallLeft(Step(s, a, act).agents[a]) == StepsLeft(Step(s, a, act).agents[a])
  {
    var pc := s.agents[a];
    if CommitsCreate(pc) {
      assert Plan(s, pc, act) == PlanCreate(s, pc);
    } else if MovesLast(pc) {
      assert Plan(s, pc, act) == PlanMove(s, pc);
    } else {
      assert Plan(s, pc, act) == PlanDropLast(s, pc);
    }
  }

  lemma CallStepsDown(s: State, a: nat, act: Act)
    requires Enabled(s, a, act) && !CommitsCreate(s.agents[a]) && !CommitsDrop(s.agents[a])
    ensures CallLeft(Step(s, a, act).agents[a]) <= CallLeft(s.agents[a]) + (if act.Go? then -1 else 12)
  {
    assert Plan(s, s.agents[a], act) == PlanCall(s, s.agents[a], act);
  }

  /** The agent's steps that are not decisions of its client. */
  function GoSteps(moves: seq<Move>, a: nat): nat {
    if moves == [] then 0 else (if moves[0].agent == a && moves[0].act.Go? then 1 else 0) + GoSteps(moves[1..], a)
  }

  /** The decisions of its client: requests, edits, complete() and cancel(). */
  function Decisions(moves: seq<Move>, a: nat): nat {
    if moves == [] then 0 else (if moves[0].agent == a && !moves[0].act.Go? then 1 else 0) + Decisions(moves[1..], a)
  }

  /**
   * Every call ends: the steps an agent takes on its own are bounded by a constant for each decision of its client plus
   * a constant for each change of tableCount by somebody else, so no call goes on for ever without a client.
   */
  lemma {:induction false} CallsTerminate(s: State, moves: seq<Move>, a: nat)
    requires Inv(s) && GuardedRun(s, moves) && a < |s.agents|
    ensures Runs(s, moves) && |Exec(s, moves).agents| == |s.agents|
    ensures GoSteps(moves, a) + CallBudget(Exec(s, moves), a)
         <= CallBudget(s, a) + 12 * (Decisions(moves, a) + OtherChanges(s, moves, a))
    decreases moves
  {
    GuardedRunsRun(s, moves);
    if moves != [] {
      var b, act := moves[0].agent, moves[0].act;
      StepInv(s, b, act);
      if b == a {
        GoSpends(s, a, act);
      } else {
        assert Step(s, b, act).agents[a] == s.agents[a];
      }
      CallsTerminate(Step(s, b, act), moves[1..], a);
    }
  }
}
