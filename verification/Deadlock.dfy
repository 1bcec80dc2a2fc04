/**
 * Waiting and deadlock.  Locks are waited for in ascending order, with one exception: DROP reads size() twice
 * (lines 74 and 95), and when another drop commits in between it can find that the last slot is its own.
 */
module Deadlock {
  import opened Wrappers
  import opened Protocol
  import opened Invariants

  /** The slot whose lock the agent is about to acquire. */
  function WaitsFor(pc: Pc): Option<int> {
    match pc
    case CommitLockLast(_, n) => Some(n - 1)
    case CommitLockNext(_, n, _) => Some(n)
    case SlotWait(i, _) => Some(i)
    case DropLockLast(_, _, last) => Some(last)
    case ReadWait(i) => Some(i)
    case _ => None
  }

  /** The agent waits for the lock it holds itself. */
  predicate SelfWaits(pc: Pc) {
    pc.DropLockLast? && pc.slot == pc.last
  }

  ghost predicate NoSelfWait(s: State) {
    forall b :: 0 <= b < |s.agents| ==> !SelfWaits(s.agents[b])
  }

  /** `d` waits for a lock that `h` holds. */
  predicate BlockedBy(s: State, d: nat, h: nat) {
    && d < |s.agents| && h < |s.agents|
    && WaitsFor(s.agents[d]).Some?
    && Holds(s.agents[h], WaitsFor(s.agents[d]).value)
  }

  /** A deadlock: a non-empty group in which everybody waits for a lock that somebody in the group holds. */
  ghost predicate Deadlocked(s: State, group: set<nat>) {
    && group != {}
    && forall d {:trigger BlockedWithin(s, d, group)} :: d in group ==> BlockedWithin(s, d, group)
  }

  ghost predicate BlockedWithin(s: State, d: nat, group: set<nat>) {
    exists h :: h in group && BlockedBy(s, d, h)
  }

  ghost predicate CanMove(s: State, a: nat) {
    exists act :: Enabled(s, a, act)
  }

  // ------------------------------------------------------------------ one agent

  /** Every lock an agent waits for lies above every lock it holds. */
  lemma WaitsAscend(s: State, pc: Pc, k: int)
    requires Fact(s, pc) && WaitsFor(pc).Some? && Holds(pc, k) && !SelfWaits(pc)
    ensures 0 <= k < WaitsFor(pc).value < Capacity(s)
  {
  }

  lemma WaitsInRange(s: State, pc: Pc)
    requires Fact(s, pc) && WaitsFor(pc).Some?
    ensures 0 <= WaitsFor(pc).value < Capacity(s)
  {
  }

  function NextAct(pc: Pc): Act {
    match pc
    case Idle => BeginCreate
    case CreateOpen(_) => Complete
    case Open(_, _, _, _) => Complete
    case DropPick => Pick(0)
    case _ => Go
  }

  /** An agent that does not wait for a lock can always take its next step. */
  lemma NonWaitersMove(s: State, a: nat)
    requires Inv(s) && Capacity(s) > 0 && a < |s.agents| && WaitsFor(s.agents[a]) == None
    ensures Enabled(s, a, NextAct(s.agents[a]))
  {
    assert Fact(s, s.agents[a]);
    InvShape(s);
    hide Inv;
    NextIsPossible(s, s.agents[a]);
  }

  lemma NextIsPossible(s: State, pc: Pc)
    requires Shape(s) && Fact(s, pc) && Capacity(s) > 0 && WaitsFor(pc) == None
    ensures var act := NextAct(pc);
      && Fits(pc, act) && (act.BeginSlot? || act.BeginRead? || act.Pick? ==> act.slot < Capacity(s))
      && Possible(s, Plan(s, pc, act).1)
  {
  }

  lemma WaitersMoveWhenFree(s: State, a: nat)
    requires Inv(s) && a < |s.agents| && WaitsFor(s.agents[a]).Some?
    requires s.locks[WaitsFor(s.agents[a]).value] == None
    requires s.shared[WaitsFor(s.agents[a]).value] == {} || s.agents[a].ReadWait?
    ensures Enabled(s, a, Go)
  {
    assert Fact(s, s.agents[a]);
  }

  // ------------------------------------------------------------------ progress

  /** Follow the chain of lock holders from a pending agent: it climbs to an agent that can step. */
  lemma {:induction false} SomebodyMoves(s: State, a: nat) returns (b: nat)
    requires Inv(s) && NoSelfWait(s) && Capacity(s) > 0
    requires a < |s.agents| && s.agents[a] != Idle
    ensures b < |s.agents| && s.agents[b] != Idle && CanMove(s, b)
    decreases Capacity(s) - (match WaitsFor(s.agents[a]) case Some(k) => k case None => Capacity(s) + 1)
  {
    assert Fact(s, s.agents[a]);
    match WaitsFor(s.agents[a])
    case None =>
      NonWaitersMove(s, a);
      b := a;
    case Some(k) =>
      WaitsInRange(s, s.agents[a]);
      if s.locks[k].Some? {
        var h := s.locks[k].value;
        assert Holds(s.agents[h], k);
        assert Fact(s, s.agents[h]);
        if WaitsFor(s.agents[h]).Some? {
          WaitsAscend(s, s.agents[h], k);
        }
        b := SomebodyMoves(s, h);
      } else if s.shared[k] != {} {
        b :| b in s.shared[k];
        assert ReadsSlot(s, b, k);
        NonWaitersMove(s, b);
      } else {
        WaitersMoveWhenFree(s, a);
        b := a;
      }
  }

  // ------------------------------------------------------------------ deadlock, exactly

  lemma HolderWaitsHigher(s: State, d: nat, h: nat, g: nat)
    requires Facts(s) && NoSelfWait(s) && BlockedBy(s, d, h) && BlockedBy(s, h, g)
    ensures WaitsFor(s.agents[d]).value < WaitsFor(s.agents[h]).value < Capacity(s)
  {
    assert Fact(s, s.agents[h]) && !SelfWaits(s.agents[h]);
    WaitsAscend(s, s.agents[h], WaitsFor(s.agents[d]).value);
  }

  lemma {:induction false} NoGroupClimbsForever(s: State, group: set<nat>, d: nat, h: nat)
    requires Facts(s) && NoSelfWait(s) && Deadlocked(s, group)
    requires h in group && BlockedBy(s, d, h)
    ensures false
    decreases Capacity(s) - WaitsFor(s.agents[d]).value
  {
    assert BlockedWithin(s, h, group);
    var g :| g in group && BlockedBy(s, h, g);
    HolderWaitsHigher(s, d, h, g);
    NoGroupClimbsForever(s, group, h, g);
  }

  /** A deadlock exists exactly when some DROP waits for the lock it holds itself. */
  lemma DeadlockIffSelfWait(s: State)
    requires Inv(s)
    ensures (exists group :: Deadlocked(s, group)) <==> !NoSelfWait(s)
  {
    if group :| Deadlocked(s, group) {
      if NoSelfWait(s) {
        var d :| d in group;
        assert BlockedWithin(s, d, group);
        var h :| h in group && BlockedBy(s, d, h);
        NoGroupClimbsForever(s, group, d, h);
      }
    }
    if !NoSelfWait(s) {
      var b: nat :| b < |s.agents| && SelfWaits(s.agents[b]);
      SelfWaitIsDeadlock(s, b);
    }
  }

  lemma SelfWaitIsDeadlock(s: State, b: nat)
    requires b < |s.agents| && SelfWaits(s.agents[b])
    ensures Deadlocked(s, {b})
  {
    assert BlockedBy(s, b, b);
  }

  /** A self-wait is born in exactly one step: the second size() of a DROP whose slot has become the last. */
  lemma SelfWaitOrigin(s: State, a: nat, act: Act)
    requires Inv(s) && Enabled(s, a, act) && NoSelfWait(s)
    ensures !NoSelfWait(Step(s, a, act)) <==> s.agents[a].DropReadLast? && s.tableCount == s.agents[a].slot + 1
  {
    var t := Step(s, a, act);
    assert Fact(s, s.agents[a]);
    assert forall b :: 0 <= b < |s.agents| && b != a ==> t.agents[b] == s.agents[b];
    OnlySecondReadSelfWaits(s, a, act);
    if !NoSelfWait(t) {
      var b :| 0 <= b < |t.agents| && SelfWaits(t.agents[b]);
      assert b == a;
    }
  }

  lemma OnlySecondReadSelfWaits(s: State, a: nat, act: Act)
    requires Enabled(s, a, act) && !SelfWaits(s.agents[a])
    ensures SelfWaits(Step(s, a, act).agents[a]) <==> s.agents[a].DropReadLast? && s.tableCount == s.agents[a].slot + 1
  {
  }

  /** A self-waiting DROP never moves again and never lets go of its slot. */
  lemma {:induction false} SelfWaitIsForever(s: State, moves: seq<Move>, a: nat)
    requires Inv(s) && GuardedRun(s, moves) && a < |s.agents| && SelfWaits(s.agents[a])
    ensures Runs(s, moves) && |Exec(s, moves).agents| == |s.agents|
    ensures Exec(s, moves).agents[a] == s.agents[a]
    ensures Inv(Exec(s, moves)) && Exec(s, moves).locks[s.agents[a].slot] == Some(a)
    decreases moves
  {
    GuardedRunsRun(s, moves);
    assert Fact(s, s.agents[a]) && Holds(s.agents[a], s.agents[a].slot);
    if moves != [] {
      var b, act := moves[0].agent, moves[0].act;
      assert !Enabled(s, a, act);
      StepInv(s, b, act);
      assert Step(s, b, act).agents[a] == s.agents[a];
      SelfWaitIsForever(Step(s, b, act), moves[1..], a);
    }
  }

  /** The two reads of size() in DROP's loop do not straddle a commit that makes the agent's slot the last. */
  predicate OneRead(s: State, a: nat) {
    a < |s.agents| && s.agents[a].DropReadLast? ==> s.tableCount != s.agents[a].slot + 1
  }

  predicate OneReadRun(s: State, moves: seq<Move>)
    decreases moves
  {
    moves == [] ||
    (Enabled(s, moves[0].agent, moves[0].act) && OneRead(s, moves[0].agent) &&
     OneReadRun(Step(s, moves[0].agent, moves[0].act), moves[1..]))
  }

  /** Freedom from deadlock: with 74 and 95 read as one, no reachable state has a deadlock and somebody can step. */
  lemma {:induction false} OneReadRunsNeverDeadlock(s: State, moves: seq<Move>)
    requires Inv(s) && NoSelfWait(s) && GuardedRun(s, moves) && OneReadRun(s, moves)
    ensures Runs(s, moves)
    ensures !(exists group :: Deadlocked(Exec(s, moves), group))
    ensures var t := Exec(s, moves);
      Capacity(t) > 0 && (exists a :: 0 <= a < |t.agents| && t.agents[a] != Idle) ==>
      exists b :: 0 <= b < |t.agents| && t.agents[b] != Idle && CanMove(t, b)
    decreases moves
  {
    GuardedRunsRun(s, moves);
    if moves == [] {
      DeadlockIffSelfWait(s);
      if Capacity(s) > 0 {
        if a: nat :| a < |s.agents| && s.agents[a] != Idle {
          var b := SomebodyMoves(s, a);
        }
      }
    } else {
      var b, act := moves[0].agent, moves[0].act;
      StepInv(s, b, act);
      SelfWaitOrigin(s, b, act);
      OneReadRunsNeverDeadlock(Step(s, b, act), moves[1..]);
    }
  }

  /** Exactly: a guarded run ends in a deadlock if and only if some DROP's two reads have straddled such a commit. */
  lemma DeadlockIffDoubleRead(s: State, moves: seq<Move>)
    requires Inv(s) && NoSelfWait(s) && GuardedRun(s, moves)
    ensures Runs(s, moves)
    ensures (exists group :: Deadlocked(Exec(s, moves), group)) <==> !OneReadRun(s, moves)
  {
    hide Inv, GuardedRun, OneReadRun, Deadlocked, NoSelfWait;
    GuardedRunsRun(s, moves);
    RunInv(s, moves);
    DeadlockIffSelfWait(Exec(s, moves));
    SelfWaitIffDoubleRead(s, moves);
  }

  lemma {:induction false} SelfWaitIffDoubleRead(s: State, moves: seq<Move>)
    requires Inv(s) && NoSelfWait(s) && GuardedRun(s, moves)
    ensures Runs(s, moves) && (NoSelfWait(Exec(s, moves)) <==> OneReadRun(s, moves))
    decreases moves
  {
    hide Inv, Guarded, Step, Enabled;
    GuardedRunsRun(s, moves);
    if moves != [] {
      var a, act := moves[0].agent, moves[0].act;
      var t := Step(s, a, act);
      StepInv(s, a, act);
      SelfWaitOrigin(s, a, act);
      assert Exec(s, moves) == Exec(t, moves[1..]);
      if NoSelfWait(t) {
        SelfWaitIffDoubleRead(t, moves[1..]);
        ReadingOnce(s, a, act);
        assert OneReadRun(s, moves) <==> OneReadRun(t, moves[1..]);
      } else {
        var b: nat :| b < |t.agents| && SelfWaits(t.agents[b]);
        SelfWaitIsForever(t, moves[1..], b);
        ReadingTwice(s, a, act);
      }
    }
  }

  lemma ReadingOnce(s: State, a: nat, act: Act)
    requires Enabled(s, a, act) && !(s.agents[a].DropReadLast? && s.tableCount == s.agents[a].slot + 1)
    ensures OneRead(s, a)
  {
  }

  lemma ReadingTwice(s: State, a: nat, act: Act)
    requires Enabled(s, a, act) && s.agents[a].DropReadLast? && s.tableCount == s.agents[a].slot + 1
    ensures !OneRead(s, a)
  {
  }

  // ------------------------------------------------------------------ one DROP at a time

  /** At most one agent is inside complete() of a DROP reservation. */
  ghost predicate LoneDrop(s: State) {
    forall a, b | 0 <= a < |s.agents| && 0 <= b < |s.agents| && a != b ::
      !CommitsDrop(s.agents[a]) || !CommitsDrop(s.agents[b])
  }

  /** A run in which DROPs do not complete at the same time; everything else may overlap. */
  ghost predicate LoneDropRun(s: State, moves: seq<Move>)
    decreases moves
  {
    && LoneDrop(s)
    && (moves == [] ||
        (Enabled(s, moves[0].agent, moves[0].act) &&
         LoneDropRun(Step(s, moves[0].agent, moves[0].act), moves[1..])))
  }

  /** No DROP waits for itself or is about to. */
  ghost predicate Unthreatened(s: State) {
    NoSelfWait(s) &&
    forall b :: 0 <= b < |s.agents| && s.agents[b].DropReadLast? ==> s.tableCount > s.agents[b].slot + 1
  }

  lemma UnthreatenedWhenIdle(s: State)
    requires forall b :: 0 <= b < |s.agents| ==> s.agents[b] == Idle
    ensures Unthreatened(s)
  {
  }

  /** A DROP that goes to its second read has found its slot strictly below the last one. */
  lemma PlanThreatens(s: State, a: nat, act: Act)
    requires Enabled(s, a, act) && Unthreatened(s)
    requires s.agents[a].DropTest? ==> s.agents[a].slot < s.tableCount
    ensures var t := Step(s, a, act); t.agents[a].DropReadLast? ==> t.tableCount > t.agents[a].slot + 1
    ensures Step(s, a, act).tableCount < s.tableCount ==> CommitsDrop(s.agents[a])
  {
    var pc := s.agents[a];
    if CommitsCreate(pc) {
      assert Plan(s, pc, act) == PlanCreate(s, pc);
    } else if MovesLast(pc) {
      assert Plan(s, pc, act) == PlanMove(s, pc);
    } else if CommitsDrop(pc) {
      assert Plan(s, pc, act) == PlanDropLast(s, pc);
    } else {
      assert Plan(s, pc, act) == PlanCall(s, pc, act);
    }
  }

  lemma LoneDropStep(s: State, a: nat, act: Act)
    requires Inv(s) && Enabled(s, a, act) && Unthreatened(s) && LoneDrop(s)
    ensures OneRead(s, a) && Unthreatened(Step(s, a, act))
  {
    var t := Step(s, a, act);
    if s.agents[a].DropTest? {
      assert Fact(s, s.agents[a]) && Holds(s.agents[a], s.agents[a].slot) && DenseAt(s, s.agents[a].slot);
    }
    PlanThreatens(s, a, act);
    SelfWaitOrigin(s, a, act);
    assert forall b :: 0 <= b < |s.agents| && b != a ==> t.agents[b] == s.agents[b];
  }

  lemma {:induction false} LoneDropsReadOnce(s: State, moves: seq<Move>)
    requires Inv(s) && Unthreatened(s) && GuardedRun(s, moves) && LoneDropRun(s, moves)
    ensures OneReadRun(s, moves)
    decreases moves
  {
    if moves != [] {
      LoneDropStep(s, moves[0].agent, moves[0].act);
      StepInv(s, moves[0].agent, moves[0].act);
      LoneDropsReadOnce(Step(s, moves[0].agent, moves[0].act), moves[1..]);
    }
  }

  /**
   * Freedom from deadlock under a condition of the callers: as long as DROPs do not complete at the same time, no
   * reachable state has a deadlock, and while a call is pending somebody can step.
   */
  lemma LoneDropsNeverDeadlock(s: State, moves: seq<Move>)
    requires Inv(s) && Unthreatened(s) && GuardedRun(s, moves) && LoneDropRun(s, moves)
    ensures Runs(s, moves)
    ensures !(exists group :: Deadlocked(Exec(s, moves), group))
    ensures var t := Exec(s, moves);
      Capacity(t) > 0 && (exists a :: 0 <= a < |t.agents| && t.agents[a] != Idle) ==>
      exists b :: 0 <= b < |t.agents| && t.agents[b] != Idle && CanMove(t, b)
  {
    LoneDropsReadOnce(s, moves);
    OneReadRunsNeverDeadlock(s, moves);
  }

  // ------------------------------------------------------------------ the slot after the last

  /**
   * A CREATE that has verified the last slot never waits for an idle reservation: whoever holds the next
   * slot is leaving it and needs no other lock to do so.
   */
  lemma NextSlotIsBeingLeft(s: State, a: nat, b: nat)
    requires Inv(s) && Capacity(s) > 0 && a < |s.agents| && s.agents[a].CommitLockNext? && s.agents[a].outer
    requires BlockedBy(s, a, b)
    ensures !s.agents[b].Open? && !s.agents[b].CreateOpen? && WaitsFor(s.agents[b]) == None
    ensures Enabled(s, b, Go)
  {
    var n := s.agents[a].next;
    assert Fact(s, s.agents[a]) && Fact(s, s.agents[b]);
    assert DenseAt(s, n);
    assert s.locks[n] == Some(b);
    HolderBeyondEnd(s, s.agents[b], n);
    NonWaitersMove(s, b);
  }

  lemma HolderBeyondEnd(s: State, pc: Pc, n: int)
    requires Fact(s, pc) && Holds(pc, n) && s.tableCount == n && 0 <= n < Capacity(s)
    requires s.tables[n].Some? <==> Occupied(pc, n, n)
    ensures !pc.Open? && WaitsFor(pc) == None
  {
  }

  /** Once acquired, the slot it stores into is null. */
  lemma NextSlotIsNull(s: State, a: nat)
    requires Inv(s) && a < |s.agents| && s.agents[a].CommitStore? && Guarded(s, a)
    ensures var n := s.agents[a].next; 0 <= n < Capacity(s) && n == s.tableCount && s.tables[n] == None
  {
    var n := s.agents[a].next;
    assert Fact(s, s.agents[a]);
    assert Holds(s.agents[a], n) && DenseAt(s, n);
  }
}
