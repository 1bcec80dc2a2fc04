/**
 * What holds in every run whatsoever, also where the unlocked path of CREATE breaks the directory: the locks keep their
 * owners, the counters never wrap around, and every index is inside the array but one.
 */
module Unguarded {
  import opened Wrappers
  import opened Counting
  import opened Protocol
  import opened Invariants
  import opened Deadlock

  predicate InArray(s: State, k: int) { 0 <= k < |s.tables| }

  predicate Filled(s: State, k: int) { SlotOf(s, k).Some? }

  /** What an agent knows without any guard: its indices, and what it has seen in slots it has locked. */
  predicate Known(s: State, pc: Pc) {
    match pc
    case CommitTest(_, n) => InArray(s, n)
    case CommitLockLast(_, n) => InArray(s, n)
    case CommitCheckSlot(_, n) => InArray(s, n) && n >= 1
    case CommitCheckSize(_, n) => InArray(s, n) && Filled(s, n - 1)
    case CommitRetry(_, n) => InArray(s, n) && n >= 1
    case CommitLockNext(_, n, outer) => InArray(s, n) && (outer ==> Filled(s, n - 1))
    case CommitStore(_, n, outer) => InArray(s, n) && (outer ==> Filled(s, n - 1))
    case CommitCount(_, n, outer) => Filled(s, n) && (outer ==> Filled(s, n - 1))
    case CommitUnlockNext(n, outer) => InArray(s, n) && (outer ==> n >= 1)
    case CommitUnlockLast(n) => InArray(s, n) && n >= 1
    case SlotWait(i, _) => InArray(s, i)
    case SlotRead(i, _) => InArray(s, i)
    case SlotMiss(i) => InArray(s, i)
    case SlotCopy(i, _) => Filled(s, i)
    case Open(i, _, _, _) => Filled(s, i)
    case AlterUnlock(i) => InArray(s, i)
    case DropTest(i, _) => Filled(s, i)
    case LastClear(i, _) => Filled(s, i)
    case LastCount(i) => InArray(s, i)
    case LastReserve(i) => InArray(s, i)
    case LastForward(i) => InArray(s, i)
    case LastUnlock(i) => InArray(s, i)
    case DropReadLast(i, _) => Filled(s, i)
    case DropLockLast(i, _, last) => Filled(s, i) && InArray(s, last)
    case DropCheckSlot(i, _, last) => Filled(s, i) && InArray(s, last) && i != last
    case DropCheckSize(i, _, last) => Filled(s, i) && Filled(s, last) && i != last
    case DropRetry(i, _, last) => Filled(s, i) && InArray(s, last) && i != last
    case MoveStore(i, _, last) => Filled(s, i) && Filled(s, last) && i != last
    case MoveUnlock(i, last) => InArray(s, i) && Filled(s, last) && i != last
    case MoveCount(_, last) => Filled(s, last)
    case MoveReserve(_, last) => Filled(s, last)
    case MoveClear(_, last) => Filled(s, last)
    case MoveForward(_, last) => InArray(s, last)
    case MoveUnlockLast(last) => InArray(s, last)
    case ReadWait(i) => InArray(s, i)
    case Reading(i) => InArray(s, i)
    case _ => true
  }

  /** The agent has filled slot `k` and not counted it yet, or uncounted it and not cleared it yet. */
  predicate Covers(pc: Pc, k: int) {
    (pc.CommitCount? && pc.next == k) || ((pc.MoveReserve? || pc.MoveClear?) && pc.last == k)
  }

  /** One for every filled slot that must be counted. */
  function Due(s: State, k: int): int
    requires 0 <= k < |s.tables| == |s.locks|
  {
    if s.tables[k] == None then 0
    else match s.locks[k]
         case None => 1
         case Some(b) => if b < |s.agents| && Covers(s.agents[b], k) then 0 else 1
  }

  function Dues(s: State): seq<int>
    requires |s.locks| == |s.tables|
  {
    seq(|s.tables|, k requires 0 <= k < |s.tables| => Due(s, k))
  }

  function Itself(x: int): int { x }

  /** A drop that has cleared its slot and not uncounted it yet. */
  function Cleared(pc: Pc): int { if pc.LastCount? then 1 else 0 }

  /** tableCount is never below the number of tables that must be counted. */
  predicate Covered(s: State)
    requires |s.locks| == |s.tables|
  {
    s.tableCount >= Sum(Dues(s), Itself) + Sum(s.agents, Cleared)
  }

  ghost predicate Knowing(s: State) {
    forall b :: 0 <= b < |s.agents| ==> Known(s, s.agents[b])
  }

  ghost predicate Sound(s: State) {
    && |s.locks| == |s.shared| == |s.moved| == |s.tables|
    && Locking(s) && Knowing(s) && Conserved(s) && Covered(s)
  }

  // ------------------------------------------------------------------ the counters

  lemma CountInRange(s: State)
    requires |s.locks| == |s.tables| && Conserved(s) && Covered(s)
    ensures 0 <= s.tableCount <= Capacity(s) && s.tableCount <= s.reservedSize
  {
    SumNonNegative(Dues(s), Itself);
    SumNonNegative(s.agents, Cleared);
    SumNonNegative(s.agents, Solid);
    SumNonNegative(s.agents, Charge);
  }

  /** A filled slot that its owner does not cover is counted. */
  lemma OwnedIsCounted(s: State, a: nat, i: int)
    requires Sound(s) && a < |s.agents| && Holds(s.agents[a], i) && Filled(s, i) && !Covers(s.agents[a], i)
    ensures s.tableCount >= 1
  {
    assert s.locks[i] == Some(a);
    assert Dues(s)[i] == 1;
    SumCovers(Dues(s), Itself, i);
    SumNonNegative(s.agents, Cleared);
  }

  // ------------------------------------------------------------------ locks

  lemma PlanKeepsLocks(s: State, a: nat, act: Act)
    requires Enabled(s, a, act) && Known(s, s.agents[a])
    ensures var (pc, eff) := Plan(s, s.agents[a], act); KeepsLocks(s.agents[a], pc, eff)
  {
    var was := s.agents[a];
    var (pc, eff) := Plan(s, was, act);
    forall k
      ensures Holds(pc, k) <==> HeldAfter(was, eff, k)
    {
      if CommitsCreate(was) {
        CreateHolds(s, was, k);
      } else if MovesLast(was) {
        MoveHolds(s, was, k);
      } else if CommitsDrop(was) {
        DropLastHolds(s, was, k);
      } else {
        CallHolds(s, was, act, k);
      }
    }
    PlanWritesUnderLock(s, was, act);
  }

  lemma PlanWritesUnderLock(s: State, was: Pc, act: Act)
    requires Fits(was, act)
    ensures var (pc, eff) := Plan(s, was, act); eff.Unlock? || eff.StoreTable? || eff.StoreMoved? ==> Holds(was, eff.i)
  {
  }

  // ------------------------------------------------------------------ knowledge

  /** The acting agent. */
  lemma ActorKnows(s: State, a: nat, act: Act)
    requires Sound(s) && Enabled(s, a, act)
    ensures Known(Step(s, a, act), Plan(s, s.agents[a], act).0)
  {
    var was := s.agents[a];
    assert Known(s, was);
    CountInRange(s);
    if CommitsCreate(was) {
      if was.CommitRead? {
        SolidRoom(s, a);
      }
      CreateKnows(s, a, act);
    } else if MovesLast(was) {
      if was.DropReadLast? {
        OwnedIsCounted(s, a, was.slot);
      }
      if was.DropLockLast? {
        assert s.locks[was.slot] == Some(a) <==> Holds(was, was.slot);
      }
      MoveKnows(s, a, act);
    } else if CommitsDrop(was) {
      DropLastKnows(s, a, act);
    } else {
      CallKnows(s, a, act);
    }
  }

  lemma CreateKnows(s: State, a: nat, act: Act)
    requires Enabled(s, a, act) && CommitsCreate(s.agents[a]) && Known(s, s.agents[a]) && |s.locks| == |s.tables|
    requires s.agents[a].CommitRead? ==> InArray(s, s.tableCount)
    ensures Known(Step(s, a, act), PlanCreate(s, s.agents[a]).0)
  {
  }

  lemma MoveKnows(s: State, a: nat, act: Act)
    requires Enabled(s, a, act) && MovesLast(s.agents[a]) && Known(s, s.agents[a]) && |s.locks| == |s.tables|
    requires s.agents[a].DropReadLast? ==> InArray(s, s.tableCount - 1)
    requires s.agents[a].DropLockLast? ==> s.locks[s.agents[a].slot] == Some(a)
    ensures Known(Step(s, a, act), PlanMove(s, s.agents[a]).0)
  {
    if SearchesLast(s.agents[a]) {
      SearchKnows(s, a, act);
    }
  }

  lemma SearchKnows(s: State, a: nat, act: Act)
    requires Enabled(s, a, act) && SearchesLast(s.agents[a]) && Known(s, s.agents[a]) && |s.locks| == |s.tables|
    requires s.agents[a].DropReadLast? ==> InArray(s, s.tableCount - 1)
    requires s.agents[a].DropLockLast? ==> s.locks[s.agents[a].slot] == Some(a)
    ensures Known(Step(s, a, act), PlanMove(s, s.agents[a]).0)
  {
  }

  lemma DropLastKnows(s: State, a: nat, act: Act)
    requires Enabled(s, a, act) && CommitsDrop(s.agents[a]) && !MovesLast(s.agents[a]) && Known(s, s.agents[a])
    ensures Known(Step(s, a, act), PlanDropLast(s, s.agents[a]).0)
  {
  }

  lemma CallKnows(s: State, a: nat, act: Act)
    requires Enabled(s, a, act) && !CommitsCreate(s.agents[a]) && !CommitsDrop(s.agents[a]) && Known(s, s.agents[a])
    ensures Known(Step(s, a, act), PlanCall(s, s.agents[a], act).0)
  {
  }

  /** The other agents: what they know is about slots they hold. */
  lemma OthersKnow(s: State, t: State, pc: Pc)
    requires Known(s, pc) && |t.tables| == |s.tables|
    requires forall k :: 0 <= k < |s.tables| && Holds(pc, k) ==> t.tables[k] == s.tables[k]
    ensures Known(t, pc)
  {
  }

  lemma KnowingKept(s: State, a: nat, act: Act)
    requires Sound(s) && Enabled(s, a, act)
    ensures Knowing(Step(s, a, act))
  {
    var t := Step(s, a, act);
    var (pc, eff) := Plan(s, s.agents[a], act);
    assert Known(s, s.agents[a]);
    PlanKeepsLocks(s, a, act);
    ActorKnows(s, a, act);
    forall b | 0 <= b < |t.agents|
      ensures Known(t, t.agents[b])
    {
      if b != a {
        assert Known(s, s.agents[b]);
        forall k | 0 <= k < |s.tables| && Holds(s.agents[b], k)
          ensures t.tables[k] == s.tables[k]
        {
          LocksDisjoint(s, a, b, k);
        }
        OthersKnow(s, t, s.agents[b]);
      }
    }
  }

  // ------------------------------------------------------------------ counting

  /** The slot at which a step changes what must be counted. */
  function Touched(was: Pc): int {
    match was
    case CommitStore(_, n, _) => n
    case CommitCount(_, n, _) => n
    case Open(i, _, _, _) => i
    case LastClear(i, _) => i
    case MoveStore(i, _, _) => i
    case MoveCount(_, last) => last
    case MoveClear(_, last) => last
    case _ => -1
  }

  /** Whom the agent covers changes at the touched slot only, and what it locks or unlocks it does not cover. */
  lemma PlanCovers(s: State, was: Pc, act: Act, k: int)
    requires Fits(was, act) && k != Touched(was)
    ensures var (pc, eff) := Plan(s, was, act); CoversAlike(was, pc, eff, k)
  {
    hide CoversAlike, Touched;
    if CommitsCreate(was) {
      CreateCovers(s, was, k);
    } else if MovesLast(was) {
      MoveCovers(s, was, k);
    } else if CommitsDrop(was) {
      DropLastCovers(s, was, k);
    } else {
      CallCovers(s, was, act, k);
    }
  }

  predicate CoversAlike(was: Pc, pc: Pc, eff: Eff, k: int) {
    && (Covers(pc, k) <==> Covers(was, k))
    && (eff == Lock(k) || eff == Unlock(k) ==> !Covers(was, k))
    && (eff.StoreTable? ==> eff.i != k)
  }

  lemma CreateCovers(s: State, was: Pc, k: int)
    requires CommitsCreate(was) && k != Touched(was)
    ensures var (pc, eff) := PlanCreate(s, was); CoversAlike(was, pc, eff, k)
  {
  }

  lemma MoveCovers(s: State, was: Pc, k: int)
    requires MovesLast(was) && k != Touched(was)
    ensures var (pc, eff) := PlanMove(s, was); CoversAlike(was, pc, eff, k)
  {
  }

  lemma DropLastCovers(s: State, was: Pc, k: int)
    requires CommitsDrop(was) && !MovesLast(was) && k != Touched(was)
    ensures var (pc, eff) := PlanDropLast(s, was); CoversAlike(was, pc, eff, k)
  {
  }

  lemma CallCovers(s: State, was: Pc, act: Act, k: int)
    requires Fits(was, act) && !CommitsCreate(was) && !CommitsDrop(was) && k != Touched(was)
    ensures var (pc, eff) := PlanCall(s, was, act); CoversAlike(was, pc, eff, k)
  {
  }

  lemma DueElsewhere(s: State, a: nat, act: Act, k: int)
    requires Sound(s) && Enabled(s, a, act) && 0 <= k < |s.tables| && k != Touched(s.agents[a])
    ensures var t := Step(s, a, act); |t.tables| == |t.locks| == |s.tables| && Due(t, k) == Due(s, k)
  {
    var (pc, eff) := Plan(s, s.agents[a], act);
    PlanCovers(s, s.agents[a], act, k);
    PlanWritesUnderLock(s, s.agents[a], act);
    assert Locking(s) && (s.locks[k] == Some(a) <==> Holds(s.agents[a], k));
    assert Step(s, a, act) == After(s, a, pc, eff);
    hide Sound, Enabled, Plan, Step, CoversAlike, Touched;
    DueAfter(s, a, pc, eff, k);
  }

  lemma DueAfter(s: State, a: nat, pc: Pc, eff: Eff, k: int)
    requires Locking(s) && a < |s.agents| && Possible(s, eff) && 0 <= k < |s.tables|
    requires CoversAlike(s.agents[a], pc, eff, k) && (eff == Unlock(k) ==> s.locks[k] == Some(a))
    ensures var t := After(s, a, pc, eff); |t.tables| == |t.locks| == |s.tables| && Due(t, k) == Due(s, k)
  {
  }

  lemma DueAt(s: State, a: nat, act: Act)
    requires Sound(s) && Enabled(s, a, act) && InArray(s, Touched(s.agents[a]))
    ensures var t := Step(s, a, act); var i := Touched(s.agents[a]);
      && |t.tables| == |t.locks| == |s.tables|
      && Due(t, i) - Due(s, i) + Cleared(t.agents[a]) - Cleared(s.agents[a]) <= t.tableCount - s.tableCount
  {
    var was := s.agents[a];
    var i := Touched(was);
    assert Known(s, was) && (s.locks[i] == Some(a) <==> Holds(was, i));
    DueAtHeld(s, a, act);
  }

  lemma DueAtHeld(s: State, a: nat, act: Act)
    requires Enabled(s, a, act) && InArray(s, Touched(s.agents[a])) && |s.locks| == |s.tables|
    requires Known(s, s.agents[a]) && s.locks[Touched(s.agents[a])] == Some(a)
    ensures var t := Step(s, a, act); var i := Touched(s.agents[a]);
      && |t.tables| == |t.locks| == |s.tables|
      && Due(t, i) - Due(s, i) + Cleared(t.agents[a]) - Cleared(s.agents[a]) <= t.tableCount - s.tableCount
  {
    var was := s.agents[a];
    if CommitsCreate(was) {
      assert Plan(s, was, act) == PlanCreate(s, was);
    } else if MovesLast(was) {
      assert Plan(s, was, act) == PlanMove(s, was);
    } else if CommitsDrop(was) {
      assert Plan(s, was, act) == PlanDropLast(s, was);
    } else {
      assert Plan(s, was, act) == PlanCall(s, was, act);
    }
  }

  lemma NothingTouched(s: State, a: nat, act: Act)
    requires Enabled(s, a, act) && Known(s, s.agents[a]) && !InArray(s, Touched(s.agents[a]))
    ensures var t := Step(s, a, act);
      Cleared(t.agents[a]) - Cleared(s.agents[a]) <= t.tableCount - s.tableCount
  {
    var was := s.agents[a];
    if CommitsCreate(was) {
      assert Plan(s, was, act) == PlanCreate(s, was);
    } else if MovesLast(was) {
      assert Plan(s, was, act) == PlanMove(s, was);
    } else if CommitsDrop(was) {
      assert Plan(s, was, act) == PlanDropLast(s, was);
    } else {
      assert Plan(s, was, act) == PlanCall(s, was, act);
    }
  }

  lemma CoveredKept(s: State, a: nat, act: Act)
    requires Sound(s) && Enabled(s, a, act)
    ensures |Step(s, a, act).locks| == |Step(s, a, act).tables| && Covered(Step(s, a, act))
  {
    assert Known(s, s.agents[a]) && Covered(s);
    assert |Step(s, a, act).locks| == |Step(s, a, act).tables| == |s.tables|;
    assert Step(s, a, act).agents == s.agents[a := Step(s, a, act).agents[a]];
    hide Step, Enabled, Known, Sound, Touched;
    if InArray(s, Touched(s.agents[a])) {
      CoveredTouched(s, a, act);
    } else {
      CoveredUntouched(s, a, act);
    }
  }

  lemma CoveredTouched(s: State, a: nat, act: Act)
    requires Sound(s) && Enabled(s, a, act) && a < |s.agents| && |s.locks| == |s.tables| && Covered(s)
    requires InArray(s, Touched(s.agents[a]))
    requires Step(s, a, act).agents == s.agents[a := Step(s, a, act).agents[a]]
    requires |Step(s, a, act).locks| == |Step(s, a, act).tables| == |s.tables|
    ensures Covered(Step(s, a, act))
  {
    hide Step, Enabled, Sound, Touched, Due, Cleared;
    var t := Step(s, a, act);
    var i := Touched(s.agents[a]);
    SumUpdate(s.agents, a, t.agents[a], Cleared);
    DueAt(s, a, act);
    forall k | 0 <= k < |s.tables| && k != i
      ensures Due(t, k) == Due(s, k)
    {
      DueElsewhere(s, a, act, k);
    }
    assert Dues(t) == Dues(s)[i := Due(t, i)];
    SumUpdate(Dues(s), i, Due(t, i), Itself);
  }

  lemma CoveredUntouched(s: State, a: nat, act: Act)
    requires Sound(s) && Enabled(s, a, act) && a < |s.agents| && |s.locks| == |s.tables| && Covered(s)
    requires Known(s, s.agents[a]) && !InArray(s, Touched(s.agents[a]))
    requires Step(s, a, act).agents == s.agents[a := Step(s, a, act).agents[a]]
    requires |Step(s, a, act).locks| == |Step(s, a, act).tables| == |s.tables|
    ensures Covered(Step(s, a, act))
  {
    hide Step, Enabled, Sound, Touched, Due, Cleared, Known;
    var t := Step(s, a, act);
    SumUpdate(s.agents, a, t.agents[a], Cleared);
    NothingTouched(s, a, act);
    forall k | 0 <= k < |s.tables|
      ensures Due(t, k) == Due(s, k)
    {
      DueElsewhere(s, a, act, k);
    }
    assert Dues(t) == Dues(s);
  }

  // ------------------------------------------------------------------ runs

  lemma InitSound(s: State)
    requires Init(s)
    ensures Sound(s)
  {
    IdleSum(s.agents, Charge);
    IdleSum(s.agents, Solid);
    IdleSum(s.agents, Cleared);
    ZeroSum(Dues(s));
  }

  lemma {:induction false} ZeroSum(xs: seq<int>)
    requires forall k :: 0 <= k < |xs| ==> xs[k] == 0
    ensures Sum(xs, Itself) == 0
  {
    if xs != [] {
      ZeroSum(xs[1..]);
    }
  }

  lemma StepSound(s: State, a: nat, act: Act)
    requires Sound(s) && Enabled(s, a, act)
    ensures Sound(Step(s, a, act)) && Capacity(Step(s, a, act)) == Capacity(s)
  {
    var (pc, eff) := Plan(s, s.agents[a], act);
    assert Known(s, s.agents[a]);
    PlanKeepsLocks(s, a, act);
    LockingKept(s, a, pc, eff);
    KnowingKept(s, a, act);
    ConservedKept(s, a, act);
    CoveredKept(s, a, act);
  }

  lemma {:induction false} RunSound(s: State, moves: seq<Move>)
    requires Sound(s) && Runs(s, moves)
    ensures Sound(Exec(s, moves)) && Capacity(Exec(s, moves)) == Capacity(s)
    decreases moves
  {
    hide Sound, Enabled;
    if moves != [] {
      StepSound(s, moves[0].agent, moves[0].act);
      RunSound(Step(s, moves[0].agent, moves[0].act), moves[1..]);
    }
  }

  /** The slot an agent is about to lock is inside the array, or it is a CREATE about to lock slot -1 at line 138. */
  predicate LocksInside(s: State, pc: Pc) {
    WaitsFor(pc).Some? ==> InArray(s, WaitsFor(pc).value) || (pc.CommitLockLast? && pc.next == 0)
  }

  /**
   * Over every run from the constructor, guarded or not: neither counter ever wraps around or exceeds the capacity by
   * tables, a DROP that computes size() - 1 has at least one table, the index of a CREATE at line 160 is inside the
   * array, and so is every other index but the -1 of a CREATE whose reads at 131 and 132 were zero and not zero.  A
   * CREATE that has locked the last slot stores behind a table, and a DROP moves a table onto a table.
   */
  lemma IndicesAreInside(s: State, moves: seq<Move>, a: nat)
    requires Init(s) && Runs(s, moves) && a < |Exec(s, moves).agents|
    ensures var t := Exec(s, moves);
      && 0 <= t.tableCount <= Capacity(t) && t.tableCount <= t.reservedSize
      && LocksInside(t, t.agents[a])
      && (t.agents[a].CommitLockNext? || t.agents[a].CommitStore? ==> InArray(t, t.agents[a].next))
      && (t.agents[a].DropTest? || t.agents[a].DropReadLast? ==> t.tableCount >= 1)
      && (t.agents[a].CommitStore? && t.agents[a].outer ==> Filled(t, t.agents[a].next - 1))
      && (t.agents[a].MoveStore? ==> Filled(t, t.agents[a].slot) && Filled(t, t.agents[a].last))
  {
    hide Init, Sound, Runs, Exec, LocksInside, Filled;
    InitSound(s);
    RunSound(s, moves);
    InsideNow(Exec(s, moves), a);
  }

  lemma InsideNow(s: State, a: nat)
    requires Sound(s) && a < |s.agents|
    ensures 0 <= s.tableCount <= Capacity(s) && s.tableCount <= s.reservedSize
    ensures var pc := s.agents[a];
      && LocksInside(s, pc)
      && (pc.CommitLockNext? || pc.CommitStore? ==> InArray(s, pc.next))
      && (pc.DropTest? || pc.DropReadLast? ==> s.tableCount >= 1)
      && (pc.CommitStore? && pc.outer ==> Filled(s, pc.next - 1))
      && (pc.MoveStore? ==> Filled(s, pc.slot) && Filled(s, pc.last))
  {
    assert Known(s, s.agents[a]);
    CountInRange(s);
    if s.agents[a].DropTest? || s.agents[a].DropReadLast? {
      OwnedIsCounted(s, a, s.agents[a].slot);
    }
  }
}
