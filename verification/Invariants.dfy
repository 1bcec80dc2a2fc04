/**
 * The inductive invariant of the directory protocol: lock ownership, density of the array, the facts each
 * program counter relies on, and capacity.  It holds initially and is kept by every guarded step.
 */
module Invariants {
  import opened Wrappers
  import opened Counting
  import opened Protocol

  // ------------------------------------------------------------------ definitions

  /** The slots whose lock an agent holds exclusively. */
  predicate Holds(pc: Pc, k: int) {
    match pc
    case CommitCheckSlot(_, n) => k == n - 1
    case CommitCheckSize(_, n) => k == n - 1
    case CommitRetry(_, n) => k == n - 1
    case CommitLockNext(_, n, outer) => outer && k == n - 1
    case CommitStore(_, n, outer) => k == n || (outer && k == n - 1)
    case CommitCount(_, n, outer) => k == n || (outer && k == n - 1)
    case CommitUnlockNext(n, outer) => k == n || (outer && k == n - 1)
    case CommitUnlockLast(n) => k == n - 1
    case SlotRead(i, _) => k == i
    case SlotMiss(i) => k == i
    case SlotCopy(i, _) => k == i
    case Open(i, _, _, _) => k == i
    case AlterUnlock(i) => k == i
    case DropTest(i, _) => k == i
    case LastClear(i, _) => k == i
    case LastCount(i) => k == i
    case LastReserve(i) => k == i
    case LastForward(i) => k == i
    case LastUnlock(i) => k == i
    case DropReadLast(i, _) => k == i
    case DropLockLast(i, _, _) => k == i
    case DropCheckSlot(i, _, last) => k == i || k == last
    case DropCheckSize(i, _, last) => k == i || k == last
    case DropRetry(i, _, last) => k == i || k == last
    case MoveStore(i, _, last) => k == i || k == last
    case MoveUnlock(i, last) => k == i || k == last
    case MoveCount(_, last) => k == last
    case MoveReserve(_, last) => k == last
    case MoveClear(_, last) => k == last
    case MoveForward(_, last) => k == last
    case MoveUnlockLast(last) => k == last
    case _ => false
  }

  /** A slot held by this agent is filled; differs from `k < tableCount` only inside a commit. */
  predicate Occupied(pc: Pc, k: int, count: int) {
    match pc
    case LastCount(i) => k != i && k < count
    case CommitCount(_, n, _) => k == n || k < count
    case MoveReserve(_, last) => k == last || k < count
    case MoveClear(_, last) => k == last || k < count
    case _ => k < count
  }

  predicate DenseAt(s: State, k: int)
    requires 0 <= k < |s.tables| == |s.locks|
  {
    match s.locks[k]
    case None => s.tables[k].Some? <==> k < s.tableCount
    case Some(b) => b < |s.agents| && (s.tables[k].Some? <==> Occupied(s.agents[b], k, s.tableCount))
  }

  /** What an agent knows at its program counter, whatever the other agents do. */
  predicate Fact(s: State, pc: Pc) {
    var cap := Capacity(s);
    match pc
    case CommitTest(_, n) => 0 <= n < cap
    case CommitLockLast(_, n) => 1 <= n < cap
    case CommitCheckSlot(_, n) => 1 <= n < cap
    case CommitCheckSize(_, n) => 1 <= n < cap
    case CommitRetry(_, n) => 1 <= n < cap
    case CommitLockNext(_, n, outer) => 0 <= n < cap && (outer <==> n >= 1) && (outer ==> s.tableCount == n)
    case CommitStore(_, n, outer) => 0 <= n < cap && (outer <==> n >= 1) && (outer ==> s.tableCount == n)
    case CommitCount(o, n, outer) =>
      0 <= n < cap && (outer <==> n >= 1) && s.tableCount == n && SlotOf(s, n) == Some(o)
    case CommitUnlockNext(n, outer) => 0 <= n < cap && (outer <==> n >= 1)
    case CommitUnlockLast(n) => 1 <= n <= cap
    case SlotWait(i, _) => 0 <= i < cap
    case SlotRead(i, _) => 0 <= i < cap
    case SlotMiss(i) => 0 <= i < cap
    case SlotCopy(i, base) => 0 <= i < cap && SlotOf(s, i) == Some(base)
    case Open(i, drop, base, o) => 0 <= i < cap && SlotOf(s, i) == Some(base) && (drop ==> o == base)
    case AlterUnlock(i) => 0 <= i < cap
    case DropTest(i, base) => 0 <= i < cap && SlotOf(s, i) == Some(base)
    case LastClear(i, base) => 0 <= i < cap && SlotOf(s, i) == Some(base) && s.tableCount == i + 1
    case LastCount(i) => 0 <= i < cap && SlotOf(s, i) == None && s.tableCount == i + 1
    case LastReserve(i) => 0 <= i < cap && SlotOf(s, i) == None
    case LastForward(i) => 0 <= i < cap && SlotOf(s, i) == None
    case LastUnlock(i) => 0 <= i < cap
    case DropReadLast(i, base) => 0 <= i < cap && SlotOf(s, i) == Some(base)
    case DropLockLast(i, base, last) => 0 <= i <= last < cap && SlotOf(s, i) == Some(base)
    case DropCheckSlot(i, base, last) => 0 <= i < last < cap && SlotOf(s, i) == Some(base)
    case DropCheckSize(i, base, last) => 0 <= i < last < cap && SlotOf(s, i) == Some(base)
    case DropRetry(i, base, last) => 0 <= i < last < cap && SlotOf(s, i) == Some(base)
    case MoveStore(i, base, last) =>
      0 <= i < last < cap && SlotOf(s, i) == Some(base) && s.tableCount == last + 1
    case MoveUnlock(i, last) => 0 <= i < last < cap && s.tableCount == last + 1
    case MoveCount(i, last) => 0 <= i < last < cap && s.tableCount == last + 1
    case MoveReserve(i, last) => 0 <= i < last < cap && s.tableCount <= last
    case MoveClear(i, last) => 0 <= i < last < cap && s.tableCount <= last
    case MoveForward(i, last) => 0 <= i < last < cap && SlotOf(s, last) == None
    case MoveUnlockLast(last) => 0 <= last < cap
    case ReadWait(i) => 0 <= i < cap
    case Reading(i) => 0 <= i < cap
    case _ => true
  }

  /** Units of reservedSize an agent accounts for. */
  function Charge(pc: Pc): int {
    if pc.CreateUndo? || pc.LastReserve? || pc.MoveReserve? then 1 else Granted(pc)
  }

  /** A granted CREATE that has not been counted yet. */
  function Granted(pc: Pc): int {
    if pc.CreateAlloc? || pc.CreateOpen? || pc.CommitRead? || pc.CommitTest? || pc.CommitLockLast? ||
       pc.CommitCheckSlot? || pc.CommitCheckSize? || pc.CommitRetry? || pc.CommitLockNext? || pc.CommitStore? ||
       pc.CommitCount?
    then 1 else 0
  }

  /** An attempt above the limit that has not taken its increment back yet. */
  function Overshoot(pc: Pc): int { if pc.CreateUndo? then 1 else 0 }

  /** A drop between the decrements of tableCount and reservedSize. */
  function HalfDropped(pc: Pc): int { if pc.LastReserve? || pc.MoveReserve? then 1 else 0 }

  function Solid(pc: Pc): int { Charge(pc) - Overshoot(pc) }

  predicate Shape(s: State) {
    && |s.locks| == |s.shared| == |s.moved| == |s.tables|
    && 0 <= s.tableCount <= |s.tables|
  }

  ghost predicate Facts(s: State) {
    forall b :: 0 <= b < |s.agents| ==> Fact(s, s.agents[b])
  }

  ghost predicate Locking(s: State) {
    && |s.locks| == |s.tables|
    && (forall b, k :: 0 <= b < |s.agents| && 0 <= k < |s.locks| ==>
         (s.locks[k] == Some(b) <==> Holds(s.agents[b], k)))
    && (forall k :: 0 <= k < |s.locks| && s.locks[k].Some? ==> s.locks[k].value < |s.agents|)
  }

  predicate ReadsSlot(s: State, b: nat, k: int) {
    b < |s.agents| && s.agents[b] == Reading(k)
  }

  ghost predicate Sharing(s: State) {
    && |s.shared| == |s.locks|
    && (forall k, b: nat :: 0 <= k < |s.shared| && b in s.shared[k] ==> ReadsSlot(s, b, k))
    && (forall b :: 0 <= b < |s.agents| && s.agents[b].Reading? ==>
         0 <= s.agents[b].slot < |s.shared| && b in s.shared[s.agents[b].slot])
    && (forall k :: 0 <= k < |s.shared| && s.shared[k] != {} ==> s.locks[k] == None)
  }

  ghost predicate Density(s: State) {
    && |s.locks| == |s.tables|
    && forall k :: 0 <= k < |s.tables| ==> DenseAt(s, k)
  }

  predicate Conserved(s: State) {
    && s.reservedSize == s.tableCount + Sum(s.agents, Charge)
    && s.tableCount + Sum(s.agents, Solid) <= Capacity(s)
  }

  ghost predicate Inv(s: State) {
    Shape(s) && Facts(s) && Locking(s) && Sharing(s) && Density(s) && Conserved(s)
  }

  // ------------------------------------------------------------------ what every step does

  predicate HeldAfter(was: Pc, eff: Eff, k: int) {
    match eff
    case Lock(i) => Holds(was, k) || k == i
    case Unlock(i) => Holds(was, k) && k != i
    case _ => Holds(was, k)
  }

  /** Locks change hands only by Lock and Unlock, and the array is written only under the lock of the slot. */
  ghost predicate KeepsLocks(was: Pc, pc: Pc, eff: Eff) {
    && (forall k :: Holds(pc, k) <==> HeldAfter(was, eff, k))
    && (eff.Unlock? || eff.StoreTable? || eff.StoreMoved? ==> Holds(was, eff.i))
  }

  /** How a step changes the locks its agent holds, and under which locks it writes. */
  ghost predicate Disciplined(s: State, a: nat, pc: Pc, eff: Eff)
    requires a < |s.agents|
  {
    var was := s.agents[a];
    && KeepsLocks(was, pc, eff)
    && (eff.AddCount? ==>
          || (eff.d == 1 && Holds(was, s.tableCount) && (s.tableCount >= 1 ==> Holds(was, s.tableCount - 1)))
          || (eff.d == -1 && s.tableCount >= 1 && Holds(was, s.tableCount - 1)))
  }

  lemma PlanIsDisciplined(s: State, a: nat, act: Act)
    requires Shape(s) && Enabled(s, a, act) && Fact(s, s.agents[a])
    ensures var (pc, eff) := Plan(s, s.agents[a], act); Disciplined(s, a, pc, eff)
  {
    var (pc, eff) := Plan(s, s.agents[a], act);
    forall k
      ensures Holds(pc, k) <==> HeldAfter(s.agents[a], eff, k)
    {
      var was := s.agents[a];
      if CommitsCreate(was) {
        CreateHolds(s, was, k);
      } else if MovesLast(was) {
        MoveHolds(s, was, k);
      } else if CommitsDrop(was) {
        DropLastHolds(s, was, k);
      } else {
        CallHolds(s, was, act, k);
      }
    }
    PlanWritesOwnSlots(s, a, act);
  }

  lemma CallHolds(s: State, pc: Pc, act: Act, k: int)
    requires !CommitsCreate(pc) && !CommitsDrop(pc)
    ensures var (pc2, eff) := PlanCall(s, pc, act); Holds(pc2, k) <==> HeldAfter(pc, eff, k)
  {
  }

  lemma CreateHolds(s: State, pc: Pc, k: int)
    requires CommitsCreate(pc)
    ensures var (pc2, eff) := PlanCreate(s, pc); Holds(pc2, k) <==> HeldAfter(pc, eff, k)
  {
  }

  lemma DropLastHolds(s: State, pc: Pc, k: int)
    requires CommitsDrop(pc) && !MovesLast(pc)
    ensures var (pc2, eff) := PlanDropLast(s, pc); Holds(pc2, k) <==> HeldAfter(pc, eff, k)
  {
  }

  lemma MoveHolds(s: State, pc: Pc, k: int)
    requires MovesLast(pc) && (pc.DropRetry? || pc.MoveUnlock? ==> pc.slot != pc.last)
    ensures var (pc2, eff) := PlanMove(s, pc); Holds(pc2, k) <==> HeldAfter(pc, eff, k)
  {
  }

  lemma PlanWritesOwnSlots(s: State, a: nat, act: Act)
    requires Shape(s) && Enabled(s, a, act) && Fact(s, s.agents[a])
    ensures var (pc, eff) := Plan(s, s.agents[a], act); var was := s.agents[a];
      && (eff.Unlock? || eff.StoreTable? || eff.StoreMoved? ==> Holds(was, eff.i))
      && (eff.AddCount? ==>
            || (eff.d == 1 && Holds(was, s.tableCount) && (s.tableCount >= 1 ==> Holds(was, s.tableCount - 1)))
            || (eff.d == -1 && s.tableCount >= 1 && Holds(was, s.tableCount - 1)))
  {
  }

  /** Only operator[] touches the shared side of the locks. */
  lemma PlanReads(s: State, a: nat, act: Act)
    requires Enabled(s, a, act)
    ensures var (pc, eff) := Plan(s, s.agents[a], act);
      && (pc.Reading? <==> eff.LockShared?) && (pc.Reading? ==> pc.slot == eff.i)
      && (s.agents[a].Reading? <==> eff.UnlockShared?) && (s.agents[a].Reading? ==> s.agents[a].slot == eff.i)
  {
  }

  /** An agent accounts for exactly the difference it makes between reservedSize and tableCount. */
  lemma PlanCharges(s: State, a: nat, act: Act)
    requires Enabled(s, a, act)
    ensures var (pc, eff) := Plan(s, s.agents[a], act); Charged(s, s.agents[a], pc, eff)
  {
    hide Charged;
    var pc := s.agents[a];
    if CommitsCreate(pc) {
      CreateCharges(s, pc);
    } else if MovesLast(pc) {
      MoveCharges(s, pc);
    } else if CommitsDrop(pc) {
      DropLastCharges(s, pc);
    } else {
      CallCharges(s, pc, act);
    }
  }

  predicate Charged(s: State, was: Pc, pc: Pc, eff: Eff) {
    var counted := if eff.AddCount? then eff.d else 0;
    var reserved := if eff.AddReserved? then eff.d else 0;
    && Charge(pc) - Charge(was) == reserved - counted
    && (|| Solid(pc) - Solid(was) <= -counted
        || (counted == 0 && Solid(pc) == 1 && Solid(was) == 0 && s.reservedSize < Capacity(s)))
  }

  lemma CreateCharges(s: State, pc: Pc)
    requires CommitsCreate(pc)
    ensures var (pc2, eff) := PlanCreate(s, pc); Charged(s, pc, pc2, eff)
  {
  }

  lemma MoveCharges(s: State, pc: Pc)
    requires MovesLast(pc)
    ensures var (pc2, eff) := PlanMove(s, pc); Charged(s, pc, pc2, eff)
  {
  }

  lemma DropLastCharges(s: State, pc: Pc)
    requires CommitsDrop(pc) && !MovesLast(pc)
    ensures var (pc2, eff) := PlanDropLast(s, pc); Charged(s, pc, pc2, eff)
  {
  }

  lemma CallCharges(s: State, pc: Pc, act: Act)
    requires !CommitsCreate(pc) && !CommitsDrop(pc) && Fits(pc, act)
    ensures var (pc2, eff) := PlanCall(s, pc, act); Charged(s, pc, pc2, eff)
  {
  }

  // ------------------------------------------------------------------ the acting agent

  lemma SolidRoom(s: State, a: nat)
    requires Conserved(s) && a < |s.agents| && Solid(s.agents[a]) == 1
    ensures s.tableCount < Capacity(s)
  {
    SumCovers(s.agents, Solid, a);
  }

  /** After its step the agent knows what its new program counter claims. */
  lemma ActorFact(s: State, a: nat, act: Act)
    requires Inv(s) && Enabled(s, a, act) && Guarded(s, a)
    ensures Fact(Step(s, a, act), Plan(s, s.agents[a], act).0)
  {
    var pc := s.agents[a];
    assert Fact(s, pc);
    if CommitsCreate(pc) {
      CreateFact(s, a, act);
    } else if MovesLast(pc) {
      if pc.DropReadLast? {
        assert Holds(pc, pc.slot) && DenseAt(s, pc.slot);
      }
      if pc.DropLockLast? {
        assert Holds(pc, pc.slot);
      }
      if SearchesLast(pc) {
        SearchFact(s, a, act);
      } else {
        MoveFact(s, a, act);
      }
    } else if CommitsDrop(pc) {
      DropLastFact(s, a, act);
    } else {
      CallFact(s, a, act);
    }
  }

  lemma CallFact(s: State, a: nat, act: Act)
    requires Shape(s) && Enabled(s, a, act) && Fact(s, s.agents[a])
    requires !CommitsCreate(s.agents[a]) && !CommitsDrop(s.agents[a])
    ensures Fact(Step(s, a, act), PlanCall(s, s.agents[a], act).0)
  {
  }

  lemma CreateFact(s: State, a: nat, act: Act)
    requires Inv(s) && Enabled(s, a, act) && Guarded(s, a) && CommitsCreate(s.agents[a])
    ensures Fact(Step(s, a, act), PlanCreate(s, s.agents[a]).0)
  {
    assert Fact(s, s.agents[a]);
    if Solid(s.agents[a]) == 1 {
      SolidRoom(s, a);
    }
  }

  lemma DropLastFact(s: State, a: nat, act: Act)
    requires Inv(s) && Enabled(s, a, act) && CommitsDrop(s.agents[a]) && !MovesLast(s.agents[a])
    ensures Fact(Step(s, a, act), PlanDropLast(s, s.agents[a]).0)
  {
    assert Fact(s, s.agents[a]);
  }

  predicate SearchesLast(pc: Pc) {
    pc.DropReadLast? || pc.DropLockLast? || pc.DropCheckSlot? || pc.DropCheckSize? || pc.DropRetry?
  }

  lemma SearchFact(s: State, a: nat, act: Act)
    requires Shape(s) && Enabled(s, a, act) && SearchesLast(s.agents[a]) && Fact(s, s.agents[a])
    requires s.agents[a].DropReadLast? ==> s.agents[a].slot < s.tableCount
    requires s.agents[a].DropLockLast? ==> s.agents[a].slot != s.agents[a].last
    ensures Fact(Step(s, a, act), PlanMove(s, s.agents[a]).0)
  {
    var t := Step(s, a, act);
    assert t.tables == s.tables && t.tableCount == s.tableCount;
    if !s.agents[a].DropReadLast? && !s.agents[a].DropLockLast? {
      RecheckFact(s, s.agents[a]);
      FactOfSameTables(s, t, PlanMove(s, s.agents[a]).0);
    }
  }

  lemma RecheckFact(s: State, pc: Pc)
    requires Fact(s, pc) && (pc.DropCheckSlot? || pc.DropCheckSize? || pc.DropRetry?)
    ensures Fact(s, PlanMove(s, pc).0)
  {
  }

  lemma FactOfSameTables(s: State, t: State, pc: Pc)
    requires Fact(s, pc) && t.tables == s.tables && t.tableCount == s.tableCount
    ensures Fact(t, pc)
  {
  }

  lemma MoveFact(s: State, a: nat, act: Act)
    requires Shape(s) && Enabled(s, a, act) && Fact(s, s.agents[a])
    requires MovesLast(s.agents[a]) && !SearchesLast(s.agents[a])
    ensures Fact(Step(s, a, act), PlanMove(s, s.agents[a]).0)
  {
  }

  /** The slot is dense before the step, and the agent holds it or is about to acquire it. */
  predicate Acting(s: State, a: nat, act: Act, k: int) {
    && Shape(s) && Enabled(s, a, act) && Fact(s, s.agents[a]) && Guarded(s, a)
    && 0 <= k < Capacity(s) && DenseAt(s, k)
    && (if Holds(s.agents[a], k) then s.locks[k] == Some(a) else Plan(s, s.agents[a], act).1 == Lock(k))
  }

  /** The slots the agent holds before or after its step are dense again. */
  lemma ActorDense(s: State, a: nat, act: Act, k: int)
    requires Acting(s, a, act, k)
    requires s.agents[a].MoveStore? ==> SlotOf(s, s.agents[a].last).Some?
    ensures DenseAt(Step(s, a, act), k)
  {
    var pc := s.agents[a];
    if CommitsCreate(pc) {
      CreateDense(s, a, act, k);
    } else if SearchesLast(pc) {
      SearchDense(s, a, act, k);
    } else if pc.MoveStore? || pc.MoveUnlock? {
      FillDense(s, a, act, k);
    } else if MovesLast(pc) {
      MoveDense(s, a, act, k);
    } else if CommitsDrop(pc) {
      DropLastDense(s, a, act, k);
    } else {
      CallDense(s, a, act, k);
    }
  }

  lemma CallDense(s: State, a: nat, act: Act, k: int)
    requires Acting(s, a, act, k) && !CommitsCreate(s.agents[a]) && !CommitsDrop(s.agents[a])
    ensures DenseAt(Step(s, a, act), k)
  {
  }

  lemma CreateDense(s: State, a: nat, act: Act, k: int)
    requires Acting(s, a, act, k) && CommitsCreate(s.agents[a])
    ensures DenseAt(Step(s, a, act), k)
  {
  }

  lemma DropLastDense(s: State, a: nat, act: Act, k: int)
    requires Acting(s, a, act, k) && CommitsDrop(s.agents[a]) && !MovesLast(s.agents[a])
    ensures DenseAt(Step(s, a, act), k)
  {
  }

  lemma SearchDense(s: State, a: nat, act: Act, k: int)
    requires Acting(s, a, act, k) && SearchesLast(s.agents[a])
    ensures DenseAt(Step(s, a, act), k)
  {
  }

  lemma FillDense(s: State, a: nat, act: Act, k: int)
    requires Acting(s, a, act, k) && (s.agents[a].MoveStore? || s.agents[a].MoveUnlock?)
    requires s.agents[a].MoveStore? ==> SlotOf(s, s.agents[a].last).Some?
    ensures DenseAt(Step(s, a, act), k)
  {
  }

  lemma MoveDense(s: State, a: nat, act: Act, k: int)
    requires Acting(s, a, act, k) && MovesLast(s.agents[a]) && !SearchesLast(s.agents[a])
    requires !s.agents[a].MoveStore? && !s.agents[a].MoveUnlock?
    ensures DenseAt(Step(s, a, act), k)
  {
    if s.agents[a].MoveCount? || s.agents[a].MoveReserve? {
      CountDense(s, a, act, k);
    }
  }

  lemma CountDense(s: State, a: nat, act: Act, k: int)
    requires Acting(s, a, act, k) && (s.agents[a].MoveCount? || s.agents[a].MoveReserve?)
    ensures DenseAt(Step(s, a, act), k)
  {
  }

  // ------------------------------------------------------------------ the other agents

  /** An agent's knowledge survives changes outside the slots it holds. */
  lemma FactStable(s: State, t: State, pc: Pc)
    requires Fact(s, pc)
    requires |t.tables| == |s.tables|
    requires forall k :: 0 <= k < |s.tables| && Holds(pc, k) ==> t.tables[k] == s.tables[k]
    requires
      || t.tableCount == s.tableCount
      || (t.tableCount == s.tableCount + 1 && !Holds(pc, s.tableCount) &&
          (s.tableCount >= 1 ==> !Holds(pc, s.tableCount - 1)))
      || (t.tableCount == s.tableCount - 1 && s.tableCount >= 1 && !Holds(pc, s.tableCount - 1))
    ensures Fact(t, pc)
  {
  }

  lemma LocksDisjoint(s: State, a: nat, b: nat, k: int)
    requires Locking(s) && a < |s.agents| && b < |s.agents| && a != b && 0 <= k < Capacity(s)
    ensures !(Holds(s.agents[a], k) && Holds(s.agents[b], k))
  {
    assert s.locks[k] == Some(a) <==> Holds(s.agents[a], k);
    assert s.locks[k] == Some(b) <==> Holds(s.agents[b], k);
  }

  lemma OthersKeepFacts(s: State, a: nat, pc: Pc, eff: Eff, b: nat)
    requires Shape(s) && Facts(s) && Locking(s) && a < |s.agents| && b < |s.agents| && a != b
    requires Possible(s, eff) && Disciplined(s, a, pc, eff) && Shape(After(s, a, pc, eff))
    ensures Fact(After(s, a, pc, eff), s.agents[b])
  {
    var t := After(s, a, pc, eff);
    if eff.StoreTable? {
      LocksDisjoint(s, a, b, eff.i);
    }
    if eff.AddCount? {
      if 0 <= s.tableCount < Capacity(s) {
        LocksDisjoint(s, a, b, s.tableCount);
      }
      if 1 <= s.tableCount {
        LocksDisjoint(s, a, b, s.tableCount - 1);
      }
    }
    FactStable(s, t, s.agents[b]);
  }

  lemma LockingKept(s: State, a: nat, pc: Pc, eff: Eff)
    requires Locking(s) && a < |s.agents| && Possible(s, eff) && KeepsLocks(s.agents[a], pc, eff)
    ensures Locking(After(s, a, pc, eff))
  {
  }

  lemma SharingKept(s: State, a: nat, pc: Pc, eff: Eff)
    requires Shape(s) && Sharing(s) && a < |s.agents| && Possible(s, eff)
    requires pc.Reading? <==> eff.LockShared?
    requires pc.Reading? ==> pc.slot == eff.i
    requires s.agents[a].Reading? <==> eff.UnlockShared?
    requires s.agents[a].Reading? ==> s.agents[a].slot == eff.i
    ensures Sharing(After(s, a, pc, eff))
  {
    var t := After(s, a, pc, eff);
    forall k, b: nat | 0 <= k < |t.shared| && b in t.shared[k]
      ensures ReadsSlot(t, b, k)
    {
      if b in s.shared[k] {
        assert ReadsSlot(s, b, k);
      } else {
        assert eff == LockShared(k) && b == a;
      }
    }
    forall b | 0 <= b < |t.agents| && t.agents[b].Reading?
      ensures 0 <= t.agents[b].slot < |t.shared| && b in t.shared[t.agents[b].slot]
    {
      if b != a {
        assert b in s.shared[s.agents[b].slot];
      }
    }
    forall k | 0 <= k < |t.shared| && t.shared[k] != {}
      ensures t.locks[k] == None
    {
      if s.shared[k] == {} {
        assert eff == LockShared(k);
      } else {
        assert s.locks[k] == None;
      }
    }
  }

  /** A slot the agent does not touch stays dense, also when the count moves. */
  lemma OthersStayDense(s: State, a: nat, pc: Pc, eff: Eff, k: int)
    requires Shape(s) && Facts(s) && Locking(s) && Density(s) && a < |s.agents|
    requires Possible(s, eff) && Disciplined(s, a, pc, eff)
    requires 0 <= k < Capacity(s) && !Holds(s.agents[a], k) && !Holds(pc, k)
    ensures DenseAt(After(s, a, pc, eff), k)
  {
    assert DenseAt(s, k);
    if s.locks[k].Some? {
      var b := s.locks[k].value;
      assert Holds(s.agents[b], k);
      assert b != a;
      assert Fact(s, s.agents[b]);
    }
  }

  lemma ConservedKept(s: State, a: nat, act: Act)
    requires Conserved(s) && Enabled(s, a, act)
    ensures Conserved(Step(s, a, act))
  {
    PlanCharges(s, a, act);
    var (pc, eff) := Plan(s, s.agents[a], act);
    SumUpdate(s.agents, a, pc, Charge);
    SumUpdate(s.agents, a, pc, Solid);
    SumOrdered(s.agents, Solid, Charge);
  }

  /**
   * Capacity, spelled out: reservedSize is the tables, the granted creates, the attempts that overshot and the drops
   * between their two decrements; without the overshooting attempts it never exceeds the array.
   */
  lemma CapacityAccount(s: State)
    requires Conserved(s)
    ensures s.reservedSize ==
      s.tableCount + Sum(s.agents, Granted) + Sum(s.agents, Overshoot) + Sum(s.agents, HalfDropped)
    ensures s.tableCount + Sum(s.agents, Granted) + Sum(s.agents, HalfDropped) <= Capacity(s)
  {
    SumOfSums(s.agents, Granted, HalfDropped, Solid);
    SumOfSums(s.agents, Solid, Overshoot, Charge);
  }

  /** Capacity is conserved over every run whatsoever, guarded or not. */
  lemma {:induction false} CapacityOverRuns(s: State, moves: seq<Move>)
    requires Conserved(s) && Runs(s, moves)
    ensures var t := Exec(s, moves);
      && Conserved(t) && Capacity(t) == Capacity(s)
      && t.reservedSize ==
           t.tableCount + Sum(t.agents, Granted) + Sum(t.agents, Overshoot) + Sum(t.agents, HalfDropped)
      && t.tableCount + Sum(t.agents, Granted) + Sum(t.agents, HalfDropped) <= Capacity(s)
    decreases moves
  {
    if moves == [] {
      CapacityAccount(s);
    } else {
      hide Conserved, Enabled;
      ConservedKept(s, moves[0].agent, moves[0].act);
      CapacityOverRuns(Step(s, moves[0].agent, moves[0].act), moves[1..]);
    }
  }

  /** A granted CREATE always has room: when it stores its table, the slot index is inside the array. */
  lemma GrantedHasRoom(s: State, a: nat)
    requires Inv(s) && a < |s.agents| && Granted(s.agents[a]) == 1
    ensures s.tableCount < Capacity(s)
    ensures s.agents[a].CommitStore? ==> 0 <= s.agents[a].next < Capacity(s)
  {
    SolidRoom(s, a);
    assert Fact(s, s.agents[a]);
  }

  lemma ShapeKept(s: State, a: nat, pc: Pc, eff: Eff)
    requires Shape(s) && a < |s.agents| && Possible(s, eff) && Disciplined(s, a, pc, eff)
    requires Conserved(After(s, a, pc, eff))
    ensures Shape(After(s, a, pc, eff))
  {
    SumNonNegative(After(s, a, pc, eff).agents, Solid);
  }

  // ------------------------------------------------------------------ the invariant

  lemma InvShape(s: State)
    requires Inv(s)
    ensures Shape(s)
  {
  }

  lemma InitInv(s: State)
    requires Init(s)
    ensures Inv(s)
  {
    IdleSum(s.agents, Charge);
    IdleSum(s.agents, Solid);
  }

  lemma {:induction false} IdleSum(pcs: seq<Pc>, f: Pc -> int)
    requires f(Idle) == 0
    requires forall b :: 0 <= b < |pcs| ==> pcs[b] == Idle
    ensures Sum(pcs, f) == 0
  {
    if pcs != [] {
      IdleSum(pcs[1..], f);
    }
  }

  /** The slot a moving DROP copies from is filled. */
  lemma MoveSource(s: State, a: nat)
    requires Inv(s) && a < |s.agents|
    ensures s.agents[a].MoveStore? ==> SlotOf(s, s.agents[a].last).Some?
  {
    var pc := s.agents[a];
    assert Fact(s, pc);
    if pc.MoveStore? {
      assert Holds(pc, pc.last) && DenseAt(s, pc.last);
    }
  }

  /** Every guarded step keeps the invariant. */
  lemma StepInv(s: State, a: nat, act: Act)
    requires Inv(s) && Enabled(s, a, act) && Guarded(s, a)
    ensures Inv(Step(s, a, act))
  {
    var (pc, eff) := Plan(s, s.agents[a], act);
    var t := Step(s, a, act);
    assert Fact(s, s.agents[a]);
    PlanIsDisciplined(s, a, act);
    PlanReads(s, a, act);
    ConservedKept(s, a, act);
    ShapeKept(s, a, pc, eff);
    LockingKept(s, a, pc, eff);
    SharingKept(s, a, pc, eff);
    ActorFact(s, a, act);
    forall b | 0 <= b < |t.agents|
      ensures Fact(t, t.agents[b])
    {
      if b != a {
        OthersKeepFacts(s, a, pc, eff, b);
      }
    }
    forall k | 0 <= k < |t.tables|
      ensures DenseAt(t, k)
    {
      if Holds(s.agents[a], k) || Holds(pc, k) {
        assert DenseAt(s, k);
        MoveSource(s, a);
        ActorDense(s, a, act, k);
      } else {
        OthersStayDense(s, a, pc, eff, k);
      }
    }
  }

  /** The invariant holds throughout every guarded run. */
  lemma {:induction false} RunInv(s: State, moves: seq<Move>)
    requires Inv(s) && GuardedRun(s, moves)
    ensures Runs(s, moves) && Inv(Exec(s, moves))
    decreases moves
  {
    GuardedRunsRun(s, moves);
    if moves != [] {
      StepInv(s, moves[0].agent, moves[0].act);
      RunInv(Step(s, moves[0].agent, moves[0].act), moves[1..]);
    }
  }
}
