/**
 * Every guarded interleaving of the protocol is a sequence of plain list operations.  CREATE takes effect at
 * line 170, ALTER at 67, a DROP of the last table at 80 and a DROP that moves the last table at 105.
 */
module Refinement {
  import opened Wrappers
  import opened Protocol
  import opened Invariants
  import opened TableList

  // ------------------------------------------------------------------ the list a state stands for

  /** A drop has taken effect but tableCount has not been decremented yet. */
  predicate HalfGone(pc: Pc) {
    pc.LastCount? || pc.MoveUnlock? || pc.MoveCount?
  }

  function Length(s: State): nat
    requires Shape(s)
  {
    var last := s.tableCount - 1;
    if s.tableCount > 0 && s.locks[last].Some? && s.locks[last].value < |s.agents| &&
       HalfGone(s.agents[s.locks[last].value])
    then last else s.tableCount
  }

  function RefAt(s: State, k: int): Ref {
    match SlotOf(s, k)
    case Some(r) => r
    case None => 0
  }

  function Directory(s: State): seq<Ref>
    requires Shape(s)
  {
    seq(Length(s), k => RefAt(s, k))
  }

  ghost predicate Shrinking(s: State) {
    exists b :: 0 <= b < |s.agents| && HalfGone(s.agents[b])
  }

  lemma LengthShrinks(s: State)
    requires Inv(s)
    ensures Length(s) == if Shrinking(s) then s.tableCount - 1 else s.tableCount
  {
    if Shrinking(s) {
      var b :| 0 <= b < |s.agents| && HalfGone(s.agents[b]);
      assert Fact(s, s.agents[b]);
      assert Holds(s.agents[b], s.tableCount - 1);
      assert s.locks[s.tableCount - 1] == Some(b);
    }
  }

  /** At most one drop is half gone, and it holds the lock of the last counted slot. */
  lemma HalfGoneOwnsLast(s: State, b: nat)
    requires Inv(s) && b < |s.agents| && HalfGone(s.agents[b])
    ensures 1 <= s.tableCount <= Capacity(s) && s.locks[s.tableCount - 1] == Some(b)
  {
    assert Fact(s, s.agents[b]);
    assert Holds(s.agents[b], s.tableCount - 1);
  }

  /** No holes: exactly the slots below the length are filled, apart from slots a commit has locked. */
  lemma NoHoles(s: State, k: int)
    requires Inv(s) && 0 <= k < Capacity(s)
    ensures k < Length(s) ==> s.tables[k].Some?
    ensures s.locks[k] == None ==> (s.tables[k].Some? <==> k < s.tableCount)
    ensures s.locks[k] == None ==> (k < s.tableCount <==> k < Length(s))
  {
    assert DenseAt(s, k);
    if s.locks[k].Some? {
      var b := s.locks[k].value;
      assert Fact(s, s.agents[b]);
      assert Holds(s.agents[b], k);
      if HalfGone(s.agents[b]) {
        HalfGoneOwnsLast(s, b);
      }
    }
  }

  /** What operator[] can observe: the entry of the list, or null beyond its end. */
  lemma ReadersSeeTheList(s: State, a: nat)
    requires Inv(s) && a < |s.agents| && s.agents[a].Reading?
    ensures var k := s.agents[a].slot;
      && 0 <= k < Capacity(s)
      && s.tables[k] == if k < Length(s) then Some(Directory(s)[k]) else None
  {
    var k := s.agents[a].slot;
    assert a in s.shared[k];
    NoHoles(s, k);
  }

  // ------------------------------------------------------------------ steps

  /** The list operation that takes effect in a step. */
  function Emits(s: State, a: nat, act: Act): Option<Op<Ref>>
    requires a < |s.agents|
  {
    match s.agents[a]
    case CommitCount(o, _, _) => Some(Append(o))
    case Open(i, drop, _, o) => if !drop && act.Complete? then Some(Replace(i, o)) else None
    case LastClear(i, _) => Some(Remove(i))
    case MoveStore(i, _, _) => Some(Remove(i))
    case _ => None
  }

  function Growth(emitted: Option<Op<Ref>>): int {
    if emitted.None? then 0 else if emitted.value.Append? then 1 else if emitted.value.Remove? then -1 else 0
  }

  /** How a step's atomic action relates to the list operation it emits. */
  predicate Linear(s: State, was: Pc, pc: Pc, eff: Eff, emitted: Option<Op<Ref>>) {
    var count := s.tableCount;
    && (eff.AddCount? <==> eff == AddCount(1) || eff == AddCount(-1))
    && (eff == AddCount(1) <==> Growth(emitted) == 1)
    && (eff == AddCount(-1) <==> HalfGone(was) && !HalfGone(pc))
    && (!HalfGone(was) && HalfGone(pc) <==> Growth(emitted) == -1)
    && (Growth(emitted) == 1 ==> !HalfGone(was) && (count >= 1 ==> Holds(was, count - 1)))
    && (Growth(emitted) == -1 ==> Holds(was, count - 1) && eff.StoreTable? && eff.i == emitted.value.i)
    && (Growth(emitted) == -1 && eff.i != count - 1 ==> eff.v == SlotOf(s, count - 1))
    && (emitted.Some? && emitted.value.Replace? ==> eff == StoreTable(emitted.value.i, Some(emitted.value.t)))
    && (eff.StoreTable? && emitted.None? ==> eff.i >= count)
  }

  lemma PlanLinear(s: State, a: nat, act: Act)
    requires Enabled(s, a, act) && Guarded(s, a) && Fact(s, s.agents[a])
    ensures var (pc, eff) := Plan(s, s.agents[a], act); Linear(s, s.agents[a], pc, eff, Emits(s, a, act))
  {
    var was := s.agents[a];
    if CommitsCreate(was) {
      CreateLinear(s, a, act);
    } else if MovesLast(was) {
      MoveLinear(s, a, act);
    } else if CommitsDrop(was) {
      DropLastLinear(s, a, act);
    }
  }

  lemma CreateLinear(s: State, a: nat, act: Act)
    requires Enabled(s, a, act) && Guarded(s, a) && Fact(s, s.agents[a]) && CommitsCreate(s.agents[a])
    ensures var (pc, eff) := PlanCreate(s, s.agents[a]); Linear(s, s.agents[a], pc, eff, Emits(s, a, act))
  {
  }

  lemma DropLastLinear(s: State, a: nat, act: Act)
    requires Enabled(s, a, act) && Fact(s, s.agents[a]) && CommitsDrop(s.agents[a]) && !MovesLast(s.agents[a])
    ensures var (pc, eff) := PlanDropLast(s, s.agents[a]); Linear(s, s.agents[a], pc, eff, Emits(s, a, act))
  {
  }

  lemma MoveLinear(s: State, a: nat, act: Act)
    requires Enabled(s, a, act) && Fact(s, s.agents[a]) && MovesLast(s.agents[a])
    ensures var (pc, eff) := PlanMove(s, s.agents[a]); Linear(s, s.agents[a], pc, eff, Emits(s, a, act))
  {
  }

  /** A drop that is half gone excludes every step that would change the length. */
  lemma HalfGoneExcludes(s: State, a: nat, b: nat)
    requires Inv(s) && a < |s.agents| && b < |s.agents| && a != b && HalfGone(s.agents[b])
    ensures !HalfGone(s.agents[a]) && s.tableCount >= 1 && !Holds(s.agents[a], s.tableCount - 1)
  {
    HalfGoneOwnsLast(s, b);
    if HalfGone(s.agents[a]) {
      HalfGoneOwnsLast(s, a);
    }
    assert s.locks[s.tableCount - 1] == Some(a) <==> Holds(s.agents[a], s.tableCount - 1);
  }

  lemma ShrinkingAfter(s: State, t: State, a: nat, pc: Pc, b: nat)
    requires a < |s.agents| && t.agents == s.agents[a := pc]
    requires b < |s.agents| && (b != a || HalfGone(s.agents[a]) == HalfGone(pc)) && HalfGone(s.agents[b])
    ensures Shrinking(s) && Shrinking(t)
  {
    assert HalfGone(t.agents[b]);
  }

  lemma LengthAfter(s: State, a: nat, pc: Pc, eff: Eff, emitted: Option<Op<Ref>>)
    requires Shape(s) && a < |s.agents| && Possible(s, eff) && Shape(After(s, a, pc, eff))
    requires Length(s) == s.tableCount - (if Shrinking(s) then 1 else 0)
    requires Length(After(s, a, pc, eff)) ==
      After(s, a, pc, eff).tableCount - (if Shrinking(After(s, a, pc, eff)) then 1 else 0)
    requires forall b :: 0 <= b < |s.agents| && b != a && HalfGone(s.agents[b]) ==>
      !HalfGone(s.agents[a]) && s.tableCount >= 1 && !Holds(s.agents[a], s.tableCount - 1)
    requires Linear(s, s.agents[a], pc, eff, emitted)
    ensures Length(After(s, a, pc, eff)) == Length(s) + Growth(emitted)
    ensures Growth(emitted) != 0 ==> Length(s) == s.tableCount
  {
    var t := After(s, a, pc, eff);
    if b: nat :| b < |s.agents| && b != a && HalfGone(s.agents[b]) {
      ShrinkingAfter(s, t, a, pc, b);
    } else {
      assert forall b :: 0 <= b < |s.agents| && b != a ==> t.agents[b] == s.agents[b];
      assert HalfGone(s.agents[a]) <==> Shrinking(s);
      assert t.agents[a] == pc;
      assert HalfGone(pc) <==> Shrinking(t);
    }
  }

  lemma LengthStep(s: State, a: nat, act: Act)
    requires Inv(s) && Enabled(s, a, act) && Guarded(s, a)
    ensures Inv(Step(s, a, act))
    ensures Length(Step(s, a, act)) == Length(s) + Growth(Emits(s, a, act))
    ensures Growth(Emits(s, a, act)) != 0 ==> Length(s) == s.tableCount
  {
    var (pc, eff) := Plan(s, s.agents[a], act);
    assert Fact(s, s.agents[a]);
    StepInv(s, a, act);
    PlanLinear(s, a, act);
    LengthShrinks(s);
    LengthShrinks(Step(s, a, act));
    forall b: nat | b < |s.agents| && b != a && HalfGone(s.agents[b])
      ensures !HalfGone(s.agents[a]) && s.tableCount >= 1 && !Holds(s.agents[a], s.tableCount - 1)
    {
      HalfGoneExcludes(s, a, b);
    }
    LengthAfter(s, a, pc, eff, Emits(s, a, act));
  }

  /** The list the operation produces. */
  function Expected(q: seq<Ref>, emitted: Option<Op<Ref>>): seq<Ref>
    requires emitted.Some? ==> Applicable(q, emitted.value)
  {
    match emitted
    case None => q
    case Some(op) => Apply(q, op)
  }

  lemma DirectoryAfter(s: State, a: nat, pc: Pc, eff: Eff, emitted: Option<Op<Ref>>)
    requires Shape(s) && a < |s.agents| && Possible(s, eff) && Shape(After(s, a, pc, eff))
    requires Linear(s, s.agents[a], pc, eff, emitted)
    requires Length(After(s, a, pc, eff)) == Length(s) + Growth(emitted)
    requires Growth(emitted) != 0 ==> Length(s) == s.tableCount
    requires emitted.Some? ==> Applicable(Directory(s), emitted.value)
    requires Growth(emitted) == 1 ==> SlotOf(s, Length(s)) == Some(emitted.value.t)
    ensures Directory(After(s, a, pc, eff)) == Expected(Directory(s), emitted)
  {
    var t := After(s, a, pc, eff);
    forall k | 0 <= k < Length(t)
      ensures RefAt(t, k) == Expected(Directory(s), emitted)[k]
    {
      SlotAfter(s, a, pc, eff, emitted, k);
    }
  }

  lemma SlotAfter(s: State, a: nat, pc: Pc, eff: Eff, emitted: Option<Op<Ref>>, k: nat)
    requires Shape(s) && a < |s.agents| && Possible(s, eff)
    requires Linear(s, s.agents[a], pc, eff, emitted)
    requires Growth(emitted) != 0 ==> Length(s) == s.tableCount
    requires emitted.Some? ==> Applicable(Directory(s), emitted.value)
    requires Growth(emitted) == 1 ==> SlotOf(s, Length(s)) == Some(emitted.value.t)
    requires k < Length(s) + Growth(emitted)
    ensures RefAt(After(s, a, pc, eff), k) == Expected(Directory(s), emitted)[k]
  {
  }

  /** Simulation: a guarded step either leaves the list alone or performs the one operation it emits. */
  lemma StepRefines(s: State, a: nat, act: Act)
    requires Inv(s) && Enabled(s, a, act) && Guarded(s, a)
    ensures Inv(Step(s, a, act))
    ensures Emits(s, a, act).Some? ==> Applicable(Directory(s), Emits(s, a, act).value)
    ensures Directory(Step(s, a, act)) == Expected(Directory(s), Emits(s, a, act))
  {
    var (pc, eff) := Plan(s, s.agents[a], act);
    assert Fact(s, s.agents[a]);
    StepInv(s, a, act);
    LengthStep(s, a, act);
    EmitsApplicable(s, a, act);
    PlanLinear(s, a, act);
    DirectoryAfter(s, a, pc, eff, Emits(s, a, act));
  }

  lemma EmitsApplicable(s: State, a: nat, act: Act)
    requires Inv(s) && Enabled(s, a, act) && Guarded(s, a)
    ensures Emits(s, a, act).Some? ==> Applicable(Directory(s), Emits(s, a, act).value)
    ensures Growth(Emits(s, a, act)) == 1 ==> SlotOf(s, Length(s)) == Some(Emits(s, a, act).value.t)
  {
    var pc := s.agents[a];
    assert Fact(s, pc);
    LengthStep(s, a, act);
    if pc.Open? {
      OpenPins(s, a);
    }
  }

  /**
   * An open ALTER or DROP reservation pins its slot: it stays below the length, and it still holds the very
   * version the reservation was made for.
   */
  lemma OpenPins(s: State, a: nat)
    requires Inv(s) && a < |s.agents| && s.agents[a].Open?
    ensures var pc := s.agents[a]; 0 <= pc.slot < Length(s) && Directory(s)[pc.slot] == pc.base
    ensures s.tableCount >= 1
  {
    var pc := s.agents[a];
    var i := pc.slot;
    assert Fact(s, pc);
    assert Holds(pc, i);
    assert DenseAt(s, i);
    LengthShrinks(s);
    if Shrinking(s) {
      var b :| 0 <= b < |s.agents| && HalfGone(s.agents[b]);
      HalfGoneOwnsLast(s, b);
    }
  }

  // ------------------------------------------------------------------ runs

  /** The list operations of a run, in the order they take effect. */
  function Ops(s: State, moves: seq<Move>): seq<Op<Ref>>
    requires Runs(s, moves)
    decreases moves
  {
    if moves == [] then []
    else
      var a, act := moves[0].agent, moves[0].act;
      (match Emits(s, a, act) case None => [] case Some(op) => [op]) + Ops(Step(s, a, act), moves[1..])
  }

  /** Linearizability of commits: a guarded run of any interleaving is its list operations done in order. */
  lemma {:induction false} RunRefines(s: State, moves: seq<Move>)
    requires Inv(s) && GuardedRun(s, moves)
    ensures Runs(s, moves) && Inv(Exec(s, moves))
    ensures AllApplicable(Directory(s), Ops(s, moves))
    ensures Directory(Exec(s, moves)) == ApplyAll(Directory(s), Ops(s, moves))
    decreases moves
  {
    GuardedRunsRun(s, moves);
    if moves != [] {
      var a, act := moves[0].agent, moves[0].act;
      var t := Step(s, a, act);
      StepRefines(s, a, act);
      RunRefines(t, moves[1..]);
      match Emits(s, a, act)
      case None =>
        assert Ops(s, moves) == Ops(t, moves[1..]);
      case Some(op) =>
        assert Ops(s, moves) == [op] + Ops(t, moves[1..]);
        assert Ops(s, moves)[1..] == Ops(t, moves[1..]);
    }
  }

  /** Two runs, one after the other. */
  lemma {:induction false} ConcatRuns(s: State, first: seq<Move>, second: seq<Move>)
    requires Runs(s, first) && Runs(Exec(s, first), second)
    ensures Runs(s, first + second) && Exec(s, first + second) == Exec(Exec(s, first), second)
    ensures GuardedRun(s, first) && GuardedRun(Exec(s, first), second) ==> GuardedRun(s, first + second)
    ensures Ops(s, first + second) == Ops(s, first) + Ops(Exec(s, first), second)
    decreases first
  {
    hide Step, Emits, Enabled, Guarded;
    if first == [] {
      assert first + second == second;
    } else {
      assert (first + second)[0] == first[0] && (first + second)[1..] == first[1..] + second;
      ConcatRuns(Step(s, first[0].agent, first[0].act), first[1..], second);
    }
  }

  /** Inside complete(), before its list operation has taken effect. */
  function Due(pc: Pc): int {
    if (CommitsCreate(pc) && !pc.CommitUnlockNext? && !pc.CommitUnlockLast?) ||
       pc.DropTest? || pc.LastClear? || SearchesLast(pc) || pc.MoveStore?
    then 1 else 0
  }

  /** How often an agent calls complete() on an open reservation in a run. */
  function Completes(s: State, moves: seq<Move>, a: nat): nat
    requires Runs(s, moves)
    decreases moves
  {
    if moves == [] then 0
    else (if moves[0].agent == a && moves[0].act.Complete? then 1 else 0)
         + Completes(Step(s, moves[0].agent, moves[0].act), moves[1..], a)
  }

  /** How many list operations an agent performs in a run. */
  function Effects(s: State, moves: seq<Move>, a: nat): nat
    requires Runs(s, moves)
    decreases moves
  {
    if moves == [] then 0
    else (if moves[0].agent == a && Emits(s, a, moves[0].act).Some? then 1 else 0)
         + Effects(Step(s, moves[0].agent, moves[0].act), moves[1..], a)
  }

  lemma StepDue(s: State, a: nat, act: Act)
    requires Enabled(s, a, act)
    ensures (if Emits(s, a, act).Some? then 1 else 0) + Due(Step(s, a, act).agents[a])
         == (if act.Complete? then 1 else 0) + Due(s.agents[a])
  {
    var pc := s.agents[a];
    if CommitsCreate(pc) {
      CreateDue(s, a, act);
    } else if MovesLast(pc) {
      assert PlanMove(s, pc) == Plan(s, pc, act);
    } else if CommitsDrop(pc) {
      assert PlanDropLast(s, pc) == Plan(s, pc, act);
    }
  }

  lemma CreateDue(s: State, a: nat, act: Act)
    requires Enabled(s, a, act) && CommitsCreate(s.agents[a])
    ensures !act.Complete?
    ensures (if Emits(s, a, act).Some? then 1 else 0) + Due(Step(s, a, act).agents[a]) == Due(s.agents[a])
  {
    assert PlanCreate(s, s.agents[a]) == Plan(s, s.agents[a], act);
  }

  /** Each complete() performs exactly one list operation, whatever it is interleaved with. */
  lemma {:induction false} OneEffectPerComplete(s: State, moves: seq<Move>, a: nat)
    requires Runs(s, moves) && a < |s.agents|
    ensures |Exec(s, moves).agents| == |s.agents|
    ensures Effects(s, moves, a) + Due(Exec(s, moves).agents[a]) == Completes(s, moves, a) + Due(s.agents[a])
    decreases moves
  {
    if moves != [] {
      var t := Step(s, moves[0].agent, moves[0].act);
      if moves[0].agent == a {
        StepDue(s, a, moves[0].act);
      } else {
        assert t.agents[a] == s.agents[a];
      }
      OneEffectPerComplete(t, moves[1..], a);
    }
  }

  // ------------------------------------------------------------------ which operation

  /** The list operation of a step, if any, as a sequence. */
  function Effect(s: State, a: nat, act: Act): seq<Op<Ref>>
    requires a < |s.agents|
  {
    match Emits(s, a, act)
    case None => []
    case Some(op) => [op]
  }

  /** The operation an agent inside complete() still has to perform. */
  function Owes(pc: Pc): seq<Op<Ref>> {
    if Due(pc) == 0 then []
    else if CommitsCreate(pc) then [Append(pc.table)]
    else [Remove(pc.slot)]
  }

  /** The operation a complete() is called for: by its reservation, whatever happens in between. */
  function Calls(pc: Pc, act: Act): seq<Op<Ref>> {
    if !act.Complete? then []
    else match pc
         case CreateOpen(o) => [Append(o)]
         case Open(i, drop, _, o) => [if drop then Remove(i) else Replace(i, o)]
         case _ => []
  }

  lemma StepOwes(s: State, a: nat, act: Act)
    requires Enabled(s, a, act)
    ensures Effect(s, a, act) + Owes(Step(s, a, act).agents[a]) == Owes(s.agents[a]) + Calls(s.agents[a], act)
  {
    var pc := s.agents[a];
    if CommitsCreate(pc) {
      CreateOwes(s, a, act);
    } else if MovesLast(pc) {
      MoveOwes(s, a, act);
    } else if CommitsDrop(pc) {
      DropLastOwes(s, a, act);
    } else {
      CallOwes(s, a, act);
    }
  }

  lemma CallOwes(s: State, a: nat, act: Act)
    requires Enabled(s, a, act) && !CommitsCreate(s.agents[a]) && !CommitsDrop(s.agents[a])
    ensures Effect(s, a, act) + Owes(Step(s, a, act).agents[a]) == Owes(s.agents[a]) + Calls(s.agents[a], act)
  {
    var pc := s.agents[a];
    var next := PlanCall(s, pc, act).0;
    assert Plan(s, pc, act) == PlanCall(s, pc, act) && Step(s, a, act).agents[a] == next;
    PlanOwes(s, pc, act);
    hide PlanCall, Step, Plan, Enabled, Owes;
    if !pc.Open? && !pc.CreateOpen? {
      assert Effect(s, a, act) == [] && Calls(pc, act) == [];
    }
  }

  lemma PlanOwes(s: State, pc: Pc, act: Act)
    requires !CommitsCreate(pc) && !CommitsDrop(pc) && Fits(pc, act)
    ensures Owes(pc) == []
    ensures var next := PlanCall(s, pc, act).0;
      Owes(next) == if pc.Open? && !pc.drop then [] else Calls(pc, act)
  {
  }

  lemma CreateOwes(s: State, a: nat, act: Act)
    requires Enabled(s, a, act) && CommitsCreate(s.agents[a])
    ensures Effect(s, a, act) + Owes(Step(s, a, act).agents[a]) == Owes(s.agents[a]) && !act.Complete?
  {
    assert Plan(s, s.agents[a], act) == PlanCreate(s, s.agents[a]);
  }

  lemma MoveOwes(s: State, a: nat, act: Act)
    requires Enabled(s, a, act) && MovesLast(s.agents[a])
    ensures Effect(s, a, act) + Owes(Step(s, a, act).agents[a]) == Owes(s.agents[a]) && !act.Complete?
  {
    assert Plan(s, s.agents[a], act) == PlanMove(s, s.agents[a]);
  }

  lemma DropLastOwes(s: State, a: nat, act: Act)
    requires Enabled(s, a, act) && CommitsDrop(s.agents[a]) && !MovesLast(s.agents[a])
    ensures Effect(s, a, act) + Owes(Step(s, a, act).agents[a]) == Owes(s.agents[a]) && !act.Complete?
  {
    assert Plan(s, s.agents[a], act) == PlanDropLast(s, s.agents[a]);
  }

  /** The list operations agent `a` performs in a run, in order. */
  function OpsOf(s: State, moves: seq<Move>, a: nat): seq<Op<Ref>>
    requires Runs(s, moves) && a < |s.agents|
    decreases moves
  {
    if moves == [] then []
    else (if moves[0].agent == a then Effect(s, a, moves[0].act) else [])
         + OpsOf(Step(s, moves[0].agent, moves[0].act), moves[1..], a)
  }

  /** The operations its complete() calls are for, in order. */
  function CallsOf(s: State, moves: seq<Move>, a: nat): seq<Op<Ref>>
    requires Runs(s, moves) && a < |s.agents|
    decreases moves
  {
    if moves == [] then []
    else (if moves[0].agent == a then Calls(s.agents[a], moves[0].act) else [])
         + CallsOf(Step(s, moves[0].agent, moves[0].act), moves[1..], a)
  }

  /** Each complete() performs the very operation it was called for, in the order of the calls, and none besides. */
  lemma {:induction false} EachCompleteDoesItsOwn(s: State, moves: seq<Move>, a: nat)
    requires Runs(s, moves) && a < |s.agents|
    ensures |Exec(s, moves).agents| == |s.agents|
    ensures OpsOf(s, moves, a) + Owes(Exec(s, moves).agents[a]) == Owes(s.agents[a]) + CallsOf(s, moves, a)
    decreases moves
  {
    if moves != [] {
      var t := Step(s, moves[0].agent, moves[0].act);
      EachCompleteDoesItsOwn(t, moves[1..], a);
      if moves[0].agent == a {
        StepOwes(s, a, moves[0].act);
        hide Step, Owes, Effect, Calls, Enabled;
        Rejoin(Effect(s, a, moves[0].act), OpsOf(t, moves[1..], a), Owes(Exec(s, moves).agents[a]), Owes(t.agents[a]),
               Owes(s.agents[a]), Calls(s.agents[a], moves[0].act), CallsOf(t, moves[1..], a));
      } else {
        assert t.agents[a] == s.agents[a];
        hide Step, Owes, Effect, Calls, Enabled;
        assert OpsOf(s, moves, a) == OpsOf(t, moves[1..], a) && CallsOf(s, moves, a) == CallsOf(t, moves[1..], a);
      }
    }
  }

  lemma Rejoin<T>(effect: seq<T>, effects: seq<T>, end: seq<T>, mid: seq<T>, start: seq<T>, call: seq<T>, calls: seq<T>)
    requires effects + end == mid + calls && effect + mid == start + call
    ensures (effect + effects) + end == start + (call + calls)
  {
    assert (effect + effects) + end == effect + (effects + end);
    assert (effect + mid) + calls == effect + (mid + calls);
    assert (start + call) + calls == start + (call + calls);
  }
}
