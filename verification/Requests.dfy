/**
 * Every call does what it was asked for: it works on the slot it was given, opens a reservation exactly if it finds a
 * table there, and ends as the client decides.
 */
module Requests {
  import opened Wrappers
  import opened Schema
  import opened Protocol
  import opened Invariants
  import opened Refinement
  import opened Objects

  datatype Request =
    | NoRequest
    | Make                              // createTable()
    | AnyDrop                           // DropTable::execute, before it has chosen an index
    | Slot(i: nat, drop: bool)          // alterTable(i), dropTable(i)
    | Read(i: nat)                      // operator[](i)

  /**
   * The last request of an agent, what it has found, and what the client has decided: Some(Some(r)) is the table found
   * in the slot, Some(None) a null slot or a full array; Some(true) is complete(), Some(false) is cancel().
   */
  datatype Log = Log(request: Request, found: Option<Option<Ref>>, decided: Option<bool>)

  /** The log after a step of the agent: it looks at the request, never at what the agent makes of it. */
  function Noted(s: State, log: Log, pc: Pc, act: Act): Log {
    match act
    case BeginCreate => Log(Make, None, None)
    case BeginDrop => Log(AnyDrop, None, None)
    case Pick(i) => Log(Slot(i, true), None, None)
    case BeginSlot(i, drop) => Log(Slot(i, drop), None, None)
    case BeginRead(i) => Log(Read(i), None, None)
    case Edit(_) => log
    case Complete => log.(decided := Some(true))
    case Cancel => log.(decided := Some(false))
    case Go =>
      if pc.SlotRead? && log.request.Slot? then log.(found := Some(SlotOf(s, log.request.i)))
      else if pc.CreateStart? && s.reservedSize >= Capacity(s) then log.(found := Some(None))
      else if pc.CreateBump? && s.reservedSize >= Capacity(s) then log.(found := Some(None))
      else log
  }

  /** The log of agent `a` at the end of a run. */
  function LogOf(s: State, moves: seq<Move>, a: nat, log: Log): Log
    requires Runs(s, moves) && a < |s.agents|
    decreases moves
  {
    if moves == [] then log
    else LogOf(Step(s, moves[0].agent, moves[0].act), moves[1..], a,
               if moves[0].agent == a then Noted(s, log, s.agents[a], moves[0].act) else log)
  }

  /** The agent does what its log says it was asked for, found and was told. */
  predicate Serves(pc: Pc, log: Log) {
    match pc
    case Idle =>
      (match log.request
       case AnyDrop => false
       case Make => log.decided.Some? || log.found == Some(None)
       case Slot(_, _) => log.decided.Some? || log.found == Some(None)
       case _ => true)
    case CreateStart => log == Log(Make, None, None)
    case CreateBump => log == Log(Make, None, None)
    case CreateUndo => log == Log(Make, Some(None), None)
    case CreateAlloc => log == Log(Make, None, None)
    case CreateOpen(_) => log == Log(Make, None, None)
    case DropPick => log == Log(AnyDrop, None, None)
    case SlotWait(i, drop) => i >= 0 && log == Log(Slot(i, drop), None, None)
    case SlotRead(i, drop) => i >= 0 && log == Log(Slot(i, drop), None, None)
    case SlotMiss(i) =>
      i >= 0 && log.request.Slot? && log.request.i == i && log.found == Some(None) && log.decided == None
    case SlotCopy(i, base) => i >= 0 && log == Log(Slot(i, false), Some(Some(base)), None)
    case Open(i, drop, base, _) => i >= 0 && log == Log(Slot(i, drop), Some(Some(base)), None)
    case AlterUnlock(i) => i >= 0 && log.request == Slot(i, false) && log.decided == Some(true)
    case ReadWait(i) => i >= 0 && log == Log(Read(i), None, None)
    case Reading(i) => i >= 0 && log == Log(Read(i), None, None)
    case _ => if CommitsCreate(pc) then log == Log(Make, None, Some(true)) else CommitsDrop(pc) && ServesDrop(pc, log)
  }

  /** A DROP inside complete(): of the slot asked for, on which a table was found. */
  predicate ServesDrop(pc: Pc, log: Log)
    requires CommitsDrop(pc)
  {
    && log.request.Slot? && log.request.drop && (!pc.MoveUnlockLast? ==> log.request.i == pc.slot)
    && log.found.Some? && log.found.value.Some? && log.decided == Some(true)
  }

  lemma StepServes(s: State, a: nat, act: Act, log: Log)
    requires Enabled(s, a, act) && Serves(s.agents[a], log)
    ensures Serves(Step(s, a, act).agents[a], Noted(s, log, s.agents[a], act))
  {
    var pc := s.agents[a];
    hide Serves, Noted;
    assert Step(s, a, act).agents[a] == Plan(s, pc, act).0;
    if CommitsCreate(pc) {
      CreateServes(s, pc, act, log);
    } else if MovesLast(pc) {
      MoveServes(s, pc, act, log);
    } else if CommitsDrop(pc) {
      DropLastServes(s, pc, act, log);
    } else {
      CallServes(s, pc, act, log);
    }
  }

  lemma CreateServes(s: State, pc: Pc, act: Act, log: Log)
    requires CommitsCreate(pc) && Fits(pc, act) && Serves(pc, log)
    ensures Serves(PlanCreate(s, pc).0, Noted(s, log, pc, act))
  {
  }

  lemma MoveServes(s: State, pc: Pc, act: Act, log: Log)
    requires MovesLast(pc) && Fits(pc, act) && Serves(pc, log)
    ensures Serves(PlanMove(s, pc).0, Noted(s, log, pc, act))
  {
    var next := PlanMove(s, pc).0;
    assert act == Go && Noted(s, log, pc, act) == log && ServesDrop(pc, log);
    MoveKeepsSlot(s, pc);
    hide PlanMove, Noted;
    assert CommitsDrop(next) ==> ServesDrop(next, log);
  }

  /** The defragmenting branch works on one slot, from beginning to end. */
  lemma MoveKeepsSlot(s: State, pc: Pc)
    requires MovesLast(pc)
    ensures var next := PlanMove(s, pc).0;
      (next.Idle? && pc.MoveUnlockLast?) || (CommitsDrop(next) && (next.MoveUnlockLast? || next.slot == pc.slot))
    ensures pc.MoveUnlockLast? ==> PlanMove(s, pc).0.Idle?
  {
  }

  lemma DropLastServes(s: State, pc: Pc, act: Act, log: Log)
    requires CommitsDrop(pc) && !MovesLast(pc) && Fits(pc, act) && Serves(pc, log)
    ensures Serves(PlanDropLast(s, pc).0, Noted(s, log, pc, act))
  {
  }

  lemma CallServes(s: State, pc: Pc, act: Act, log: Log)
    requires !CommitsCreate(pc) && !CommitsDrop(pc) && Fits(pc, act) && Serves(pc, log)
    ensures Serves(PlanCall(s, pc, act).0, Noted(s, log, pc, act))
  {
    if pc.Open? || pc.CreateOpen? {
      OpenServes(s, pc, act, log);
    } else if pc.Idle? || pc.DropPick? {
      IdleServes(s, pc, act, log);
    } else {
      GoServes(s, pc, log);
    }
  }

  lemma OpenServes(s: State, pc: Pc, act: Act, log: Log)
    requires (pc.Open? || pc.CreateOpen?) && Fits(pc, act) && Serves(pc, log)
    ensures Serves(PlanCall(s, pc, act).0, Noted(s, log, pc, act))
  {
  }

  lemma IdleServes(s: State, pc: Pc, act: Act, log: Log)
    requires (pc.Idle? || pc.DropPick?) && Fits(pc, act)
    ensures Serves(PlanCall(s, pc, act).0, Noted(s, log, pc, act))
  {
  }

  lemma GoServes(s: State, pc: Pc, log: Log)
    requires !CommitsCreate(pc) && !CommitsDrop(pc) && Fits(pc, Go) && Serves(pc, log)
    ensures Serves(PlanCall(s, pc, Go).0, Noted(s, log, pc, Go))
  {
  }

  /**
   * Over every run, guarded or not: from its request until it is idle again, an agent works on the slot it was asked
   * for, as ALTER or DROP as asked; it opens a reservation exactly on the table it has found and misses exactly a null
   * slot; createTable() is refused exactly if it has found the array full; and it commits exactly if told to complete.
   */
  lemma {:induction false} RequestsAreServed(s: State, moves: seq<Move>, a: nat, log: Log)
    requires Runs(s, moves) && a < |s.agents| && Serves(s.agents[a], log)
    ensures |Exec(s, moves).agents| == |s.agents|
    ensures Serves(Exec(s, moves).agents[a], LogOf(s, moves, a, log))
    decreases moves
  {
    hide Serves, Noted;
    if moves != [] {
      var t := Step(s, moves[0].agent, moves[0].act);
      if moves[0].agent == a {
        StepServes(s, a, moves[0].act, log);
        RequestsAreServed(t, moves[1..], a, Noted(s, log, s.agents[a], moves[0].act));
      } else {
        assert t.agents[a] == s.agents[a];
        RequestsAreServed(t, moves[1..], a, log);
      }
    }
  }

  /** operator[](i) returns entry `i` of the list, or null exactly beyond its end: the index is the caller's. */
  lemma ReadersGetWhatTheyAskedFor(s: State, moves: seq<Move>, a: nat)
    requires Inv(s) && GuardedRun(s, moves) && Runs(s, moves) && a < |s.agents| && s.agents[a] == Idle
    requires |Exec(s, moves).agents| == |s.agents| && Exec(s, moves).agents[a].Reading?
    ensures var t := Exec(s, moves); var log := LogOf(s, moves, a, Log(NoRequest, None, None));
      && Inv(t) && log.request.Read? && log.request.i < Capacity(t)
      && t.agents[a] == Reading(log.request.i)
      && t.tables[log.request.i] == if log.request.i < Length(t) then Some(Directory(t)[log.request.i]) else None
  {
    hide Inv, GuardedRun, Runs, Exec, LogOf, Directory;
    RequestsAreServed(s, moves, a, Log(NoRequest, None, None));
    RunInv(s, moves);
    InvShape(Exec(s, moves));
    ReadersSeeTheList(Exec(s, moves), a);
  }

  /**
   * An open reservation is for the slot its caller named, and a DROP reservation is one exactly if a DROP was asked
   * for; it still holds the table that was found there.
   */
  lemma ReservationsAreAsAskedFor(s: State, moves: seq<Move>, a: nat)
    requires Inv(s) && GuardedRun(s, moves) && Runs(s, moves) && a < |s.agents| && s.agents[a] == Idle
    requires |Exec(s, moves).agents| == |s.agents| && Exec(s, moves).agents[a].Open?
    ensures var t := Exec(s, moves); var log := LogOf(s, moves, a, Log(NoRequest, None, None)); var pc := t.agents[a];
      && Inv(t) && log.request == Slot(pc.slot, pc.drop) && log.found == Some(Some(pc.base))
      && 0 <= pc.slot < Length(t) && Directory(t)[pc.slot] == pc.base
  {
    hide Inv, GuardedRun, Runs, Exec, LogOf, Directory;
    RequestsAreServed(s, moves, a, Log(NoRequest, None, None));
    RunInv(s, moves);
    InvShape(Exec(s, moves));
    OpenPins(Exec(s, moves), a);
  }

  // ------------------------------------------------------------------ what a client may do

  /** An idle agent may make any request for a slot of the array. */
  lemma IdleIsFree(s: State, a: nat, i: nat, drop: bool)
    requires a < |s.agents| && s.agents[a] == Idle
    ensures Enabled(s, a, BeginCreate) && Enabled(s, a, BeginDrop)
    ensures Enabled(s, a, BeginSlot(i, drop)) <==> i < Capacity(s)
    ensures Enabled(s, a, BeginRead(i)) <==> i < Capacity(s)
  {
  }

  /** A client may complete or cancel an open reservation, and edit the table of any but a DROP reservation. */
  lemma OpenIsFree(s: State, a: nat, body: Table)
    requires Inv(s) && HeapValid(s) && a < |s.agents| && (s.agents[a].Open? || s.agents[a].CreateOpen?)
    ensures Enabled(s, a, Complete) && Enabled(s, a, Cancel)
    ensures Enabled(s, a, Edit(body)) <==> s.agents[a].CreateOpen? || !s.agents[a].drop
  {
    assert Fact(s, s.agents[a]);
    assert Owned(s.agents[a]).Some? ==> Owned(s.agents[a]).value < |s.heap|;
  }

  /** cancel() ends the call at once: the list is as it was, and the agent holds no lock and no room any more. */
  lemma CancelUndoes(s: State, a: nat)
    requires Inv(s) && Enabled(s, a, Cancel)
    ensures var t := Step(s, a, Cancel);
      && Inv(t) && t.agents[a] == Idle && Directory(t) == Directory(s) && t.moved == s.moved && t.heap == s.heap
      && t.tableCount == s.tableCount
      && t.reservedSize == s.reservedSize - (if s.agents[a].CreateOpen? then 1 else 0)
      && forall k :: 0 <= k < Capacity(t) ==> t.locks[k] != Some(a)
  {
    CancelStep(s, a);
    hide Inv, Step, Emits, Enabled, Directory;
    StepRefines(s, a, Cancel);
    HoldsNothing(Step(s, a, Cancel), a);
  }

  lemma CancelStep(s: State, a: nat)
    requires Enabled(s, a, Cancel)
    ensures Guarded(s, a) && Emits(s, a, Cancel) == None
    ensures var t := Step(s, a, Cancel);
      && a < |t.agents| && t.agents[a] == Idle && t.moved == s.moved && t.heap == s.heap && t.tableCount == s.tableCount
      && t.reservedSize == s.reservedSize - (if s.agents[a].CreateOpen? then 1 else 0)
  {
  }

  lemma HoldsNothing(s: State, a: nat)
    requires Inv(s) && a < |s.agents| && s.agents[a] == Idle
    ensures forall k :: 0 <= k < Capacity(s) ==> s.locks[k] != Some(a)
  {
    assert forall k :: 0 <= k < Capacity(s) ==> (s.locks[k] == Some(a) <==> Holds(s.agents[a], k));
  }
}
