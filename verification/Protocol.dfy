/**
 * The locking protocol of the table directory (metadata.cpp) as a step relation.
 *
 * An agent carries one call sequence on one `Reservation`: createTable / alterTable / dropTable, the client's
 * edits, then complete or cancel; or one `operator[]`.  Every step performs exactly one atomic action on
 * the shared state (a load, a store, a lock or an unlock).  The number of agents and the capacity are symbolic.
 * The numbers in the comments are lines of metadata.cpp.
 */
module Protocol {
  import opened Wrappers
  import opened Schema

  /** A `shared_ptr<Table>`: the index of the object in the heap. */
  type Ref = nat

  /** A table object: the table it is a version of, the version it was copied from, and its contents. */
  datatype Obj = Obj(id: nat, origin: Option<Ref>, body: Table)

  datatype Pc =
    | Idle
    // createTable
    | CreateStart                                             // 202: about to load reservedSize
    | CreateBump                                              // 204: about to increment it
    | CreateUndo                                              // 207: overshot, about to decrement it
    | CreateAlloc                                             // 211: granted, about to allocate the table
    | CreateOpen(table: Ref)                                  // an open CREATE reservation
    // complete, CREATE branch
    | CommitRead(table: Ref)                                  // 131
    | CommitTest(table: Ref, next: int)                       // 132
    | CommitLockLast(table: Ref, next: int)                   // 138
    | CommitCheckSlot(table: Ref, next: int)                  // 141
    | CommitCheckSize(table: Ref, next: int)                  // 142
    | CommitRetry(table: Ref, next: int)                      // 145
    | CommitLockNext(table: Ref, next: int, outer: bool)      // 160
    | CommitStore(table: Ref, next: int, outer: bool)         // 165
    | CommitCount(table: Ref, next: int, outer: bool)         // 170
    | CommitUnlockNext(next: int, outer: bool)                // 176, innerLock
    | CommitUnlockLast(next: int)                             // 176, outerLock
    // alterTable and dropTable
    | DropPick                                                // ddl.cpp 128: about to choose an index
    | SlotWait(slot: int, drop: bool)                         // 219, 230
    | SlotRead(slot: int, drop: bool)                         // 220, 231
    | SlotMiss(slot: int)                                     // 222, 233: null, about to unlock
    | SlotCopy(slot: int, base: Ref)                          // 224: about to copy the table
    | Open(slot: int, drop: bool, base: Ref, table: Ref)      // an open ALTER or DROP reservation
    | AlterUnlock(slot: int)                                  // 68
    // complete, DROP branch
    | DropTest(slot: int, base: Ref)                          // 74
    | LastClear(slot: int, base: Ref)                         // 80
    | LastCount(slot: int)                                    // 86
    | LastReserve(slot: int)                                  // 87
    | LastForward(slot: int)                                  // 88
    | LastUnlock(slot: int)                                   // 89
    | DropReadLast(slot: int, base: Ref)                      // 95
    | DropLockLast(slot: int, base: Ref, last: int)           // 96
    | DropCheckSlot(slot: int, base: Ref, last: int)          // 98
    | DropCheckSize(slot: int, base: Ref, last: int)          // 99
    | DropRetry(slot: int, base: Ref, last: int)              // 120
    | MoveStore(slot: int, base: Ref, last: int)              // 105
    | MoveUnlock(slot: int, last: int)                        // 106
    | MoveCount(slot: int, last: int)                         // 109
    | MoveReserve(slot: int, last: int)                       // 110
    | MoveClear(slot: int, last: int)                         // 111
    | MoveForward(slot: int, last: int)                       // 112
    | MoveUnlockLast(last: int)                               // 113
    // operator[]
    | ReadWait(slot: int)                                     // 242
    | Reading(slot: int)                                      // 243

  /** What the client decides; `Go` is the next atomic action of a call already under way. */
  datatype Act =
    | Go
    | BeginCreate | BeginDrop | BeginSlot(slot: nat, drop: bool) | BeginRead(slot: nat)
    | Pick(slot: nat)
    | Edit(body: Table) | Complete | Cancel

  /** The one atomic action of a step. */
  datatype Eff =
    | Local
    | Lock(i: int) | Unlock(i: int) | LockShared(i: int) | UnlockShared(i: int)
    | StoreTable(i: int, v: Option<Ref>) | StoreMoved(i: int, to: Option<int>)
    | AddCount(d: int) | AddReserved(d: int)
    | Alloc(obj: Obj) | Write(table: Ref, body: Table)

  datatype State = State(
    tables: seq<Option<Ref>>,       // data_.tables
    locks: seq<Option<nat>>,        // exclusive owner of data_.tableLocks[i]
    shared: seq<set<nat>>,          // shared owners of data_.tableLocks[i]
    moved: seq<Option<int>>,        // data_.movedToMap, None for npos
    tableCount: int,
    reservedSize: int,
    agents: seq<Pc>,
    heap: seq<Obj>)

  function Capacity(s: State): nat { |s.tables| }

  function SlotOf(s: State, i: int): Option<Ref> {
    if 0 <= i < |s.tables| then s.tables[i] else None
  }

  /** `make_shared<Table>(*table)`: a copy of the version `r`. */
  function CopyOf(s: State, r: Ref): Obj {
    if r < |s.heap| then Obj(s.heap[r].id, Some(r), s.heap[r].body) else Obj(r, Some(r), EMPTY_TABLE)
  }

  predicate Init(s: State) {
    && |s.locks| == |s.shared| == |s.moved| == |s.tables|
    && (forall k :: 0 <= k < |s.tables| ==> s.tables[k] == None)
    && (forall k :: 0 <= k < |s.locks| ==> s.locks[k] == None)
    && (forall k :: 0 <= k < |s.shared| ==> s.shared[k] == {})
    && (forall k :: 0 <= k < |s.moved| ==> s.moved[k] == None)
    && s.tableCount == 0 && s.reservedSize == 0
    && (forall b :: 0 <= b < |s.agents| ==> s.agents[b] == Idle)
    && s.heap == []
  }

  /** Which client decisions are possible in which call. */
  predicate Fits(pc: Pc, act: Act) {
    match pc
    case Idle => act.BeginCreate? || act.BeginDrop? || act.BeginSlot? || act.BeginRead?
    case DropPick => act.Pick?
    case CreateOpen(_) => act.Edit? || act.Complete? || act.Cancel?
    // a DROP reservation hands out the published table itself; the DDL actions only read it
    case Open(_, drop, _, _) => (act.Edit? && !drop) || act.Complete? || act.Cancel?
    case _ => act.Go?
  }

  /** Inside complete() of a CREATE reservation. */
  predicate CommitsCreate(pc: Pc) {
    pc.CommitRead? || pc.CommitTest? || pc.CommitLockLast? || pc.CommitCheckSlot? || pc.CommitCheckSize? ||
    pc.CommitRetry? || pc.CommitLockNext? || pc.CommitStore? || pc.CommitCount? || pc.CommitUnlockNext? ||
    pc.CommitUnlockLast?
  }

  /** Inside complete() of a DROP reservation. */
  predicate CommitsDrop(pc: Pc) {
    pc.DropTest? || pc.LastClear? || pc.LastCount? || pc.LastReserve? || pc.LastForward? || pc.LastUnlock? ||
    MovesLast(pc)
  }

  /** On the defragmenting branch of complete() of a DROP reservation. */
  predicate MovesLast(pc: Pc) {
    pc.DropReadLast? || pc.DropLockLast? || pc.DropCheckSlot? || pc.DropCheckSize? || pc.DropRetry? ||
    pc.MoveStore? || pc.MoveUnlock? || pc.MoveCount? || pc.MoveReserve? || pc.MoveClear? || pc.MoveForward? ||
    pc.MoveUnlockLast?
  }

  /** Inside a complete() that changes the number of tables. */
  predicate Committing(pc: Pc) { CommitsCreate(pc) || CommitsDrop(pc) }

  /** createTable, alterTable, dropTable, operator[], the client's edits, ALTER's complete, and cancel. */
  function PlanCall(s: State, pc: Pc, act: Act): (Pc, Eff) {
    match pc
    case Idle => (
      match act
      case BeginCreate => (CreateStart, Local)
      case BeginDrop => (DropPick, Local)
      case BeginSlot(i, drop) => (SlotWait(i, drop), Local)
      case BeginRead(i) => (ReadWait(i), Local)
      case _ => (Idle, Local))
    case CreateStart => (if s.reservedSize < Capacity(s) then CreateBump else Idle, Local)
    case CreateBump => (if s.reservedSize + 1 > Capacity(s) then CreateUndo else CreateAlloc, AddReserved(1))
    case CreateUndo => (Idle, AddReserved(-1))
    case CreateAlloc => (CreateOpen(|s.heap|), Alloc(Obj(|s.heap|, None, EMPTY_TABLE)))
    case CreateOpen(o) => (
      match act
      case Edit(body) => (CreateOpen(o), Write(o, body))
      case Complete => (CommitRead(o), Local)
      case _ => (Idle, AddReserved(-1)))
    case DropPick => (if act.Pick? then SlotWait(act.slot, true) else DropPick, Local)
    case SlotWait(i, drop) => (SlotRead(i, drop), Lock(i))
    case SlotRead(i, drop) => (
      match SlotOf(s, i)
      case None => (SlotMiss(i), Local)
      case Some(o) => (if drop then Open(i, true, o, o) else SlotCopy(i, o), Local))
    case SlotMiss(i) => (Idle, Unlock(i))
    case SlotCopy(i, o) => (Open(i, false, o, |s.heap|), Alloc(CopyOf(s, o)))
    case Open(i, drop, base, o) => (
      match act
      case Edit(body) => (Open(i, drop, base, o), Write(o, body))
      case Complete => if drop then (DropTest(i, base), Local) else (AlterUnlock(i), StoreTable(i, Some(o)))
      case _ => (Idle, Unlock(i)))
    case AlterUnlock(i) => (Idle, Unlock(i))
    case ReadWait(i) => (Reading(i), LockShared(i))
    case Reading(i) => (Idle, UnlockShared(i))
    case _ => (pc, Local)
  }

  /** The CREATE branch of complete(). */
  function PlanCreate(s: State, pc: Pc): (Pc, Eff) {
    match pc
    case CommitRead(o) => (CommitTest(o, s.tableCount), Local)
    case CommitTest(o, n) => (if s.tableCount == 0 then CommitLockNext(o, n, false) else CommitLockLast(o, n), Local)
    case CommitLockLast(o, n) => (CommitCheckSlot(o, n), Lock(n - 1))
    case CommitCheckSlot(o, n) => (if SlotOf(s, n - 1) == None then CommitRetry(o, n) else CommitCheckSize(o, n), Local)
    case CommitCheckSize(o, n) => (if n != s.tableCount then CommitRetry(o, n) else CommitLockNext(o, n, true), Local)
    case CommitRetry(o, n) => (CommitRead(o), Unlock(n - 1))
    case CommitLockNext(o, n, outer) => (CommitStore(o, n, outer), Lock(n))
    case CommitStore(o, n, outer) => (CommitCount(o, n, outer), StoreTable(n, Some(o)))
    case CommitCount(o, n, outer) => (CommitUnlockNext(n, outer), AddCount(1))
    case CommitUnlockNext(n, outer) => (if outer then CommitUnlockLast(n) else Idle, Unlock(n))
    case CommitUnlockLast(n) => (Idle, Unlock(n - 1))
    case _ => (pc, Local)
  }

  /** The DROP branch of complete(): the last table is dropped in place. */
  function PlanDropLast(s: State, pc: Pc): (Pc, Eff) {
    match pc
    case DropTest(i, base) => (if i == s.tableCount - 1 then LastClear(i, base) else DropReadLast(i, base), Local)
    case LastClear(i, _) => (LastCount(i), StoreTable(i, None))
    case LastCount(i) => (LastReserve(i), AddCount(-1))
    case LastReserve(i) => (LastForward(i), AddReserved(-1))
    case LastForward(i) => (LastUnlock(i), StoreMoved(i, None))
    case LastUnlock(i) => (Idle, Unlock(i))
    case _ => (pc, Local)
  }

  /** The DROP branch of complete(): the last table moves into the hole. */
  function PlanMove(s: State, pc: Pc): (Pc, Eff) {
    match pc
    case DropReadLast(i, base) => (DropLockLast(i, base, s.tableCount - 1), Local)
    case DropLockLast(i, base, last) => (DropCheckSlot(i, base, last), Lock(last))
    case DropCheckSlot(i, base, last) =>
      (if SlotOf(s, last) == None then DropRetry(i, base, last) else DropCheckSize(i, base, last), Local)
    case DropCheckSize(i, base, last) =>
      (if last == s.tableCount - 1 then MoveStore(i, base, last) else DropRetry(i, base, last), Local)
    case DropRetry(i, base, last) => (DropTest(i, base), Unlock(last))
    case MoveStore(i, _, last) => (MoveUnlock(i, last), StoreTable(i, SlotOf(s, last)))
    case MoveUnlock(i, last) => (MoveCount(i, last), Unlock(i))
    case MoveCount(i, last) => (MoveReserve(i, last), AddCount(-1))
    case MoveReserve(i, last) => (MoveClear(i, last), AddReserved(-1))
    case MoveClear(i, last) => (MoveForward(i, last), StoreTable(last, None))
    case MoveForward(i, last) => (MoveUnlockLast(last), StoreMoved(last, Some(i)))
    case MoveUnlockLast(last) => (Idle, Unlock(last))
    case _ => (pc, Local)
  }

  /** The next program counter of an agent at `pc`, and its atomic action. */
  function Plan(s: State, pc: Pc, act: Act): (Pc, Eff) {
    if CommitsCreate(pc) then PlanCreate(s, pc)
    else if MovesLast(pc) then PlanMove(s, pc)
    else if CommitsDrop(pc) then PlanDropLast(s, pc)
    else PlanCall(s, pc, act)
  }

  /**
   * A lock waits until the mutex is free; an index outside the array is undefined behaviour in the
   * source and is never executed here.
   */
  predicate Possible(s: State, eff: Eff) {
    match eff
    case Lock(i) => 0 <= i < |s.locks| && i < |s.shared| && s.locks[i] == None && s.shared[i] == {}
    case LockShared(i) => 0 <= i < |s.locks| && i < |s.shared| && s.locks[i] == None
    case Unlock(i) => 0 <= i < |s.locks|
    case UnlockShared(i) => 0 <= i < |s.shared|
    case StoreTable(i, _) => 0 <= i < |s.tables|
    case StoreMoved(i, _) => 0 <= i < |s.moved|
    case Write(o, _) => o < |s.heap|
    case _ => true
  }

  function Do(s: State, a: nat, eff: Eff): State
    requires Possible(s, eff)
  {
    match eff
    case Local => s
    case Lock(i) => s.(locks := s.locks[i := Some(a)])
    case Unlock(i) => s.(locks := s.locks[i := None])
    case LockShared(i) => s.(shared := s.shared[i := s.shared[i] + {a}])
    case UnlockShared(i) => s.(shared := s.shared[i := s.shared[i] - {a}])
    case StoreTable(i, v) => s.(tables := s.tables[i := v])
    case StoreMoved(i, to) => s.(moved := s.moved[i := to])
    case AddCount(d) => s.(tableCount := s.tableCount + d)
    case AddReserved(d) => s.(reservedSize := s.reservedSize + d)
    case Alloc(obj) => s.(heap := s.heap + [obj])
    case Write(o, body) => s.(heap := s.heap[o := s.heap[o].(body := body)])
  }

  function After(s: State, a: nat, pc: Pc, eff: Eff): State
    requires a < |s.agents| && Possible(s, eff)
  {
    Do(s, a, eff).(agents := s.agents[a := pc])
  }

  predicate Enabled(s: State, a: nat, act: Act) {
    && a < |s.agents|
    && Fits(s.agents[a], act)
    && (act.BeginSlot? || act.BeginRead? || act.Pick? ==> act.slot < Capacity(s))
    && Possible(s, Plan(s, s.agents[a], act).1)
  }

  function Step(s: State, a: nat, act: Act): State
    requires Enabled(s, a, act)
  {
    var (pc, eff) := Plan(s, s.agents[a], act);
    After(s, a, pc, eff)
  }

  /** A scheduling decision. */
  datatype Move = Move(agent: nat, act: Act)

  /** The moves can be executed one after the other from `s`. */
  predicate Runs(s: State, moves: seq<Move>)
    decreases moves
  {
    moves == [] ||
    (Enabled(s, moves[0].agent, moves[0].act) && Runs(Step(s, moves[0].agent, moves[0].act), moves[1..]))
  }

  function Exec(s: State, moves: seq<Move>): State
    requires Runs(s, moves)
    decreases moves
  {
    if moves == [] then s else Exec(Step(s, moves[0].agent, moves[0].act), moves[1..])
  }

  /**
   * The guard the CREATE commit does not check on its path for an empty directory: the two reads of
   * size() at 131 and 132 agree on emptiness, and a store made without the lock of the last slot still finds
   * the directory as it was read.
   */
  predicate Guarded(s: State, a: nat) {
    a < |s.agents| ==>
      match s.agents[a]
      case CommitTest(_, n) => (n == 0) == (s.tableCount == 0)
      case CommitStore(_, n, outer) => !outer ==> s.tableCount == n
      case _ => true
  }

  predicate GuardedRun(s: State, moves: seq<Move>)
    decreases moves
  {
    moves == [] ||
    (Enabled(s, moves[0].agent, moves[0].act) && Guarded(s, moves[0].agent) &&
     GuardedRun(Step(s, moves[0].agent, moves[0].act), moves[1..]))
  }

  lemma {:induction false} GuardedRunsRun(s: State, moves: seq<Move>)
    requires GuardedRun(s, moves)
    ensures Runs(s, moves)
    decreases moves
  {
    if moves != [] {
      GuardedRunsRun(Step(s, moves[0].agent, moves[0].act), moves[1..]);
    }
  }

  /** A run can be extended by an enabled step. */
  lemma {:induction false} Extend(s: State, moves: seq<Move>, a: nat, act: Act)
    requires Runs(s, moves) && Enabled(Exec(s, moves), a, act)
    ensures Runs(s, moves + [Move(a, act)]) && Exec(s, moves + [Move(a, act)]) == Step(Exec(s, moves), a, act)
    ensures GuardedRun(s, moves) && Guarded(Exec(s, moves), a) ==> GuardedRun(s, moves + [Move(a, act)])
    decreases moves
  {
    var longer := moves + [Move(a, act)];
    if moves == [] {
      assert longer[1..] == [];
      assert Runs(Step(s, a, act), []) && Exec(Step(s, a, act), []) == Step(s, a, act);
      assert GuardedRun(Step(s, a, act), []);
    } else {
      var t := Step(s, moves[0].agent, moves[0].act);
      assert longer[1..] == moves[1..] + [Move(a, act)];
      Extend(t, moves[1..], a, act);
    }
  }
}
