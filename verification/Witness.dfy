/**
 * Runs that exist, all of them made of steps of the program's own actions: an agent left alone always finishes its
 * commit; two CREATEs that overlap on an empty directory lose a table and leave a hole; two overlapping DROPs end in
 * a deadlock.
 */
module Witness {
  import opened Wrappers
  import opened Schema
  import opened Protocol
  import opened Invariants
  import opened Refinement
  import opened TableList
  import opened Deadlock
  import opened Retry
  import opened NonEmpty
  import opened SoftLimits
  import opened Objects
  import opened Forwarding
  import opened Tracking
  import opened Ddl
  import opened DdlRuns

  // ------------------------------------------------------------------ runs of the actions

  /** A run of the DDL actions with the given limits. */
  ghost predicate Legal(s: State, moves: seq<Move>, lim: Limits) {
    Runs(s, moves) && ActionRun(s, moves, lim) && DdlRun(s, moves)
  }

  /** Only agent `a` takes steps. */
  predicate OneWorker(moves: seq<Move>, a: nat) {
    forall k :: 0 <= k < |moves| ==> moves[k].agent == a
  }

  /** Inside complete() there is nothing for the client to decide. */
  lemma CommitIsLegal(s: State, a: nat, lim: Limits)
    requires a < |s.agents| && Committing(s.agents[a])
    ensures ActionMove(s, Move(a, Go), lim) && DdlMove(s, Move(a, Go))
  {
  }

  // ------------------------------------------------------------------ an agent left alone

  ghost predicate OthersIdle(s: State, a: nat) {
    forall b :: 0 <= b < |s.agents| && b != a ==> s.agents[b] == Idle
  }

  /** Where an agent holds no lock and reads no slot, so that it is in nobody's way. */
  predicate Aside(pc: Pc) {
    pc.Idle? || pc.CreateOpen? || pc.CommitTest?
  }

  ghost predicate OthersAside(s: State, a: nat) {
    forall b :: 0 <= b < |s.agents| && b != a ==> Aside(s.agents[b])
  }

  /** What the commit in progress still does to tableCount. */
  function Change(pc: Pc): int {
    if CommitsCreate(pc) && !pc.CommitUnlockNext? && !pc.CommitUnlockLast? then 1
    else if pc.DropTest? || pc.LastClear? || pc.LastCount? || SearchesLast(pc) || pc.MoveStore? || pc.MoveUnlock? ||
            pc.MoveCount? then -1
    else 0
  }

  /** No other agent is in the way, and the agent has seen nothing that is no longer true. */
  ghost predicate Alone(s: State, a: nat) {
    && a < |s.agents| && OthersAside(s, a)
    && SeenRightly(s.agents[a], s.tableCount)
    && OneRead(s, a) && !SelfWaits(s.agents[a])
  }

  lemma PlanAlone(s: State, a: nat, act: Act)
    requires Enabled(s, a, act) && Committing(s.agents[a])
    requires SeenRightly(s.agents[a], s.tableCount) && OneRead(s, a) && !SelfWaits(s.agents[a])
    ensures var t := Step(s, a, act);
      && SeenRightly(t.agents[a], t.tableCount) && OneRead(t, a) && !SelfWaits(t.agents[a])
      && (Committing(t.agents[a]) || t.agents[a] == Idle)
      && t.tableCount + Change(t.agents[a]) == s.tableCount + Change(s.agents[a])
  {
    PlanSees(s, a, act);
    var pc := s.agents[a];
    if CommitsCreate(pc) {
      assert Plan(s, pc, act) == PlanCreate(s, pc);
    } else if MovesLast(pc) {
      assert Plan(s, pc, act) == PlanMove(s, pc);
    } else {
      assert Plan(s, pc, act) == PlanDropLast(s, pc);
    }
  }

  lemma AwaitedIsNotHeld(s: State, pc: Pc, k: nat)
    requires Fact(s, pc) && !SelfWaits(pc) && WaitsFor(pc) == Some(k)
    ensures !Holds(pc, k)
  {
  }

  lemma AloneMoves(s: State, a: nat)
    requires Inv(s) && Alone(s, a) && Committing(s.agents[a]) && Capacity(s) > 0
    ensures Enabled(s, a, Go) && Guarded(s, a)
  {
    var pc := s.agents[a];
    assert Fact(s, pc);
    if WaitsFor(pc).Some? {
      var k := WaitsFor(pc).value;
      WaitsInRange(s, pc);
      AwaitedIsNotHeld(s, pc, k);
      assert forall b :: 0 <= b < |s.agents| ==> !Holds(s.agents[b], k);
      assert s.locks[k] == None;
      assert forall b: nat :: b in s.shared[k] ==> ReadsSlot(s, b, k);
      assert s.shared[k] == {};
      WaitersMoveWhenFree(s, a);
    } else {
      NonWaitersMove(s, a);
    }
  }

  lemma StepAlone(s: State, a: nat)
    requires Inv(s) && Alone(s, a) && Committing(s.agents[a]) && Capacity(s) > 0
    ensures Enabled(s, a, Go) && Guarded(s, a)
    ensures var t := Step(s, a, Go);
      && Inv(t) && Alone(t, a) && |t.agents| == |s.agents| && Capacity(t) == Capacity(s)
      && (Committing(t.agents[a]) || t.agents[a] == Idle)
      && t.tableCount + Change(t.agents[a]) == s.tableCount + Change(s.agents[a])
      && Budget(t, a) < Budget(s, a)
      && forall b :: 0 <= b < |s.agents| && b != a ==> t.agents[b] == s.agents[b]
  {
    AloneMoves(s, a);
    StepInv(s, a, Go);
    PlanAlone(s, a, Go);
    CommitStepSpends(s, a, Go);
  }

  /** Sequential use: a commit that is not interfered with finishes and has its one effect on the size. */
  lemma {:induction false} FinishAlone(s: State, a: nat, lim: Limits) returns (moves: seq<Move>)
    requires Inv(s) && Alone(s, a) && Committing(s.agents[a]) && Capacity(s) > 0
    ensures GuardedRun(s, moves) && Legal(s, moves, lim) && OneWorker(moves, a)
    ensures var t := Exec(s, moves);
      && Inv(t) && Alone(t, a) && |t.agents| == |s.agents| && Capacity(t) == Capacity(s)
      && t.agents[a] == Idle
      && t.tableCount == s.tableCount + Change(s.agents[a])
      && forall b :: 0 <= b < |s.agents| && b != a ==> t.agents[b] == s.agents[b]
    ensures Ops(s, moves) == Owes(s.agents[a])
    decreases Budget(s, a)
  {
    hide Ops, Effect, Owes, Committing, OthersAside, Inv, Alone, Guarded, Step, Budget, Enabled, Change, ActionMove,
         DdlMove, GuardedRun, Legal, Exec;
    StepAlone(s, a);
    IdleChangesNothing();
    CommitIsLegal(s, a, lim);
    OneStep(s, a, Go, lim);
    moves := [Move(a, Go)];
    var t := Step(s, a, Go);
    GoOwes(s, a);
    if t.agents[a] != Idle {
      var rest := FinishAlone(t, a, lim);
      Concat(s, moves, rest, lim);
      moves := moves + rest;
    }
  }

  lemma IdleChangesNothing()
    ensures Change(Idle) == 0 && Owes(Idle) == []
  {
  }

  lemma GoOwes(s: State, a: nat)
    requires Enabled(s, a, Go)
    ensures Effect(s, a, Go) + Owes(Step(s, a, Go).agents[a]) == Owes(s.agents[a])
  {
    StepOwes(s, a, Go);
    assert Calls(s.agents[a], Go) == [];
  }

  // ------------------------------------------------------------------ building runs

  /** Extend a run of the actions by one step of agent `a`. */
  lemma Then(s: State, moves: seq<Move>, a: nat, act: Act, lim: Limits) returns (longer: seq<Move>, t: State)
    requires Legal(s, moves, lim) && Enabled(Exec(s, moves), a, act)
    requires ActionMove(Exec(s, moves), Move(a, act), lim) && DdlMove(Exec(s, moves), Move(a, act))
    ensures Legal(s, longer, lim) && t == Exec(s, longer) == Step(Exec(s, moves), a, act)
    ensures GuardedRun(s, moves) && Guarded(Exec(s, moves), a) ==> GuardedRun(s, longer)
    ensures OneWorker(moves, a) ==> OneWorker(longer, a)
    ensures Ops(s, longer) == Ops(s, moves) + Effect(Exec(s, moves), a, act)
  {
    longer := moves + [Move(a, act)];
    t := Step(Exec(s, moves), a, act);
    OneStep(Exec(s, moves), a, act, lim);
    Concat(s, moves, [Move(a, act)], lim);
  }

  lemma OneStep(s: State, a: nat, act: Act, lim: Limits)
    requires Enabled(s, a, act) && ActionMove(s, Move(a, act), lim) && DdlMove(s, Move(a, act))
    ensures Legal(s, [Move(a, act)], lim) && Exec(s, [Move(a, act)]) == Step(s, a, act)
    ensures Guarded(s, a) ==> GuardedRun(s, [Move(a, act)])
    ensures Ops(s, [Move(a, act)]) == Effect(s, a, act)
  {
    assert [Move(a, act)][1..] == [];
    hide ActionMove, DdlMove, Step, Guarded;
    NoSteps(Step(s, a, act), lim);
    assert Ops(s, [Move(a, act)]) == Effect(s, a, act) + Ops(Step(s, a, act), []);
  }

  lemma Concat(s: State, first: seq<Move>, second: seq<Move>, lim: Limits)
    requires Legal(s, first, lim) && Legal(Exec(s, first), second, lim)
    ensures Legal(s, first + second, lim) && Exec(s, first + second) == Exec(Exec(s, first), second)
    ensures GuardedRun(s, first) && GuardedRun(Exec(s, first), second) ==> GuardedRun(s, first + second)
    ensures Ops(s, first + second) == Ops(s, first) + Ops(Exec(s, first), second)
  {
    hide Runs, Exec, GuardedRun, Ops, ActionRun, DdlRun;
    ConcatRuns(s, first, second);
    ConcatActions(s, first, second, lim);
  }

  lemma {:induction false} ConcatActions(s: State, first: seq<Move>, second: seq<Move>, lim: Limits)
    requires Legal(s, first, lim) && Legal(Exec(s, first), second, lim)
    ensures ActionRun(s, first + second, lim) && DdlRun(s, first + second)
    decreases first
  {
    hide Step, Enabled, ActionMove, DdlMove;
    if first == [] {
      assert first + second == second;
    } else {
      assert (first + second)[0] == first[0] && (first + second)[1..] == first[1..] + second;
      ConcatActions(Step(s, first[0].agent, first[0].act), first[1..], second, lim);
    }
  }

  lemma NoSteps(s: State, lim: Limits)
    ensures Legal(s, [], lim) && GuardedRun(s, []) && Exec(s, []) == s && Ops(s, []) == []
  {
  }

  /** The table CREATE fills in from two column draws. */
  function TwoColumns(): Table {
    Table("foo1", NewColumns([ColumnDraw("col1", INT, 0), ColumnDraw("col2", INT, 0)]))
  }

  lemma TwoColumnsAreFilled()
    ensures FilledTable(TwoColumns())
  {
  }

  /** createTable() by an idle agent while there is room, and the table filled in. */
  lemma OpenCreate(s: State, a: nat, lim: Limits) returns (moves: seq<Move>)
    requires a < |s.agents| && s.agents[a] == Idle && s.reservedSize < Capacity(s) && s.tableCount < lim.maxTables
    ensures GuardedRun(s, moves) && Legal(s, moves, lim) && OneWorker(moves, a) && Ops(s, moves) == []
    ensures Exec(s, moves) == s.(
      agents := s.agents[a := CreateOpen(|s.heap|)], reservedSize := s.reservedSize + 1,
      heap := s.heap + [Obj(|s.heap|, None, TwoColumns())])
  {
    TwoColumnsAreFilled();
    hide Ops, Exec, Legal, GuardedRun, PlanCreate, PlanMove, PlanDropLast, TwoColumns, FilledTable;
    var t;
    var granted := s.(reservedSize := s.reservedSize + 1);
    moves := ReserveRoom(s, a, lim);
    moves, t := Then(s, moves, a, Go, lim);
    assert t == granted.(agents := s.agents[a := CreateAlloc]);
    moves, t := Then(s, moves, a, Go, lim);
    var empty := Obj(|s.heap|, None, EMPTY_TABLE);
    assert t == granted.(agents := s.agents[a := CreateOpen(|s.heap|)], heap := s.heap + [empty]);
    moves, t := Then(s, moves, a, Edit(TwoColumns()), lim);
    assert (s.heap + [empty])[|s.heap| := empty.(body := TwoColumns())] == s.heap + [empty.(body := TwoColumns())];
  }

  lemma ReserveRoom(s: State, a: nat, lim: Limits) returns (moves: seq<Move>)
    requires a < |s.agents| && s.agents[a] == Idle && s.reservedSize < Capacity(s) && s.tableCount < lim.maxTables
    ensures GuardedRun(s, moves) && Legal(s, moves, lim) && OneWorker(moves, a) && Ops(s, moves) == []
    ensures Exec(s, moves) == s.(agents := s.agents[a := CreateBump])
  {
    NoSteps(s, lim);
    hide Ops, Exec, Legal, GuardedRun, PlanCreate, PlanMove, PlanDropLast;
    var t;
    moves, t := Then(s, [], a, BeginCreate, lim);
    assert t == s.(agents := s.agents[a := CreateStart]);
    moves, t := Then(s, moves, a, Go, lim);
  }

  /** A directory nobody is using. */
  ghost predicate Quiet(s: State) {
    Inv(s) && forall b :: 0 <= b < |s.agents| ==> s.agents[b] == Idle
  }

  lemma QuietCounts(s: State)
    requires Quiet(s)
    ensures Shape(s) && s.reservedSize == s.tableCount
    ensures forall k :: 0 <= k < Capacity(s) ==> s.locks[k] == None && s.shared[k] == {}
    ensures forall k :: 0 <= k < Capacity(s) ==> (s.tables[k].Some? <==> k < s.tableCount)
  {
    IdleSum(s.agents, Charge);
    forall k | 0 <= k < Capacity(s)
      ensures s.locks[k] == None && s.shared[k] == {}
      ensures s.tables[k].Some? <==> k < s.tableCount
    {
      assert s.locks[k].Some? ==> Holds(s.agents[s.locks[k].value], k);
      assert DenseAt(s, k);
      assert forall b: nat :: b in s.shared[k] ==> ReadsSlot(s, b, k);
    }
  }

  /** From a quiet directory with room, an undisturbed CREATE leads to a quiet directory with one table more. */
  lemma CreateAlone(s: State, a: nat, lim: Limits) returns (moves: seq<Move>)
    requires Quiet(s) && a < |s.agents| && s.tableCount < Capacity(s) && s.tableCount < lim.maxTables
    ensures GuardedRun(s, moves) && Legal(s, moves, lim) && OneWorker(moves, a)
    ensures Ops(s, moves) == [Append(|s.heap|)]
    ensures var t := Exec(s, moves);
      Quiet(t) && |t.agents| == |s.agents| && Capacity(t) == Capacity(s) && t.tableCount == s.tableCount + 1
  {
    hide Ops, Exec, ActionRun, DdlRun, Runs, GuardedRun, Inv, Guarded, Alone, OthersIdle, Quiet;
    moves := StartCreate(s, a, lim);
    moves := FinishQuietly(s, moves, a, lim);
    WhatCreateOwes(|s.heap|);
  }

  lemma WhatCreateOwes(o: Ref)
    ensures Owes(CommitRead(o)) == [Append(o)] && Change(CommitRead(o)) == 1 && Committing(CommitRead(o))
  {
  }

  lemma WhatDropOwes(i: nat, r: Ref)
    ensures Owes(DropTest(i, r)) == [Remove(i)] && Change(DropTest(i, r)) == -1 && Committing(DropTest(i, r))
  {
  }

  /** Once everybody else is idle, a commit that is left alone leads to a quiet directory. */
  lemma FinishQuietly(s: State, opening: seq<Move>, a: nat, lim: Limits) returns (moves: seq<Move>)
    requires GuardedRun(s, opening) && Legal(s, opening, lim)
    requires var t := Exec(s, opening);
      Inv(t) && Alone(t, a) && OthersIdle(t, a) && Committing(t.agents[a]) && Capacity(t) > 0
    ensures GuardedRun(s, moves) && Legal(s, moves, lim) && (OneWorker(opening, a) ==> OneWorker(moves, a))
    ensures Ops(s, moves) == Ops(s, opening) + Owes(Exec(s, opening).agents[a])
    ensures var t := Exec(s, opening); var u := Exec(s, moves);
      && Quiet(u) && |u.agents| == |t.agents| && Capacity(u) == Capacity(t)
      && u.tableCount == t.tableCount + Change(t.agents[a])
  {
    hide Ops, Exec, ActionRun, DdlRun, Runs, GuardedRun, Inv, Guarded, Owes, Change, Alone;
    var t := Exec(s, opening);
    var rest := FinishAlone(t, a, lim);
    Concat(s, opening, rest, lim);
    moves := opening + rest;
    assert forall b :: 0 <= b < |t.agents| ==> Exec(t, rest).agents[b] == Idle;
  }

  lemma StartCreate(s: State, a: nat, lim: Limits) returns (moves: seq<Move>)
    requires Quiet(s) && a < |s.agents| && s.tableCount < Capacity(s) && s.tableCount < lim.maxTables
    ensures GuardedRun(s, moves) && Legal(s, moves, lim) && OneWorker(moves, a) && Ops(s, moves) == []
    ensures var t := Exec(s, moves);
      && Inv(t) && |t.agents| == |s.agents| && Capacity(t) == Capacity(s) > 0 && t.tableCount == s.tableCount
      && Alone(t, a) && OthersIdle(t, a) && t.agents[a] == CommitRead(|s.heap|)
  {
    hide Ops, Exec, Legal, GuardedRun, Inv, TwoColumns, Quiet, Alone, OthersIdle;
    QuietInv(s);
    QuietCounts(s);
    moves := OpenCreate(s, a, lim);
    moves := CallComplete(s, moves, a, |s.heap|, lim);
    RunInv(s, moves);
    AloneAfter(s, Exec(s, moves), a, CommitRead(|s.heap|));
  }

  /** An agent of a quiet directory that has come to `pc` without changing the size is alone. */
  lemma AloneAfter(s: State, t: State, a: nat, pc: Pc)
    requires Quiet(s) && a < |s.agents| && t.agents == s.agents[a := pc] && (pc.CommitRead? || pc.DropTest?)
    ensures Alone(t, a) && OthersIdle(t, a)
  {
  }

  /** From a quiet directory on which DROP is allowed, an undisturbed DROP leads to a quiet one with one table less. */
  lemma DropAlone(s: State, a: nat, i: nat, lim: Limits) returns (moves: seq<Move>)
    requires Quiet(s) && a < |s.agents| && i < s.tableCount && s.tableCount > lim.minTables
    ensures GuardedRun(s, moves) && Legal(s, moves, lim)
    ensures Ops(s, moves) == [Remove(i)]
    ensures var t := Exec(s, moves);
      Quiet(t) && |t.agents| == |s.agents| && Capacity(t) == Capacity(s) && t.tableCount == s.tableCount - 1
  {
    hide Ops, Exec, ActionRun, DdlRun, Runs, GuardedRun, Inv, Guarded, Alone, OthersIdle, Quiet;
    var r;
    moves, r := StartDrop(s, a, i, lim);
    moves := FinishQuietly(s, moves, a, lim);
    WhatDropOwes(i, r);
  }

  lemma StartDrop(s: State, a: nat, i: nat, lim: Limits) returns (moves: seq<Move>, r: Ref)
    requires Quiet(s) && a < |s.agents| && i < s.tableCount && s.tableCount > lim.minTables
    ensures GuardedRun(s, moves) && Legal(s, moves, lim) && Ops(s, moves) == []
    ensures var t := Exec(s, moves);
      && Inv(t) && |t.agents| == |s.agents| && Capacity(t) == Capacity(s) > 0 && t.tableCount == s.tableCount
      && Alone(t, a) && OthersIdle(t, a) && t.agents[a] == DropTest(i, r)
  {
    hide Ops, Exec, Legal, GuardedRun, Inv, Quiet, Alone, OthersIdle;
    QuietInv(s);
    QuietCounts(s);
    r := s.tables[i].value;
    moves := OpenDrop(s, a, i, lim);
    RunInv(s, moves);
    AloneAfter(s, Exec(s, moves), a, DropTest(i, r));
  }

  lemma CallComplete(s: State, opening: seq<Move>, a: nat, o: Ref, lim: Limits) returns (moves: seq<Move>)
    requires GuardedRun(s, opening) && Legal(s, opening, lim)
    requires var t := Exec(s, opening);
      a < |t.agents| && t.agents[a] == CreateOpen(o) && o < |t.heap| && t.heap[o].body == TwoColumns()
    ensures GuardedRun(s, moves) && Legal(s, moves, lim) && (OneWorker(opening, a) ==> OneWorker(moves, a))
    ensures var t := Exec(s, opening); Exec(s, moves) == t.(agents := t.agents[a := CommitRead(o)])
    ensures Ops(s, moves) == Ops(s, opening)
  {
    TwoColumnsAreFilled();
    hide Ops, Exec, Legal, GuardedRun, PlanCreate, PlanMove, PlanDropLast, TwoColumns, FilledTable;
    var t;
    moves, t := Then(s, opening, a, Complete, lim);
  }

  /** One agent prepares any number of tables. */
  lemma {:induction false} CreateMany(s: State, a: nat, n: nat, lim: Limits) returns (moves: seq<Move>)
    requires Quiet(s) && a < |s.agents|
    requires s.tableCount + n <= Capacity(s) && s.tableCount + n <= lim.maxTables
    ensures GuardedRun(s, moves) && Legal(s, moves, lim) && OneWorker(moves, a)
    ensures var t := Exec(s, moves);
      Quiet(t) && |t.agents| == |s.agents| && Capacity(t) == Capacity(s) && t.tableCount == s.tableCount + n
    decreases n
  {
    NoSteps(s, lim);
    hide Ops, Exec, ActionRun, DdlRun, Runs, GuardedRun, Quiet;
    if n == 0 {
      moves := [];
    } else {
      var first := CreateAlone(s, a, lim);
      var rest := CreateMany(Exec(s, first), a, n - 1, lim);
      Concat(s, first, rest, lim);
      moves := first + rest;
    }
  }

  // ------------------------------------------------------------------ two overlapping DROPs

  /** DropTable::execute by an idle agent, up to the first read of size() inside complete(). */
  lemma OpenDrop(s: State, a: nat, i: nat, lim: Limits) returns (moves: seq<Move>)
    requires Shape(s) && a < |s.agents| && s.agents[a] == Idle && i < s.tableCount && s.tableCount > lim.minTables
    requires s.locks[i] == None && s.shared[i] == {} && s.tables[i].Some?
    ensures GuardedRun(s, moves) && Legal(s, moves, lim) && Ops(s, moves) == []
    ensures Exec(s, moves) == s.(
      agents := s.agents[a := DropTest(i, s.tables[i].value)], locks := s.locks[i := Some(a)])
  {
    hide Ops, Exec, Legal, GuardedRun, PlanCreate, PlanMove, PlanDropLast;
    var t;
    var held := s.(locks := s.locks[i := Some(a)]);
    var r := s.tables[i].value;
    moves := LockSlot(s, a, i, lim);
    moves, t := Then(s, moves, a, Go, lim);
    assert t == held.(agents := s.agents[a := Open(i, true, r, r)]);
    moves, t := Then(s, moves, a, Complete, lim);
  }

  lemma LockSlot(s: State, a: nat, i: nat, lim: Limits) returns (moves: seq<Move>)
    requires Shape(s) && a < |s.agents| && s.agents[a] == Idle && i < s.tableCount && s.tableCount > lim.minTables
    requires s.locks[i] == None && s.shared[i] == {}
    ensures GuardedRun(s, moves) && Legal(s, moves, lim) && Ops(s, moves) == []
    ensures Exec(s, moves) == s.(agents := s.agents[a := SlotRead(i, true)], locks := s.locks[i := Some(a)])
  {
    hide Ops, Exec, Legal, GuardedRun, PlanCreate, PlanMove, PlanDropLast;
    var t;
    moves := PickSlot(s, a, i, lim);
    moves, t := Then(s, moves, a, Go, lim);
  }

  lemma PickSlot(s: State, a: nat, i: nat, lim: Limits) returns (moves: seq<Move>)
    requires Shape(s) && a < |s.agents| && s.agents[a] == Idle && i < s.tableCount && s.tableCount > lim.minTables
    ensures GuardedRun(s, moves) && Legal(s, moves, lim) && Ops(s, moves) == []
    ensures Exec(s, moves) == s.(agents := s.agents[a := SlotWait(i, true)])
  {
    NoSteps(s, lim);
    hide Ops, Exec, Legal, GuardedRun, PlanCreate, PlanMove, PlanDropLast;
    var t;
    moves, t := Then(s, [], a, BeginDrop, lim);
    assert t == s.(agents := s.agents[a := DropPick]);
    moves, t := Then(s, moves, a, Pick(i), lim);
  }

  /**
   * The double read at 74 and 95 is a real deadlock, and the actions run into it: on every quiet directory on which
   * DROP is allowed at all, with two tables and two workers, the last two tables dropped at the same time will do.
   */
  lemma DropsCollide(s: State, lim: Limits) returns (moves: seq<Move>)
    requires Quiet(s) && |s.agents| >= 2 && s.tableCount >= 2 && s.tableCount > lim.minTables
    ensures GuardedRun(s, moves) && Legal(s, moves, lim)
    ensures Inv(Exec(s, moves)) && |Exec(s, moves).agents| == |s.agents| && SelfWaits(Exec(s, moves).agents[0])
    ensures Deadlocked(Exec(s, moves), {0})
  {
    QuietCounts(s);
    hide Ops, Exec, Legal, GuardedRun, Inv, Quiet, PlanCreate, PlanCall, PlanDropLast, Deadlocked;
    moves := FirstDropReads(s, lim);
    var t := Exec(s, moves);
    var other := SecondDropCounts(t, lim);
    Concat(s, moves, other, lim);
    moves := moves + other;
    t := Exec(s, moves);
    SecondReadFindsOwnSlot(t, lim);
    hide Step, PlanMove, Plan, Enabled;
    moves, t := Then(s, moves, 0, Go, lim);
    QuietInv(s);
    RunInv(s, moves);
    SelfWaitIsDeadlock(t, 0);
  }

  lemma SecondReadFindsOwnSlot(s: State, lim: Limits)
    requires |s.agents| >= 1 && s.agents[0].DropReadLast? && s.agents[0].slot == s.tableCount - 1
    ensures Enabled(s, 0, Go) && Guarded(s, 0) && SelfWaits(Step(s, 0, Go).agents[0])
    ensures ActionMove(s, Move(0, Go), lim) && DdlMove(s, Move(0, Go))
    ensures |Step(s, 0, Go).agents| == |s.agents|
  {
  }

  lemma QuietInv(s: State)
    requires Quiet(s)
    ensures Inv(s) && forall b :: 0 <= b < |s.agents| ==> s.agents[b] == Idle
  {
  }

  lemma FirstDropReads(s: State, lim: Limits) returns (moves: seq<Move>)
    requires Shape(s) && |s.agents| >= 2 && s.tableCount >= 2 && s.tableCount > lim.minTables && s.agents[0] == Idle
    requires var i := s.tableCount - 2; s.locks[i] == None && s.shared[i] == {} && s.tables[i].Some?
    ensures GuardedRun(s, moves) && Legal(s, moves, lim)
    ensures var i := s.tableCount - 2;
      Exec(s, moves) == s.(agents := s.agents[0 := DropReadLast(i, s.tables[i].value)], locks := s.locks[i := Some(0)])
  {
    hide Ops, Exec, Legal, GuardedRun, PlanCreate, PlanMove;
    moves := OpenDrop(s, 0, s.tableCount - 2, lim);
    var t;
    moves, t := Then(s, moves, 0, Go, lim);
  }

  lemma SecondDropCounts(s: State, lim: Limits) returns (moves: seq<Move>)
    requires Shape(s) && |s.agents| >= 2 && s.tableCount >= 2 && s.tableCount > lim.minTables && s.agents[1] == Idle
    requires var i := s.tableCount - 1; s.locks[i] == None && s.shared[i] == {} && s.tables[i].Some?
    ensures GuardedRun(s, moves) && Legal(s, moves, lim)
    ensures var i := s.tableCount - 1;
      Exec(s, moves).agents == s.agents[1 := LastReserve(i)] && Exec(s, moves).tableCount == i
  {
    hide Ops, Exec, Legal, GuardedRun, PlanCreate, PlanMove, PlanCall;
    var t;
    moves := SecondDropClears(s, lim);
    moves, t := Then(s, moves, 1, Go, lim);
  }

  lemma SecondDropClears(s: State, lim: Limits) returns (moves: seq<Move>)
    requires Shape(s) && |s.agents| >= 2 && s.tableCount >= 2 && s.tableCount > lim.minTables && s.agents[1] == Idle
    requires var i := s.tableCount - 1; s.locks[i] == None && s.shared[i] == {} && s.tables[i].Some?
    ensures GuardedRun(s, moves) && Legal(s, moves, lim)
    ensures var i := s.tableCount - 1;
      Exec(s, moves).agents == s.agents[1 := LastCount(i)] && Exec(s, moves).tableCount == s.tableCount
  {
    hide Ops, Exec, Legal, GuardedRun, PlanCreate, PlanMove, PlanCall;
    var t;
    moves := SecondDropFindsLast(s, lim);
    moves, t := Then(s, moves, 1, Go, lim);
  }

  lemma SecondDropFindsLast(s: State, lim: Limits) returns (moves: seq<Move>)
    requires Shape(s) && |s.agents| >= 2 && s.tableCount >= 2 && s.tableCount > lim.minTables && s.agents[1] == Idle
    requires var i := s.tableCount - 1; s.locks[i] == None && s.shared[i] == {} && s.tables[i].Some?
    ensures GuardedRun(s, moves) && Legal(s, moves, lim)
    ensures var i := s.tableCount - 1;
      Exec(s, moves) == s.(agents := s.agents[1 := LastClear(i, s.tables[i].value)], locks := s.locks[i := Some(1)])
  {
    hide Ops, Exec, Legal, GuardedRun, PlanCreate, PlanMove, PlanCall;
    var t;
    moves := OpenDrop(s, 1, s.tableCount - 1, lim);
    moves, t := Then(s, moves, 1, Go, lim);
  }

  /** It is reachable from the empty directory by two creates and two drops. */
  lemma DoubleReadDeadlocks(s: State) returns (moves: seq<Move>)
    requires Init(s) && |s.agents| >= 2 && Capacity(s) >= 2
    ensures GuardedRun(s, moves) && Legal(s, moves, Limits(0, 2))
    ensures exists group :: Deadlocked(Exec(s, moves), group)
  {
    InitInv(s);
    assert Quiet(s);
    hide Ops, Exec, ActionRun, DdlRun, Runs, GuardedRun, Quiet, Inv, Deadlocked;
    var prep := CreateMany(s, 0, 2, Limits(0, 2));
    var drops := DropsCollide(Exec(s, prep), Limits(0, 2));
    Concat(s, prep, drops, Limits(0, 2));
    moves := prep + drops;
  }

  // ------------------------------------------------------------------ two CREATEs on an empty directory

  /** complete() up to the lock of slot 0, having seen an empty directory. */
  lemma SeesEmpty(s: State, a: nat, o: Ref, lim: Limits) returns (moves: seq<Move>)
    requires a < |s.agents| && s.agents[a] == CreateOpen(o) && s.tableCount == 0
    requires o < |s.heap| && s.heap[o].body == TwoColumns()
    ensures GuardedRun(s, moves) && Legal(s, moves, lim)
    ensures Exec(s, moves) == s.(agents := s.agents[a := CommitLockNext(o, 0, false)])
  {
    NoSteps(s, lim);
    hide Ops, Exec, Legal, GuardedRun, PlanMove, PlanDropLast, TwoColumns;
    var t;
    moves := CallComplete(s, [], a, o, lim);
    moves, t := Then(s, moves, a, Go, lim);
    assert t == s.(agents := s.agents[a := CommitTest(o, 0)]);
    moves, t := Then(s, moves, a, Go, lim);
  }

  /** The rest of complete() without the lock of a last slot. */
  lemma FinishUnlocked(s: State, a: nat, o: Ref, lim: Limits) returns (moves: seq<Move>)
    requires Shape(s) && a < |s.agents| && s.agents[a] == CommitLockNext(o, 0, false) && Capacity(s) >= 1
    requires s.locks[0] == None && s.shared[0] == {}
    ensures Legal(s, moves, lim)
    ensures Exec(s, moves) == s.(
      agents := s.agents[a := Idle], tables := s.tables[0 := Some(o)], tableCount := s.tableCount + 1)
  {
    hide Ops, Exec, Legal, GuardedRun, PlanCall, PlanMove, PlanDropLast;
    var t;
    var stored := s.(locks := s.locks[0 := Some(a)], tables := s.tables[0 := Some(o)]);
    moves := StoreUnlocked(s, a, o, lim);
    moves, t := Then(s, moves, a, Go, lim);
    assert t == stored.(agents := s.agents[a := CommitUnlockNext(0, false)], tableCount := s.tableCount + 1);
    moves, t := Then(s, moves, a, Go, lim);
    assert stored.locks[0 := None] == s.locks;
  }

  lemma StoreUnlocked(s: State, a: nat, o: Ref, lim: Limits) returns (moves: seq<Move>)
    requires Shape(s) && a < |s.agents| && s.agents[a] == CommitLockNext(o, 0, false) && Capacity(s) >= 1
    requires s.locks[0] == None && s.shared[0] == {}
    ensures Legal(s, moves, lim)
    ensures Exec(s, moves) == s.(
      agents := s.agents[a := CommitCount(o, 0, false)], tables := s.tables[0 := Some(o)],
      locks := s.locks[0 := Some(a)])
  {
    NoSteps(s, lim);
    hide Ops, Exec, Legal, GuardedRun, PlanCall, PlanMove, PlanDropLast;
    var t;
    moves, t := Then(s, [], a, Go, lim);
    assert t == s.(agents := s.agents[a := CommitStore(o, 0, false)], locks := s.locks[0 := Some(a)]);
    moves, t := Then(s, moves, a, Go, lim);
  }

  /**
   * Without the guard the protocol is broken: two CREATEs that overlap on an empty directory both store into slot 0.
   * Both complete, yet one of the tables is lost and the second of the two counted slots is null.
   */
  lemma OverlappingCreatesLoseATable(s: State, lim: Limits) returns (moves: seq<Move>)
    requires Init(s) && |s.agents| == 2 && Capacity(s) >= 2 && lim.maxTables >= 1
    ensures Legal(s, moves, lim)
    ensures var t := Exec(s, moves);
      && t.agents == [Idle, Idle] && t.tableCount == 2
      && |t.tables| >= 2 && t.tables[0] == Some(1) && Hole(t, 1)
      && forall k :: 0 <= k < |t.tables| ==> t.tables[k] != Some(0)
  {
    hide Ops, Exec, ActionRun, DdlRun, Runs, GuardedRun, Step, Enabled, TwoColumns;
    var first := OpenCreate(s, 0, lim);
    var t1 := Exec(s, first);
    var second := OpenCreate(t1, 1, lim);
    var t2 := Exec(t1, second);
    var third := SeesEmpty(t2, 0, 0, lim);
    var t3 := Exec(t2, third);
    var fourth := SeesEmpty(t3, 1, 1, lim);
    var t4 := Exec(t3, fourth);
    var fifth := FinishUnlocked(t4, 0, 0, lim);
    var t5 := Exec(t4, fifth);
    var sixth := FinishUnlocked(t5, 1, 1, lim);
    Concat(t4, fifth, sixth, lim);
    Concat(t3, fourth, fifth + sixth, lim);
    Concat(t2, third, fourth + (fifth + sixth), lim);
    Concat(t1, second, third + (fourth + (fifth + sixth)), lim);
    Concat(s, first, second + (third + (fourth + (fifth + sixth))), lim);
    moves := first + (second + (third + (fourth + (fifth + sixth))));
  }

  // ------------------------------------------------------------------ the two reads of CREATE

  /** The first read of size() in complete() of an open CREATE reservation. */
  lemma ReadSize(s: State, opening: seq<Move>, a: nat, o: Ref, lim: Limits) returns (moves: seq<Move>)
    requires GuardedRun(s, opening) && Legal(s, opening, lim)
    requires var t := Exec(s, opening);
      a < |t.agents| && t.agents[a] == CreateOpen(o) && o < |t.heap| && t.heap[o].body == TwoColumns()
    ensures GuardedRun(s, moves) && Legal(s, moves, lim)
    ensures var t := Exec(s, opening); Exec(s, moves) == t.(agents := t.agents[a := CommitTest(o, t.tableCount)])
  {
    hide Ops, Exec, Legal, GuardedRun, PlanMove, PlanDropLast, PlanCall, TwoColumns;
    moves := CallComplete(s, opening, a, o, lim);
    var t;
    moves, t := Then(s, moves, a, Go, lim);
  }

  /**
   * Zero at line 131 and not zero at line 132: another CREATE commits in between.  From the fresh directory, by the
   * actions alone, the agent arrives at the lock of slot -1 and can never go on.
   */
  lemma ReadsZeroThenOne(s: State, lim: Limits) returns (moves: seq<Move>)
    requires Init(s) && |s.agents| >= 2 && Capacity(s) >= 2 && lim.maxTables >= 1
    ensures Legal(s, moves, lim)
    ensures var t := Exec(s, moves);
      && t.tableCount == 1 && |t.agents| == |s.agents| && t.agents[0] == CommitLockLast(0, 0) && !CanMove(t, 0)
  {
    hide Ops, Exec, ActionRun, DdlRun, Runs, GuardedRun, Step, Enabled, TwoColumns;
    moves := OpenCreate(s, 0, lim);
    var t1 := Exec(s, moves);
    var second := OpenCreate(t1, 1, lim);
    Concat(s, moves, second, lim);
    moves := moves + second;
    moves := ReadSize(s, moves, 0, 0, lim);
    var t2 := Exec(s, moves);
    var third := SeesEmpty(t2, 1, 1, lim);
    Concat(s, moves, third, lim);
    moves := moves + third;
    var t3 := Exec(s, moves);
    var fourth := FinishUnlocked(t3, 1, 1, lim);
    Concat(s, moves, fourth, lim);
    moves := moves + fourth;
    moves := TestsNonEmpty(s, moves, 0, 0, lim);
    EmptyReadThenNonEmptyIsStuck(Exec(s, moves), [], 0);
  }

  /** The second read, on a directory that is not empty. */
  lemma TestsNonEmpty(s: State, opening: seq<Move>, a: nat, o: Ref, lim: Limits) returns (moves: seq<Move>)
    requires Legal(s, opening, lim)
    requires var t := Exec(s, opening); a < |t.agents| && t.agents[a] == CommitTest(o, 0) && t.tableCount != 0
    ensures Legal(s, moves, lim)
    ensures var t := Exec(s, opening); Exec(s, moves) == t.(agents := t.agents[a := CommitLockLast(o, 0)])
    ensures Runs(Exec(s, moves), [])
  {
    hide Ops, Exec, Legal, GuardedRun, PlanMove, PlanDropLast, PlanCall;
    var t;
    moves, t := Then(s, opening, a, Go, lim);
  }

  /**
   * Not zero at line 131 and zero at line 132: the last table is dropped in between.  From the fresh directory, by the
   * actions alone, the CREATE stores its table behind the end and leaves a hole in slot 0.
   */
  lemma ReadsOneThenZero(s: State, lim: Limits) returns (moves: seq<Move>)
    requires Init(s) && |s.agents| >= 2 && Capacity(s) >= 2 && lim.minTables == 0 && lim.maxTables >= 2
    ensures Legal(s, moves, lim) && Hole(Exec(s, moves), 0)
  {
    InitInv(s);
    assert Quiet(s);
    hide Ops, Exec, ActionRun, DdlRun, Runs, GuardedRun, Inv, Guarded, Alone, Quiet, Aside, Hole;
    moves := CreateAlone(s, 0, lim);
    moves := OneTableRead(s, moves, lim);
    moves := LastTableDropped(s, moves, lim);
    var t := Exec(s, moves);
    FreeWhenAside(t);
    InvShape(t);
    var rest := NonEmptyReadThenEmptyLeavesHole(t, 0);
    GoRunsAreLegal(t, rest, lim);
    Concat(s, moves, rest, lim);
    moves := moves + rest;
  }

  lemma OneTableRead(s: State, opening: seq<Move>, lim: Limits) returns (moves: seq<Move>)
    requires GuardedRun(s, opening) && Legal(s, opening, lim) && Inv(s)
    requires var t := Exec(s, opening);
      Quiet(t) && |t.agents| >= 2 && Capacity(t) >= 2 && t.tableCount == 1 && lim.maxTables >= 2
    ensures GuardedRun(s, moves) && Legal(s, moves, lim)
    ensures var t := Exec(s, moves);
      && Inv(t) && |t.agents| >= 2 && Capacity(t) >= 2 && t.tableCount == 1 && t.agents[0].CommitTest?
      && t.agents[0].next == 1 && t.agents[1] == Idle && forall b :: 1 <= b < |t.agents| ==> t.agents[b] == Idle
  {
    hide Ops, Exec, ActionRun, DdlRun, Runs, GuardedRun, Inv, TwoColumns, Quiet;
    var t := Exec(s, opening);
    QuietInv(t);
    QuietCounts(t);
    var second := OpenCreate(t, 0, lim);
    Concat(s, opening, second, lim);
    moves := opening + second;
    hide Legal;
    moves := ReadSize(s, moves, 0, |t.heap|, lim);
    RunInv(s, moves);
  }

  lemma LastTableDropped(s: State, opening: seq<Move>, lim: Limits) returns (moves: seq<Move>)
    requires GuardedRun(s, opening) && Legal(s, opening, lim) && lim.minTables == 0
    requires var t := Exec(s, opening);
      && Inv(t) && |t.agents| >= 2 && Capacity(t) >= 2 && t.tableCount == 1 && t.agents[0].CommitTest?
      && t.agents[0].next == 1 && forall b :: 1 <= b < |t.agents| ==> t.agents[b] == Idle
    ensures GuardedRun(s, moves) && Legal(s, moves, lim)
    ensures var t := Exec(s, moves);
      && Inv(t) && |t.agents| >= 2 && Capacity(t) >= 2 && t.tableCount == 0 && t.agents[0].CommitTest?
      && t.agents[0].next == 1 && forall b :: 0 <= b < |t.agents| ==> Aside(t.agents[b])
  {
    hide Ops, Exec, ActionRun, DdlRun, Runs, GuardedRun, Inv;
    var t := Exec(s, opening);
    var drop := DropTheOnly(t, lim);
    Concat(s, opening, drop, lim);
    moves := opening + drop;
  }

  lemma DropTheOnly(s: State, lim: Limits) returns (moves: seq<Move>)
    requires Inv(s) && |s.agents| >= 2 && Capacity(s) >= 2 && s.tableCount == 1 && lim.minTables == 0
    requires s.agents[0].CommitTest? && forall b :: 1 <= b < |s.agents| ==> s.agents[b] == Idle
    ensures GuardedRun(s, moves) && Legal(s, moves, lim)
    ensures var t := Exec(s, moves);
      && Inv(t) && |t.agents| == |s.agents| && Capacity(t) == Capacity(s) && t.tableCount == 0
      && t.agents[0] == s.agents[0] && forall b :: 1 <= b < |t.agents| ==> t.agents[b] == Idle
  {
    hide Ops, Exec, ActionRun, DdlRun, Runs, GuardedRun, Inv, Alone, Change, Owes, Committing;
    FreeWhenAside(s);
    InvShape(s);
    var drop := OpenDrop(s, 1, 0, lim);
    RunInv(s, drop);
    var t := Exec(s, drop);
    DropperAlone(s, t);
    WhatDropOwes(0, s.tables[0].value);
    var rest := FinishAlone(t, 1, lim);
    Concat(s, drop, rest, lim);
    moves := drop + rest;
  }

  lemma DropperAlone(s: State, t: State)
    requires |s.agents| >= 2 && s.agents[0].CommitTest? && forall b :: 1 <= b < |s.agents| ==> s.agents[b] == Idle
    requires |t.agents| == |s.agents| && t.agents == s.agents[1 := t.agents[1]] && t.agents[1].DropTest?
    ensures Alone(t, 1)
  {
    assert OthersAside(t, 1);
  }

  /** Agents that stand aside hold no lock, so the array is dense and free. */
  lemma FreeWhenAside(s: State)
    requires Inv(s) && forall b :: 0 <= b < |s.agents| ==> Aside(s.agents[b])
    ensures forall k :: 0 <= k < Capacity(s) ==> s.locks[k] == None && s.shared[k] == {}
    ensures forall k :: 0 <= k < Capacity(s) ==> (s.tables[k].Some? <==> k < s.tableCount)
  {
    forall k | 0 <= k < Capacity(s)
      ensures s.locks[k] == None && s.shared[k] == {}
      ensures s.tables[k].Some? <==> k < s.tableCount
    {
      assert s.locks[k].Some? ==> Holds(s.agents[s.locks[k].value], k);
      assert DenseAt(s, k);
      assert forall b: nat :: b in s.shared[k] ==> ReadsSlot(s, b, k);
    }
  }

  /** Where the client decides nothing, every run is one of the actions. */
  lemma {:induction false} GoRunsAreLegal(s: State, moves: seq<Move>, lim: Limits)
    requires Runs(s, moves) && forall k :: 0 <= k < |moves| ==> moves[k].act == Go
    ensures Legal(s, moves, lim)
    decreases moves
  {
    if moves != [] {
      assert moves[0].act == Go;
      GoIsLegal(s, moves[0].agent, lim);
      hide Step, Enabled, ActionMove, DdlMove;
      GoRunsAreLegal(Step(s, moves[0].agent, moves[0].act), moves[1..], lim);
    }
  }

  lemma GoIsLegal(s: State, a: nat, lim: Limits)
    requires Enabled(s, a, Go)
    ensures ActionMove(s, Move(a, Go), lim) && DdlMove(s, Move(a, Go))
  {
  }

  // ------------------------------------------------------------------ losing the track

  /**
   * A CREATE that takes back the slot a table has left: from the fresh directory, by the actions alone and with no two
   * commits overlapping, two tables are created, the first is dropped and a third one is created.  The second table is
   * in slot 0 now, but the chase from its old slot, in the stored map, ends at the third.
   */
  lemma TakenSlotLosesTheTrack(s: State, lim: Limits) returns (prep: seq<Move>, moves: seq<Move>)
    requires Init(s) && |s.agents| >= 1 && Capacity(s) >= 2 && lim.minTables < 2 <= lim.maxTables
    ensures GuardedRun(s, prep) && Legal(s, prep, lim)
    ensures var t := Exec(s, prep); Quiet(t) && GuardedRun(t, moves) && Legal(t, moves, lim)
    ensures var t := Exec(s, prep); Quiet(Exec(t, moves)) && LosesTrack(t, Exec(t, moves))
  {
    InitInv(s);
    InitObjects(s);
    InitBackward(s);
    assert Quiet(s);
    hide Ops, Exec, ActionRun, DdlRun, Runs, GuardedRun, Inv, Guarded, Quiet, ObjInv, Backward, Init, LosesTrack;
    prep := CreateMany(s, 0, 2, lim);
    RunObjInv(s, prep);
    RunBackward(s, prep);
    var made;
    moves, made := DropThenCreate(Exec(s, prep), lim);
    LostToTheCreate(Exec(s, prep), moves, made);
  }

  /** The second of two tables is the first of two later on, but the stored map leads to the new second one. */
  ghost predicate LosesTrack(s: State, t: State) {
    && Shape(s) && Shape(t) && Length(s) == 2 && Length(t) == t.tableCount == 2 && Backward(t.moved)
    && Identities(t)[0] == Identities(s)[1] && Identities(t)[1] != Identities(s)[1]
    && Chase(t.moved, 1, 2) == Some(1)
  }

  lemma DropThenCreate(s: State, lim: Limits) returns (moves: seq<Move>, made: Ref)
    requires Quiet(s) && |s.agents| >= 1 && Capacity(s) >= 2 && s.tableCount == 2 && lim.minTables < 2 <= lim.maxTables
    ensures GuardedRun(s, moves) && Legal(s, moves, lim) && Ops(s, moves) == [Remove(0), Append(made)]
    ensures var t := Exec(s, moves); Quiet(t) && t.tableCount == 2
  {
    hide Ops, Exec, ActionRun, DdlRun, Runs, GuardedRun, Quiet;
    var drop := DropAlone(s, 0, 0, lim);
    var t := Exec(s, drop);
    made := |t.heap|;
    var create := CreateAlone(t, 0, lim);
    Concat(s, drop, create, lim);
    moves := drop + create;
  }

  lemma LostToTheCreate(s: State, moves: seq<Move>, made: Ref)
    requires Quiet(s) && ObjInv(s) && Backward(s.moved) && GuardedRun(s, moves) && Runs(s, moves) && s.tableCount == 2
    requires Quiet(Exec(s, moves)) && Exec(s, moves).tableCount == 2 && Ops(s, moves) == [Remove(0), Append(made)]
    ensures LosesTrack(s, Exec(s, moves))
  {
    var t := Exec(s, moves);
    QuietList(s);
    QuietList(t);
    hide Inv, ObjInv, Quiet, GuardedRun, Runs, Ops, Exec, Length, Forward, Directory, Identities, Untaken, Whereabouts;
    RunObjInv(s, moves);
    GuardedTail(s, moves);
    var id := IdOfEntry(s, 1);
    TrackTable(s, moves, id, 1);
    OutAndTaken(made);
    assert [Op<Ref>.Remove(0)] + [Append(made)] == [Remove(0), Append(made)];
    TrackExact(s, moves, [Remove(0)], Append(made), id, 1, 0);
    EntryApart(t, id);
  }

  lemma QuietList(s: State)
    requires Quiet(s)
    ensures Inv(s) && Shape(s) && Length(s) == s.tableCount && Forward(s) == s.moved
  {
    SettledForward(s);
  }

  lemma IdOfEntry(s: State, p: nat) returns (id: nat)
    requires Shape(s) && p < Length(s)
    ensures id == Identities(s)[p] && Found(s, id, p)
  {
    id := Identities(s)[p];
  }

  lemma EntryApart(s: State, id: nat)
    requires Shape(s) && ObjInv(s) && Length(s) == 2 && Found(s, id, 0)
    ensures Identities(s)[0] == id && Identities(s)[1] != id
  {
    assert Identities(s)[0] != Identities(s)[1];
  }

  lemma OutAndTaken(made: Ref)
    ensures Whereabouts([Remove(0), Append(made)], Some(1), 2) == Some(0)
    ensures Untaken([Remove(0)], Some(1), 2, None) && !Untaken([Remove(0), Append(made)], Some(1), 2, None)
  {
    var ops := [Remove(0), Append(made)];
    assert ops[1..] == [Append(made)] && ops[1..][1..] == [] && [Op<Ref>.Remove(0)][1..] == [];
    assert Shift(ops[0], Some(1), 2) == Some(0) && LeftBy(ops[0], 1, 2, None) == Some(1);
    assert Whereabouts(ops[1..], Some(0), 1) == Some(0);
    assert !Untaken(ops[1..], Some(0), 1, Some(1));
  }
}
