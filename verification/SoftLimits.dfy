/**
 * The soft limits of the DDL actions.  CREATE and DROP compare size() with their limit without any lock
 * (ddl.cpp 70 and 123) before they start; with W agents the races shift the limits by at most W - 1.
 */
module SoftLimits {
  import opened Counting
  import opened Protocol
  import opened Invariants
  import opened NonEmpty

  datatype Limits = Limits(minTables: nat, maxTables: nat)

  /** The agents only do what the DDL and DML actions do. */
  predicate ActionMove(s: State, m: Move, lim: Limits) {
    match m.act
    case BeginCreate => s.tableCount < lim.maxTables                   // ddl.cpp 70
    case BeginDrop => s.tableCount > lim.minTables                     // ddl.cpp 123
    case BeginSlot(i, drop) => !drop && i < s.tableCount               // ddl.cpp 148
    case Pick(i) => i < s.tableCount                                   // ddl.cpp 128
    case BeginRead(i) => i < s.tableCount                              // dml.cpp 49, 106, 133
    case _ => true
  }

  /** The actions create exactly below the limit, drop exactly above it, and choose any table there is. */
  lemma ActionsChooseAny(s: State, a: nat, i: nat, lim: Limits)
    ensures ActionMove(s, Move(a, BeginCreate), lim) <==> s.tableCount < lim.maxTables
    ensures ActionMove(s, Move(a, BeginDrop), lim) <==> s.tableCount > lim.minTables
    ensures i < s.tableCount <==> ActionMove(s, Move(a, BeginSlot(i, false)), lim)
    ensures i < s.tableCount <==> ActionMove(s, Move(a, Pick(i)), lim)
    ensures i < s.tableCount <==> ActionMove(s, Move(a, BeginRead(i)), lim)
  {
  }

  /** A run of the actions, interleaved in any way. */
  predicate ActionRun(s: State, moves: seq<Move>, lim: Limits)
    decreases moves
  {
    moves == [] ||
    (Enabled(s, moves[0].agent, moves[0].act) && ActionMove(s, moves[0], lim) &&
     ActionRun(Step(s, moves[0].agent, moves[0].act), moves[1..], lim))
  }

  lemma {:induction false} ActionRunsRun(s: State, moves: seq<Move>, lim: Limits)
    requires ActionRun(s, moves, lim)
    ensures Runs(s, moves)
    decreases moves
  {
    if moves != [] {
      ActionRunsRun(Step(s, moves[0].agent, moves[0].act), moves[1..], lim);
    }
  }

  // ------------------------------------------------------------------ the upper limit

  /** In-flight creates, from the passed check to the count, and half-finished drops. */
  function Pressing(pc: Pc): int {
    if pc.CreateStart? || pc.CreateBump? || Granted(pc) == 1 || HalfDropped(pc) == 1 then 1 else 0
  }

  /** Pressure never rises except when a size check passes. */
  lemma PlanPresses(s: State, a: nat, act: Act)
    requires Enabled(s, a, act)
    ensures var t := Step(s, a, act);
      t.tableCount + Pressing(t.agents[a]) <= s.tableCount + Pressing(s.agents[a]) + (if act.BeginCreate? then 1 else 0)
    ensures act.BeginCreate? ==> Step(s, a, act).tableCount == s.tableCount
  {
    var pc := s.agents[a];
    if CommitsCreate(pc) {
      assert Plan(s, pc, act) == PlanCreate(s, pc);
    } else if MovesLast(pc) {
      assert Plan(s, pc, act) == PlanMove(s, pc);
    } else if CommitsDrop(pc) {
      assert Plan(s, pc, act) == PlanDropLast(s, pc);
    } else {
      assert Plan(s, pc, act) == PlanCall(s, pc, act);
    }
  }

  predicate BelowMax(s: State, lim: Limits) {
    s.tableCount + Sum(s.agents, Pressing) <= lim.maxTables + |s.agents| - 1
  }

  lemma BelowMaxStep(s: State, a: nat, act: Act, lim: Limits)
    requires Enabled(s, a, act) && ActionMove(s, Move(a, act), lim) && BelowMax(s, lim)
    ensures BelowMax(Step(s, a, act), lim)
  {
    var t := Step(s, a, act);
    PlanPresses(s, a, act);
    SumUpdate(s.agents, a, t.agents[a], Pressing);
    if act.BeginCreate? {
      SumAtMostLength(t.agents, Pressing);
    }
  }

  /**
   * The upper soft limit: with W agents, the tables plus the creates in flight plus the half-finished drops never
   * exceed max_table_count + W - 1.
   */
  lemma {:induction false} UpperLimit(s: State, moves: seq<Move>, lim: Limits)
    requires ActionRun(s, moves, lim) && BelowMax(s, lim)
    ensures Runs(s, moves) && BelowMax(Exec(s, moves), lim)
    decreases moves
  {
    ActionRunsRun(s, moves, lim);
    if moves != [] {
      BelowMaxStep(s, moves[0].agent, moves[0].act, lim);
      UpperLimit(Step(s, moves[0].agent, moves[0].act), moves[1..], lim);
    }
  }

  lemma InitBelowMax(s: State, lim: Limits)
    requires Init(s) && |s.agents| + lim.maxTables >= 1
    ensures BelowMax(s, lim)
  {
    IdleSum(s.agents, Pressing);
  }

  /** No CREATE is over the limit or about to be refused. */
  ghost predicate NoRefusal(s: State) {
    forall b :: 0 <= b < |s.agents| ==> s.agents[b] != CreateUndo
  }

  lemma ReservedFits(s: State, a: nat, lim: Limits)
    requires Conserved(s) && BelowMax(s, lim) && NoRefusal(s) && lim.maxTables + |s.agents| - 1 <= Capacity(s)
    requires a < |s.agents| && (s.agents[a].CreateStart? || s.agents[a].CreateBump?)
    ensures s.reservedSize + 1 <= Capacity(s)
  {
    var rest := s.agents[a := Idle];
    SumUpdate(s.agents, a, Idle, Charge);
    SumUpdate(s.agents, a, Idle, Pressing);
    SumOrdered(rest, Charge, Pressing);
  }

  lemma PlanGrants(s: State, a: nat, act: Act)
    requires Enabled(s, a, act)
    requires s.agents[a].CreateStart? || s.agents[a].CreateBump? ==> s.reservedSize + 1 <= Capacity(s)
    requires s.agents[a] != CreateUndo
    ensures Step(s, a, act).agents[a] != CreateUndo
    ensures s.agents[a].CreateStart? ==> Step(s, a, act).agents[a] == CreateBump
    ensures s.agents[a].CreateBump? ==> Step(s, a, act).agents[a] == CreateAlloc
  {
  }

  /** createTable() always yields a table: its reservation is open, so the action may use the table. */
  lemma NoRefusalStep(s: State, a: nat, act: Act, lim: Limits)
    requires Enabled(s, a, act) && Conserved(s) && BelowMax(s, lim) && NoRefusal(s)
    requires lim.maxTables + |s.agents| - 1 <= Capacity(s)
    ensures NoRefusal(Step(s, a, act))
    ensures s.agents[a].CreateStart? ==> Step(s, a, act).agents[a] == CreateBump
    ensures s.agents[a].CreateBump? ==> Step(s, a, act).agents[a] == CreateAlloc
  {
    if s.agents[a].CreateStart? || s.agents[a].CreateBump? {
      ReservedFits(s, a, lim);
    }
    PlanGrants(s, a, act);
  }

  /** If max_table_count + W - 1 fits the array, no CREATE of a run is ever refused. */
  lemma {:induction false} CreatesAreNeverRefused(s: State, moves: seq<Move>, lim: Limits)
    requires Conserved(s) && BelowMax(s, lim) && NoRefusal(s) && ActionRun(s, moves, lim)
    requires lim.maxTables + |s.agents| - 1 <= Capacity(s)
    ensures Runs(s, moves) && NoRefusal(Exec(s, moves))
    ensures Refusals(s, moves) == 0
    decreases moves
  {
    ActionRunsRun(s, moves, lim);
    if moves != [] {
      var a, act := moves[0].agent, moves[0].act;
      BelowMaxStep(s, a, act, lim);
      NoRefusalStep(s, a, act, lim);
      ConservedKept(s, a, act);
      CreatesAreNeverRefused(Step(s, a, act), moves[1..], lim);
    }
  }

  /** How many createTable() calls of a run return a reservation that is not open. */
  function Refusals(s: State, moves: seq<Move>): nat
    requires Runs(s, moves)
    decreases moves
  {
    if moves == [] then 0
    else
      var a := moves[0].agent;
      var t := Step(s, a, moves[0].act);
      (if (s.agents[a].CreateStart? && t.agents[a] == Idle) || t.agents[a] == CreateUndo then 1 else 0)
      + Refusals(t, moves[1..])
  }

  // ------------------------------------------------------------------ the lower limit

  /** Drops that have passed their size check and not been counted yet. */
  function Dropping(pc: Pc): int {
    if pc.DropPick? ||
       ((pc.SlotWait? || pc.SlotRead? || pc.Open?) && pc.drop) ||
       pc.DropTest? || pc.LastClear? || pc.LastCount? || SearchesLast(pc) || pc.MoveStore? || pc.MoveUnlock? ||
       pc.MoveCount?
    then 1 else 0
  }

  lemma PlanDrops(s: State, a: nat, act: Act, lim: Limits)
    requires Enabled(s, a, act) && ActionMove(s, Move(a, act), lim)
    ensures var t := Step(s, a, act);
      t.tableCount - Dropping(t.agents[a]) >= s.tableCount - Dropping(s.agents[a]) - (if act.BeginDrop? then 1 else 0)
    ensures act.BeginDrop? ==> Step(s, a, act).tableCount == s.tableCount
  {
    var pc := s.agents[a];
    if CommitsCreate(pc) {
      assert Plan(s, pc, act) == PlanCreate(s, pc);
    } else if MovesLast(pc) {
      assert Plan(s, pc, act) == PlanMove(s, pc);
    } else if CommitsDrop(pc) {
      assert Plan(s, pc, act) == PlanDropLast(s, pc);
    } else {
      assert Plan(s, pc, act) == PlanCall(s, pc, act);
    }
  }

  predicate AboveMin(s: State, lim: Limits) {
    s.tableCount - Sum(s.agents, Dropping) >= lim.minTables + 1 - |s.agents|
  }

  lemma AboveMinStep(s: State, a: nat, act: Act, lim: Limits)
    requires Enabled(s, a, act) && ActionMove(s, Move(a, act), lim) && AboveMin(s, lim)
    ensures AboveMin(Step(s, a, act), lim)
  {
    var t := Step(s, a, act);
    PlanDrops(s, a, act, lim);
    SumUpdate(s.agents, a, t.agents[a], Dropping);
    if act.BeginDrop? {
      SumAtMostLength(t.agents, Dropping);
    }
  }

  lemma {:induction false} StaysAboveMin(s: State, moves: seq<Move>, lim: Limits)
    requires ActionRun(s, moves, lim) && AboveMin(s, lim)
    ensures Runs(s, moves) && AboveMin(Exec(s, moves), lim) && |Exec(s, moves).agents| == |s.agents|
    decreases moves
  {
    ActionRunsRun(s, moves, lim);
    if moves != [] {
      AboveMinStep(s, moves[0].agent, moves[0].act, lim);
      StaysAboveMin(Step(s, moves[0].agent, moves[0].act), moves[1..], lim);
    }
  }

  /** Drops are under way only above the limit: each has passed the check, and fewer than W others were under way. */
  predicate DropsAbove(s: State, lim: Limits) {
    Sum(s.agents, Dropping) > 0 ==> AboveMin(s, lim)
  }

  lemma InitDropsAbove(s: State, lim: Limits)
    requires Init(s)
    ensures DropsAbove(s, lim)
  {
    IdleSum(s.agents, Dropping);
  }

  lemma DropsAboveStep(s: State, a: nat, act: Act, lim: Limits)
    requires Enabled(s, a, act) && ActionMove(s, Move(a, act), lim) && DropsAbove(s, lim)
    ensures DropsAbove(Step(s, a, act), lim)
  {
    var t := Step(s, a, act);
    SumNonNegative(s.agents, Dropping);
    SumUpdate(s.agents, a, t.agents[a], Dropping);
    if act.BeginDrop? {
      PlanDrops(s, a, act, lim);
      SumAtMostLength(t.agents, Dropping);
    } else if AboveMin(s, lim) {
      AboveMinStep(s, a, act, lim);
    } else {
      OnlyTheCheckStartsDrops(s, a, act, lim);
    }
  }

  lemma OnlyTheCheckStartsDrops(s: State, a: nat, act: Act, lim: Limits)
    requires Enabled(s, a, act) && ActionMove(s, Move(a, act), lim) && !act.BeginDrop?
    ensures Dropping(Step(s, a, act).agents[a]) <= Dropping(s.agents[a])
  {
    var pc := s.agents[a];
    if CommitsCreate(pc) {
      assert Plan(s, pc, act) == PlanCreate(s, pc);
    } else if MovesLast(pc) {
      assert Plan(s, pc, act) == PlanMove(s, pc);
    } else if CommitsDrop(pc) {
      assert Plan(s, pc, act) == PlanDropLast(s, pc);
    } else {
      assert Plan(s, pc, act) == PlanCall(s, pc, act);
    }
  }

  lemma {:induction false} DropsAboveRun(s: State, moves: seq<Move>, lim: Limits)
    requires ActionRun(s, moves, lim) && DropsAbove(s, lim)
    ensures Runs(s, moves) && DropsAbove(Exec(s, moves), lim) && |Exec(s, moves).agents| == |s.agents|
    decreases moves
  {
    ActionRunsRun(s, moves, lim);
    if moves != [] {
      DropsAboveStep(s, moves[0].agent, moves[0].act, lim);
      DropsAboveRun(Step(s, moves[0].agent, moves[0].act), moves[1..], lim);
    }
  }

  /**
   * The lower soft limit: once the number of tables has reached min_table_count + 1 - W, it never falls below that
   * again, whatever drops are already under way at that moment.
   */
  lemma LowerLimit(s: State, moves: seq<Move>, lim: Limits)
    requires ActionRun(s, moves, lim) && DropsAbove(s, lim)
    requires s.tableCount >= lim.minTables + 1 - |s.agents|
    ensures Runs(s, moves) && AboveMin(Exec(s, moves), lim) && |Exec(s, moves).agents| == |s.agents|
    ensures Exec(s, moves).tableCount >= lim.minTables + 1 - |s.agents|
  {
    SumNonNegative(s.agents, Dropping);
    assert AboveMin(s, lim);
    StaysAboveMin(s, moves, lim);
    SumNonNegative(Exec(s, moves).agents, Dropping);
  }

  /** The same from the fresh directory: any run of the actions that reaches the limit keeps it ever after. */
  lemma OnceReachedForever(s: State, before: seq<Move>, after: seq<Move>, lim: Limits)
    requires Init(s) && ActionRun(s, before, lim) && Runs(s, before) && ActionRun(Exec(s, before), after, lim)
    requires Exec(s, before).tableCount >= lim.minTables + 1 - |s.agents|
    ensures Runs(Exec(s, before), after)
    ensures Exec(Exec(s, before), after).tableCount >= lim.minTables + 1 - |s.agents|
  {
    InitDropsAbove(s, lim);
    DropsAboveRun(s, before, lim);
    LowerLimit(Exec(s, before), after, lim);
  }

  /** A directory nobody is using that holds enough tables is above the limit. */
  lemma SettledAboveMin(s: State, lim: Limits)
    requires forall b :: 0 <= b < |s.agents| ==> s.agents[b] == Idle
    requires s.tableCount >= lim.minTables + 1 - |s.agents|
    ensures AboveMin(s, lim)
  {
    IdleSum(s.agents, Dropping);
  }

  /** With no more agents than min_table_count, the directory never empties, so all guarded-run theorems apply. */
  lemma {:induction false} EnoughTablesGuard(s: State, moves: seq<Move>, lim: Limits)
    requires Inv(s) && AllSeenRightly(s) && ActionRun(s, moves, lim) && AboveMin(s, lim)
    requires |s.agents| <= lim.minTables
    ensures NonEmptyRun(s, moves) && GuardedRun(s, moves)
    ensures Runs(s, moves) && AllSeenRightly(Exec(s, moves))
    decreases moves
  {
    ActionRunsRun(s, moves, lim);
    SumNonNegative(s.agents, Dropping);
    if moves != [] {
      var a, act := moves[0].agent, moves[0].act;
      AboveMinStep(s, a, act, lim);
      var t := Step(s, a, act);
      SumNonNegative(t.agents, Dropping);
      StepSeesRightly(s, a, act);
      EnoughTablesGuard(t, moves[1..], lim);
    }
  }
}
