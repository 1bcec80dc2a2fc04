/** A whole workload: W workers that run the DDL and DML actions against one directory, interleaved in any way. */
module Workload {
  import opened Counting
  import opened Protocol
  import opened Invariants
  import opened Refinement
  import opened Deadlock
  import opened Objects
  import opened Forwarding
  import opened NonEmpty
  import opened SoftLimits
  import opened DdlRuns
  import opened DmlRuns
  import opened TableList
  import opened Witness

  /** A directory that is ready for the workers: prepared with enough tables, every one of them well shaped. */
  ghost predicate Ready(s: State, lim: Limits) {
    && Inv(s) && ObjInv(s) && AllShaped(s) && Backward(s.moved)
    && AllSeenRightly(s) && NoRefusal(s) && Unthreatened(s)
    && BelowMax(s, lim) && AboveMin(s, lim)
  }

  /** At most min_table_count workers, and room for what they can add to max_table_count. */
  predicate Sized(s: State, lim: Limits) {
    1 <= |s.agents| <= lim.minTables && lim.maxTables + |s.agents| - 1 <= Capacity(s)
  }

  ghost predicate NoDeadlock(s: State) {
    && !(exists group :: Deadlocked(s, group))
    && ((exists a :: 0 <= a < |s.agents| && s.agents[a] != Idle) ==>
          exists b :: 0 <= b < |s.agents| && s.agents[b] != Idle && CanMove(s, b))
  }

  /**
   * With W <= min_table_count and max_table_count + W - 1 <= capacity, any interleaving of the actions keeps the
   * directory dense and free of duplicates, is a sequence of plain list operations, stays within the soft limits,
   * never has a CREATE refused, and lists only tables the DML statements are right for.  It does not deadlock either,
   * provided that no two DROPs complete at the same time.
   */
  lemma WorkloadIsSafe(s: State, moves: seq<Move>, lim: Limits)
    requires Ready(s, lim) && Sized(s, lim) && ActionRun(s, moves, lim) && DdlRun(s, moves)
    ensures Runs(s, moves)
    ensures var t := Exec(s, moves);
      && Inv(t) && ObjInv(t) && AllShaped(t) && Backward(t.moved)
      && AllApplicable(Directory(s), Ops(s, moves)) && Directory(t) == ApplyAll(Directory(s), Ops(s, moves))
      && 1 <= lim.minTables + 1 - |s.agents| <= t.tableCount <= lim.maxTables + |s.agents| - 1
      && Refusals(s, moves) == 0
      && (LoneDropRun(s, moves) ==> NoDeadlock(t))
    ensures var t := Exec(s, moves);
      forall k :: 0 <= k < Capacity(t) && t.tables[k].Some? ==> IsUsable(t, t.tables[k].value)
  {
    hide Inv, ObjInv, AllShaped, ActionRun, DdlRun, GuardedRun, Directory, Exec, Runs, Refusals, LoneDropRun, IsUsable,
         NoDeadlock, AboveMin, BelowMax, AllSeenRightly, NoRefusal, Unthreatened;
    EnoughTablesGuard(s, moves, lim);
    ReadyParts(s, lim);
    RunObjInv(s, moves);
    RunRefines(s, moves);
    RunBackward(s, moves);
    VisibleTablesAreWellShaped(s, moves);
    CreatesAreNeverRefused(s, moves, lim);
    ReadyStaysWithin(s, moves, lim);
    TablesAreUsable(Exec(s, moves));
    if LoneDropRun(s, moves) {
      NoDeadlockWithoutOverlap(s, moves);
    }
  }

  predicate IsUsable(s: State, r: Ref) {
    r < |s.heap| && Usable(s.heap[r].body)
  }

  lemma TablesAreUsable(s: State)
    requires AllShaped(s)
    ensures forall k :: 0 <= k < Capacity(s) && s.tables[k].Some? ==> IsUsable(s, s.tables[k].value)
  {
    forall k | 0 <= k < Capacity(s) && s.tables[k].Some?
      ensures IsUsable(s, s.tables[k].value)
    {
      assert Shaped(s, s.tables[k].value);
      ShapedIsUsable(s.heap[s.tables[k].value].body);
    }
  }

  lemma ReadyStaysWithin(s: State, moves: seq<Move>, lim: Limits)
    requires ActionRun(s, moves, lim) && BelowMax(s, lim) && AboveMin(s, lim)
    ensures Runs(s, moves)
    ensures lim.minTables + 1 - |s.agents| <= Exec(s, moves).tableCount <= lim.maxTables + |s.agents| - 1
  {
    StaysAboveMin(s, moves, lim);
    UpperLimit(s, moves, lim);
    hide ActionRun;
    SumNonNegative(Exec(s, moves).agents, Dropping);
    SumNonNegative(Exec(s, moves).agents, Pressing);
  }

  lemma NoDeadlockWithoutOverlap(s: State, moves: seq<Move>)
    requires Inv(s) && Unthreatened(s) && GuardedRun(s, moves) && LoneDropRun(s, moves) && Capacity(s) > 0
    ensures Runs(s, moves) && NoDeadlock(Exec(s, moves))
  {
    hide Inv, Unthreatened, GuardedRun, LoneDropRun, CanMove, Deadlocked;
    LoneDropsNeverDeadlock(s, moves);
    RunKeepsCapacity(s, moves);
  }

  lemma {:induction false} RunKeepsCapacity(s: State, moves: seq<Move>)
    requires Runs(s, moves)
    ensures Capacity(Exec(s, moves)) == Capacity(s) && |Exec(s, moves).agents| == |s.agents|
    decreases moves
  {
    if moves != [] {
      KeepsCapacity(s, moves[0].agent, moves[0].act);
      RunKeepsCapacity(Step(s, moves[0].agent, moves[0].act), moves[1..]);
    }
  }

  lemma ReadyParts(s: State, lim: Limits)
    requires Ready(s, lim)
    ensures Shape(s) && Conserved(s) && HeapValid(s) && Private(s)
  {
  }

  // ------------------------------------------------------------------ preparation

  /** While only one agent takes steps, commits do not overlap. */
  lemma {:induction false} OneWorkerNeverOverlaps(s: State, moves: seq<Move>, a: nat)
    requires OthersIdle(s, a) && OneWorker(moves, a) && Runs(s, moves)
    ensures NonEmptyRun(s, moves)
    decreases moves
  {
    if moves != [] {
      assert moves[0].agent == a;
      OneWorkerNeverOverlaps(Step(s, a, moves[0].act), moves[1..], a);
    }
  }

  /**
   * From the fresh directory, a run of the DDL actions whose commits overlap only on a non-empty directory, and that
   * ends with nobody using the directory and enough tables in it, leaves it ready.
   */
  lemma PreparationIsReady(s: State, prep: seq<Move>, lim: Limits)
    requires Init(s) && |s.agents| >= 1 && NonEmptyRun(s, prep) && ActionRun(s, prep, lim) && DdlRun(s, prep)
    requires Runs(s, prep)
    requires forall b :: 0 <= b < |Exec(s, prep).agents| ==> Exec(s, prep).agents[b] == Idle
    requires Exec(s, prep).tableCount >= lim.minTables + 1 - |s.agents|
    ensures GuardedRun(s, prep) && Ready(Exec(s, prep), lim)
  {
    InitInv(s);
    InitObjects(s);
    InitShaped(s);
    InitBackward(s);
    InitBelowMax(s, lim);
    assert AllSeenRightly(s);
    hide Inv, HeapValid, Private, Lineage, AllShaped, ActionRun, DdlRun, NonEmptyRun, GuardedRun, Exec, Runs, Backward,
         Init;
    NonEmptyRunsAreGuarded(s, prep);
    RunObjInv(s, prep);
    RunBackward(s, prep);
    VisibleTablesAreWellShaped(s, prep);
    UpperLimit(s, prep, lim);
    RunKeepsCapacity(s, prep);
    SumNonNegative(Exec(s, prep).agents, Pressing);
    PreparedIsReady(Exec(s, prep), lim);
  }

  /** An idle directory in order that holds enough well-shaped tables is ready. */
  lemma PreparedIsReady(s: State, lim: Limits)
    requires Inv(s) && ObjInv(s) && AllShaped(s) && Backward(s.moved)
    requires forall b :: 0 <= b < |s.agents| ==> s.agents[b] == Idle
    requires lim.minTables + 1 - |s.agents| <= s.tableCount <= lim.maxTables + |s.agents| - 1
    ensures Ready(s, lim)
  {
    hide Inv, ObjInv, AllShaped;
    IdleSum(s.agents, Pressing);
    SettledAboveMin(s, lim);
    UnthreatenedWhenIdle(s);
  }

  /**
   * The whole program from the start: one worker prepares the tables (create_random_tables), then W workers run the
   * actions in any interleaving.  Everything promised of a workload holds of it.
   */
  lemma WholeProgramIsSafe(s: State, a: nat, prep: seq<Move>, moves: seq<Move>, lim: Limits)
    requires Init(s) && Sized(s, lim)
    requires OneWorker(prep, a) && ActionRun(s, prep, lim) && DdlRun(s, prep) && Runs(s, prep)
    requires forall b :: 0 <= b < |Exec(s, prep).agents| ==> Exec(s, prep).agents[b] == Idle
    requires Exec(s, prep).tableCount >= lim.minTables + 1 - |s.agents|
    requires ActionRun(Exec(s, prep), moves, lim) && DdlRun(Exec(s, prep), moves) && Runs(Exec(s, prep), moves)
    ensures var t := Exec(s, prep); var u := Exec(t, moves);
      && Inv(t) && Inv(u) && ObjInv(u) && AllShaped(u) && Backward(u.moved)
      && AllApplicable(Directory(t), Ops(t, moves)) && Directory(u) == ApplyAll(Directory(t), Ops(t, moves))
      && 1 <= lim.minTables + 1 - |s.agents| <= u.tableCount <= lim.maxTables + |s.agents| - 1
      && Refusals(t, moves) == 0
      && (LoneDropRun(t, moves) ==> NoDeadlock(u))
      && forall k :: 0 <= k < Capacity(u) && u.tables[k].Some? ==> IsUsable(u, u.tables[k].value)
  {
    assert OthersIdle(s, a);
    hide Init, Inv, ObjInv, AllShaped, ActionRun, DdlRun, Exec, Runs, Refusals, Backward, LoneDropRun, NoDeadlock,
         Directory, IsUsable, OthersIdle, OneWorker, NonEmptyRun, GuardedRun;
    OneWorkerNeverOverlaps(s, prep, a);
    PreparationIsReady(s, prep, lim);
    RunKeepsCapacity(s, prep);
    var t := Exec(s, prep);
    assert Ready(t, lim);
    hide Ready;
    ReadyParts(t, lim);
    ReadyInv(t, lim);
    WorkloadIsSafe(t, moves, lim);
  }

  lemma ReadyInv(s: State, lim: Limits)
    requires Ready(s, lim)
    ensures Inv(s)
  {
  }

  // ------------------------------------------------------------------ what the theorem does not exclude

  /** Agent 0 waits for itself and will do so in every continuation. */
  ghost predicate BlockedForever(s: State, lim: Limits) {
    && Deadlocked(s, {0}) && |s.agents| >= 1
    && forall more :: ActionRun(s, more, lim) ==>
         Runs(s, more) && |Exec(s, more).agents| == |s.agents| && Exec(s, more).agents[0] == s.agents[0]
  }

  /**
   * The proviso is needed: from every ready directory that nobody is using and in which DROP is allowed, two workers
   * can reach a deadlock by the actions alone, and the blocked worker never moves again.
   */
  lemma ReadyCanDeadlock(s: State, lim: Limits) returns (moves: seq<Move>)
    requires Ready(s, lim) && Sized(s, lim) && |s.agents| >= 2 && s.tableCount > lim.minTables
    requires forall b :: 0 <= b < |s.agents| ==> s.agents[b] == Idle
    ensures ActionRun(s, moves, lim) && DdlRun(s, moves) && Runs(s, moves)
    ensures BlockedForever(Exec(s, moves), lim)
  {
    ReadyInv(s, lim);
    hide Inv, ObjInv, AllShaped, ActionRun, DdlRun, Exec, Runs, Backward, AboveMin, BelowMax, AllSeenRightly, NoRefusal,
         Unthreatened, GuardedRun, NonEmptyRun, Deadlocked;
    assert Quiet(s);
    moves := DropsCollide(s, lim);
    var t := Exec(s, moves);
    EnoughTablesGuard(s, moves, lim);
    StaysAboveMin(s, moves, lim);
    forall more | ActionRun(t, more, lim)
      ensures Runs(t, more) && |Exec(t, more).agents| == |t.agents| && Exec(t, more).agents[0] == t.agents[0]
    {
      EnoughTablesGuard(t, more, lim);
      SelfWaitIsForever(t, more, 0);
    }
  }

  /** Such directories exist and are reached from the start of the program, whenever the limits leave any room. */
  lemma ProgramCanDeadlock(s: State, lim: Limits) returns (prep: seq<Move>, moves: seq<Move>)
    requires Init(s) && Sized(s, lim) && |s.agents| >= 2 && lim.minTables < lim.maxTables
    ensures OneWorker(prep, 0) && ActionRun(s, prep, lim) && DdlRun(s, prep) && Runs(s, prep)
    ensures var t := Exec(s, prep);
      && Ready(t, lim) && Sized(t, lim)
      && ActionRun(t, moves, lim) && DdlRun(t, moves) && Runs(t, moves) && BlockedForever(Exec(t, moves), lim)
  {
    InitInv(s);
    assert Quiet(s) && OthersIdle(s, 0) && s.tableCount == 0;
    hide Init, Inv, ObjInv, AllShaped, ActionRun, DdlRun, Exec, Runs, Backward, AboveMin, BelowMax, AllSeenRightly,
         NoRefusal, Unthreatened, GuardedRun, NonEmptyRun, OneWorker, BlockedForever, OthersIdle;
    prep := CreateMany(s, 0, lim.minTables + 1, lim);
    OneWorkerNeverOverlaps(s, prep, 0);
    PreparationIsReady(s, prep, lim);
    moves := ReadyCanDeadlock(Exec(s, prep), lim);
  }
}
