/**
 * The DDL actions on top of the protocol: whatever the interleaving, every table that ever becomes visible has
 * the shape the DML statements rely on.
 */
module DdlRuns {
  import opened Wrappers
  import opened Schema
  import opened Protocol
  import opened Invariants
  import opened Objects
  import opened Ddl

  /** The table CREATE fills in (ddl.cpp 80-87, with max_column_count >= 2). */
  ghost predicate FilledTable(body: Table) {
    exists draws: seq<ColumnDraw> :: |draws| >= 2 && body.columns == NewColumns(draws)
  }

  /** The table ALTER leaves in its private copy (ddl.cpp 158-215). */
  ghost predicate AlteredTable(was: Table, body: Table) {
    body.name == was.name && exists draws: seq<Draw> :: body.columns == Altered(was.columns, draws)
  }

  /** The client callback of a reservation is one of the DDL actions. */
  ghost predicate DdlMove(s: State, m: Move) {
    m.agent < |s.agents| ==>
      match s.agents[m.agent]
      case CreateOpen(o) => (
        match m.act
        case Edit(body) => FilledTable(body)
        case Complete => o < |s.heap| && FilledTable(s.heap[o].body)
        case _ => true)
      case Open(_, _, _, o) => m.act.Edit? ==> o < |s.heap| && AlteredTable(s.heap[o].body, m.act.body)
      case _ => true
  }

  ghost predicate DdlRun(s: State, moves: seq<Move>)
    decreases moves
  {
    moves == [] ||
    (Enabled(s, moves[0].agent, moves[0].act) && DdlMove(s, moves[0]) &&
     DdlRun(Step(s, moves[0].agent, moves[0].act), moves[1..]))
  }

  predicate Shaped(s: State, r: Ref) {
    r < |s.heap| && WellShaped(s.heap[r].body.columns)
  }

  /** Every table in a slot or on its way into one has the shape. */
  ghost predicate AllShaped(s: State) {
    && (forall k :: 0 <= k < |s.tables| && s.tables[k].Some? ==> Shaped(s, s.tables[k].value))
    && (forall b :: 0 <= b < |s.agents| ==> ShapedOwner(s, s.agents[b]))
  }

  predicate ShapedOwner(s: State, pc: Pc) {
    Owned(pc).Some? && !pc.CreateOpen? ==> Shaped(s, Owned(pc).value)
  }

  lemma FilledIsShaped(body: Table)
    requires FilledTable(body)
    ensures WellShaped(body.columns)
  {
    var draws: seq<ColumnDraw> :| |draws| >= 2 && body.columns == NewColumns(draws);
    NewColumnsAreWellShaped(draws);
  }

  lemma AlteredIsShaped(was: Table, body: Table)
    requires WellShaped(was.columns) && AlteredTable(was, body)
    ensures WellShaped(body.columns)
  {
    var draws: seq<Draw> :| body.columns == Altered(was.columns, draws);
    AlterKeepsShape(was.columns, draws);
  }

  /** A step changes the contents of no object but the one the acting agent edits. */
  lemma BodiesAfter(s: State, a: nat, act: Act, r: Ref)
    requires Inv(s) && HeapValid(s) && Enabled(s, a, act) && r < |s.heap|
    requires act.Edit? ==> Owned(s.agents[a]) != Some(r)
    ensures r < |Step(s, a, act).heap| && Step(s, a, act).heap[r] == s.heap[r]
  {
    assert Fact(s, s.agents[a]);
    PlanOwning(s, a, act);
    PlanWrites(s, a, act);
  }

  lemma PlanWrites(s: State, a: nat, act: Act)
    requires Enabled(s, a, act)
    ensures var (pc, eff) := Plan(s, s.agents[a], act);
      && (eff.Write? ==> act.Edit?)
      && (act.Edit? ==> eff.Write? && eff.body == act.body && Owned(s.agents[a]) == Some(eff.table))
      && (s.agents[a].CreateOpen? && !pc.CreateOpen? && Owned(pc).Some? ==> act.Complete?)
  {
  }

  /** The acting agent's own object. */
  lemma ActorShaped(s: State, a: nat, act: Act)
    requires Inv(s) && HeapValid(s) && Private(s) && AllShaped(s) && Enabled(s, a, act) && DdlMove(s, Move(a, act))
    ensures ShapedOwner(Step(s, a, act), Plan(s, s.agents[a], act).0)
  {
    var was := s.agents[a];
    var (pc, eff) := Plan(s, was, act);
    assert Fact(s, was) && ShapedOwner(s, was);
    PlanOwning(s, a, act);
    PlanWrites(s, a, act);
    if Owned(pc).Some? && !pc.CreateOpen? {
      var o := Owned(pc).value;
      if eff.Alloc? {
        assert pc.Open? ==> eff.obj == CopyOf(s, pc.base);
        AllocatesCopyOfListed(s, a, act);
      } else if act.Edit? {
        AlteredIsShaped(s.heap[o].body, act.body);
      } else {
        if was.CreateOpen? {
          FilledIsShaped(s.heap[o].body);
        }
        BodiesAfter(s, a, act, o);
      }
    }
  }

  lemma AllocatesCopyOfListed(s: State, a: nat, act: Act)
    requires Enabled(s, a, act) && Fact(s, s.agents[a])
    ensures var (pc, eff) := Plan(s, s.agents[a], act);
      eff.Alloc? && !pc.CreateOpen? ==> pc.Open? && SlotOf(s, pc.slot) == Some(pc.base) && Owned(pc) == Some(|s.heap|)
  {
  }

  lemma StepShaped(s: State, a: nat, act: Act)
    requires Inv(s) && HeapValid(s) && Private(s) && AllShaped(s) && Enabled(s, a, act) && DdlMove(s, Move(a, act))
    ensures AllShaped(Step(s, a, act))
  {
    var t := Step(s, a, act);
    var was := s.agents[a];
    var (pc, eff) := Plan(s, was, act);
    assert Fact(s, was) && ShapedOwner(s, was);
    PlanStoring(s, a, act);
    PlanWrites(s, a, act);
    assert act.Edit? ==> !was.CommitCount?;
    forall b | 0 <= b < |t.agents|
      ensures ShapedOwner(t, t.agents[b])
    {
      if b == a {
        ActorShaped(s, a, act);
      } else {
        assert ShapedOwner(s, s.agents[b]);
        if Owned(s.agents[b]).Some? {
          BodiesAfter(s, a, act, Owned(s.agents[b]).value);
        }
      }
    }
    forall k | 0 <= k < |t.tables| && t.tables[k].Some?
      ensures Shaped(t, t.tables[k].value)
    {
      var r := t.tables[k].value;
      StoredIsShaped(s, a, act, k);
      BodiesAfter(s, a, act, r);
    }
  }

  lemma StoredIsShaped(s: State, a: nat, act: Act, k: int)
    requires Inv(s) && HeapValid(s) && Private(s) && AllShaped(s) && Enabled(s, a, act)
    requires 0 <= k < |s.tables| && Step(s, a, act).tables[k].Some?
    ensures Shaped(s, Step(s, a, act).tables[k].value)
    ensures act.Edit? ==> Owned(s.agents[a]) != Step(s, a, act).tables[k]
  {
    var t := Step(s, a, act);
    var was := s.agents[a];
    var (pc, eff) := Plan(s, was, act);
    assert ShapedOwner(s, was);
    PlanStoring(s, a, act);
    PlanWrites(s, a, act);
    if eff.StoreTable? && eff.i == k {
      assert CreateOwned(was).Some? ==> Owned(was) == CreateOwned(was);
      assert was.Open? && !was.drop ==> Owned(was) == Some(was.table);
    } else {
      assert t.tables[k] == s.tables[k];
      assert act.Edit? ==> !Publishing(was, k);
    }
  }

  /** Every table ever visible is well shaped, over all runs of the DDL actions. */
  lemma {:induction false} VisibleTablesAreWellShaped(s: State, moves: seq<Move>)
    requires Inv(s) && HeapValid(s) && Private(s) && AllShaped(s) && GuardedRun(s, moves) && DdlRun(s, moves)
    ensures Runs(s, moves) && AllShaped(Exec(s, moves))
    decreases moves
  {
    GuardedRunsRun(s, moves);
    if moves != [] {
      var a, act := moves[0].agent, moves[0].act;
      StepInv(s, a, act);
      StepObjects(s, a, act);
      StepShaped(s, a, act);
      VisibleTablesAreWellShaped(Step(s, a, act), moves[1..]);
    }
  }

  lemma InitShaped(s: State)
    requires Init(s)
    ensures AllShaped(s)
  {
    assert forall b :: 0 <= b < |s.agents| ==> s.agents[b] == Idle;
  }
}
