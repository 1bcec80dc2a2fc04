/**
 * What is in a version: ALTER's private copy has exactly the contents of the version it was copied from, and changes
 * by its client's edits only.  So no update is lost in the contents either.
 */
module Contents {
  import opened Wrappers
  import opened Schema
  import opened Protocol
  import opened Invariants
  import opened Refinement
  import opened Objects
  import opened Versions
  import opened DdlRuns

  /** The edit a step makes to object `o`, if any. */
  function Edit1(pc: Pc, act: Act, o: Ref): seq<Table> {
    match act
    case Edit(body) => if Owned(pc) == Some(o) then [body] else []
    case _ => []
  }

  /** All edits to object `o` in a run, in order. */
  function EditsTo(s: State, moves: seq<Move>, o: Ref): seq<Table>
    requires Runs(s, moves)
    decreases moves
  {
    if moves == [] then []
    else Edit1(s.agents[moves[0].agent], moves[0].act, o)
         + EditsTo(Step(s, moves[0].agent, moves[0].act), moves[1..], o)
  }

  function LastOr(edits: seq<Table>, was: Table): Table {
    if edits == [] then was else edits[|edits| - 1]
  }

  // ------------------------------------------------------------------ steps

  /** A copy is copied whole: the object ALTER gets has the contents, and the identity, of the version in the slot. */
  lemma CopyIsWhole(s: State, a: nat, act: Act)
    requires Inv(s) && HeapValid(s) && Enabled(s, a, act) && s.agents[a].SlotCopy?
    ensures var base := s.agents[a].base; var t := Step(s, a, act);
      && base < |s.heap| && |t.heap| == |s.heap| + 1
      && t.heap[|s.heap|].body == s.heap[base].body
      && t.heap[|s.heap|].origin == Some(base) && t.heap[|s.heap|].id == s.heap[base].id
      && t.agents[a] == Open(s.agents[a].slot, false, base, |s.heap|)
  {
    assert Fact(s, s.agents[a]);
  }

  /** What one step does to the contents of the objects there are. */
  lemma StepEdits(s: State, a: nat, act: Act, o: Ref)
    requires Enabled(s, a, act) && o < |s.heap|
    ensures var t := Step(s, a, act); |s.heap| <= |t.heap|
    ensures Step(s, a, act).heap[o].body == LastOr(Edit1(s.agents[a], act, o), s.heap[o].body)
  {
    PlanWrites(s, a, act);
  }

  /** What one step allocates: a new empty table, or a whole copy of a published version. */
  lemma StepAllocates(s: State, a: nat, act: Act)
    requires Inv(s) && HeapValid(s) && Private(s) && Enabled(s, a, act)
    ensures var t := Step(s, a, act);
      |t.heap| > |s.heap| ==>
        && |t.heap| == |s.heap| + 1 && !act.Edit?
        && var made := t.heap[|s.heap|];
        && (made.origin == None ==> made.body == Table("", []) && made.id == |s.heap|)
        && (made.origin.Some? ==>
              var r := made.origin.value;
              && r < |s.heap| && made.body == s.heap[r].body && made.id == s.heap[r].id && Published(s, r))
  {
    var pc := s.agents[a];
    assert Fact(s, pc);
    if pc.SlotCopy? {
      CopyIsWhole(s, a, act);
      ListedIsPublished(s, pc.slot);
    } else {
      OnlyCreateAllocates(s, a, act);
    }
  }

  lemma OnlyCreateAllocates(s: State, a: nat, act: Act)
    requires Enabled(s, a, act) && !s.agents[a].SlotCopy?
    ensures var t := Step(s, a, act);
      |t.heap| > |s.heap| ==>
        |t.heap| == |s.heap| + 1 && !act.Edit? && t.heap[|s.heap|] == Obj(|s.heap|, None, Table("", []))
  {
  }

  // ------------------------------------------------------------------ runs

  lemma {:induction false} HeapGrows(s: State, moves: seq<Move>)
    requires Runs(s, moves)
    ensures |s.heap| <= |Exec(s, moves).heap|
    ensures forall o :: 0 <= o < |s.heap| ==> Exec(s, moves).heap[o].origin == s.heap[o].origin
    ensures forall o :: 0 <= o < |s.heap| ==> Exec(s, moves).heap[o].id == s.heap[o].id
    decreases moves
  {
    if moves != [] {
      var (pc, eff) := Plan(s, s.agents[moves[0].agent], moves[0].act);
      HeapAfter(s, moves[0].agent, pc, eff);
      hide Plan;
      HeapGrows(Step(s, moves[0].agent, moves[0].act), moves[1..]);
    }
  }

  /** An object has the contents it had, unless it has been edited, and then those of the last edit. */
  lemma {:induction false} ContentsOfOld(s: State, moves: seq<Move>, o: Ref)
    requires Runs(s, moves) && o < |s.heap|
    ensures o < |Exec(s, moves).heap|
    ensures Exec(s, moves).heap[o].body == LastOr(EditsTo(s, moves, o), s.heap[o].body)
    decreases moves
  {
    hide Step, Enabled, Edit1;
    if moves != [] {
      StepEdits(s, moves[0].agent, moves[0].act, o);
      ContentsOfOld(Step(s, moves[0].agent, moves[0].act), moves[1..], o);
    }
  }

  /** An object that has not been allocated yet is not edited. */
  lemma NotEditedYet(s: State, a: nat, act: Act, o: Ref)
    requires HeapValid(s) && a < |s.agents| && o >= |s.heap|
    ensures Edit1(s.agents[a], act, o) == []
  {
  }

  /** An object made in a run has its origin's contents, or none, unless edited, and then those of the last edit. */
  ghost predicate WholeCopy(t: State, o: Ref, edits: seq<Table>)
    requires o < |t.heap|
  {
    match t.heap[o].origin
    case None => t.heap[o].body == LastOr(edits, Table("", [])) && t.heap[o].id == o
    case Some(r) => r < o && t.heap[o].body == LastOr(edits, t.heap[r].body) && t.heap[o].id == t.heap[r].id
  }

  lemma {:induction false} ContentsOfNew(s: State, moves: seq<Move>, o: Ref)
    requires Inv(s) && HeapValid(s) && Private(s) && GuardedRun(s, moves) && Runs(s, moves)
    requires |s.heap| <= o < |Exec(s, moves).heap|
    ensures WholeCopy(Exec(s, moves), o, EditsTo(s, moves, o))
    decreases moves
  {
    hide Inv, HeapValid, Private, Guarded, Step, Enabled, Edit1, Published, WholeCopy;
    if moves != [] {
      var a, act := moves[0].agent, moves[0].act;
      var t := Step(s, a, act);
      AgentInRange(s, a, act);
      NotEditedYet(s, a, act, o);
      StepInv(s, a, act);
      StepObjects(s, a, act);
      StepAllocates(s, a, act);
      if o >= |t.heap| {
        ContentsOfNew(t, moves[1..], o);
        assert EditsTo(s, moves, o) == EditsTo(t, moves[1..], o);
      } else {
        ContentsOfMade(s, moves, o);
      }
    }
  }

  lemma AgentInRange(s: State, a: nat, act: Act)
    requires Enabled(s, a, act)
    ensures a < |s.agents|
  {
  }

  /** The case of the step that allocates the object. */
  lemma ContentsOfMade(s: State, moves: seq<Move>, o: Ref)
    requires Inv(s) && HeapValid(s) && Private(s) && GuardedRun(s, moves) && Runs(s, moves) && moves != []
    requires o == |s.heap| && |Step(s, moves[0].agent, moves[0].act).heap| > |s.heap|
    ensures o < |Exec(s, moves).heap| && WholeCopy(Exec(s, moves), o, EditsTo(s, moves, o))
  {
    hide Inv, HeapValid, Private, Guarded, Step, Enabled, Edit1, Published;
    var a, act := moves[0].agent, moves[0].act;
    var t := Step(s, a, act);
    AgentInRange(s, a, act);
    NotEditedYet(s, a, act, o);
    StepAllocates(s, a, act);
    ContentsOfOld(t, moves[1..], o);
    HeapGrows(t, moves[1..]);
    var made := t.heap[o];
    if made.origin.Some? {
      var r := made.origin.value;
      PublishedIsImmutable(s, moves, r);
      PublishedIsImmutable(s, [moves[0]], r) by {
        OneMoveRuns(s, moves);
      }
      OneMoveRuns(s, moves);
    }
  }

  lemma OneMoveRuns(s: State, moves: seq<Move>)
    requires GuardedRun(s, moves) && Runs(s, moves) && moves != []
    ensures GuardedRun(s, [moves[0]]) && Runs(s, [moves[0]])
    ensures Exec(s, [moves[0]]) == Step(s, moves[0].agent, moves[0].act)
  {
    hide Step, Enabled, Guarded;
    assert [moves[0]][1..] == [];
    var t := Step(s, moves[0].agent, moves[0].act);
    assert GuardedRun(t, []) && Runs(t, []) && Exec(t, []) == t;
  }

  /**
   * From the constructor, for every object there is at any time: it has the contents of the version it was copied from
   * (or of an empty table), unless its client has edited it, and then exactly those of the last edit.
   */
  lemma EveryCopyIsWhole(s: State, moves: seq<Move>, o: Ref)
    requires Init(s) && GuardedRun(s, moves) && Runs(s, moves) && o < |Exec(s, moves).heap|
    ensures WholeCopy(Exec(s, moves), o, EditsTo(s, moves, o))
  {
    InitInv(s);
    InitObjects(s);
    hide Inv, ObjInv, GuardedRun, Runs, WholeCopy;
    ContentsOfNew(s, moves, o);
  }

  // ------------------------------------------------------------------ the DDL actions

  /** Each edit is what AlterTable::execute makes of the contents before it. */
  ghost predicate Altering(was: Table, edits: seq<Table>)
    decreases edits
  {
    edits == [] || (AlteredTable(was, edits[0]) && Altering(edits[0], edits[1..]))
  }

  lemma {:induction false} AlteringConcat(was: Table, edits: seq<Table>, more: seq<Table>)
    requires Altering(was, edits) && Altering(LastOr(edits, was), more)
    ensures Altering(was, edits + more)
    ensures LastOr(edits + more, was) == LastOr(more, LastOr(edits, was))
    decreases edits
  {
    if edits == [] {
      assert edits + more == more;
    } else {
      assert (edits + more)[1..] == edits[1..] + more;
      AlteringConcat(edits[0], edits[1..], more);
    }
  }

  /** Copies have the identity of a lower object; new tables have their own. */
  ghost predicate Origins(s: State) {
    forall o :: 0 <= o < |s.heap| && s.heap[o].origin.Some? ==> s.heap[o].id < o
  }

  lemma StepOrigins(s: State, a: nat, act: Act)
    requires Inv(s) && HeapValid(s) && Private(s) && Origins(s) && Enabled(s, a, act)
    ensures Origins(Step(s, a, act))
  {
    var (pc, eff) := Plan(s, s.agents[a], act);
    HeapAfter(s, a, pc, eff);
    StepAllocates(s, a, act);
    var t := Step(s, a, act);
    assert |t.heap| <= |s.heap| + 1 by {
      HeapByOne(s, a, act);
    }
    hide Inv, Private, Plan, Step, Enabled;
  }

  lemma HeapByOne(s: State, a: nat, act: Act)
    requires Enabled(s, a, act)
    ensures |s.heap| <= |Step(s, a, act).heap| <= |s.heap| + 1
  {
  }

  /** An edit of a copy is made by an ALTER. */
  lemma StepAlters(s: State, a: nat, act: Act, o: Ref)
    requires Inv(s) && ObjInv(s) && Origins(s) && Enabled(s, a, act) && DdlMove(s, Move(a, act))
    requires o < |s.heap| && s.heap[o].origin.Some?
    ensures Altering(s.heap[o].body, Edit1(s.agents[a], act, o))
  {
    var pc := s.agents[a];
    assert LineageOf(s, pc);
    if act.Edit? && Owned(pc) == Some(o) {
      assert pc.Open?;
      assert Altering(act.body, []);
    }
  }

  lemma {:induction false} OldCopiesAlter(s: State, moves: seq<Move>, o: Ref)
    requires Inv(s) && ObjInv(s) && Origins(s) && GuardedRun(s, moves) && DdlRun(s, moves) && Runs(s, moves)
    requires o < |s.heap| && s.heap[o].origin.Some?
    ensures Altering(s.heap[o].body, EditsTo(s, moves, o))
    decreases moves
  {
    hide Inv, ObjInv, Origins, Guarded, Step, Enabled, Edit1, DdlMove, Altering;
    if moves != [] {
      var a, act := moves[0].agent, moves[0].act;
      var t := Step(s, a, act);
      AgentInRange(s, a, act);
      InvShape(s);
      ObjParts(s);
      StepObjInv(s, a, act);
      StepOrigins(s, a, act);
      StepAlters(s, a, act, o);
      StepEdits(s, a, act, o);
      StepKeepsOrigin(s, a, act, o);
      OldCopiesAlter(t, moves[1..], o);
      AlteringConcat(s.heap[o].body, Edit1(s.agents[a], act, o), EditsTo(t, moves[1..], o));
    } else {
      NothingAlters(s.heap[o].body);
    }
  }

  lemma NothingAlters(was: Table)
    ensures Altering(was, [])
  {
  }

  lemma ObjParts(s: State)
    requires Shape(s) && ObjInv(s)
    ensures HeapValid(s) && Private(s)
  {
  }

  lemma StepKeepsOrigin(s: State, a: nat, act: Act, o: Ref)
    requires Enabled(s, a, act) && o < |s.heap|
    ensures var t := Step(s, a, act); o < |t.heap| && t.heap[o].origin == s.heap[o].origin
  {
    var (pc, eff) := Plan(s, s.agents[a], act);
    HeapAfter(s, a, pc, eff);
  }

  lemma {:induction false} NewCopiesAlter(s: State, moves: seq<Move>, o: Ref)
    requires Inv(s) && ObjInv(s) && Origins(s) && GuardedRun(s, moves) && DdlRun(s, moves) && Runs(s, moves)
    requires |s.heap| <= o < |Exec(s, moves).heap| && Exec(s, moves).heap[o].origin.Some?
    ensures var t := Exec(s, moves); var r := t.heap[o].origin.value;
      r < o && Altering(t.heap[r].body, EditsTo(s, moves, o))
    decreases moves
  {
    hide Inv, ObjInv, Origins, Guarded, Step, Enabled, Edit1, DdlMove, Altering, WholeCopy, HeapValid, Private;
    InvShape(s);
    ObjParts(s);
    if moves != [] {
      var a, act := moves[0].agent, moves[0].act;
      var t := Step(s, a, act);
      AgentInRange(s, a, act);
      NotEditedYet(s, a, act, o);
      StepObjInv(s, a, act);
      StepOrigins(s, a, act);
      if o >= |t.heap| {
        NewCopiesAlter(t, moves[1..], o);
        assert EditsTo(s, moves, o) == EditsTo(t, moves[1..], o);
      } else {
        HeapByOne(s, a, act);
        MadeCopyAlters(s, moves, o);
      }
    }
  }

  lemma MadeCopyAlters(s: State, moves: seq<Move>, o: Ref)
    requires Inv(s) && ObjInv(s) && Origins(s) && moves != []
    requires GuardedRun(s, moves) && DdlRun(s, moves) && Runs(s, moves)
    requires o == |s.heap| && |Step(s, moves[0].agent, moves[0].act).heap| > |s.heap|
    requires o < |Exec(s, moves).heap| && Exec(s, moves).heap[o].origin.Some?
    ensures var t := Exec(s, moves); var r := t.heap[o].origin.value;
      r < o && Altering(t.heap[r].body, EditsTo(s, moves, o))
  {
    hide Inv, ObjInv, Origins, Guarded, Step, Enabled, Edit1, DdlMove, Altering, HeapValid, Private, Published;
    var a, act := moves[0].agent, moves[0].act;
    var t := Step(s, a, act);
    AgentInRange(s, a, act);
    InvShape(s);
    ObjParts(s);
    NotEditedYet(s, a, act, o);
    StepObjInv(s, a, act);
    StepOrigins(s, a, act);
    StepAllocates(s, a, act);
    HeapGrows(t, moves[1..]);
    var r := t.heap[o].origin.value;
    OldCopiesAlter(t, moves[1..], o);
    OneMoveRuns(s, moves);
    PublishedIsImmutable(s, [moves[0]], r);
    PublishedIsImmutable(s, moves, r);
    assert EditsTo(s, moves, o) == EditsTo(t, moves[1..], o);
  }

  /** The edits of all versions from `r` on that lead to `o`. */
  function EditsAlong(s: State, moves: seq<Move>, heap: seq<Obj>, o: Ref, r: Ref): seq<Table>
    requires Runs(s, moves)
    decreases o
  {
    if o == r || o >= |heap| || heap[o].origin == None || heap[o].origin.value >= o then []
    else EditsAlong(s, moves, heap, heap[o].origin.value, r) + EditsTo(s, moves, o)
  }

  lemma {:induction false} ChainOfEdits(s: State, moves: seq<Move>, o: Ref, r: Ref)
    requires Init(s) && GuardedRun(s, moves) && DdlRun(s, moves) && Runs(s, moves)
    requires o < |Exec(s, moves).heap| && Descends(Exec(s, moves).heap, o, r)
    ensures var heap := Exec(s, moves).heap; var edits := EditsAlong(s, moves, heap, o, r);
      && r < |heap| && Altering(heap[r].body, edits) && heap[o].body == LastOr(edits, heap[r].body)
    decreases o
  {
    hide Init, GuardedRun, DdlRun, Runs, Exec, EditsTo, Altering;
    var heap := Exec(s, moves).heap;
    if o == r {
      NothingAlters(heap[r].body);
    } else {
      var q := heap[o].origin.value;
      ChainOfEdits(s, moves, q, r);
      EveryCopyIsWhole(s, moves, o);
      EveryCopyAlters(s, moves, o);
      AlteringConcat(heap[r].body, EditsAlong(s, moves, heap, q, r), EditsTo(s, moves, o));
    }
  }

  /** Over runs of the DDL actions from the constructor, each edit of a copy is an ALTER of the contents before it. */
  lemma EveryCopyAlters(s: State, moves: seq<Move>, o: Ref)
    requires Init(s) && GuardedRun(s, moves) && DdlRun(s, moves) && Runs(s, moves) && o < |Exec(s, moves).heap|
    requires Exec(s, moves).heap[o].origin.Some?
    ensures var t := Exec(s, moves); var r := t.heap[o].origin.value;
      r < o && Altering(t.heap[r].body, EditsTo(s, moves, o))
  {
    InitInv(s);
    InitObjects(s);
    assert Origins(s);
    hide Inv, ObjInv, Origins, GuardedRun, DdlRun, Runs, Altering;
    NewCopiesAlter(s, moves, o);
  }

  /**
   * No update is lost, contents included: over a run of the DDL actions, the version listed at the end for a table is
   * the version listed earlier with all edits of the ALTERs in between applied to it, one after the other and each to
   * the whole contents the one before has left; and nothing else.
   */
  lemma NoUpdateIsLost(s: State, before: seq<Move>, after: seq<Move>, id: nat, r: Ref, o: Ref)
    requires Init(s) && GuardedRun(s, before) && Runs(s, before) && DdlRun(s, before + after)
    requires GuardedRun(Exec(s, before), after) && Runs(Exec(s, before), after)
    requires Shape(Exec(s, before)) && Shape(Exec(Exec(s, before), after))
    requires Listed(Exec(s, before), id, r) && Listed(Exec(Exec(s, before), after), id, o)
    ensures Runs(s, before + after)
    ensures var mid := Exec(s, before); var t := Exec(mid, after);
      var edits := EditsAlong(s, before + after, t.heap, o, r);
      && Descends(t.heap, o, r) && r < |mid.heap| && o < |t.heap|
      && Altering(mid.heap[r].body, edits) && t.heap[o].body == LastOr(edits, mid.heap[r].body)
  {
    InitInv(s);
    InitObjects(s);
    hide Init, Inv, ObjInv, GuardedRun, DdlRun, Runs, Exec, Listed, Descends, Altering, Ops, EditsAlong, Published;
    var mid := Exec(s, before);
    RunObjInv(s, before);
    RunObjInv(mid, after);
    ConcatRuns(s, before, after);
    UpdatesCompose(mid, after, id, r, o);
    ListedInHeap(mid, id, r);
    ListedInHeap(Exec(mid, after), id, o);
    ObjParts(mid);
    PublishedIsImmutable(mid, after, r);
    ChainOfEdits(s, before + after, o, r);
  }

  lemma ListedInHeap(s: State, id: nat, r: Ref)
    requires Inv(s) && Shape(s) && ObjInv(s) && Listed(s, id, r)
    ensures r < |s.heap| && Published(s, r)
  {
    var k :| 0 <= k < Length(s) && RefAt(s, k) == r && IdOf(s, r) == id;
    NoHoles(s, k);
    ListedIsPublished(s, k);
  }
}
