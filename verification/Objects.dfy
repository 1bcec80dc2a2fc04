/**
 * Table objects behind the shared pointers: who may edit which object, identities across versions, and
 * immutability of what has been published.
 */
module Objects {
  import opened Wrappers
  import opened Protocol
  import opened Invariants
  import opened Refinement
  import opened TableList

  // ------------------------------------------------------------------ definitions

  /** The object a CREATE or ALTER agent has allocated and not handed over to the directory yet. */
  function Owned(pc: Pc): Option<Ref> {
    match pc
    case Open(_, drop, _, o) => if drop then None else Some(o)
    case _ => CreateOwned(pc)
  }

  function CreateOwned(pc: Pc): Option<Ref> {
    match pc
    case CreateOpen(o) => Some(o)
    case CommitRead(o) => Some(o)
    case CommitTest(o, _) => Some(o)
    case CommitLockLast(o, _) => Some(o)
    case CommitCheckSlot(o, _) => Some(o)
    case CommitCheckSize(o, _) => Some(o)
    case CommitRetry(o, _) => Some(o)
    case CommitLockNext(o, _, _) => Some(o)
    case CommitStore(o, _, _) => Some(o)
    case CommitCount(o, _, _) => Some(o)
    case _ => None
  }

  /** The one slot that may already refer to an owned object: CREATE between lines 165 and 170. */
  predicate Publishing(pc: Pc, k: int) {
    pc.CommitCount? && k == pc.next
  }

  ghost predicate HeapValid(s: State) {
    && (forall r :: 0 <= r < |s.heap| ==> s.heap[r].id <= r)
    && (forall k :: 0 <= k < |s.tables| && s.tables[k].Some? ==> s.tables[k].value < |s.heap|)
    && (forall b :: 0 <= b < |s.agents| && Owned(s.agents[b]).Some? ==> Owned(s.agents[b]).value < |s.heap|)
  }

  /** Owned objects are in no slot, and are owned by one agent only. */
  ghost predicate Private(s: State) {
    && (forall b, k | 0 <= b < |s.agents| && 0 <= k < |s.tables| && Owned(s.agents[b]).Some? ::
          s.tables[k] == Owned(s.agents[b]) ==> Publishing(s.agents[b], k))
    && (forall b, c | 0 <= b < |s.agents| && 0 <= c < |s.agents| && b != c && Owned(s.agents[b]).Some? ::
          Owned(s.agents[b]) != Owned(s.agents[c]))
  }

  /** What the private objects are copies of, and that a new table's identity is nobody else's. */
  ghost predicate Lineage(s: State) {
    && (forall b :: 0 <= b < |s.agents| ==> LineageOf(s, s.agents[b]))
    && (forall b, k | 0 <= b < |s.agents| && 0 <= k < |s.tables| ::
          CarriesId(s, s.agents[b], k) ==> Publishing(s.agents[b], k))
  }

  function IdOf(s: State, r: Ref): nat {
    if r < |s.heap| then s.heap[r].id else r
  }

  /** Slot `k` refers to a version of the table the agent is about to create. */
  predicate CarriesId(s: State, pc: Pc, k: int) {
    CreateOwned(pc).Some? && SlotOf(s, k).Some? && IdOf(s, SlotOf(s, k).value) == CreateOwned(pc).value
  }

  predicate LineageOf(s: State, pc: Pc) {
    && (CreateOwned(pc).Some? ==> IdOf(s, CreateOwned(pc).value) == CreateOwned(pc).value)
    && (pc.Open? && !pc.drop ==>
          IdOf(s, pc.table) == IdOf(s, pc.base) && pc.base < pc.table < |s.heap| &&
          s.heap[pc.table].origin == Some(pc.base))
  }

  /** The identities of the listed tables. */
  function Identities(s: State): seq<nat>
    requires Shape(s)
  {
    seq(Length(s), k => IdOf(s, RefAt(s, k)))
  }

  ghost predicate ObjInv(s: State)
    requires Shape(s)
  {
    HeapValid(s) && Private(s) && Lineage(s) && Distinct(Identities(s))
  }

  // ------------------------------------------------------------------ what a step does to objects

  /** Objects are owned by their allocator only, edited by their owner only, and never lose their identity. */
  ghost predicate Owning(s: State, was: Pc, pc: Pc, eff: Eff) {
    && (eff.Alloc? ==> Owned(was) == None && Owned(pc) == Some(|s.heap|) && eff.obj.id <= |s.heap|)
    && (!eff.Alloc? ==> Owned(pc) == None || Owned(pc) == Owned(was))
    && (!eff.Alloc? ==> CreateOwned(pc) == None || CreateOwned(pc) == CreateOwned(was))
    && (eff.Alloc? && CreateOwned(pc).Some? ==> eff.obj.id == |s.heap|)
    && (pc.Open? && !pc.drop ==>
          if eff.Alloc? then pc.base < |s.heap| && eff.obj == CopyOf(s, pc.base) else pc == was)
    && (eff.Write? ==> Owned(was) == Some(eff.table) && !was.CommitCount? && pc == was)
    && (was.CommitCount? && Owned(pc).Some? ==> pc.CommitCount? && pc.next == was.next)
  }

  /** What is stored into a slot: null, the agent's own object, or the reference of the last slot. */
  predicate Storing(s: State, was: Pc, pc: Pc, eff: Eff) {
    eff.StoreTable? ==>
      || eff.v == None
      || (eff.v == CreateOwned(was) && Publishing(pc, eff.i) && CreateOwned(pc) == CreateOwned(was) && was.CommitStore?)
      || (was.Open? && !was.drop && eff.i == was.slot && eff.v == Some(was.table) && Owned(pc) == None)
      || (was.MoveStore? && eff.v == SlotOf(s, was.last) && Owned(was) == Owned(pc) == None)
  }

  lemma PlanOwning(s: State, a: nat, act: Act)
    requires Enabled(s, a, act) && HeapValid(s) && Fact(s, s.agents[a])
    ensures var (pc, eff) := Plan(s, s.agents[a], act); Owning(s, s.agents[a], pc, eff)
  {
    hide Fact, Owning, HeapValid;
    var pc := s.agents[a];
    if CommitsCreate(pc) {
      CreateOwning(s, pc);
    } else if MovesLast(pc) {
      MoveOwning(s, pc);
    } else if CommitsDrop(pc) {
      DropLastOwning(s, pc);
    } else {
      CallOwning(s, pc, act);
    }
  }

  lemma CreateOwning(s: State, pc: Pc)
    requires CommitsCreate(pc) && Fact(s, pc)
    ensures var (pc2, eff) := PlanCreate(s, pc); Owning(s, pc, pc2, eff)
  {
  }

  lemma MoveOwning(s: State, pc: Pc)
    requires MovesLast(pc)
    ensures var (pc2, eff) := PlanMove(s, pc); Owning(s, pc, pc2, eff)
  {
    var (pc2, eff) := PlanMove(s, pc);
    assert (MovesLast(pc2) || pc2.DropTest? || pc2.Idle?) && !eff.Alloc? && !eff.Write?;
    hide PlanMove;
    DropsOwnNothing(pc2);
  }

  lemma DropsOwnNothing(pc: Pc)
    requires CommitsDrop(pc) || pc.Idle?
    ensures Owned(pc) == None && CreateOwned(pc) == None && !pc.Open?
  {
  }

  lemma DropLastOwning(s: State, pc: Pc)
    requires CommitsDrop(pc) && !MovesLast(pc)
    ensures var (pc2, eff) := PlanDropLast(s, pc); Owning(s, pc, pc2, eff)
  {
  }

  lemma CallOwning(s: State, pc: Pc, act: Act)
    requires !CommitsCreate(pc) && !CommitsDrop(pc) && Fits(pc, act) && Fact(s, pc) && HeapValid(s)
    ensures var (pc2, eff) := PlanCall(s, pc, act); Owning(s, pc, pc2, eff)
  {
    if pc.SlotCopy? {
      CopyOwning(s, pc, act);
    } else if pc.Open? || pc.CreateOpen? {
      OpenOwning(s, pc, act);
    } else {
      OtherCallOwning(s, pc, act);
    }
  }

  lemma CopyOwning(s: State, pc: Pc, act: Act)
    requires pc.SlotCopy? && HeapValid(s) && Fact(s, pc)
    ensures var (pc2, eff) := PlanCall(s, pc, act); Owning(s, pc, pc2, eff)
  {
  }

  lemma OpenOwning(s: State, pc: Pc, act: Act)
    requires (pc.Open? || pc.CreateOpen?) && Fits(pc, act)
    ensures var (pc2, eff) := PlanCall(s, pc, act); Owning(s, pc, pc2, eff)
  {
  }

  lemma OtherCallOwning(s: State, pc: Pc, act: Act)
    requires !CommitsCreate(pc) && !CommitsDrop(pc) && !pc.SlotCopy? && !pc.Open? && !pc.CreateOpen? && Fits(pc, act)
    requires Fact(s, pc)
    ensures var (pc2, eff) := PlanCall(s, pc, act); Owning(s, pc, pc2, eff)
  {
  }

  lemma PlanStoring(s: State, a: nat, act: Act)
    requires Enabled(s, a, act)
    ensures var (pc, eff) := Plan(s, s.agents[a], act); Storing(s, s.agents[a], pc, eff)
  {
    var pc := s.agents[a];
    if CommitsCreate(pc) {
      assert Plan(s, pc, act) == PlanCreate(s, pc);
    } else if MovesLast(pc) {
      assert Plan(s, pc, act) == PlanMove(s, pc);
    } else if CommitsDrop(pc) {
      assert Plan(s, pc, act) == PlanDropLast(s, pc);
    } else {
      assert Plan(s, pc, act) == PlanCall(s, pc, act);
    }
  }

  lemma HeapAfter(s: State, a: nat, pc: Pc, eff: Eff)
    requires a < |s.agents| && Possible(s, eff)
    ensures var t := After(s, a, pc, eff);
      && |s.heap| <= |t.heap|
      && (forall r :: 0 <= r < |s.heap| ==> t.heap[r].id == s.heap[r].id && t.heap[r].origin == s.heap[r].origin)
  {
  }

  lemma HeapValidKept(s: State, a: nat, pc: Pc, eff: Eff)
    requires HeapValid(s) && a < |s.agents| && Possible(s, eff)
    requires Owning(s, s.agents[a], pc, eff) && Storing(s, s.agents[a], pc, eff)
    ensures HeapValid(After(s, a, pc, eff))
  {
    var t := After(s, a, pc, eff);
    HeapAfter(s, a, pc, eff);
    if s.agents[a].Open? && !s.agents[a].drop {
      assert Owned(s.agents[a]) == Some(s.agents[a].table);
    }
    forall b | 0 <= b < |t.agents| && Owned(t.agents[b]).Some?
      ensures Owned(t.agents[b]).value < |t.heap|
    {
      if b == a && !eff.Alloc? {
        assert Owned(pc) == Owned(s.agents[a]);
      }
    }
  }

  /** Nobody else's object enters a slot. */
  lemma StoredElsewhere(s: State, a: nat, pc: Pc, eff: Eff, b: nat)
    requires Inv(s) && HeapValid(s) && Private(s) && a < |s.agents| && b < |s.agents| && a != b
    requires Possible(s, eff) && eff.StoreTable? && Storing(s, s.agents[a], pc, eff)
    ensures Owned(s.agents[b]).Some? ==> eff.v != Owned(s.agents[b])
  {
    var was := s.agents[a];
    if was.MoveStore? && eff.v.Some? {
      assert Fact(s, was) && Fact(s, s.agents[b]);
      LocksDisjoint(s, a, b, was.last);
      assert Holds(was, was.last);
    }
    if was.Open? && !was.drop {
      assert Owned(was) == Some(was.table);
    }
    if CreateOwned(was).Some? {
      assert Owned(was) == CreateOwned(was);
    }
  }

  lemma PrivateKept(s: State, a: nat, pc: Pc, eff: Eff)
    requires Inv(s) && HeapValid(s) && Private(s) && a < |s.agents| && Possible(s, eff)
    requires Owning(s, s.agents[a], pc, eff) && Storing(s, s.agents[a], pc, eff)
    ensures Private(After(s, a, pc, eff))
  {
    var t := After(s, a, pc, eff);
    forall b, k | 0 <= b < |t.agents| && 0 <= k < |t.tables| && Owned(t.agents[b]).Some? &&
      t.tables[k] == Owned(t.agents[b])
      ensures Publishing(t.agents[b], k)
    {
      if eff.StoreTable? && eff.i == k {
        if b != a {
          StoredElsewhere(s, a, pc, eff, b);
        }
      } else {
        assert t.tables[k] == s.tables[k];
        if b == a {
          assert !eff.Alloc?;
          assert Owned(s.agents[a]) == Owned(pc);
        }
      }
    }
    forall b, c | 0 <= b < |t.agents| && 0 <= c < |t.agents| && b != c && Owned(t.agents[b]).Some?
      ensures Owned(t.agents[b]) != Owned(t.agents[c])
    {
      if b != a {
        assert Owned(t.agents[b]) == Owned(s.agents[b]);
      }
      if c != a {
        assert Owned(t.agents[c]) == Owned(s.agents[c]);
      }
    }
  }

  // ------------------------------------------------------------------ publication

  /** A published object: it exists, and nobody can edit it. */
  ghost predicate Published(s: State, r: Ref) {
    && r < |s.heap|
    && forall b :: 0 <= b < |s.agents| && Owned(s.agents[b]) == Some(r) ==> s.agents[b].CommitCount?
  }

  lemma ListedIsPublished(s: State, k: int)
    requires HeapValid(s) && Private(s) && 0 <= k < |s.tables| && s.tables[k].Some?
    ensures Published(s, s.tables[k].value)
  {
  }

  lemma PublishedStep(s: State, a: nat, act: Act, r: Ref)
    requires Enabled(s, a, act) && HeapValid(s) && Fact(s, s.agents[a]) && Published(s, r)
    ensures Published(Step(s, a, act), r) && Step(s, a, act).heap[r] == s.heap[r]
  {
    var t := Step(s, a, act);
    var (pc, eff) := Plan(s, s.agents[a], act);
    PlanOwning(s, a, act);
    forall b | 0 <= b < |t.agents| && Owned(t.agents[b]) == Some(r)
      ensures t.agents[b].CommitCount?
    {
      if b == a {
        assert Owned(pc) == Owned(s.agents[a]);
        assert Publishing(s.agents[a], s.agents[a].next);
      }
    }
  }

  lemma StepObjects(s: State, a: nat, act: Act)
    requires Inv(s) && HeapValid(s) && Private(s) && Enabled(s, a, act)
    ensures HeapValid(Step(s, a, act)) && Private(Step(s, a, act))
  {
    var (pc, eff) := Plan(s, s.agents[a], act);
    assert Fact(s, s.agents[a]);
    PlanOwning(s, a, act);
    PlanStoring(s, a, act);
    HeapValidKept(s, a, pc, eff);
    PrivateKept(s, a, pc, eff);
  }

  lemma {:induction false} RunObjects(s: State, moves: seq<Move>)
    requires Inv(s) && HeapValid(s) && Private(s) && GuardedRun(s, moves)
    ensures Runs(s, moves) && HeapValid(Exec(s, moves)) && Private(Exec(s, moves))
    decreases moves
  {
    hide Inv, HeapValid, Private, Guarded, Step, Enabled;
    if moves != [] {
      StepInv(s, moves[0].agent, moves[0].act);
      StepObjects(s, moves[0].agent, moves[0].act);
      RunObjects(Step(s, moves[0].agent, moves[0].act), moves[1..]);
    }
  }

  /** A table object read from the directory is never modified afterwards. */
  lemma {:induction false} PublishedIsImmutable(s: State, moves: seq<Move>, r: Ref)
    requires Inv(s) && HeapValid(s) && Private(s) && GuardedRun(s, moves)
    requires Published(s, r)
    ensures Runs(s, moves) && r < |Exec(s, moves).heap| && Exec(s, moves).heap[r] == s.heap[r]
    decreases moves
  {
    GuardedRunsRun(s, moves);
    if moves != [] {
      var a, act := moves[0].agent, moves[0].act;
      StepInv(s, a, act);
      StepObjects(s, a, act);
      assert Fact(s, s.agents[a]);
      PublishedStep(s, a, act, r);
      PublishedIsImmutable(Step(s, a, act), moves[1..], r);
    }
  }

  // ------------------------------------------------------------------ identities

  lemma ActorLineage(s: State, a: nat, pc: Pc, eff: Eff)
    requires HeapValid(s) && a < |s.agents| && Possible(s, eff) && Fact(s, s.agents[a]) && LineageOf(s, s.agents[a])
    requires Owning(s, s.agents[a], pc, eff)
    ensures LineageOf(After(s, a, pc, eff), pc)
  {
    HeapAfter(s, a, pc, eff);
    var was := s.agents[a];
    assert Owned(was).Some? ==> Owned(was).value < |s.heap|;
    assert CreateOwned(was).Some? ==> Owned(was) == CreateOwned(was);
    assert CreateOwned(pc).Some? ==> Owned(pc) == CreateOwned(pc);
  }

  lemma LineageStable(s: State, t: State, pc: Pc)
    requires HeapValid(s) && Fact(s, pc) && LineageOf(s, pc)
    requires Owned(pc).Some? ==> Owned(pc).value < |s.heap|
    requires |s.heap| <= |t.heap|
    requires forall r :: 0 <= r < |s.heap| ==> t.heap[r].id == s.heap[r].id && t.heap[r].origin == s.heap[r].origin
    ensures LineageOf(t, pc)
  {
    assert CreateOwned(pc).Some? ==> Owned(pc) == CreateOwned(pc);
  }

  /** A slot locked by another agent refers to nobody's new table. */
  lemma HeldSlotCarriesNothing(s: State, a: nat, b: nat, k: int)
    requires Inv(s) && Lineage(s) && a < |s.agents| && b < |s.agents| && 0 <= k < Capacity(s)
    requires Holds(s.agents[a], k) && !s.agents[a].CommitCount?
    ensures !CarriesId(s, s.agents[b], k)
  {
    if b != a {
      LocksDisjoint(s, a, b, k);
    }
  }

  /** A slot that carries a new table's identity can only be the slot its CREATE is publishing it in. */
  lemma CarrierKept(s: State, a: nat, pc: Pc, eff: Eff, b: nat, k: int)
    requires Inv(s) && HeapValid(s) && Private(s) && Lineage(s) && a < |s.agents| && Possible(s, eff)
    requires Owning(s, s.agents[a], pc, eff) && Storing(s, s.agents[a], pc, eff)
    requires b < |s.agents| && 0 <= k < Capacity(s)
    requires CarriesId(After(s, a, pc, eff), After(s, a, pc, eff).agents[b], k)
    ensures Publishing(After(s, a, pc, eff).agents[b], k)
  {
    var t := After(s, a, pc, eff);
    var was := s.agents[a];
    HeapAfter(s, a, pc, eff);
    assert LineageOf(s, was) && LineageOf(s, s.agents[b]);
    assert Fact(s, was) && Fact(s, s.agents[b]);
    assert CreateOwned(was).Some? ==> Owned(was) == CreateOwned(was);
    assert CreateOwned(s.agents[b]).Some? ==> Owned(s.agents[b]) == CreateOwned(s.agents[b]);
    if eff.StoreTable? && eff.i == k {
      if was.MoveStore? {
        HeldSlotCarriesNothing(s, a, b, was.last);
      } else if was.Open? {
        assert !was.drop ==> Owned(was) == Some(was.table);
        HeldSlotCarriesNothing(s, a, b, was.slot);
      }
    } else {
      assert t.tables[k] == s.tables[k];
      assert s.tables[k].value < |s.heap|;
      if b != a || !eff.Alloc? {
        assert CarriesId(s, s.agents[b], k);
      }
    }
  }

  lemma LineageKept(s: State, a: nat, act: Act)
    requires Inv(s) && HeapValid(s) && Private(s) && Lineage(s) && Enabled(s, a, act)
    ensures Lineage(Step(s, a, act))
  {
    var t := Step(s, a, act);
    var (pc, eff) := Plan(s, s.agents[a], act);
    assert Fact(s, s.agents[a]) && LineageOf(s, s.agents[a]);
    PlanOwning(s, a, act);
    PlanStoring(s, a, act);
    HeapAfter(s, a, pc, eff);
    forall b | 0 <= b < |t.agents|
      ensures LineageOf(t, t.agents[b])
    {
      if b == a {
        ActorLineage(s, a, pc, eff);
      } else {
        assert Fact(s, s.agents[b]) && LineageOf(s, s.agents[b]);
        LineageStable(s, t, s.agents[b]);
      }
    }
    forall b, k | 0 <= b < |t.agents| && 0 <= k < |t.tables| && CarriesId(t, t.agents[b], k)
      ensures Publishing(t.agents[b], k)
    {
      CarrierKept(s, a, pc, eff, b, k);
    }
  }

  /** The list operation on identities that a step performs. */
  function IdOp(s: State, emitted: Option<Op<Ref>>): Option<Op<nat>> {
    match emitted
    case None => None
    case Some(Append(o)) => Some(Op.Append(IdOf(s, o)))
    case Some(Replace(i, o)) => Some(Op.Replace(i, IdOf(s, o)))
    case Some(Remove(i)) => Some(Op.Remove(i))
  }

  /** The version a DROP reservation was made for. */
  function BaseOf(pc: Pc): Option<Ref> {
    if pc.LastClear? || pc.MoveStore? then Some(pc.base) else None
  }

  /**
   * What a linearization point means for tables: CREATE adds one new identity, ALTER replaces exactly the version
   * its copy was taken from and keeps the identity, DROP removes the table the reservation was made for.
   */
  predicate Meaningful(s: State, a: nat, emitted: Option<Op<Ref>>)
    requires Shape(s) && a < |s.agents|
  {
    match emitted
    case None => true
    case Some(Append(o)) => IdOf(s, o) !in Identities(s)
    case Some(Replace(i, o)) =>
      && 0 <= i < Length(s) && Directory(s)[i] < o < |s.heap| && s.heap[o].origin == Some(Directory(s)[i])
      && IdOf(s, o) == Identities(s)[i]
    case Some(Remove(i)) => 0 <= i < Length(s) && Some(Directory(s)[i]) == BaseOf(s.agents[a])
  }

  lemma EffectsAreMeaningful(s: State, a: nat, act: Act)
    requires Inv(s) && ObjInv(s) && Enabled(s, a, act) && Guarded(s, a)
    ensures Meaningful(s, a, Emits(s, a, act))
  {
    var pc := s.agents[a];
    assert Fact(s, pc) && LineageOf(s, pc);
    StepRefines(s, a, act);
    if pc.CommitCount? {
      LengthStep(s, a, act);
      forall k | 0 <= k < Length(s)
        ensures Identities(s)[k] != IdOf(s, pc.table)
      {
        NoHoles(s, k);
        assert !CarriesId(s, pc, k);
      }
    } else if pc.Open? {
      OpenPins(s, a);
    }
  }

  /** The list of identities an operation on identities produces. */
  function ExpectedIds(ids: seq<nat>, op: Option<Op<nat>>): seq<nat>
    requires op.Some? ==> Applicable(ids, op.value)
  {
    match op
    case None => ids
    case Some(o) => Apply(ids, o)
  }

  lemma IdentitiesAfter(s: State, t: State, emitted: Option<Op<Ref>>)
    requires Shape(s) && Shape(t)
    requires emitted.Some? ==> Applicable(Directory(s), emitted.value)
    requires Directory(t) == Expected(Directory(s), emitted)
    requires forall k :: 0 <= k < Length(s) ==> IdOf(t, RefAt(s, k)) == IdOf(s, RefAt(s, k))
    requires emitted.Some? && !emitted.value.Remove? ==> IdOf(t, emitted.value.t) == IdOf(s, emitted.value.t)
    ensures IdOp(s, emitted).Some? ==> Applicable(Identities(s), IdOp(s, emitted).value)
    ensures Identities(t) == ExpectedIds(Identities(s), IdOp(s, emitted))
  {
    assert |Directory(t)| == Length(t) && |Directory(s)| == Length(s);
    forall k | 0 <= k < Length(t)
      ensures IdOf(t, RefAt(t, k)) == ExpectedIds(Identities(s), IdOp(s, emitted))[k]
    {
      assert Directory(t)[k] == RefAt(t, k);
    }
  }

  lemma IdsSurvive(s: State, a: nat, act: Act)
    requires Inv(s) && HeapValid(s) && Enabled(s, a, act)
    ensures forall k :: 0 <= k < Length(s) ==> IdOf(Step(s, a, act), RefAt(s, k)) == IdOf(s, RefAt(s, k))
    ensures var emitted := Emits(s, a, act);
      emitted.Some? && !emitted.value.Remove? ==> IdOf(Step(s, a, act), emitted.value.t) == IdOf(s, emitted.value.t)
  {
    var (pc, eff) := Plan(s, s.agents[a], act);
    HeapAfter(s, a, pc, eff);
    EmittedRefValid(s, a, act);
    forall k | 0 <= k < Length(s)
      ensures IdOf(Step(s, a, act), RefAt(s, k)) == IdOf(s, RefAt(s, k))
    {
      NoHoles(s, k);
    }
  }

  lemma EmittedRefValid(s: State, a: nat, act: Act)
    requires Enabled(s, a, act) && HeapValid(s)
    ensures match Emits(s, a, act)
      case Some(Append(o)) => o < |s.heap|
      case Some(Replace(_, o)) => o < |s.heap|
      case _ => true
  {
    assert Owned(s.agents[a]).Some? ==> Owned(s.agents[a]).value < |s.heap|;
  }

  /** Every guarded step keeps the object invariant: no table is ever listed twice. */
  lemma StepObjInv(s: State, a: nat, act: Act)
    requires Inv(s) && ObjInv(s) && Enabled(s, a, act) && Guarded(s, a)
    ensures Inv(Step(s, a, act)) && ObjInv(Step(s, a, act))
  {
    StepInv(s, a, act);
    StepObjects(s, a, act);
    LineageKept(s, a, act);
    EffectsAreMeaningful(s, a, act);
    StepRefines(s, a, act);
    IdsSurvive(s, a, act);
    IdentitiesAfter(s, Step(s, a, act), Emits(s, a, act));
    var op := IdOp(s, Emits(s, a, act));
    if op.Some? {
      DistinctKept(Identities(s), op.value);
    }
  }

  lemma InitObjects(s: State)
    requires Init(s)
    ensures Shape(s) && ObjInv(s)
  {
    forall b | 0 <= b < |s.agents|
      ensures LineageOf(s, s.agents[b]) && Owned(s.agents[b]) == None
    {
      assert s.agents[b] == Idle;
    }
  }

  lemma {:induction false} RunObjInv(s: State, moves: seq<Move>)
    requires Inv(s) && ObjInv(s) && GuardedRun(s, moves)
    ensures Runs(s, moves) && Inv(Exec(s, moves)) && ObjInv(Exec(s, moves))
    decreases moves
  {
    GuardedRunsRun(s, moves);
    if moves != [] {
      StepObjInv(s, moves[0].agent, moves[0].act);
      RunObjInv(Step(s, moves[0].agent, moves[0].act), moves[1..]);
    }
  }

  lemma ListedOnce(s: State, j: int, k: int)
    requires Shape(s) && ObjInv(s) && 0 <= j < k < Length(s)
    ensures IdOf(s, RefAt(s, j)) != IdOf(s, RefAt(s, k))
  {
    assert Identities(s)[j] != Identities(s)[k];
  }

  /**
   * No table is lost or duplicated: in two different slots the same table can only occur if one of them lies
   * beyond the list, and then its lock is held by the drop that has copied it away (lines 105 to 111).
   */
  lemma DuplicatesAreStale(s: State, j: int, k: int)
    requires Inv(s) && ObjInv(s) && 0 <= j < k < Capacity(s)
    requires s.tables[j].Some? && s.tables[k].Some? && IdOf(s, s.tables[j].value) == IdOf(s, s.tables[k].value)
    ensures k >= Length(s)
    ensures s.locks[k].Some? && s.locks[k].value < |s.agents|
    ensures var pc := s.agents[s.locks[k].value];
      (pc.MoveUnlock? || pc.MoveCount? || pc.MoveReserve? || pc.MoveClear?) && pc.last == k
  {
    if k < Length(s) {
      ListedOnce(s, j, k);
    }
    assert DenseAt(s, k);
    NoHoles(s, k);
    LengthShrinks(s);
    var b := s.locks[k].value;
    var pc := s.agents[b];
    assert Fact(s, pc) && Holds(pc, k);
    assert pc.CommitCount? ==> LineageOf(s, pc) && !CarriesId(s, pc, j);
    assert !pc.CommitCount?;
    BeyondTheList(s, k, pc);
  }

  lemma BeyondTheList(s: State, k: int, pc: Pc)
    requires Shape(s) && 0 <= k < Capacity(s) && Fact(s, pc) && Holds(pc, k) && s.tables[k].Some?
    requires Occupied(pc, k, s.tableCount) && !pc.CommitCount?
    requires k >= s.tableCount || (k == s.tableCount - 1 && HalfGone(pc))
    ensures (pc.MoveUnlock? || pc.MoveCount? || pc.MoveReserve? || pc.MoveClear?) && pc.last == k
  {
  }
}
