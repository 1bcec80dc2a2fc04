/**
 * The ownership discipline of `Metadata::Reservation` handles: what createTable, alterTable, dropTable, moves,
 * complete, cancel and destruction do to a handle, and the accounting over any history of them.
 */
module Handles {
  import opened Wrappers
  import opened Counting

  /**
   * The fields of a Reservation: whether storage_ is set, table_, drop_, index_ (None for npos), and the slot whose
   * mutex lock_ owns.
   */
  datatype Handle = Handle(attached: bool, table: Option<nat>, drop: bool, index: Option<nat>, lock: Option<nat>)

  const CLOSED := Handle(false, None, false, None, None)

  predicate IsOpen(h: Handle) {
    h.attached && (h.lock.Some? || h.index.None?)
  }

  predicate OpenCreate(h: Handle) {
    h.attached && h.index.None?
  }

  /** Handles made by the directory own a lock only for the slot they refer to, and only while attached. */
  predicate WellMade(h: Handle) {
    h.lock.Some? ==> h.attached && h.index == h.lock
  }

  /** What is left of a handle that has been moved from. */
  function MovedFrom(h: Handle): Handle {
    h.(attached := false, table := None, index := None, lock := None)
  }

  /** An open handle after a successful complete(); `slot` is where a CREATE has stored its table. */
  function Completed(h: Handle, slot: nat): Handle {
    if h.index.None? then h.(index := Some(slot)) else h.(lock := None)
  }

  function Cancelled(h: Handle): Handle {
    Handle(false, None, h.drop, None, None)
  }

  /** complete() throws exactly on handles that are not open. */
  datatype Failure = InvalidReservation | DoubleComplete

  function CompleteFailure(h: Handle): Option<Failure> {
    if !h.attached then Some(InvalidReservation)
    else if h.lock.None? && h.index.Some? then Some(DoubleComplete)
    else None
  }

  lemma FailsUnlessOpen(h: Handle)
    ensures CompleteFailure(h) == None <==> IsOpen(h)
  {
  }

  /** A finished, cancelled or moved-from handle is not open, so completing it again fails. */
  lemma FinishedHandlesFail(h: Handle, slot: nat)
    requires WellMade(h) && IsOpen(h)
    ensures CompleteFailure(Completed(h, slot)) == Some(DoubleComplete)
    ensures CompleteFailure(Cancelled(h)) == Some(InvalidReservation)
    ensures CompleteFailure(MovedFrom(h)) == Some(InvalidReservation)
  {
  }

  // ------------------------------------------------------------------ histories

  /**
   * A handle, and the number of the grant it was made for.  The number is only a label: it goes wherever the fields
   * are copied to and is never taken off a handle, so ending a grant twice would be counted twice.
   */
  datatype Holder = Holder(handle: Handle, grant: Option<nat>)

  /**
   * All handles of a program, how often each grant has been committed and cancelled, and how often each slot's lock
   * has been taken and released.
   */
  datatype World = World(
    holders: seq<Holder>,
    locked: seq<bool>,
    committed: seq<nat>, cancelled: seq<nat>,
    acquired: seq<nat>, released: seq<nat>)

  datatype Call =
    | Create(made: nat, room: bool)
    | Reserve(slot: nat, drop: bool, found: Option<nat>)
    | MoveConstruct(src: nat)
    | MoveAssign(dst: nat, src: nat)
    | Complete(h: nat, slot: nat)
    | Cancel(h: nat)
    | Destroy(h: nat)

  predicate Tallied(w: World) {
    |w.released| == |w.acquired| == |w.locked| && |w.committed| == |w.cancelled|
  }

  /** Moving onto an open handle drops its reservation unaccounted and is not part of the model. */
  predicate Allowed(w: World, c: Call) {
    match c
    case Create(_, _) => true
    case Reserve(i, _, _) => i < |w.locked| && !w.locked[i]
    case MoveConstruct(src) => src < |w.holders|
    case MoveAssign(dst, src) =>
      dst < |w.holders| && src < |w.holders| && dst != src && !IsOpen(w.holders[dst].handle)
    case Complete(h, _) => h < |w.holders|
    case Cancel(h) => h < |w.holders|
    case Destroy(h) => h < |w.holders|
  }

  function Unlocked(w: World, slot: Option<nat>): World
    requires |w.released| == |w.locked|
  {
    match slot
    case Some(i) =>
      if i < |w.locked| then w.(locked := w.locked[i := false], released := w.released[i := w.released[i] + 1]) else w
    case None => w
  }

  function Counted(tally: seq<nat>, grant: Option<nat>): seq<nat> {
    if grant.Some? && grant.value < |tally| then tally[grant.value := tally[grant.value] + 1] else tally
  }

  /** The next free number for a grant, with its tallies. */
  function Granted(w: World, h: Handle): World {
    w.(holders := w.holders + [Holder(h, Some(|w.committed|))], committed := w.committed + [0],
       cancelled := w.cancelled + [0])
  }

  function WithHandle(w: World, h: nat, now: Handle): seq<Holder>
    requires h < |w.holders|
  {
    w.holders[h := w.holders[h].(handle := now)]
  }

  function CompleteIn(w: World, h: nat, slot: nat): World
    requires h < |w.holders| && Tallied(w)
  {
    var was := w.holders[h];
    if CompleteFailure(was.handle).Some? then w
    else
      Unlocked(w, was.handle.lock).(
        holders := WithHandle(w, h, Completed(was.handle, slot)), committed := Counted(w.committed, was.grant))
  }

  function CancelIn(w: World, h: nat): World
    requires h < |w.holders| && Tallied(w)
  {
    var was := w.holders[h];
    var v := Unlocked(w, was.handle.lock).(holders := WithHandle(w, h, Cancelled(was.handle)));
    // room is given back, or a lock is
    if OpenCreate(was.handle) || was.handle.lock.Some? then v.(cancelled := Counted(w.cancelled, was.grant)) else v
  }

  function Do(w: World, c: Call): World
    requires Allowed(w, c) && Tallied(w)
  {
    match c
    case Create(t, room) =>
      if room then Granted(w, Handle(true, Some(t), false, None, None))
      else w.(holders := w.holders + [Holder(CLOSED, None)])
    case Reserve(i, drop, t) =>
      if t.None? then
        // the mutex is taken and given back when the empty slot is found
        w.(holders := w.holders + [Holder(CLOSED, None)], acquired := w.acquired[i := w.acquired[i] + 1],
           released := w.released[i := w.released[i] + 1])
      else
        Granted(w, Handle(true, t, drop, Some(i), Some(i))).(
          locked := w.locked[i := true], acquired := w.acquired[i := w.acquired[i] + 1])
    case MoveConstruct(src) =>
      w.(holders := WithHandle(w, src, MovedFrom(w.holders[src].handle)) + [w.holders[src]])
    case MoveAssign(dst, src) =>
      w.(holders := WithHandle(w, src, MovedFrom(w.holders[src].handle))[dst := w.holders[src]])
    case Complete(h, slot) => CompleteIn(w, h, slot)
    case Cancel(h) => CancelIn(w, h)
    case Destroy(h) => var v := CompleteIn(w, h, 0); v.(holders := WithHandle(v, h, CLOSED))
  }

  /** Counts the open handles that hold grant `g`. */
  function OpenCount(g: nat): Holder -> int {
    (x: Holder) => if IsOpen(x.handle) && x.grant == Some(g) then 1 else 0
  }

  /** Counts the handles that own the lock of slot `i`. */
  function LockCount(i: nat): Holder -> int {
    (x: Holder) => if x.handle.lock == Some(i) then 1 else 0
  }

  /** Each grant is held by exactly one open handle, or has been committed once, or has been cancelled once. */
  predicate GrantedOnce(w: World, g: nat)
    requires g < |w.committed| && Tallied(w)
  {
    Sum(w.holders, OpenCount(g)) + w.committed[g] + w.cancelled[g] == 1
  }

  /** Each lock is free, or held by exactly one handle; and every time it was taken it has been released or is held. */
  predicate SlotBalanced(w: World, i: nat)
    requires i < |w.locked| && Tallied(w)
  {
    && Sum(w.holders, LockCount(i)) == (if w.locked[i] then 1 else 0)
    && w.acquired[i] == w.released[i] + Sum(w.holders, LockCount(i))
  }

  predicate HolderValid(w: World, x: Holder) {
    && WellMade(x.handle)
    && (x.handle.lock.Some? ==> x.handle.lock.value < |w.locked|)
    && (IsOpen(x.handle) ==> x.grant.Some?)
    && (x.grant.Some? ==> x.grant.value < |w.committed|)
  }

  ghost predicate Balanced(w: World) {
    && Tallied(w)
    && (forall k :: 0 <= k < |w.holders| ==> HolderValid(w, w.holders[k]))
    && (forall g :: 0 <= g < |w.committed| ==> GrantedOnce(w, g))
    && (forall i :: 0 <= i < |w.locked| ==> SlotBalanced(w, i))
  }

  /** A new handle is open exactly if it was granted, for the slot and the operation it was asked for. */
  lemma NewHandleIsAsAskedFor(w: World, c: Call)
    requires Tallied(w) && Allowed(w, c) && (c.Create? || c.Reserve?)
    ensures var t := Do(w, c);
      && |t.holders| == |w.holders| + 1 && t.holders[..|w.holders|] == w.holders
      && var made := t.holders[|w.holders|].handle;
      && (IsOpen(made) <==> if c.Create? then c.room else c.found.Some?)
      && (IsOpen(made) && c.Create? ==> OpenCreate(made) && made.table == Some(c.made) && !made.drop)
      && (IsOpen(made) && c.Reserve? ==>
            made.index == Some(c.slot) && made.lock == Some(c.slot) && made.drop == c.drop && made.table == c.found)
  {
  }

  lemma {:induction false} SumSnoc<T>(xs: seq<T>, x: T, f: T -> int)
    ensures Sum(xs + [x], f) == Sum(xs, f) + f(x)
  {
    if xs == [] {
      assert xs + [x] == [x];
    } else {
      assert (xs + [x])[1..] == xs[1..] + [x];
      SumSnoc(xs[1..], x, f);
    }
  }

  /** Moving a handle moves its obligations with it. */
  lemma MovePreservesSums(w: World, c: Call, f: Holder -> int)
    requires Allowed(w, c) && Tallied(w)
    requires c.MoveConstruct? || c.MoveAssign?
    requires f(w.holders[c.src].(handle := MovedFrom(w.holders[c.src].handle))) == 0
    requires c.MoveAssign? ==> f(w.holders[c.dst]) == 0
    ensures Sum(Do(w, c).holders, f) == Sum(w.holders, f)
  {
    var moved := w.holders[c.src];
    var left := moved.(handle := MovedFrom(moved.handle));
    SumUpdate(w.holders, c.src, left, f);
    if c.MoveConstruct? {
      SumSnoc(w.holders[c.src := left], moved, f);
    } else {
      SumUpdate(w.holders[c.src := left], c.dst, moved, f);
    }
  }

  /** What a call does to one tally, as the change of a sum over the handles. */
  lemma CallSums(w: World, c: Call, f: Holder -> int)
    requires Allowed(w, c) && Tallied(w)
    ensures c.Create? || c.Reserve? ==>
      |Do(w, c).holders| == |w.holders| + 1 &&
      Sum(Do(w, c).holders, f) == Sum(w.holders, f) + f(Do(w, c).holders[|w.holders|])
    ensures c.Complete? || c.Cancel? || c.Destroy? ==>
      |Do(w, c).holders| == |w.holders| &&
      Sum(Do(w, c).holders, f) == Sum(w.holders, f) - f(w.holders[c.h]) + f(Do(w, c).holders[c.h])
  {
    var t := Do(w, c);
    if c.Create? || c.Reserve? {
      SumSnoc(w.holders, t.holders[|w.holders|], f);
    }
    if c.Complete? || c.Cancel? || c.Destroy? {
      SumUpdate(w.holders, c.h, t.holders[c.h], f);
      assert t.holders == w.holders[c.h := t.holders[c.h]];
    }
  }

  lemma HoldersStayValid(w: World, c: Call)
    requires Balanced(w) && Allowed(w, c)
    ensures var t := Do(w, c);
      && Tallied(t) && |t.locked| == |w.locked|
      && forall k :: 0 <= k < |t.holders| ==> HolderValid(t, t.holders[k])
  {
    hide GrantedOnce, SlotBalanced;
  }

  /** A grant that does not exist yet is held by nobody. */
  lemma UnknownGrantIsUnheld(w: World, g: nat)
    requires Balanced(w) && g >= |w.committed|
    ensures Sum(w.holders, OpenCount(g)) == 0
  {
    ZeroSum(w.holders, OpenCount(g));
  }

  lemma GrantsStayOnce(w: World, c: Call, g: nat)
    requires Balanced(w) && Allowed(w, c) && Tallied(Do(w, c)) && g < |Do(w, c).committed|
    ensures GrantedOnce(Do(w, c), g)
  {
    if c.MoveConstruct? || c.MoveAssign? {
      assert GrantedOnce(w, g);
      MovePreservesSums(w, c, OpenCount(g));
    } else {
      CallSums(w, c, OpenCount(g));
      if g < |w.committed| {
        assert GrantedOnce(w, g);
      } else {
        UnknownGrantIsUnheld(w, g);
      }
      hide GrantedOnce, SlotBalanced;
      if c.Complete? || c.Cancel? || c.Destroy? {
        EndedOnce(w, c, g);
      } else {
        FreshGrant(w, c, g);
      }
    }
  }

  /** complete, cancel and the destructor end exactly the grant of an open handle, and end it once. */
  lemma EndedOnce(w: World, c: Call, g: nat)
    requires Tallied(w) && Allowed(w, c) && (c.Complete? || c.Cancel? || c.Destroy?)
    requires HolderValid(w, w.holders[c.h]) && g < |w.committed|
    ensures var t := Do(w, c);
      && |t.committed| == |w.committed| && Tallied(t)
      && !IsOpen(t.holders[c.h].handle)
      && t.committed[g] + t.cancelled[g] == w.committed[g] + w.cancelled[g] + OpenCount(g)(w.holders[c.h])
  {
  }

  lemma FreshGrant(w: World, c: Call, g: nat)
    requires Tallied(w) && Allowed(w, c) && (c.Create? || c.Reserve?) && g < |Do(w, c).committed|
    ensures var t := Do(w, c);
      && Tallied(t)
      && if g < |w.committed|
         then t.committed[g] == w.committed[g] && t.cancelled[g] == w.cancelled[g] &&
              OpenCount(g)(t.holders[|w.holders|]) == 0
         else t.committed[g] == t.cancelled[g] == 0 && OpenCount(g)(t.holders[|w.holders|]) == 1
  {
  }

  lemma LocksBalance(w: World, c: Call, i: nat)
    requires Balanced(w) && Allowed(w, c) && i < |w.locked|
    requires var t := Do(w, c); Tallied(t) && |t.locked| == |w.locked|
    ensures SlotBalanced(Do(w, c), i)
  {
    assert SlotBalanced(w, i);
    hide GrantedOnce;
    if c.MoveConstruct? || c.MoveAssign? {
      if c.MoveAssign? {
        assert HolderValid(w, w.holders[c.dst]);
      }
      MovePreservesSums(w, c, LockCount(i));
    } else {
      CallBalancesLocks(w, c, i);
    }
  }

  lemma CallBalancesLocks(w: World, c: Call, i: nat)
    requires Balanced(w) && Allowed(w, c) && i < |w.locked| && !c.MoveConstruct? && !c.MoveAssign?
    requires var t := Do(w, c); Tallied(t) && |t.locked| == |w.locked|
    ensures SlotBalanced(Do(w, c), i)
  {
    assert SlotBalanced(w, i);
    CallSums(w, c, LockCount(i));
    if c.Complete? || c.Cancel? || c.Destroy? {
      HolderCountsOne(w, c.h, i);
      assert HolderValid(w, w.holders[c.h]);
      hide GrantedOnce, Balanced, HolderValid;
      EndReleases(w, c, i);
    } else {
      hide GrantedOnce, Balanced, HolderValid;
    }
  }

  /** complete, cancel and the destructor release exactly the lock the handle owns, and release it once. */
  lemma EndReleases(w: World, c: Call, i: nat)
    requires Tallied(w) && Allowed(w, c) && (c.Complete? || c.Cancel? || c.Destroy?)
    requires HolderValid(w, w.holders[c.h]) && i < |w.locked|
    ensures var t := Do(w, c); var own := w.holders[c.h].handle.lock == Some(i);
      && Tallied(t) && |t.locked| == |w.locked| && LockCount(i)(t.holders[c.h]) == 0
      && t.locked[i] == (w.locked[i] && !own) && t.acquired[i] == w.acquired[i]
      && t.released[i] == w.released[i] + (if own then 1 else 0)
  {
  }

  lemma HolderCountsOne(w: World, h: nat, i: nat)
    requires Tallied(w) && h < |w.holders| && i < |w.locked| && SlotBalanced(w, i)
    ensures w.holders[h].handle.lock == Some(i) ==> w.locked[i]
  {
    SumCovers(w.holders, LockCount(i), h);
  }

  /** Linear ownership: every call keeps every grant and every lock accounted for. */
  lemma CallKeepsBalance(w: World, c: Call)
    requires Balanced(w) && Allowed(w, c)
    ensures Balanced(Do(w, c)) && |Do(w, c).locked| == |w.locked|
    ensures |w.committed| <= |Do(w, c).committed|
  {
    HoldersStayValid(w, c);
    forall g: nat | g < |Do(w, c).committed|
      ensures GrantedOnce(Do(w, c), g)
    {
      GrantsStayOnce(w, c, g);
    }
    forall i: nat | i < |w.locked|
      ensures SlotBalanced(Do(w, c), i)
    {
      LocksBalance(w, c, i);
    }
  }

  /** A grant is never held by two open handles. */
  lemma HeldByOne(w: World, g: nat, h: nat, k: nat)
    requires Balanced(w) && g < |w.committed| && h < k < |w.holders|
    requires IsOpen(w.holders[h].handle) && w.holders[h].grant == Some(g)
    ensures !(IsOpen(w.holders[k].handle) && w.holders[k].grant == Some(g))
  {
    assert GrantedOnce(w, g);
    var without := w.holders[h := Holder(CLOSED, None)];
    SumUpdate(w.holders, h, Holder(CLOSED, None), OpenCount(g));
    SumCovers(without, OpenCount(g), k);
  }

  ghost predicate History(w: World, calls: seq<Call>)
    decreases calls
  {
    calls == [] || (Allowed(w, calls[0]) && Tallied(w) && History(Do(w, calls[0]), calls[1..]))
  }

  ghost function Outcome(w: World, calls: seq<Call>): World
    requires History(w, calls)
    decreases calls
  {
    if calls == [] then w else Outcome(Do(w, calls[0]), calls[1..])
  }

  /** No handle, no grant, and every lock free. */
  function Start(slots: nat): World {
    World([], seq(slots, k => false), [], [], seq(slots, k => 0), seq(slots, k => 0))
  }

  /**
   * Over any history of calls each grant that was ever given out is, at every moment, held by exactly one open handle
   * or ended exactly once; and each lock is released as often as it was taken, or held by exactly one handle.
   */
  lemma {:induction false} EveryHistoryBalances(w: World, calls: seq<Call>)
    requires Balanced(w) && History(w, calls)
    ensures Balanced(Outcome(w, calls)) && |w.committed| <= |Outcome(w, calls).committed|
    decreases calls
  {
    if calls != [] {
      CallKeepsBalance(w, calls[0]);
      EveryHistoryBalances(Do(w, calls[0]), calls[1..]);
    }
  }

  /**
   * From the start of the program: once no handle is open any more, every single grant has been committed exactly once
   * or cancelled exactly once, not both, and every lock is free and was released as often as it was taken.
   */
  lemma EveryGrantEndsOnce(slots: nat, calls: seq<Call>, g: nat)
    requires History(Start(slots), calls) && g < |Outcome(Start(slots), calls).committed|
    requires var t := Outcome(Start(slots), calls); forall k :: 0 <= k < |t.holders| ==> !IsOpen(t.holders[k].handle)
    ensures var t := Outcome(Start(slots), calls);
      && |t.cancelled| == |t.committed|
      && ((t.committed[g] == 1 && t.cancelled[g] == 0) || (t.committed[g] == 0 && t.cancelled[g] == 1))
      && t.acquired == t.released && forall i :: 0 <= i < |t.locked| ==> !t.locked[i]
  {
    assert Balanced(Start(slots));
    EveryHistoryBalances(Start(slots), calls);
    var t := Outcome(Start(slots), calls);
    assert GrantedOnce(t, g);
    ZeroSum(t.holders, OpenCount(g));
    forall i: nat | i < |t.locked|
      ensures t.acquired[i] == t.released[i] && !t.locked[i]
    {
      assert SlotBalanced(t, i);
      assert forall k :: 0 <= k < |t.holders| ==> HolderValid(t, t.holders[k]);
      ZeroSum(t.holders, LockCount(i));
    }
  }

  lemma {:induction false} ZeroSum<T>(xs: seq<T>, f: T -> int)
    requires forall k :: 0 <= k < |xs| ==> f(xs[k]) == 0
    ensures Sum(xs, f) == 0
  {
    if xs != [] {
      ZeroSum(xs[1..], f);
    }
  }
}
