/**
 * `Metadata` and `Metadata::Reservation` as one thread sees them (metadata.cpp): the arrays, the counters and the
 * handles, updated in place.  A thread that locks a mutex held through another of its handles never returns from the
 * call; the methods report that as `Blocked`.
 */
module Reservations {
  import opened Wrappers
  import opened TableList
  import opened Handles

  datatype Result = Done | Blocked | Threw(failure: Failure)

  /** Everything a directory consists of, and which handles are open on it. */
  datatype Books = Books(
    tables: seq<Option<nat>>, locks: seq<bool>, moved: seq<Option<nat>>, count: nat, reserved: nat,
    creates: set<Reservation>,          // the open CREATE handles
    owners: map<nat, Reservation>)      // the open handle that owns the lock of a slot

  /**
   * Dense; room accounted for handle by handle; every locked slot filled and owned by an open handle; and a map that
   * points downwards.
   */
  ghost predicate Sound(b: Books) {
    && |b.tables| == |b.locks| == |b.moved|
    && b.reserved == b.count + |b.creates| <= |b.tables|
    && (forall k :: 0 <= k < |b.tables| ==> (b.tables[k].Some? <==> k < b.count))
    && (forall k :: 0 <= k < |b.locks| ==> (b.locks[k] <==> k in b.owners))
    && (forall k :: k in b.owners ==> k < b.count)
    && (forall k :: 0 <= k < |b.moved| && b.moved[k].Some? ==> b.moved[k].value < k)
  }

  /** The books know the handle `h` with the fields `v`. */
  ghost predicate Known(b: Books, h: Reservation, v: Handle) {
    && WellMade(v) && (IsOpen(v) ==> v.table.Some?)
    && (OpenCreate(v) ==> h in b.creates)
    && (v.lock.Some? ==> v.lock.value in b.owners && b.owners[v.lock.value] == h)
  }

  /** The list operation that complete() performs for an open handle. */
  function EffectOf(v: Handle): Op<Option<nat>> {
    match v.index
    case None => Append(v.table)
    case Some(i) => if v.drop then Remove(i) else Replace(i, v.table)
  }

  /** The books after complete() of the open handle `h` with the fields `v`. */
  ghost function Settled(b: Books, h: Reservation, v: Handle): Books
    requires Sound(b) && Known(b, h, v) && IsOpen(v)
  {
    CreateHasRoom(b, h, v);
    match v.index
    case None => b.(tables := b.tables[b.count := v.table], count := b.count + 1, creates := b.creates - {h})
    case Some(i) =>
      var free := b.(locks := b.locks[i := false], owners := b.owners - {i});
      if !v.drop then free.(tables := b.tables[i := v.table])
      else
        var last := b.count - 1;
        free.(tables := b.tables[i := b.tables[last]][last := None], count := last, reserved := b.reserved - 1,
              moved := b.moved[last := if i == last then None else Some(i)])
  }

  lemma CreateHasRoom(b: Books, h: Reservation, v: Handle)
    requires Sound(b) && Known(b, h, v)
    ensures OpenCreate(v) ==> b.count < |b.tables|
    ensures v.lock.Some? ==> v.lock.value < b.count <= |b.tables|
  {
    if OpenCreate(v) {
      assert b.creates == (b.creates - {h}) + {h};
    }
  }

  /**
   * complete() of the handle needs the lock of the last slot, and another handle owns it.  The slot behind the last one
   * is never locked.
   */
  predicate Waits(b: Books, v: Handle) {
    (v.index.None? || (v.drop && v.index.value != b.count - 1)) && 1 <= b.count <= |b.locks| && b.locks[b.count - 1]
  }

  /** complete() keeps the books in order and performs exactly the handle's list operation. */
  lemma SettledIsSound(b: Books, h: Reservation, v: Handle)
    requires Sound(b) && Known(b, h, v) && IsOpen(v) && !Waits(b, v)
    ensures Sound(Settled(b, h, v))
    ensures Applicable(b.tables[..b.count], EffectOf(v))
    ensures var c := Settled(b, h, v); c.tables[..c.count] == Apply(b.tables[..b.count], EffectOf(v))
  {
    CreateHasRoom(b, h, v);
    if v.index.None? {
      assert |b.creates - {h}| == |b.creates| - 1;
    } else if v.drop {
      DropSettles(b, h, v);
    }
  }

  /**
   * What a complete() that returns promises its caller, of the directory before and after and of the handle before and
   * after: CREATE reports the index at which its table now is; ALTER replaces its entry; DROP fills the hole with the
   * last table, and the map leads from the slot that table has left to the slot it is in.  Every other entry, of the
   * list and of the map, is as before, and no lock but the handle's own is released.
   */
  ghost predicate Performed(b: Books, c: Books, v: Handle, w: Handle) {
    && |c.tables| == |b.tables| == |c.moved| == |b.moved| == |c.locks| == |b.locks|
    && b.count <= |b.tables| && c.count <= |c.tables|
    && w.attached == v.attached && w.table == v.table && w.drop == v.drop && w.lock == None
    && (forall k :: 0 <= k < |b.locks| ==> (c.locks[k] <==> b.locks[k] && v.lock != Some(k)))
    && match v.index
       case None =>
         && w.index == Some(b.count) && c.count == b.count + 1 && c.reserved == b.reserved && c.moved == b.moved
         && c.tables[w.index.value] == v.table && forall k :: 0 <= k < b.count ==> c.tables[k] == b.tables[k]
       case Some(i) =>
         && w.index == Some(i) && i < b.count
         && if v.drop then Dropped(b, c, i)
            else
              && c.count == b.count && c.reserved == b.reserved && c.moved == b.moved
              && c.tables[i] == v.table && forall k :: 0 <= k < b.count && k != i ==> c.tables[k] == b.tables[k]
  }

  ghost predicate Dropped(b: Books, c: Books, i: nat)
    requires i < b.count <= |b.tables| == |c.tables| == |c.moved| == |b.moved| && c.count <= |c.tables|
  {
    var last := b.count - 1;
    && c.count == last && c.reserved == b.reserved - 1
    && (i < last ==> c.moved[last] == Some(i) && c.tables[c.moved[last].value] == b.tables[last])
    && (i == last ==> c.moved[last] == None)
    && (forall k :: 0 <= k < last && k != i ==> c.tables[k] == b.tables[k])
    && (forall k :: 0 <= k < |b.moved| && k != last ==> c.moved[k] == b.moved[k])
  }

  lemma SettledIsPerformed(b: Books, h: Reservation, v: Handle)
    requires Sound(b) && Known(b, h, v) && IsOpen(v)
    ensures Performed(b, Settled(b, h, v), v, Completed(v, b.count))
  {
    CreateHasRoom(b, h, v);
  }

  lemma DropSettles(b: Books, h: Reservation, v: Handle)
    requires Sound(b) && Known(b, h, v) && IsOpen(v) && v.index.Some? && v.drop && !Waits(b, v)
    ensures Sound(Settled(b, h, v)) && v.index.value < b.count
    ensures var c := Settled(b, h, v); c.tables[..c.count] == Apply(b.tables[..b.count], Remove(v.index.value))
  {
    CreateHasRoom(b, h, v);
    var c := Settled(b, h, v);
    forall k | k in c.owners
      ensures k < c.count
    {
      assert k in b.owners && k != v.index.value;
      assert b.locks[k];
    }
  }

  /** Completing one handle leaves every other handle known. */
  lemma OthersStayKnown(b: Books, h: Reservation, v: Handle, other: Reservation, w: Handle)
    requires Sound(b) && Known(b, h, v) && IsOpen(v) && other != h && Known(b, other, w)
    ensures Known(Settled(b, h, v), other, w)
  {
  }

  class Metadata {
    const tables: array<Option<nat>>
    const tableLocks: array<bool>
    const movedToMap: array<Option<nat>>
    var tableCount: nat
    var reservedSize: nat
    ghost var creates: set<Reservation>         // the open CREATE handles
    ghost var owners: map<nat, Reservation>     // the open handle that owns the lock of a slot

    ghost function Footprint(): set<object> {
      {this, tables, tableLocks, movedToMap}
    }

    ghost function View(): Books
      reads this, tables, tableLocks, movedToMap
    {
      Books(tables[..], tableLocks[..], movedToMap[..], tableCount, reservedSize, creates, owners)
    }

    ghost predicate Valid()
      reads this, tables, tableLocks, movedToMap
    {
      tables != movedToMap && Sound(View())
    }

    /** The listed table pointers. */
    ghost function Contents(): seq<Option<nat>>
      requires Valid()
      reads this, tables, tableLocks, movedToMap
    {
      tables[..tableCount]
    }

    constructor (capacity: nat)
      ensures Valid() && fresh(tables) && fresh(tableLocks) && fresh(movedToMap)
      ensures tables.Length == capacity && Contents() == [] && reservedSize == 0
      ensures forall k :: 0 <= k < capacity ==> !tableLocks[k] && movedToMap[k] == None
    {
      tables := new Option<nat>[capacity](_ => None);
      tableLocks := new bool[capacity](_ => false);
      movedToMap := new Option<nat>[capacity](_ => None);
      tableCount, reservedSize := 0, 0;
      creates, owners := {}, map[];
    }

    method Size() returns (n: nat)
      ensures n == tableCount
    {
      n := tableCount;
    }

    /** operator[]: the listed table, or null beyond the end, unless this thread holds the lock through a handle. */
    method At(idx: nat) returns (blocked: bool, t: Option<nat>)
      requires Valid() && idx < tables.Length
      ensures blocked <==> tableLocks[idx]
      ensures t == if !blocked && idx < |Contents()| then Contents()[idx] else None
    {
      if tableLocks[idx] {
        return true, None;
      }
      return false, tables[idx];
    }

    /** createTable: an open handle if there is room, a closed one otherwise. `made` is the new table object. */
    method CreateTable(made: nat) returns (r: Reservation)
      requires Valid()
      modifies this`reservedSize, this`creates
      ensures Valid() && fresh(r) && r.Backed()
      ensures if old(reservedSize) < tables.Length
        then r.storage == this && r.View() == Handle(true, Some(made), false, None, None) &&
             View() == old(View()).(reserved := old(reservedSize) + 1, creates := old(creates) + {r})
        else r.View() == CLOSED && View() == old(View())
    {
      if reservedSize < tables.Length {
        // alone, the increment cannot overshoot the limit that was just checked
        reservedSize := reservedSize + 1;
        r := new Reservation.For(this, Some(made), false, None, None);
        creates := creates + {r};
        return;
      }
      r := new Reservation();
    }

    /** alterTable and dropTable: `copy` is the private copy ALTER works on. */
    method ReserveSlot(idx: nat, drop: bool, copy: nat) returns (blocked: bool, r: Reservation)
      requires Valid() && idx < tables.Length
      modifies tableLocks, this`owners
      ensures Valid() && fresh(r) && r.Backed()
      ensures blocked <==> old(tableLocks[idx])
      ensures blocked || old(tables[idx]) == None ==> r.View() == CLOSED && View() == old(View())
      ensures !blocked && old(tables[idx]).Some? ==>
        && r.storage == this
        && View() == old(View()).(locks := old(tableLocks[..])[idx := true], owners := old(owners)[idx := r])
        && r.View() == Handle(true, if drop then tables[idx] else Some(copy), drop, Some(idx), Some(idx))
    {
      if tableLocks[idx] {
        r := new Reservation();
        return true, r;
      }
      tableLocks[idx] := true;
      var table := tables[idx];
      if table == None {
        tableLocks[idx] := false;
        assert tableLocks[..] == old(tableLocks[..]);
        r := new Reservation();
        return false, r;
      }
      r := new Reservation.For(this, if drop then table else Some(copy), drop, Some(idx), Some(idx));
      owners := owners[idx := r];
      blocked := false;
    }

    /** The bookkeeping of a move: what the directory has on its books for `other` it has for `h`. */
    ghost method HandOver(other: Reservation, h: Reservation, v: Handle)
      requires Valid() && Known(View(), other, v) && h !in creates
      modifies this
      ensures Valid() && Known(View(), h, v) && View() == Inherited(old(View()), h, other, v)
    {
      InheritedIsSound(View(), h, other, v);
      if OpenCreate(v) {
        creates := creates - {other} + {h};
      }
      if v.lock.Some? {
        owners := owners[v.lock.value := h];
      }
    }
  }

  class Reservation {
    var storage: Metadata?
    var table: Option<nat>
    var drop: bool
    var index: Option<nat>
    var lock: Option<nat>

    ghost function View(): Handle
      reads this
    {
      Handle(storage != null, table, drop, index, lock)
    }

    ghost function Footprint(): set<object>
      reads this
    {
      if storage == null then {} else storage.Footprint()
    }

    constructor ()
      ensures storage == null && View() == CLOSED
    {
      storage, table, drop, index, lock := null, None, false, None, None;
    }

    constructor For(storage: Metadata, table: Option<nat>, drop: bool, index: Option<nat>, lock: Option<nat>)
      ensures this.storage == storage && View() == Handle(true, table, drop, index, lock)
    {
      this.storage, this.table, this.drop, this.index, this.lock := storage, table, drop, index, lock;
    }

    /** The directory is in order and knows this handle. */
    ghost predicate Backed()
      reads this, Footprint()
    {
      storage != null ==> storage.Valid() && Known(storage.View(), this, View())
    }

    /** The move constructor: the new handle takes the place of the old one. */
    constructor Move(other: Reservation)
      requires other.Backed()
      modifies other, if other.storage == null then {} else {other.storage}
      ensures storage == old(other.storage) && View() == old(other.View())
      ensures other.View() == MovedFrom(old(other.View()))
      ensures other.storage == null && other.table == None && other.index == None && other.lock == None
      ensures Backed()
      ensures storage != null ==> storage.View() == Inherited(old(other.storage.View()), this, other, View())
    {
      storage, table, drop, index, lock := other.storage, other.table, other.drop, other.index, other.lock;
      new;
      if storage != null {
        storage.HandOver(other, this, View());
      }
      other.index, other.storage, other.table, other.lock := None, null, None, None;
    }

    /** The move assignment onto a handle that is not open, and therefore not on the books of any directory. */
    method MoveAssign(other: Reservation)
      requires other != this && !IsOpen(View()) && other.Backed()
      requires other.storage != null ==> this !in other.storage.creates
      modifies this, other, if other.storage == null then {} else {other.storage}
      ensures storage == old(other.storage) && View() == old(other.View())
      ensures other.View() == MovedFrom(old(other.View()))
      ensures other.storage == null && other.table == None && other.index == None && other.lock == None
      ensures Backed()
      ensures storage != null ==> storage.View() == Inherited(old(other.storage.View()), this, other, View())
    {
      if other.storage != null {
        other.storage.HandOver(other, this, other.View());
      }
      storage, table, drop, index, lock := other.storage, other.table, other.drop, other.index, other.lock;
      other.index, other.storage, other.table, other.lock := None, null, None, None;
    }

    /**
     * complete(): one list operation on the contents, after which the directory has settled its account with this
     * handle and with no other; or a call that never returns; or a failure.  Neither of these changes anything.
     */
    method Complete() returns (result: Result)
      requires Backed()
      modifies this, Footprint()
      ensures storage == old(storage) && Backed()
      ensures result.Threw? <==> !old(IsOpen(View()))
      ensures result == Threw(InvalidReservation) <==> old(storage) == null
      ensures result == Threw(DoubleComplete) <==> old(storage) != null && old(lock) == None && old(index).Some?
      ensures result.Blocked? <==>
        old(storage != null && (lock.Some? || index.None?)) &&
        old((index.None? || (drop && index.value != storage.tableCount - 1)) &&
            storage.tableCount >= 1 && storage.tableLocks[storage.tableCount - 1])
      ensures !result.Done? ==> View() == old(View()) && (storage != null ==> storage.View() == old(storage.View()))
      ensures result.Done? ==>
        && storage != null && View() == Completed(old(View()), old(storage.tableCount))
        && storage.View() == Settled(old(storage.View()), this, old(View()))
        && Performed(old(storage.View()), storage.View(), old(View()), View())
        && Applicable(old(storage.Contents()), old(EffectOf(View())))
        && storage.Contents() == Apply(old(storage.Contents()), old(EffectOf(View())))
    {
      if storage == null {
        return Threw(InvalidReservation);
      }
      if lock.None? && index.Some? {
        return Threw(DoubleComplete);
      }
      CompleteIsSound();
      result := CompleteOpen();
    }

    /** complete() of an open handle. */
    method CompleteOpen() returns (result: Result)
      requires storage != null && Backed() && IsOpen(View())
      modifies this, Footprint()
      ensures storage == old(storage) && (result == Done || result == Blocked)
      ensures result == Blocked <==> old(Waits(storage.View(), View()))
      ensures result == Blocked ==> View() == old(View()) && storage.View() == old(storage.View())
      ensures result == Done ==>
        && View() == Completed(old(View()), old(storage.tableCount))
        && storage.View() == Settled(old(storage.View()), this, old(View()))
        && Performed(old(storage.View()), storage.View(), old(View()), View())
    {
      SettledIsPerformed(storage.View(), this, View());
      if index.Some? {
        if !drop {
          result := CompleteAlter();
        } else {
          result := CompleteDrop();
        }
      } else {
        result := CompleteCreate();
      }
    }

    /** A completed handle takes nothing away from the other handles on its directory: each stays backed. */
    twostate lemma OthersStayBacked(h: Reservation)
      requires old(storage) != null && old(Backed() && IsOpen(View()))
      requires storage == old(storage) && storage.Valid()
      requires storage.View() == Settled(old(storage.View()), this, old(View()))
      requires h != this && old(h.storage == storage && h.Backed())
      requires h.storage == old(h.storage) && h.View() == old(h.View())
      ensures h.Backed()
    {
      OthersStayKnown(old(storage.View()), this, old(View()), h, h.View());
    }

    lemma CompleteIsSound()
      requires storage != null && Backed() && IsOpen(View())
      ensures var b := storage.View();
        !Waits(b, View()) ==>
          && Sound(Settled(b, this, View())) && Applicable(b.tables[..b.count], EffectOf(View()))
          && var c := Settled(b, this, View()); c.tables[..c.count] == Apply(b.tables[..b.count], EffectOf(View()))
    {
      if !Waits(storage.View(), View()) {
        SettledIsSound(storage.View(), this, View());
      }
    }

    method CompleteAlter() returns (result: Result)
      requires Backed() && storage != null && IsOpen(View()) && index.Some? && !drop
      modifies this, Footprint()
      ensures storage == old(storage) && result == Done
      ensures View() == Completed(old(View()), old(storage.tableCount))
      ensures storage.View() == Settled(old(storage.View()), this, old(View()))
      ensures Performed(old(storage.View()), storage.View(), old(View()), View())
    {
      SettledIsPerformed(storage.View(), this, View());
      storage.tables[index.value] := table;
      storage.tableLocks[lock.value] := false;
      storage.owners := storage.owners - {lock.value};
      lock := None;
      result := Done;
    }

    method CompleteDrop() returns (result: Result)
      requires Backed() && storage != null && IsOpen(View()) && index.Some? && drop
      modifies this, Footprint()
      ensures storage == old(storage) && (result == Done || result == Blocked)
      ensures result == Blocked <==> old(Waits(storage.View(), View()))
      ensures result == Blocked ==> View() == old(View()) && storage.View() == old(storage.View())
      ensures result == Done ==>
        && View() == Completed(old(View()), old(storage.tableCount))
        && storage.View() == Settled(old(storage.View()), this, old(View()))
        && Performed(old(storage.View()), storage.View(), old(View()), View())
    {
      SettledIsPerformed(storage.View(), this, View());
      var i := index.value;
      var completed := false;
      result := Done;
      while !completed
        invariant storage == old(storage) && result == Done && index == Some(i)
        invariant !completed ==> Backed() && View() == old(View()) && storage.View() == old(storage.View())
        invariant completed ==>
          && !old(Waits(storage.View(), View())) && View() == Completed(old(View()), old(storage.tableCount))
          && storage.View() == Settled(old(storage.View()), this, old(View()))
        decreases !completed
      {
        if i == storage.tableCount - 1 {
          DropInPlace(i);
          completed := true;
        } else {
          var lastIndex := storage.tableCount - 1;
          if storage.tableLocks[lastIndex] {
            return Blocked;
          }
          if storage.tables[lastIndex] != None && lastIndex == storage.tableCount - 1 {
            MoveLastInto(i, lastIndex);
            completed := true;
          }
        }
      }
    }

    /** The branch for the last table. */
    method DropInPlace(i: nat)
      requires Backed() && storage != null && drop && lock == index == Some(i) && i == storage.tableCount - 1
      modifies this`lock, Footprint()
      ensures lock == None && storage.View() == Settled(old(storage.View()), this, old(View()))
    {
      storage.tables[i] := None;
      storage.tableCount := storage.tableCount - 1;
      storage.reservedSize := storage.reservedSize - 1;
      storage.movedToMap[i] := None;
      storage.tableLocks[i] := false;
      storage.owners := storage.owners - {i};
      lock := None;
    }

    /** The defragmenting branch, from taking the lock of the last slot to releasing it. */
    method MoveLastInto(i: nat, lastIndex: nat)
      requires Backed() && storage != null && drop && lock == index == Some(i)
      requires i < lastIndex == storage.tableCount - 1 && !storage.tableLocks[lastIndex]
      modifies this`lock, Footprint()
      ensures lock == None && storage.View() == Settled(old(storage.View()), this, old(View()))
    {
      storage.tableLocks[lastIndex] := true;
      storage.tables[i] := storage.tables[lastIndex];
      storage.tableLocks[i] := false;
      storage.owners := storage.owners - {i};
      lock := None;
      storage.tableCount := storage.tableCount - 1;
      storage.reservedSize := storage.reservedSize - 1;
      storage.tables[lastIndex] := None;
      storage.movedToMap[lastIndex] := Some(i);
      storage.tableLocks[lastIndex] := false;
    }

    method CompleteCreate() returns (result: Result)
      requires Backed() && storage != null && IsOpen(View()) && index.None?
      modifies this, Footprint()
      ensures storage == old(storage) && (result == Done || result == Blocked)
      ensures result == Blocked <==> old(Waits(storage.View(), View()))
      ensures result == Blocked ==> View() == old(View()) && storage.View() == old(storage.View())
      ensures result == Done ==>
        && View() == Completed(old(View()), old(storage.tableCount))
        && storage.View() == Settled(old(storage.View()), this, old(View()))
        && index == Some(old(storage.tableCount)) && index.value < storage.tables.Length
        && storage.tables[index.value] == table
    {
      CreateHasRoom(storage.View(), this, View());
      var nextIndex := storage.tableCount;
      var outer := false;
      if storage.tableCount != 0 {
        var lastIndex := nextIndex - 1;
        if storage.tableLocks[lastIndex] {
          return Blocked;
        }
        storage.tableLocks[lastIndex] := true;
        outer := true;
        // alone, the last slot is filled and the size has not changed, so the loop of the source runs once
        assert storage.tables[lastIndex] != None && nextIndex == storage.tableCount;
      }
      // no reservation holds the slot behind the last one, so this lock is free
      assert !storage.tableLocks[nextIndex];
      storage.tableLocks[nextIndex] := true;
      storage.tables[nextIndex] := table;
      storage.tableCount := storage.tableCount + 1;
      storage.creates := storage.creates - {this};
      index := Some(nextIndex);
      storage.tableLocks[nextIndex] := false;
      if outer {
        storage.tableLocks[nextIndex - 1] := false;
      }
      result := Done;
    }

    /** The destructor: an open handle completes, any other leaves everything as it is. */
    method Destroy() returns (result: Result)
      requires Backed()
      modifies this, Footprint()
      ensures storage == old(storage) && Backed() && !result.Threw?
      ensures result.Blocked? <==>
        old(storage != null && (lock.Some? || index.None?)) &&
        old((index.None? || (drop && index.value != storage.tableCount - 1)) &&
            storage.tableCount >= 1 && storage.tableLocks[storage.tableCount - 1])
      ensures !old(IsOpen(View())) || result.Blocked? ==>
        View() == old(View()) && (storage != null ==> storage.View() == old(storage.View()))
      ensures old(IsOpen(View())) && result.Done? ==>
        && storage != null && View() == Completed(old(View()), old(storage.tableCount))
        && storage.View() == Settled(old(storage.View()), this, old(View()))
        && Performed(old(storage.View()), storage.View(), old(View()), View())
        && Applicable(old(storage.Contents()), old(EffectOf(View())))
        && storage.Contents() == Apply(old(storage.Contents()), old(EffectOf(View())))
    {
      result := Done;
      if storage != null && (lock.Some? || index.None?) {
        result := Complete();
      }
    }

    /** cancel(): gives back the room of an open CREATE or the lock of an open ALTER or DROP, and nothing else. */
    method Cancel()
      requires Backed()
      modifies this, if storage == null then {} else {storage, storage.tableLocks}
      ensures storage == null && View() == Cancelled(old(View()))
      ensures table == None && index == None && lock == None && drop == old(drop)
      ensures old(storage) != null ==>
        && old(storage).Valid() && old(storage).View() == Released(old(storage.View()), this, old(View()))
        && GivenBack(old(storage.View()), old(storage).View(), old(View()))
    {
      if storage != null {
        ReleasedIsSound(storage.View(), this, View());
        CancelGivesBack(storage.View(), this, View());
        ReleasedIsGivenBack(storage.View(), this, View());
        assert WellMade(View());
      }
      if index == None && storage != null {
        storage.reservedSize := storage.reservedSize - 1;
        storage.creates := storage.creates - {this};
      }
      if lock.Some? && storage != null {
        storage.tableLocks[lock.value] := false;
        storage.owners := storage.owners - {lock.value};
      }
      storage, table, index, lock := null, None, None, None;
    }
  }

  /** The books after a move from `other` to `h`, whose fields `v` go with it. */
  ghost function Inherited(b: Books, h: Reservation, other: Reservation, v: Handle): Books {
    b.(creates := if OpenCreate(v) then b.creates - {other} + {h} else b.creates,
       owners := if v.lock.Some? then b.owners[v.lock.value := h] else b.owners)
  }

  /** The books after cancel() of the handle `h` with the fields `v`: tables, size and map are as before. */
  ghost function Released(b: Books, h: Reservation, v: Handle): Books
    requires Sound(b) && Known(b, h, v)
  {
    CancelGivesBack(b, h, v);
    var c := if OpenCreate(v) then b.(reserved := b.reserved - 1, creates := b.creates - {h}) else b;
    if v.lock.Some? then c.(locks := b.locks[v.lock.value := false], owners := b.owners - {v.lock.value}) else c
  }

  /** cancel() leaves the tables, the size and the map alone, and gives back one unit of room or the handle's lock. */
  ghost predicate GivenBack(b: Books, c: Books, v: Handle) {
    && c.tables == b.tables && c.count == b.count && c.moved == b.moved && |c.locks| == |b.locks|
    && c.reserved == b.reserved - (if v.index == None then 1 else 0)
    && forall k :: 0 <= k < |b.locks| ==> (c.locks[k] <==> b.locks[k] && v.lock != Some(k))
  }

  lemma ReleasedIsGivenBack(b: Books, h: Reservation, v: Handle)
    requires Sound(b) && Known(b, h, v) && v.attached
    ensures GivenBack(b, Released(b, h, v), v)
  {
    CancelGivesBack(b, h, v);
  }

  /** A move changes nothing that the directory's users can see. */
  lemma InheritedIsUnseen(b: Books, h: Reservation, other: Reservation, v: Handle)
    ensures var c := Inherited(b, h, other, v);
      && c.tables == b.tables && c.locks == b.locks && c.moved == b.moved
      && c.count == b.count && c.reserved == b.reserved
  {
  }

  lemma InheritedIsSound(b: Books, h: Reservation, other: Reservation, v: Handle)
    requires Sound(b) && Known(b, other, v) && h !in b.creates
    ensures Sound(Inherited(b, h, other, v)) && Known(Inherited(b, h, other, v), h, v)
  {
  }

  lemma ReleasedIsSound(b: Books, h: Reservation, v: Handle)
    requires Sound(b) && Known(b, h, v)
    ensures Sound(Released(b, h, v))
  {
    CancelGivesBack(b, h, v);
  }

  lemma CancelGivesBack(b: Books, h: Reservation, v: Handle)
    requires Sound(b) && Known(b, h, v)
    ensures OpenCreate(v) ==> b.reserved >= 1 && |b.creates - {h}| == |b.creates| - 1
    ensures v.lock.Some? ==> v.lock.value < |b.locks|
  {
  }

  /** Cancelling or moving one handle also leaves every other handle known. */
  lemma OthersStayKnownElsewise(b: Books, h: Reservation, v: Handle, made: Reservation, other: Reservation, w: Handle)
    requires Sound(b) && Known(b, h, v) && other != h && Known(b, other, w)
    ensures Known(Released(b, h, v), other, w)
    ensures other != made ==> Known(Inherited(b, made, h, v), other, w)
  {
  }
}
