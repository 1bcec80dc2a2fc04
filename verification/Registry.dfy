/**
 * The weighted action registry (action_registry.cpp) and the worker loop that draws from it (workload.cpp).
 * `int` is 32 bits wide and `std::size_t` 64 bits.
 */
module Registry {
  import opened Wrappers
  import opened TableList
  import opened Ddl

  const INT_RANGE := 0x1_0000_0000
  const SIZE_RANGE := 0x1_0000_0000_0000_0000

  datatype Factory = Factory(name: string, builder: nat, weight: nat)

  /** Weights are std::size_t values. */
  predicate SizedWeights(fs: seq<Factory>) {
    forall k :: 0 <= k < |fs| ==> fs[k].weight < SIZE_RANGE
  }

  function FactoryNames(fs: seq<Factory>): seq<string> {
    seq(|fs|, k requires 0 <= k < |fs| => fs[k].name)
  }

  ghost predicate UniqueNames(fs: seq<Factory>) {
    Distinct(FactoryNames(fs))
  }

  function Find(fs: seq<Factory>, name: string): (r: Option<nat>)
    ensures r.Some? ==> r.value < |fs| && fs[r.value].name == name
    ensures r.Some? ==> forall k :: 0 <= k < r.value ==> fs[k].name != name
    ensures r.None? ==> forall k :: 0 <= k < |fs| ==> fs[k].name != name
  {
    if fs == [] then None
    else if fs[0].name == name then Some(0)
    else match Find(fs[1..], name)
         case None => None
         case Some(k) => Some(k + 1)
  }

  function Inserted(fs: seq<Factory>, action: Factory): seq<Factory> {
    if Find(fs, action.name).Some? then fs else fs + [action]
  }

  function Removed(fs: seq<Factory>, name: string): seq<Factory> {
    match Find(fs, name)
    case None => fs
    case Some(k) => Erase(fs, k)
  }

  /** The sum of the first `k` weights. */
  function Prefix(fs: seq<Factory>, k: nat): nat
    requires k <= |fs|
  {
    if k == 0 then 0 else Prefix(fs, k - 1) + fs[k - 1].weight
  }

  function Total(fs: seq<Factory>): nat {
    Prefix(fs, |fs|)
  }

  /** Conversion to a 32-bit int. */
  function ToInt(x: int): int {
    var r := x % INT_RANGE;
    if r >= INT_RANGE / 2 then r - INT_RANGE else r
  }

  /** Conversion to std::size_t. */
  function ToSize(x: int): nat {
    x % SIZE_RANGE
  }

  class ActionRegistry {
    var factories: seq<Factory>

    constructor ()
      ensures factories == [] && UniqueNames(factories)
    {
      factories := [];
    }

    /** The copy constructor. */
    constructor Copy(o: ActionRegistry)
      ensures factories == o.factories
      ensures UniqueNames(o.factories) ==> UniqueNames(factories)
    {
      factories := o.factories;
    }

    /** insert: None is the exception for a name that exists already. */
    method Insert(action: Factory) returns (r: Option<nat>)
      modifies this
      ensures factories == Inserted(old(factories), action)
      ensures r == None <==> action.name in FactoryNames(old(factories))
      ensures r.Some? ==> factories == old(factories) + [action] && r.value == |factories| - 1
      ensures old(UniqueNames(factories)) ==> UniqueNames(factories)
    {
      var k := Search(action.name);
      if k < |factories| {
        assert FactoryNames(factories)[k] == action.name;
        return None;
      }
      assert FactoryNames(factories + [action]) == FactoryNames(factories) + [action.name];
      factories := factories + [action];
      r := Some(|factories| - 1);
    }

    /** remove: false is the exception for an unknown name. */
    method Remove(name: string) returns (removed: bool)
      modifies this
      ensures factories == Removed(old(factories), name)
      ensures removed <==> name in FactoryNames(old(factories))
      ensures removed ==>
        exists k | 0 <= k < |old(factories)| && old(factories)[k].name == name ::
          factories == old(factories)[..k] + old(factories)[k + 1..]
      ensures !removed ==> factories == old(factories)
      ensures old(UniqueNames(factories)) ==> UniqueNames(factories) && name !in FactoryNames(factories)
    {
      var k := Search(name);
      if k == |factories| {
        return false;
      }
      assert FactoryNames(factories)[k] == name;
      assert FactoryNames(Erase(factories, k)) == Erase(FactoryNames(factories), k);
      factories := Erase(factories, k);
      removed := true;
    }

    /** The search by name behind insert, remove, has and the accessors. */
    method Search(name: string) returns (k: nat)
      ensures k <= |factories|
      ensures k < |factories| ==> factories[k].name == name
      ensures forall j :: 0 <= j < k ==> factories[j].name != name
      ensures Find(factories, name) == if k < |factories| then Some(k) else None
    {
      k := 0;
      while k < |factories| && factories[k].name != name
        invariant 0 <= k <= |factories|
        invariant forall j :: 0 <= j < k ==> factories[j].name != name
      {
        k := k + 1;
      }
    }

    method Has(name: string) returns (found: bool)
      ensures found <==> name in FactoryNames(factories)
    {
      var k := Search(name);
      found := k < |factories|;
      assert found ==> FactoryNames(factories)[k] == name;
    }

    /** use and the copy assignment. */
    method Use(o: ActionRegistry)
      modifies this
      ensures factories == old(o.factories)
      ensures old(UniqueNames(o.factories)) ==> UniqueNames(factories)
    {
      factories := o.factories;
    }

    /** totalWeight accumulates in an int, whatever the width of the weights. */
    method TotalWeight() returns (total: nat)
      requires SizedWeights(factories)
      ensures total == ToSize(ToInt(Total(factories)))
    {
      var acc: int := 0;
      var k := 0;
      while k < |factories|
        invariant 0 <= k <= |factories|
        invariant acc == ToInt(Prefix(factories, k))
      {
        AccumulateWraps(Prefix(factories, k), factories[k].weight);
        acc := ToInt(ToSize(ToSize(acc) + factories[k].weight));
        k := k + 1;
      }
      total := ToSize(acc);
    }

    /** lookupByWeightOffset; None is the exception. */
    method LookupByWeightOffset(offset: nat) returns (r: Option<nat>)
      requires SizedWeights(factories)
      ensures r == Select(factories, offset)
    {
      var accum: nat := 0;
      var k := 0;
      while k < |factories|
        invariant 0 <= k <= |factories|
        invariant accum == ToSize(Prefix(factories, k))
        invariant Select(factories, offset) == SelectFrom(factories, offset, k)
      {
        SizeWraps(Prefix(factories, k), factories[k].weight);
        accum := ToSize(accum + factories[k].weight);
        if accum >= offset {
          return Some(k);
        }
        k := k + 1;
      }
      r := None;
    }
  }

  /** The first factory at or after `k` whose (wrapped) prefix sum reaches the offset. */
  function SelectFrom(fs: seq<Factory>, offset: nat, k: nat): (r: Option<nat>)
    requires k <= |fs|
    ensures r.Some? ==> k <= r.value < |fs|
    decreases |fs| - k
  {
    if k == |fs| then None
    else if ToSize(Prefix(fs, k + 1)) >= offset then Some(k)
    else SelectFrom(fs, offset, k + 1)
  }

  function Select(fs: seq<Factory>, offset: nat): Option<nat> {
    SelectFrom(fs, offset, 0)
  }

  // ------------------------------------------------------------------ arithmetic of the accumulators

  lemma AccumulateWraps(sum: nat, w: nat)
    requires w < SIZE_RANGE
    ensures ToInt(ToSize(ToSize(ToInt(sum)) + w)) == ToInt(sum + w)
  {
    var a := ToInt(sum);
    var b := ToSize(a);
    var c := ToSize(b + w);
    var i := ToIntQuotient(sum);
    var j := ToSizeQuotient(a);
    var k := ToSizeQuotient(b + w);
    hide ToInt, ToSize;
    assert c == sum + w + (i + j + k) * INT_RANGE;
    ToIntPeriodic(sum + w, i + j + k);
  }

  /** Both conversions change a number by a multiple of 2^32. */
  lemma ToIntQuotient(x: int) returns (k: int)
    ensures ToInt(x) == x + k * INT_RANGE
  {
    k := (ToInt(x) - x) / INT_RANGE;
  }

  lemma ToSizeQuotient(x: int) returns (k: int)
    ensures ToSize(x) == x + k * INT_RANGE
  {
    k := -(x / SIZE_RANGE) * INT_RANGE;
  }

  lemma ToIntPeriodic(x: int, k: int)
    ensures ToInt(x + k * INT_RANGE) == ToInt(x)
  {
    assert (x + k * INT_RANGE) % INT_RANGE == x % INT_RANGE;
  }

  lemma SizeWraps(sum: nat, w: nat)
    ensures ToSize(ToSize(sum) + w) == ToSize(sum + w)
  {
  }

  /** totalWeight is the true total exactly when that fits, or wraps back to itself. */
  lemma TotalWeightExact(sum: nat)
    ensures ToSize(ToInt(sum)) == sum <==>
      sum < INT_RANGE / 2 || SIZE_RANGE - INT_RANGE / 2 <= sum < SIZE_RANGE
  {
  }

  // ------------------------------------------------------------------ exact selection

  lemma {:induction false} PrefixMonotone(fs: seq<Factory>, j: nat, k: nat)
    requires j <= k <= |fs|
    ensures Prefix(fs, j) <= Prefix(fs, k)
    decreases k
  {
    if j < k {
      PrefixMonotone(fs, j, k - 1);
    }
  }

  /** The offsets that select factory `i`. */
  predicate InShare(fs: seq<Factory>, i: nat, offset: nat)
    requires i < |fs|
  {
    (i == 0 || Prefix(fs, i) < offset) && offset <= Prefix(fs, i + 1)
  }

  lemma {:induction false} SelectFromShare(fs: seq<Factory>, offset: nat, k: nat)
    requires k <= |fs| && Total(fs) < SIZE_RANGE
    requires k == 0 || Prefix(fs, k) < offset
    ensures match SelectFrom(fs, offset, k)
      case None => k == |fs| || offset > Total(fs)
      case Some(i) => k <= i < |fs| && InShare(fs, i, offset)
    decreases |fs| - k
  {
    if k < |fs| {
      PrefixMonotone(fs, k + 1, |fs|);
      SelectFromShare0(fs, offset, k);
      if Prefix(fs, k + 1) < offset {
        SelectFromShare(fs, offset, k + 1);
      }
    }
  }

  lemma SelectFromShare0(fs: seq<Factory>, offset: nat, k: nat)
    requires k < |fs| && Prefix(fs, k + 1) < SIZE_RANGE
    ensures ToSize(Prefix(fs, k + 1)) == Prefix(fs, k + 1)
  {
  }

  lemma SharesDisjoint(fs: seq<Factory>, i: nat, j: nat, offset: nat)
    requires i < |fs| && j < |fs| && InShare(fs, i, offset) && InShare(fs, j, offset)
    ensures i == j
  {
    if i < j {
      PrefixMonotone(fs, i + 1, j);
    } else if j < i {
      PrefixMonotone(fs, j + 1, i);
    }
  }

  /** Selection agrees with the prefix sums: which factory an offset selects, and when the lookup throws. */
  lemma SelectExact(fs: seq<Factory>, offset: nat, i: nat)
    requires Total(fs) < SIZE_RANGE && i < |fs|
    ensures Select(fs, offset) == Some(i) <==> InShare(fs, i, offset)
    ensures Select(fs, offset) == None <==> offset > Total(fs)
  {
    SelectFromShare(fs, offset, 0);
    var r := Select(fs, offset);
    if r.Some? {
      PrefixMonotone(fs, r.value + 1, |fs|);
      if InShare(fs, i, offset) {
        SharesDisjoint(fs, i, r.value, offset);
      }
    } else {
      PrefixMonotone(fs, i + 1, |fs|);
    }
  }

  /** The offsets in `0..total` that select factory `i`. */
  ghost function Chosen(fs: seq<Factory>, i: nat): set<nat> {
    set offset: nat | offset <= Total(fs) && Select(fs, offset) == Some(i) :: offset
  }

  predicate Between(x: nat, lo: nat, hi: nat) { lo <= x < hi }

  ghost function Interval(lo: nat, hi: nat): set<nat> {
    set x: nat | x < hi && Between(x, lo, hi)
  }

  lemma {:induction false} IntervalSize(lo: nat, hi: nat)
    requires lo <= hi
    ensures |Interval(lo, hi)| == hi - lo
    decreases hi
  {
    if lo == hi {
      assert Interval(lo, hi) == {};
    } else {
      IntervalSize(lo, hi - 1);
      assert Interval(lo, hi) == Interval(lo, hi - 1) + {hi - 1};
    }
  }

  /** Exact weights: a draw from `0..total` selects factory i in weight_i cases, and the first in one case more. */
  lemma SelectionMatchesWeights(fs: seq<Factory>, i: nat)
    requires i < |fs| && Total(fs) < SIZE_RANGE
    ensures |Chosen(fs, i)| == fs[i].weight + (if i == 0 then 1 else 0)
  {
    var lo := if i == 0 then 0 else Prefix(fs, i) + 1;
    var hi := Prefix(fs, i + 1) + 1;
    PrefixMonotone(fs, i + 1, |fs|);
    forall offset: nat
      ensures offset in Chosen(fs, i) <==> offset in Interval(lo, hi)
    {
      SelectExact(fs, offset, i);
    }
    assert Chosen(fs, i) == Interval(lo, hi);
    IntervalSize(lo, hi);
  }

  // ------------------------------------------------------------------ stale totals

  lemma {:induction false} PrefixOfLonger(fs: seq<Factory>, more: seq<Factory>, k: nat)
    requires k <= |fs|
    ensures Prefix(fs + more, k) == Prefix(fs, k)
    decreases k
  {
    if k > 0 {
      PrefixOfLonger(fs, more, k - 1);
    }
  }

  lemma {:induction false} SelectFromLonger(fs: seq<Factory>, more: seq<Factory>, offset: nat, k: nat)
    requires k <= |fs| && SelectFrom(fs, offset, k).Some?
    ensures SelectFrom(fs + more, offset, k) == SelectFrom(fs, offset, k)
    decreases |fs| - k
  {
    PrefixOfLonger(fs, more, k + 1);
    if ToSize(Prefix(fs, k + 1)) < offset {
      SelectFromLonger(fs, more, offset, k + 1);
    }
  }

  /** If only inserts happen between reading the total and the lookup, the drawn offset still means the same. */
  lemma InsertsKeepSelection(fs: seq<Factory>, more: seq<Factory>, offset: nat)
    requires fs != [] && Total(fs) < SIZE_RANGE && offset <= Total(fs)
    ensures Select(fs, offset).Some? && Select(fs + more, offset) == Select(fs, offset)
  {
    SelectExact(fs, offset, 0);
    SelectFromLonger(fs, more, offset, 0);
  }

  lemma {:induction false} PrefixOfErased(fs: seq<Factory>, k: nat, j: nat)
    requires k < |fs| && j < |fs|
    ensures Prefix(Erase(fs, k), j) == if j <= k then Prefix(fs, j) else Prefix(fs, j + 1) - fs[k].weight
    decreases j
  {
    if j > 0 {
      PrefixOfErased(fs, k, j - 1);
    }
  }

  /**
   * After a remove, the drawn offset fails exactly when it exceeds the new total, or when nothing is left: an empty
   * registry has the total 0, but does not resolve the offset 0.
   */
  lemma RemoveMayFail(fs: seq<Factory>, k: nat, offset: nat)
    requires k < |fs| && Total(fs) < SIZE_RANGE && offset <= Total(fs)
    ensures Total(Erase(fs, k)) == Total(fs) - fs[k].weight
    ensures Select(Erase(fs, k), offset) == None <==> |fs| == 1 || offset > Total(fs) - fs[k].weight
  {
    PrefixOfErased(fs, k, |fs| - 1);
    if |fs| >= 2 {
      SelectExact(Erase(fs, k), offset, 0);
    }
  }

  // ------------------------------------------------------------------ histories

  /** A call on one of several registries, or the copy construction of a new one. */
  datatype Call =
    | InsertInto(r: nat, action: Factory)
    | RemoveFrom(r: nat, name: string)
    | CopyOf(other: nat)
    | UseOther(r: nat, other: nat)

  predicate Callable(regs: seq<seq<Factory>>, c: Call) {
    match c
    case InsertInto(r, _) => r < |regs|
    case RemoveFrom(r, _) => r < |regs|
    case CopyOf(o) => o < |regs|
    case UseOther(r, o) => r < |regs| && o < |regs|
  }

  function Called(regs: seq<seq<Factory>>, c: Call): seq<seq<Factory>>
    requires Callable(regs, c)
  {
    match c
    case InsertInto(r, f) => regs[r := Inserted(regs[r], f)]
    case RemoveFrom(r, name) => regs[r := Removed(regs[r], name)]
    case CopyOf(o) => regs + [regs[o]]
    case UseOther(r, o) => regs[r := regs[o]]
  }

  function AllCalled(regs: seq<seq<Factory>>, calls: seq<Call>): seq<seq<Factory>>
    decreases calls
  {
    if calls == [] then regs
    else AllCalled(if Callable(regs, calls[0]) then Called(regs, calls[0]) else regs, calls[1..])
  }

  ghost predicate AllUnique(regs: seq<seq<Factory>>) {
    forall r :: 0 <= r < |regs| ==> UniqueNames(regs[r])
  }

  lemma InsertedUnique(fs: seq<Factory>, f: Factory)
    requires UniqueNames(fs)
    ensures UniqueNames(Inserted(fs, f))
  {
    assert FactoryNames(fs + [f]) == FactoryNames(fs) + [f.name];
  }

  lemma RemovedUnique(fs: seq<Factory>, name: string)
    requires UniqueNames(fs)
    ensures UniqueNames(Removed(fs, name)) && name !in FactoryNames(Removed(fs, name))
  {
    if Find(fs, name).Some? {
      var k := Find(fs, name).value;
      assert FactoryNames(fs)[k] == name;
      assert FactoryNames(Erase(fs, k)) == Erase(FactoryNames(fs), k);
    }
  }

  /** Names stay distinct in every registry over every history of insert, remove, copy and use. */
  lemma {:induction false} NamesStayDistinct(regs: seq<seq<Factory>>, calls: seq<Call>)
    requires AllUnique(regs)
    ensures AllUnique(AllCalled(regs, calls))
    decreases calls
  {
    if calls != [] {
      var c := calls[0];
      if Callable(regs, c) {
        if c.InsertInto? {
          InsertedUnique(regs[c.r], c.action);
        } else if c.RemoveFrom? {
          RemovedUnique(regs[c.r], c.name);
        }
        NamesStayDistinct(Called(regs, c), calls[1..]);
      } else {
        NamesStayDistinct(regs, calls[1..]);
      }
    }
  }

  /** A call changes no registry but its own; a copied or used registry is taken over whole and stays as it is. */
  lemma CallIsLocal(regs: seq<seq<Factory>>, c: Call, q: nat)
    requires Callable(regs, c) && q < |regs|
    ensures q < |Called(regs, c)|
    ensures c.CopyOf? || c.r != q ==> Called(regs, c)[q] == regs[q]
    ensures c.CopyOf? ==> |Called(regs, c)| == |regs| + 1 && Called(regs, c)[|regs|] == regs[c.other]
    ensures c.UseOther? ==> Called(regs, c)[c.r] == regs[c.other]
  {
  }

  /** A call takes factories away from a registry only if it removes them by name or replaces the whole registry. */
  predicate Spares(c: Call, r: nat, f: Factory) {
    match c
    case RemoveFrom(q, name) => q != r || name != f.name
    case UseOther(q, _) => q != r
    case _ => true
  }

  lemma CallSpares(regs: seq<seq<Factory>>, c: Call, r: nat, f: Factory)
    requires Callable(regs, c) && r < |regs| && f in regs[r] && Spares(c, r, f)
    ensures r < |Called(regs, c)| && f in Called(regs, c)[r]
  {
    if c.RemoveFrom? && c.r == r && Find(regs[r], c.name).Some? {
      var k := Find(regs[r], c.name).value;
      var j :| 0 <= j < |regs[r]| && regs[r][j] == f;
      assert j != k;
      assert Erase(regs[r], k)[if j < k then j else j - 1] == f;
    }
  }

  /** Over any history a factory stays in a registry until a remove of its own name, or a use, of that registry. */
  lemma {:induction false} FactoriesStay(regs: seq<seq<Factory>>, calls: seq<Call>, r: nat, f: Factory)
    requires r < |regs| && f in regs[r] && forall k :: 0 <= k < |calls| ==> Spares(calls[k], r, f)
    ensures r < |AllCalled(regs, calls)| && f in AllCalled(regs, calls)[r]
    decreases calls
  {
    if calls != [] {
      var c := calls[0];
      if Callable(regs, c) {
        CallSpares(regs, c, r, f);
        FactoriesStay(Called(regs, c), calls[1..], r, f);
      } else {
        FactoriesStay(regs, calls[1..], r, f);
      }
    }
  }

  /** A factory comes into a registry only by its own insert, or by a copy or use of a registry that has it. */
  lemma FactoriesComeFromSomewhere(regs: seq<seq<Factory>>, c: Call, r: nat, f: Factory)
    requires Callable(regs, c) && r < |Called(regs, c)| && f in Called(regs, c)[r]
    ensures
      || (r < |regs| && f in regs[r])
      || c == InsertInto(r, f)
      || (c.CopyOf? && r == |regs| && f in regs[c.other])
      || (c.UseOther? && c.r == r && f in regs[c.other])
  {
  }

  // ------------------------------------------------------------------ the worker loop

  /** The total the worker draws up to: the true one, unless it does not fit the int it is accumulated in. */
  function DrawnTotal(fs: seq<Factory>): nat {
    ToSize(ToInt(Total(fs)))
  }

  /**
   * RandomWorker::run_thread for as many rounds as there are draws.  The lookup stands outside the try block, so
   * a failing lookup ends the process.  While the registry stays as it is and its total weight fits an int, that
   * happens exactly when it is empty, and each round selects a factory in whose share the draw lies.
   */
  method RunThread(actions: ActionRegistry, draws: seq<nat>, succeeds: seq<bool>)
    returns (picks: seq<nat>, successful: nat, failed: nat, terminated: bool)
    requires SizedWeights(actions.factories) && |succeeds| == |draws|
    ensures |picks| <= |draws| && successful + failed == |picks|
    ensures terminated <==> |picks| < |draws|
    ensures forall k :: 0 <= k < |picks| ==>
      Select(actions.factories, RandomNumber(0, DrawnTotal(actions.factories), draws[k])) == Some(picks[k])
    ensures terminated ==>
      Select(actions.factories, RandomNumber(0, DrawnTotal(actions.factories), draws[|picks|])) == None
    ensures successful == |set k | 0 <= k < |picks| && succeeds[k]|
    ensures Total(actions.factories) < INT_RANGE / 2 ==>
      && (terminated <==> actions.factories == [] && draws != [])
      && forall k :: 0 <= k < |picks| ==>
           picks[k] < |actions.factories| &&
           InShare(actions.factories, picks[k], RandomNumber(0, Total(actions.factories), draws[k]))
  {
    picks, successful, failed, terminated := [], 0, 0, false;
    var n := 0;
    ghost var good: set<int> := {};
    TotalWeightExact(Total(actions.factories));
    while n < |draws|
      invariant 0 <= n <= |draws| && |picks| == n && successful + failed == n
      invariant n > 0 && Total(actions.factories) < INT_RANGE / 2 ==> actions.factories != []
      invariant forall k :: 0 <= k < n ==>
        Select(actions.factories, RandomNumber(0, DrawnTotal(actions.factories), draws[k])) == Some(picks[k])
      invariant Total(actions.factories) < INT_RANGE / 2 ==> forall k :: 0 <= k < n ==>
        picks[k] < |actions.factories| &&
        InShare(actions.factories, picks[k], RandomNumber(0, Total(actions.factories), draws[k]))
      invariant good == (set k | 0 <= k < n && succeeds[k]) && successful == |good|
    {
      var total := actions.TotalWeight();
      var w := RandomNumber(0, total, draws[n]);
      var r := actions.LookupByWeightOffset(w);
      if Total(actions.factories) < INT_RANGE / 2 {
        EveryOffsetResolves(actions.factories, w);
        if r.Some? {
          SelectExact(actions.factories, w, r.value);
        }
      }
      if r == None {
        terminated := true;
        return;
      }
      picks := picks + [r.value];
      if succeeds[n] {
        good := good + {n};
        successful := successful + 1;
      } else {
        failed := failed + 1;
      }
      n := n + 1;
    }
  }

  /** On a registry that is not empty, every offset up to the total resolves. */
  lemma EveryOffsetResolves(fs: seq<Factory>, offset: nat)
    requires Total(fs) < SIZE_RANGE && offset <= Total(fs)
    ensures Select(fs, offset) == None <==> fs == []
  {
    if fs != [] {
      SelectExact(fs, offset, 0);
    }
  }
}
