/**
 * The directory as its callers think of it: a plain list.  CREATE appends, ALTER replaces one entry, DROP
 * fills the hole with the last entry and shrinks the list.
 */
module TableList {

  datatype Op<T> = Append(t: T) | Replace(i: int, t: T) | Remove(i: int)

  predicate Applicable<T>(q: seq<T>, op: Op<T>) {
    match op
    case Append(_) => true
    case Replace(i, _) => 0 <= i < |q|
    case Remove(i) => 0 <= i < |q|
  }

  function Apply<T>(q: seq<T>, op: Op<T>): seq<T>
    requires Applicable(q, op)
  {
    match op
    case Append(t) => q + [t]
    case Replace(i, t) => q[i := t]
    case Remove(i) => q[i := q[|q| - 1]][..|q| - 1]
  }

  predicate AllApplicable<T>(q: seq<T>, ops: seq<Op<T>>)
    decreases ops
  {
    ops == [] || (Applicable(q, ops[0]) && AllApplicable(Apply(q, ops[0]), ops[1..]))
  }

  function ApplyAll<T>(q: seq<T>, ops: seq<Op<T>>): seq<T>
    requires AllApplicable(q, ops)
    decreases ops
  {
    if ops == [] then q else ApplyAll(Apply(q, ops[0]), ops[1..])
  }

  ghost predicate Distinct<T>(q: seq<T>) {
    forall j, k :: 0 <= j < k < |q| ==> q[j] != q[k]
  }

  /** A removal loses exactly the removed entry, keeps every other one exactly once, and duplicates none. */
  lemma RemoveIsExact<T>(q: seq<T>, i: int)
    requires 0 <= i < |q|
    ensures multiset(Apply(q, Remove(i))) == multiset(q) - multiset{q[i]}
  {
    var n := |q| - 1;
    assert q == q[..n] + [q[n]];
    if i < n {
      assert q[..n] == q[..i] + [q[i]] + q[i + 1..n];
      assert Apply(q, Remove(i)) == q[..i] + [q[n]] + q[i + 1..n];
    } else {
      assert Apply(q, Remove(i)) == q[..n];
    }
  }

  lemma DistinctKept<T>(q: seq<T>, op: Op<T>)
    requires Distinct(q) && Applicable(q, op)
    requires op.Append? ==> op.t !in q
    requires op.Replace? ==> forall k :: 0 <= k < |q| && k != op.i ==> q[k] != op.t
    ensures Distinct(Apply(q, op))
  {
  }
}
