/** Insertion-ordered maps with string keys: the plain JavaScript objects the
    source fills with `obj[key] = value` and walks with `Object.entries`.
    Assigning to an existing key overwrites it in place; a new key goes to
    the end. */
module Assoc {
  import opened Wrappers

  type Assoc<V> = seq<(string, V)>

  /** `k` is one of the keys of `a`. */
  ghost predicate HasKey<V>(a: Assoc<V>, k: string) {
    exists i :: 0 <= i < |a| && a[i].0 == k
  }

  /** No key occurs twice, as in any JavaScript object. */
  ghost predicate DistinctKeys<V>(a: Assoc<V>) {
    forall i, j :: 0 <= i < j < |a| ==> a[i].0 != a[j].0
  }

  /** The position of the first occurrence of `k` at or after `from`. */
  function IndexFrom<V>(a: Assoc<V>, k: string, from: nat): (r: Option<nat>)
    requires from <= |a|
    ensures r.Some? ==> from <= r.value < |a| && a[r.value].0 == k
    ensures r.Some? ==> forall j :: from <= j < r.value ==> a[j].0 != k
    ensures r.None? ==> forall j :: from <= j < |a| ==> a[j].0 != k
    decreases |a| - from
  {
    if from == |a| then None
    else if a[from].0 == k then Some(from)
    else IndexFrom(a, k, from + 1)
  }

  /** The position of the first occurrence of `k`, as a left-to-right scan
      of the entries finds it. */
  function IndexOf<V>(a: Assoc<V>, k: string): (r: Option<nat>)
    ensures r.Some? ==> r.value < |a| && a[r.value].0 == k
    ensures r.Some? ==> forall j :: 0 <= j < r.value ==> a[j].0 != k
    ensures r.None? ==> forall j :: 0 <= j < |a| ==> a[j].0 != k
  {
    IndexFrom(a, k, 0)
  }

  /** Two entry lists with the same keys at the same positions locate every
      key at the same position. */
  lemma SameKeysSameIndex<V>(a: Assoc<V>, b: Assoc<V>, k: string)
    requires |a| == |b|
    requires forall j :: 0 <= j < |a| ==> a[j].0 == b[j].0
    ensures IndexOf(a, k) == IndexOf(b, k)
  {
    var ia, ib := IndexOf(a, k), IndexOf(b, k);
    if ia.Some? { assert b[ia.value].0 == k; }
    if ib.Some? { assert a[ib.value].0 == k; }
  }

  /** Appending an entry for another key does not move `k`. */
  lemma AppendKeepsIndex<V>(a: Assoc<V>, x: (string, V), k: string)
    requires x.0 != k
    ensures IndexOf(a + [x], k) == IndexOf(a, k)
  {
    var b := a + [x];
    assert forall j :: 0 <= j < |a| ==> b[j] == a[j];
    assert b[|a|].0 != k;
  }

  /** `obj[k]`: the value stored under `k`, if any. */
  function Lookup<V>(a: Assoc<V>, k: string): (r: Option<V>)
    ensures r.None? <==> !HasKey(a, k)
  {
    match IndexOf(a, k)
    case None => None
    case Some(i) => Some(a[i].1)
  }

  /** `obj[k] = v`: an existing entry for `k` is overwritten in place, a
      new key is appended. (`PutLookup` states it key by key.) */
  function Put<V>(a: Assoc<V>, k: string, v: V): (r: Assoc<V>)
    ensures !HasKey(a, k) ==> r == a + [(k, v)]
  {
    match IndexOf(a, k)
    case Some(i) => a[i := (k, v)]
    case None => a + [(k, v)]
  }

  /** `obj[k] = v` keeps every existing key at its position, adds `k` at the
      end when it is new, and never creates a second entry for a key. */
  lemma PutShape<V>(a: Assoc<V>, k: string, v: V)
    ensures var r := Put(a, k, v);
            && |r| == (if HasKey(a, k) then |a| else |a| + 1)
            && (forall i :: 0 <= i < |a| ==> r[i].0 == a[i].0)
            && (DistinctKeys(a) ==> DistinctKeys(r))
  {
    match IndexOf(a, k)
    case Some(i) =>
    case None =>
  }

  /** One `AddTo` step, seen from a single key. */
  lemma AddToLookup(a: Assoc<real>, k: string, d: real, n: string)
    ensures Lookup(AddTo(a, k, d), n) == if n == k then Some(Lookup(a, n).GetOr(0.0) + d) else Lookup(a, n)
  {
    PutLookup(a, k, Lookup(a, k).GetOr(0.0) + d, n);
  }

  /** `obj[k] = v`, seen from a single key. */
  lemma PutLookup<V>(a: Assoc<V>, k: string, v: V, n: string)
    ensures Lookup(Put(a, k, v), n) == if n == k then Some(v) else Lookup(a, n)
  {
    match IndexOf(a, k)
    case Some(i) =>
      SameKeysSameIndex(a[i := (k, v)], a, n);
    case None =>
      LookupAppend(a, (k, v), n);
  }

  /** Looking up in a list extended by an entry for a new key. */
  lemma LookupAppend<V>(a: Assoc<V>, x: (string, V), k: string)
    requires !HasKey(a, x.0)
    ensures Lookup(a + [x], k) == if k == x.0 then Some(x.1) else Lookup(a, k)
  {
    var b := a + [x];
    assert forall j :: 0 <= j < |a| ==> b[j] == a[j];
    if k == x.0 {
      assert b[|a|].0 == k;
      assert IndexOf(b, k) == Some(|a|);
    } else {
      AppendKeepsIndex(a, x, k);
    }
  }

  /** `if (!obj[k]) obj[k] = 0; obj[k] += d;` for numeric values.
      (`AddToLookup` states it key by key.) */
  function AddTo(a: Assoc<real>, k: string, d: real): Assoc<real>
  {
    Put(a, k, Lookup(a, k).GetOr(0.0) + d)
  }

  /** The sum of the values, in key order. */
  function SumValues(a: Assoc<real>): real {
    if |a| == 0 then 0.0 else SumValues(a[..|a| - 1]) + a[|a| - 1].1
  }

  /** Appending an entry adds its value to the sum. */
  lemma SumValuesAppend(a: Assoc<real>, x: (string, real))
    ensures SumValues(a + [x]) == SumValues(a) + x.1
  {
    assert (a + [x])[..|a|] == a;
  }
}
