/**
 * Python's `dict` as the agents use it: key/value pairs kept in insertion order,
 * each key at most once, with `d[k] = v`, `d.get(k)`, `d.update(e)`,
 * `len(d)` and `sum(d.values())`.
 */
module Dict {
  import opened Wrappers

  /** The pairs of a dict in insertion order. */
  type Dict<K, V> = seq<(K, V)>

  /** The keys of the pairs. */
  function Keys<K, V>(d: Dict<K, V>): set<K>
  {
    if d == [] then {} else {d[0].0} + Keys(d[1..])
  }

  /** No key occurs twice: the shape of every dict Python builds. */
  predicate Distinct<K(==), V>(d: Dict<K, V>)
  {
    d == [] || (d[0].0 !in Keys(d[1..]) && Distinct(d[1..]))
  }

  /** `d.get(k)`: the value stored under `k`, if any. */
  function Get<K(==), V>(d: Dict<K, V>, k: K): (r: Option<V>)
    ensures r.Some? <==> k in Keys(d)
  {
    if d == [] then None
    else if d[0].0 == k then Some(d[0].1)
    else Get(d[1..], k)
  }

  /** `d[k] = v`: replaces the value of an existing key in place, or appends a new pair. */
  function Put<K(==,!new), V>(d: Dict<K, V>, k: K, v: V): (r: Dict<K, V>)
    ensures Keys(r) == Keys(d) + {k}
    ensures forall x :: Get(r, x) == if x == k then Some(v) else Get(d, x)
    ensures Distinct(d) ==> Distinct(r)
    ensures k !in Keys(d) ==> r == d + [(k, v)]
    ensures k in Keys(d) ==> |r| == |d|
  {
    if d == [] then [(k, v)]
    else if d[0].0 == k then
      assert ([(k, v)] + d[1..])[1..] == d[1..];
      [(k, v)] + d[1..]
    else
      var rest := Put(d[1..], k, v);
      assert ([d[0]] + rest)[1..] == rest;
      assert k !in Keys(d) ==> [d[0]] + (d[1..] + [(k, v)]) == d + [(k, v)];
      [d[0]] + rest
  }

  /** `sum(d.values())` over a dict of numbers. */
  function SumValues<K>(d: Dict<K, real>): real
  {
    if d == [] then 0.0 else d[0].1 + SumValues(d[1..])
  }

  /**
   * `d[k] += x` on a `defaultdict(float)`: the key set gains `k`, the value under
   * `k` grows by `x`, and the sum of all values grows by exactly `x`.
   */
  function AddTo<K(==,!new)>(d: Dict<K, real>, k: K, x: real): (r: Dict<K, real>)
    requires Distinct(d)
    ensures Distinct(r) && Keys(r) == Keys(d) + {k}
    ensures Get(r, k) == Some(Get(d, k).GetOr(0.0) + x)
    ensures SumValues(r) == SumValues(d) + x
  {
    SumPut(d, k, Get(d, k).GetOr(0.0) + x);
    Put(d, k, Get(d, k).GetOr(0.0) + x)
  }

  /** Writing `v` under `k` swaps the old value of `k` (zero if absent) for `v` in the sum. */
  lemma {:induction false} SumPut<K(!new)>(d: Dict<K, real>, k: K, v: real)
    requires Distinct(d)
    ensures SumValues(Put(d, k, v)) == SumValues(d) - Get(d, k).GetOr(0.0) + v
  {
    if d != [] && d[0].0 != k {
      SumPut(d[1..], k, v);
    } else if d != [] {
      assert ([(k, v)] + d[1..])[1..] == d[1..];
    }
  }

  /** A dict with distinct keys has as many pairs as keys: `len(d)`. */
  lemma {:induction false} DistinctLength<K, V>(d: Dict<K, V>)
    requires Distinct(d)
    ensures |Keys(d)| == |d|
  {
    if d != [] {
      DistinctLength(d[1..]);
    }
  }

  /** `d.update(e)`: each pair of `e`, in order, written into `d`. */
  function Update<K(==,!new), V>(d: Dict<K, V>, e: Dict<K, V>): (r: Dict<K, V>)
    requires Distinct(e)
    ensures Keys(r) == Keys(d) + Keys(e)
    ensures forall x :: Get(r, x) == if x in Keys(e) then Get(e, x) else Get(d, x)
    ensures Distinct(d) ==> Distinct(r)
    decreases |e|
  {
    if e == [] then d
    else
      Update(Put(d, e[0].0, e[0].1), e[1..])
  }

  /** In a dict with distinct keys, looking up the key of the `j`-th pair finds that pair's value. */
  lemma {:induction false} GetAt<K, V>(d: Dict<K, V>, j: nat)
    requires Distinct(d) && j < |d|
    ensures Get(d, d[j].0) == Some(d[j].1)
  {
    if j > 0 {
      GetAt(d[1..], j - 1);
      assert d[1..][j - 1] == d[j];
      KeyAt(d[1..], j - 1);
    }
  }

  lemma {:induction false} KeyAt<K, V>(d: Dict<K, V>, j: nat)
    requires j < |d|
    ensures d[j].0 in Keys(d)
  {
    if j > 0 { KeyAt(d[1..], j - 1); assert d[1..][j - 1] == d[j]; }
  }

  /** In a dict with distinct keys, the key of pair `j` is not among the keys before it. */
  lemma {:induction false} KeyNotBefore<K, V>(d: Dict<K, V>, j: nat)
    requires Distinct(d) && j < |d|
    ensures d[j].0 !in Keys(d[..j])
  {
    if j > 0 {
      KeyNotBefore(d[1..], j - 1);
      KeyAt(d[1..], j - 1);
      assert d[..j][1..] == d[1..][..j - 1];
      assert d[1..][j - 1] == d[j];
    }
  }

  /** The keys of the first `j + 1` pairs are those of the first `j` and the key of pair `j`. */
  lemma {:induction false} KeysOfPrefix<K, V>(d: Dict<K, V>, j: nat)
    requires j < |d|
    ensures Keys(d[..j + 1]) == Keys(d[..j]) + {d[j].0}
  {
    if j > 0 {
      KeysOfPrefix(d[1..], j - 1);
      assert d[..j + 1][1..] == d[1..][..j];
      assert d[..j][1..] == d[1..][..j - 1];
      assert d[1..][j - 1] == d[j];
    } else {
      assert d[..1][1..] == [];
    }
  }
}
