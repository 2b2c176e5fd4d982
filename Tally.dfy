/** A JavaScript object used as a dictionary of running totals
    (`acc[k] = (acc[k] || 0) + v`), kept as its entries in insertion order, which
    is the order Object.keys and Object.entries report for non-numeric keys. */
module Tally {
  import opened Base

  type Dict<K> = seq<(K, int)>

  function KeysOf<K>(d: Dict<K>): (ks: seq<K>)
    ensures |ks| == |d|
    ensures forall i :: 0 <= i < |d| ==> ks[i] == d[i].0
  {
    seq(|d|, i requires 0 <= i < |d| => d[i].0)
  }

  /** Sum of the values: `Object.values(d).reduce((a, b) => a + b, 0)` */
  function Total<K>(d: Dict<K>): int
  {
    if d == [] then 0 else Total(d[..|d| - 1]) + d[|d| - 1].1
  }

  predicate DistinctKeys<K(==)>(d: Dict<K>)
  {
    forall i, j :: 0 <= i < j < |d| ==> d[i].0 != d[j].0
  }

  function IndexOfKey<K(==)>(d: Dict<K>, k: K): (i: int)
    ensures -1 <= i < |d|
    ensures 0 <= i ==> d[i].0 == k && forall j :: 0 <= j < i ==> d[j].0 != k
    ensures i < 0 ==> forall j :: 0 <= j < |d| ==> d[j].0 != k
  {
    if d == [] then -1
    else if d[0].0 == k then 0
    else
      var j := IndexOfKey(d[1..], k);
      if j < 0 then -1 else j + 1
  }

  /** `acc[k] || 0` */
  function Get<K(==)>(d: Dict<K>, k: K): int
  {
    var i := IndexOfKey(d, k);
    if 0 <= i then d[i].1 else 0
  }

  /** `acc[k] = (acc[k] || 0) + v`: an existing key keeps its place, a new key goes last. */
  function Add<K(==)>(d: Dict<K>, k: K, v: int): Dict<K>
  {
    var i := IndexOfKey(d, k);
    if 0 <= i then d[i := (k, d[i].1 + v)] else d + [(k, v)]
  }

  /** `xs.reduce((acc, x) => { acc[key(x)] = (acc[key(x)] || 0) + val(x); return acc; }, {})` */
  function SumsBy<T, K(==)>(xs: seq<T>, key: T -> K, val: T -> int): Dict<K>
  {
    if xs == [] then [] else
      var last := xs[|xs| - 1];
      Add(SumsBy(xs[..|xs| - 1], key, val), key(last), val(last))
  }

  /** The elements that fall under key `k`. */
  function KeyIs<T, K(==)>(key: T -> K, k: K): T -> bool
  {
    x => key(x) == k
  }

  lemma {:induction false} TotalUpdate<K>(d: Dict<K>, i: int, e: (K, int))
    requires 0 <= i < |d|
    ensures Total(d[i := e]) == Total(d) - d[i].1 + e.1
    decreases |d|
  {
    if i < |d| - 1 {
      assert d[i := e][..|d| - 1] == d[..|d| - 1][i := e];
      TotalUpdate(d[..|d| - 1], i, e);
    } else {
      assert d[i := e][..|d| - 1] == d[..|d| - 1];
    }
  }

  /** Two dictionaries with the same keys up to the length of the shorter, whose
      extra entries do not hold `k`, find `k` at the same index. */
  lemma {:induction false} IndexOfKeySameKeys<K>(d: Dict<K>, r: Dict<K>, k: K)
    requires |d| <= |r|
    requires forall j :: 0 <= j < |d| ==> r[j].0 == d[j].0
    requires forall j :: |d| <= j < |r| ==> r[j].0 != k
    ensures IndexOfKey(r, k) == IndexOfKey(d, k)
  {
    if d != [] && d[0].0 != k {
      IndexOfKeySameKeys(d[1..], r[1..], k);
    }
  }

  lemma AddFacts<K>(d: Dict<K>, k: K, v: int)
    ensures Total(Add(d, k, v)) == Total(d) + v
    ensures DistinctKeys(d) ==> DistinctKeys(Add(d, k, v))
    ensures Get(Add(d, k, v), k) == Get(d, k) + v
    ensures forall k' :: k' != k ==> Get(Add(d, k, v), k') == Get(d, k')
    ensures forall k' :: k' in KeysOf(Add(d, k, v)) <==> k' in KeysOf(d) || k' == k
  {
    AddTotal(d, k, v);
    if DistinctKeys(d) {
      AddDistinct(d, k, v);
    }
    AddGet(d, k, v);
    AddKeys(d, k, v);
  }

  /** Adding `v` under any key raises the total by `v`. */
  lemma AddTotal<K>(d: Dict<K>, k: K, v: int)
    ensures Total(Add(d, k, v)) == Total(d) + v
  {
    var i := IndexOfKey(d, k);
    var r := Add(d, k, v);
    if 0 <= i {
      TotalUpdate(d, i, (k, d[i].1 + v));
    } else {
      assert r[..|r| - 1] == d;
    }
  }

  /** A key is appended only when it is not there yet, so keys stay distinct. */
  lemma AddDistinct<K>(d: Dict<K>, k: K, v: int)
    requires DistinctKeys(d)
    ensures DistinctKeys(Add(d, k, v))
  {
    var r := Add(d, k, v);
    assert forall j :: 0 <= j < |d| ==> r[j].0 == d[j].0;
  }

  /** Only the entry of `k` changes, and it grows by `v`. */
  lemma AddGet<K>(d: Dict<K>, k: K, v: int)
    ensures Get(Add(d, k, v), k) == Get(d, k) + v
    ensures forall k' :: k' != k ==> Get(Add(d, k, v), k') == Get(d, k')
  {
    var i := IndexOfKey(d, k);
    var r := Add(d, k, v);
    assert forall j :: 0 <= j < |d| ==> r[j].0 == d[j].0;
    forall k' | k' != k ensures Get(r, k') == Get(d, k') {
      IndexOfKeySameKeys(d, r, k');
    }
    if 0 <= i {
      IndexOfKeySameKeys(d, r, k);
    } else {
      assert r[|d|].0 == k;
    }
  }

  /** The keys afterwards are the keys before plus `k`. */
  lemma AddKeys<K>(d: Dict<K>, k: K, v: int)
    ensures forall k' :: k' in KeysOf(Add(d, k, v)) <==> k' in KeysOf(d) || k' == k
  {
    var i := IndexOfKey(d, k);
    var r := Add(d, k, v);
    if 0 <= i {
      assert forall j :: 0 <= j < |d| ==> r[j].0 == d[j].0;
      assert KeysOf(r) == KeysOf(d);
    } else {
      assert KeysOf(r) == KeysOf(d) + [k];
    }
  }

  /** The per-key totals add up to the grand total and the keys are distinct. */
  lemma {:induction false} SumsByTotal<T, K>(xs: seq<T>, key: T -> K, val: T -> int)
    ensures Total(SumsBy(xs, key, val)) == Sum(xs, val)
    ensures DistinctKeys(SumsBy(xs, key, val))
  {
    if xs != [] {
      var init, last := xs[..|xs| - 1], xs[|xs| - 1];
      var d := SumsBy(init, key, val);
      SumsByTotal(init, key, val);
      assert SumsBy(xs, key, val) == Add(d, key(last), val(last));
      assert Sum(xs, val) == Sum(init, val) + val(last);
      AddTotal(d, key(last), val(last));
      AddDistinct(d, key(last), val(last));
    }
  }

  /** The entry of every key is the sum over the elements with that key
      (0 for a key that never occurs). */
  lemma {:induction false} SumsByGet<T, K>(xs: seq<T>, key: T -> K, val: T -> int, k: K)
    ensures Get(SumsBy(xs, key, val), k) == Sum(Filter(xs, KeyIs(key, k)), val)
  {
    if xs != [] {
      var init, last := xs[..|xs| - 1], xs[|xs| - 1];
      SumsByGet(init, key, val, k);
      SumsByTotal(init, key, val);
      AddGet(SumsBy(init, key, val), key(last), val(last));
      if key(last) == k {
        SumAppend(Filter(init, KeyIs(key, k)), [last], val);
      }
    }
  }

  /** The keys are exactly the keys that occur in the input. */
  lemma {:induction false} SumsByKeys<T, K>(xs: seq<T>, key: T -> K, val: T -> int, k: K)
    ensures k in KeysOf(SumsBy(xs, key, val)) <==> exists i :: 0 <= i < |xs| && key(xs[i]) == k
  {
    if xs != [] {
      var init, last := xs[..|xs| - 1], xs[|xs| - 1];
      SumsByKeys(init, key, val, k);
      AddKeys(SumsBy(init, key, val), key(last), val(last));
      if exists i :: 0 <= i < |xs| && key(xs[i]) == k {
        var i :| 0 <= i < |xs| && key(xs[i]) == k;
        if i < |init| { assert key(init[i]) == k; }
      }
      if exists i :: 0 <= i < |init| && key(init[i]) == k {
        var i :| 0 <= i < |init| && key(init[i]) == k;
        assert key(xs[i]) == k;
      }
    }
  }

  /** The same accumulation written as the `forEach` loop that fills the object. */
  method TallyLoop<T, K(==)>(xs: seq<T>, key: T -> K, val: T -> int) returns (d: Dict<K>)
    ensures d == SumsBy(xs, key, val)
    ensures Total(d) == Sum(xs, val) && DistinctKeys(d)
  {
    d := [];
    var i := 0;
    while i < |xs|
      invariant 0 <= i <= |xs|
      invariant d == SumsBy(xs[..i], key, val)
    {
      assert xs[..i + 1][..i] == xs[..i];
      d := Add(d, key(xs[i]), val(xs[i]));
      i := i + 1;
    }
    assert xs[..|xs|] == xs;
    SumsByTotal(xs, key, val);
  }

  /** The first entry holding the largest value: the head of the entries after a
      stable sort by descending value (`sort(([, a], [, b]) => b - a)[0]`). */
  function FirstMaxIndex<K>(d: Dict<K>): (i: int)
    requires |d| > 0
    ensures 0 <= i < |d|
    ensures forall j :: 0 <= j < |d| ==> d[j].1 <= d[i].1
    ensures forall j :: 0 <= j < i ==> d[j].1 < d[i].1
  {
    if |d| == 1 then 0
    else
      var b := FirstMaxIndex(d[..|d| - 1]);
      assert forall j :: 0 <= j < |d| - 1 ==> d[..|d| - 1][j] == d[j];
      if d[|d| - 1].1 > d[b].1 then |d| - 1 else b
  }

  /** The key of that entry, or None for an empty dictionary. */
  function HighestKey<K>(d: Dict<K>): (r: Option<K>)
    ensures r.None? <==> d == []
    ensures r.Some? ==>
              exists i :: 0 <= i < |d| && d[i].0 == r.value
                          && (forall j :: 0 <= j < |d| ==> d[j].1 <= d[i].1)
                          && (forall j :: 0 <= j < i ==> d[j].1 < d[i].1)
  {
    if d == [] then None else Some(d[FirstMaxIndex(d)].0)
  }
}
