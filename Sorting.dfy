/** `Array.prototype.sort` with a comparator `(a, b) => rank(a) - rank(b)`: a
    stable sort by ascending rank (ECMAScript has required stability since 2019),
    written as insertion into a sorted prefix. */
module Sorting {
  import opened Base

  predicate SortedBy<T>(xs: seq<T>, rank: T -> int)
  {
    forall i, j :: 0 <= i < j < |xs| ==> rank(xs[i]) <= rank(xs[j])
  }

  /** `x` goes after every element whose rank is not above its own. */
  function Insert<T>(s: seq<T>, x: T, rank: T -> int): seq<T>
  {
    if s == [] || rank(s[|s| - 1]) <= rank(x) then s + [x]
    else Insert(s[..|s| - 1], x, rank) + [s[|s| - 1]]
  }

  /** Insertion adds exactly `x`. */
  lemma {:induction false} InsertCount<T>(s: seq<T>, x: T, rank: T -> int)
    ensures |Insert(s, x, rank)| == |s| + 1
    ensures multiset(Insert(s, x, rank)) == multiset(s) + multiset{x}
  {
    if s != [] && rank(s[|s| - 1]) > rank(x) {
      var init, last := s[..|s| - 1], s[|s| - 1];
      InsertCount(init, x, rank);
      assert s == init + [last];
    }
  }

  /** Insertion keeps a sorted sequence sorted. */
  lemma {:induction false} InsertSorted<T>(s: seq<T>, x: T, rank: T -> int)
    requires SortedBy(s, rank)
    ensures SortedBy(Insert(s, x, rank), rank)
  {
    if s != [] && rank(s[|s| - 1]) > rank(x) {
      var init, last := s[..|s| - 1], s[|s| - 1];
      assert SortedBy(init, rank) by {
        forall i, j | 0 <= i < j < |init| ensures rank(init[i]) <= rank(init[j]) {
          assert init[i] == s[i] && init[j] == s[j];
        }
      }
      InsertSorted(init, x, rank);
      InsertCount(init, x, rank);
      BelowLast(s, x, Insert(init, x, rank), rank);
    }
  }

  /** Inserting `x`, which ranks below the last element of sorted `s`, into the
      rest of `s` gives only elements that rank at most as high as that last one. */
  lemma BelowLast<T>(s: seq<T>, x: T, ins: seq<T>, rank: T -> int)
    requires s != [] && SortedBy(s, rank) && rank(x) < rank(s[|s| - 1])
    requires multiset(ins) == multiset(s[..|s| - 1]) + multiset{x}
    ensures forall i :: 0 <= i < |ins| ==> rank(ins[i]) <= rank(s[|s| - 1])
  {
    var init := s[..|s| - 1];
    forall i | 0 <= i < |ins| ensures rank(ins[i]) <= rank(s[|s| - 1]) {
      assert ins[i] in multiset(ins);
      if ins[i] != x {
        assert ins[i] in multiset(init);
        var k :| 0 <= k < |init| && init[k] == ins[i];
        assert s[k] == init[k];
      }
    }
  }

  /** The sorted sequence. */
  function SortBy<T>(xs: seq<T>, rank: T -> int): (r: seq<T>)
    ensures |r| == |xs|
    ensures multiset(r) == multiset(xs)
    ensures SortedBy(r, rank)
  {
    if xs == [] then []
    else
      assert xs == xs[..|xs| - 1] + [xs[|xs| - 1]];
      InsertCount(SortBy(xs[..|xs| - 1], rank), xs[|xs| - 1], rank);
      InsertSorted(SortBy(xs[..|xs| - 1], rank), xs[|xs| - 1], rank);
      Insert(SortBy(xs[..|xs| - 1], rank), xs[|xs| - 1], rank)
  }

  function RankIs<T>(rank: T -> int, v: int): T -> bool
  {
    (x: T) => rank(x) == v
  }

  lemma {:induction false} InsertStable<T>(s: seq<T>, x: T, rank: T -> int, v: int)
    ensures Filter(Insert(s, x, rank), RankIs(rank, v))
         == Filter(s, RankIs(rank, v)) + (if rank(x) == v then [x] else [])
  {
    if s == [] || rank(s[|s| - 1]) <= rank(x) {
      var r := s + [x];
      assert r[..|r| - 1] == s;
    } else {
      var init, last := s[..|s| - 1], s[|s| - 1];
      InsertStable(init, x, rank, v);
      var r := Insert(init, x, rank) + [last];
      assert r[..|r| - 1] == Insert(init, x, rank);
    }
  }

  /** Stability: the elements of any one rank keep their original order. */
  lemma {:induction false} SortByStable<T>(xs: seq<T>, rank: T -> int, v: int)
    ensures Filter(SortBy(xs, rank), RankIs(rank, v)) == Filter(xs, RankIs(rank, v))
  {
    if xs != [] {
      var init, last := xs[..|xs| - 1], xs[|xs| - 1];
      SortByStable(init, rank, v);
      InsertStable(SortBy(init, rank), last, rank, v);
    }
  }

  /** `.slice(0, n)` */
  function Take<T>(xs: seq<T>, n: nat): (r: seq<T>)
    ensures |r| == if |xs| < n then |xs| else n
    ensures r <= xs
  {
    if |xs| < n then xs else xs[..n]
  }
}
