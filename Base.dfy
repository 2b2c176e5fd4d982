/** Shared building blocks: the optional value that stands for JavaScript's
    null/undefined, and the folds the components build with Array.prototype.reduce
    and Array.prototype.filter. Every fold recurses on the prefix, so that its
    unfolding matches a left-to-right reduce and a loop's invariant. */
module Base {

  datatype Option<+T> = None | Some(value: T)

  /** `xs.reduce((sum, x) => sum + f(x), 0)` */
  function Sum<T>(xs: seq<T>, f: T -> int): int
  {
    if xs == [] then 0 else Sum(xs[..|xs| - 1], f) + f(xs[|xs| - 1])
  }

  /** `xs.filter(p)`, order preserved */
  function Filter<T>(xs: seq<T>, p: T -> bool): seq<T>
  {
    if xs == [] then []
    else
      var rest := Filter(xs[..|xs| - 1], p);
      if p(xs[|xs| - 1]) then rest + [xs[|xs| - 1]] else rest
  }

  /** `xs.filter(p).length` */
  function Count<T>(xs: seq<T>, p: T -> bool): nat
  {
    |Filter(xs, p)|
  }

  lemma {:induction false} SumAppend<T>(a: seq<T>, b: seq<T>, f: T -> int)
    ensures Sum(a + b, f) == Sum(a, f) + Sum(b, f)
  {
    if b != [] {
      assert (a + b)[..|a + b| - 1] == a + b[..|b| - 1];
      SumAppend(a, b[..|b| - 1], f);
    } else {
      assert a + b == a;
    }
  }

  lemma {:induction false} FilterAppend<T>(a: seq<T>, b: seq<T>, p: T -> bool)
    ensures Filter(a + b, p) == Filter(a, p) + Filter(b, p)
  {
    if b != [] {
      assert (a + b)[..|a + b| - 1] == a + b[..|b| - 1];
      FilterAppend(a, b[..|b| - 1], p);
    } else {
      assert a + b == a;
    }
  }

  /** An element is kept exactly when it is in the input and satisfies the predicate. */
  lemma {:induction false} FilterMembers<T>(xs: seq<T>, p: T -> bool)
    ensures forall x :: x in Filter(xs, p) <==> x in xs && p(x)
    ensures |Filter(xs, p)| <= |xs|
  {
    if xs != [] {
      FilterMembers(xs[..|xs| - 1], p);
      assert xs == xs[..|xs| - 1] + [xs[|xs| - 1]];
    }
  }

  /** Filtering with a predicate that holds everywhere keeps the whole sequence. */
  lemma {:induction false} FilterAll<T>(xs: seq<T>, p: T -> bool)
    requires forall x :: x in xs ==> p(x)
    ensures Filter(xs, p) == xs
  {
    if xs != [] {
      FilterAll(xs[..|xs| - 1], p);
      assert xs == xs[..|xs| - 1] + [xs[|xs| - 1]];
    }
  }

  /** Filtering with a predicate that holds nowhere leaves nothing. */
  lemma {:induction false} FilterNone<T>(xs: seq<T>, p: T -> bool)
    requires forall x :: x in xs ==> !p(x)
    ensures Filter(xs, p) == []
  {
    if xs != [] {
      assert xs[|xs| - 1] in xs;
      assert forall x :: x in xs[..|xs| - 1] ==> x in xs;
      FilterNone(xs[..|xs| - 1], p);
    }
  }

  /** Two predicates that agree on every element filter alike. */
  lemma {:induction false} FilterSame<T>(xs: seq<T>, p: T -> bool, q: T -> bool)
    requires forall x :: x in xs ==> p(x) == q(x)
    ensures Filter(xs, p) == Filter(xs, q)
  {
    if xs != [] {
      assert xs[|xs| - 1] in xs;
      assert forall x :: x in xs[..|xs| - 1] ==> x in xs;
      FilterSame(xs[..|xs| - 1], p, q);
    }
  }

  /** A sum splits into the part that satisfies a predicate and the part that does not. */
  lemma {:induction false} SumPartition<T>(xs: seq<T>, p: T -> bool, q: T -> bool, f: T -> int)
    requires forall x :: q(x) == !p(x)
    ensures Sum(xs, f) == Sum(Filter(xs, p), f) + Sum(Filter(xs, q), f)
  {
    if xs != [] {
      var init, last := xs[..|xs| - 1], xs[|xs| - 1];
      SumPartition(init, p, q, f);
      if p(last) {
        SumAppend(Filter(init, p), [last], f);
      } else {
        SumAppend(Filter(init, q), [last], f);
      }
    }
  }

  /** `Count` splits the same way, so the two counts add up to the length. */
  lemma {:induction false} CountPartition<T>(xs: seq<T>, p: T -> bool, q: T -> bool)
    requires forall x :: q(x) == !p(x)
    ensures Count(xs, p) + Count(xs, q) == |xs|
  {
    if xs != [] {
      CountPartition(xs[..|xs| - 1], p, q);
    }
  }

  /** The sum of a constant function is that constant times the length. */
  lemma {:induction false} SumConst<T>(xs: seq<T>, f: T -> int, c: int)
    requires forall x :: f(x) == c
    ensures Sum(xs, f) == c * |xs|
  {
    if xs != [] {
      SumConst(xs[..|xs| - 1], f, c);
    }
  }

  /** `xs.findIndex(p)`: the first index whose element satisfies `p`, or -1. */
  function FirstIndex<T>(xs: seq<T>, p: T -> bool): (i: int)
    ensures -1 <= i < |xs|
    ensures 0 <= i ==> p(xs[i]) && forall j :: 0 <= j < i ==> !p(xs[j])
    ensures i < 0 ==> forall j :: 0 <= j < |xs| ==> !p(xs[j])
  {
    if xs == [] then -1
    else if p(xs[0]) then 0
    else
      var j := FirstIndex(xs[1..], p);
      if j < 0 then -1 else j + 1
  }

  /** `xs.find(p)`: the first element that satisfies `p`, or undefined. */
  function Find<T>(xs: seq<T>, p: T -> bool): (r: Option<T>)
    ensures r.Some? <==> exists j :: 0 <= j < |xs| && p(xs[j])
    ensures r.Some? ==> r.value == xs[FirstIndex(xs, p)] && p(r.value)
  {
    var i := FirstIndex(xs, p);
    if i < 0 then None else Some(xs[i])
  }

  /** The first index of a concatenation is found in the left part if it is there,
      otherwise in the right part, shifted. */
  lemma FirstIndexAppend<T>(a: seq<T>, b: seq<T>, p: T -> bool)
    ensures FirstIndex(a + b, p) ==
      if FirstIndex(a, p) >= 0 then FirstIndex(a, p)
      else if FirstIndex(b, p) >= 0 then |a| + FirstIndex(b, p)
      else -1
  {
    var i, ia, ib := FirstIndex(a + b, p), FirstIndex(a, p), FirstIndex(b, p);
    if ia >= 0 {
      assert (a + b)[ia] == a[ia];
      assert forall j :: 0 <= j < ia ==> (a + b)[j] == a[j];
    } else if ib >= 0 {
      assert (a + b)[|a| + ib] == b[ib];
      assert forall j :: 0 <= j < |a| ==> (a + b)[j] == a[j];
      assert forall j :: |a| <= j < |a| + ib ==> (a + b)[j] == b[j - |a|];
    } else {
      assert forall j :: 0 <= j < |a| ==> (a + b)[j] == a[j];
      assert forall j :: |a| <= j < |a| + |b| ==> (a + b)[j] == b[j - |a|];
    }
  }

  /** Replacing one element changes a sum by the difference of that element's terms. */
  lemma {:induction false} SumUpdate<T>(xs: seq<T>, i: int, v: T, f: T -> int)
    requires 0 <= i < |xs|
    ensures Sum(xs[i := v], f) == Sum(xs, f) - f(xs[i]) + f(v)
  {
    var n := |xs|;
    if i == n - 1 {
      assert xs[i := v][..n - 1] == xs[..n - 1];
    } else {
      assert xs[i := v][..n - 1] == xs[..n - 1][i := v];
      SumUpdate(xs[..n - 1], i, v, f);
    }
  }
}
