/** Sums of multisets over sequences. */
module Bags {

  function Sum<T, E>(xs: seq<T>, f: T -> multiset<E>): multiset<E> {
    if xs == [] then multiset{} else Sum(xs[..|xs| - 1], f) + f(xs[|xs| - 1])
  }

  lemma {:induction false} SumAppend<T, E>(xs: seq<T>, ys: seq<T>, f: T -> multiset<E>)
    ensures Sum(xs + ys, f) == Sum(xs, f) + Sum(ys, f)
  {
    if ys == [] {
      assert xs + ys == xs;
    } else {
      var zs := xs + ys;
      assert zs[..|zs| - 1] == xs + ys[..|ys| - 1];
      SumAppend(xs, ys[..|ys| - 1], f);
    }
  }

  lemma SumOne<T, E>(x: T, f: T -> multiset<E>)
    ensures Sum([x], f) == f(x)
  {
    assert [x][..0] == [];
  }

  lemma SumSnoc<T, E>(xs: seq<T>, x: T, f: T -> multiset<E>)
    ensures Sum(xs + [x], f) == Sum(xs, f) + f(x)
  {
    assert (xs + [x])[..|xs|] == xs;
  }

  lemma {:induction false} SumUpdate<T, E>(xs: seq<T>, k: nat, x: T, f: T -> multiset<E>)
    requires k < |xs|
    ensures Sum(xs[k := x], f) + f(xs[k]) == Sum(xs, f) + f(x)
  {
    var n := |xs| - 1;
    if k == n {
      assert xs[k := x][..n] == xs[..n];
    } else {
      assert xs[k := x][..n] == xs[..n][k := x];
      SumUpdate(xs[..n], k, x, f);
      assert Sum(xs[k := x], f) + f(xs[k]) == (Sum(xs[..n][k := x], f) + f(xs[k])) + f(xs[n]);
    }
  }

  lemma SizeUpdate<T, E>(xs: seq<T>, k: nat, x: T, f: T -> multiset<E>)
    requires k < |xs|
    ensures |Sum(xs[k := x], f)| + |f(xs[k])| == |Sum(xs, f)| + |f(x)|
  {
    SumUpdate(xs, k, x, f);
    assert |Sum(xs[k := x], f) + f(xs[k])| == |Sum(xs[k := x], f)| + |f(xs[k])|;
    assert |Sum(xs, f) + f(x)| == |Sum(xs, f)| + |f(x)|;
  }

  lemma SizeSnoc<T, E>(xs: seq<T>, x: T, f: T -> multiset<E>)
    ensures |Sum(xs + [x], f)| == |Sum(xs, f)| + |f(x)|
  {
    SumSnoc(xs, x, f);
  }

  lemma SumRemove<T, E>(a: seq<T>, x: T, b: seq<T>, f: T -> multiset<E>)
    ensures Sum(a + ([x] + b), f) == Sum(a + b, f) + f(x)
  {
    SumAppend(a, [x] + b, f);
    SumAppend([x], b, f);
    SumAppend(a, b, f);
    SumOne(x, f);
    assert Sum(a, f) + (f(x) + Sum(b, f)) == (Sum(a, f) + Sum(b, f)) + f(x);
  }

  lemma BagRemove<T>(a: seq<T>, x: T, b: seq<T>)
    ensures multiset(a + ([x] + b)) == multiset(a + b) + multiset{x}
  {
  }

  /** The last element of one sequence is somewhere in the other, and what is left has the same elements. */
  lemma TakeOut<T>(xs: seq<T>, ys: seq<T>) returns (a: seq<T>, b: seq<T>)
    requires multiset(xs) == multiset(ys) && xs != []
    ensures ys == a + ([xs[|xs| - 1]] + b) && multiset(xs[..|xs| - 1]) == multiset(a + b)
  {
    var n, x := |xs| - 1, xs[|xs| - 1];
    assert x in multiset(ys);
    var i :| 0 <= i < |ys| && ys[i] == x;
    a, b := ys[..i], ys[i + 1..];
    assert ys == a + ([x] + b);
    BagRemove(a, x, b);
    assert xs == xs[..n] + [x];
    Cancel(multiset(xs[..n]), multiset(a + b), multiset{x});
  }

  /** A sum does not depend on the order of its terms. */
  lemma {:induction false} SumPermutation<T, E>(xs: seq<T>, ys: seq<T>, f: T -> multiset<E>)
    requires multiset(xs) == multiset(ys)
    ensures Sum(xs, f) == Sum(ys, f)
    decreases |xs|
  {
    if xs == [] {
      assert |multiset(ys)| == |ys|;
    } else {
      var n := |xs| - 1;
      var a, b := TakeOut(xs, ys);
      SumRemove(a, xs[n], b, f);
      SumPermutation(xs[..n], a + b, f);
    }
  }

  lemma Cancel<T>(a: multiset<T>, b: multiset<T>, c: multiset<T>)
    requires a + c == b + c
    ensures a == b
  {
    forall x: T
      ensures a[x] == b[x]
    {
      assert (a + c)[x] == (b + c)[x];
    }
  }

  /** An element leaves one summand and enters another. */
  lemma Transfer<T>(rest: multiset<T>, s: multiset<T>, s': multiset<T>, e: multiset<T>, f: multiset<T>)
    requires s' + (e + f) == s + f
    ensures (rest + e) + s' == rest + s
  {
    assert (s' + e) + f == s + f;
    Cancel(s' + e, s, f);
  }

  lemma Associative<T>(a: seq<T>, b: seq<T>, c: seq<T>)
    ensures (a + b) + c == a + (b + c)
  {
  }

  function Flatten<T>(xss: seq<seq<T>>): seq<T> {
    if xss == [] then [] else Flatten(xss[..|xss| - 1]) + xss[|xss| - 1]
  }

  function Bag<T>(xs: seq<T>): multiset<T> {
    multiset(xs)
  }

  lemma {:induction false} FlattenBag<T>(xss: seq<seq<T>>)
    ensures multiset(Flatten(xss)) == Sum(xss, Bag)
  {
    if xss != [] {
      FlattenBag(xss[..|xss| - 1]);
    }
  }
}
