/** Finite sums of reals, and the few facts about products that they need. */
module Sums {
  import opened Basics

  function Sum<T>(xs: seq<T>, f: T -> real): real {
    if xs == [] then 0.0 else Sum(Init(xs), f) + f(Last(xs))
  }

  function Plus<T>(f: T -> real, g: T -> real): T -> real {
    x => f(x) + g(x)
  }

  function Always<T>(c: real): T -> real {
    x => c
  }

  lemma MulDistributes(x: real, y: real, z: real)
    ensures x * (y + z) == x * y + x * z
  {
  }

  lemma MulSign(x: real, y: real)
    requires x >= 0.0 && y >= 0.0
    ensures x * y >= 0.0
  {
  }

  lemma SignOfProduct(d: real, n: real)
    requires n > 0.0
    ensures d > 0.0 <==> d * n > 0.0
  {
    if d > 0.0 { assert d * n > 0.0; } else { MulSign(-d, n); assert (-d) * n == -(d * n); }
  }

  /** Means compare as sums do. */
  lemma DivCompares(a: real, b: real, n: real)
    requires n > 0.0
    ensures a / n < b / n <==> a < b
  {
    var d := b / n - a / n;
    SignOfProduct(d, n);
    assert d * n == (b / n) * n - (a / n) * n == b - a;
  }

  lemma SumStep<T>(xs: seq<T>, f: T -> real, v: real)
    requires xs != [] && v == f(Last(xs))
    ensures Sum(xs, f) == Sum(Init(xs), f) + v
  {
  }

  lemma {:induction false} SumPlus<T>(xs: seq<T>, f: T -> real, g: T -> real)
    ensures Sum(xs, Plus(f, g)) == Sum(xs, f) + Sum(xs, g)
  {
    if xs != [] {
      SumPlus(Init(xs), f, g);
    }
  }

  lemma {:induction false} SumAlways<T>(xs: seq<T>, c: real)
    ensures Sum(xs, Always(c)) == |xs| as real * c
  {
    if xs != [] {
      SumAlways(Init(xs), c);
      MulDistributes(c, |Init(xs)| as real, 1.0);
    }
  }

  lemma {:induction false} SumLeq<T>(xs: seq<T>, f: T -> real, g: T -> real)
    requires forall i :: 0 <= i < |xs| ==> f(xs[i]) <= g(xs[i])
    ensures Sum(xs, f) <= Sum(xs, g)
  {
    if xs != [] {
      SumLeq(Init(xs), f, g);
    }
  }

  lemma SumSame<T>(xs: seq<T>, f: T -> real, g: T -> real)
    requires forall i :: 0 <= i < |xs| ==> f(xs[i]) == g(xs[i])
    ensures Sum(xs, f) == Sum(xs, g)
  {
    SumLeq(xs, f, g);
    SumLeq(xs, g, f);
  }

  lemma SumTwo<T>(x: T, y: T, f: T -> real)
    ensures Sum([x, y], f) == f(x) + f(y)
  {
    assert Init([x, y]) == [x] && Init([x]) == [];
    assert Sum([x], f) == Sum([], f) + f(x);
  }
}
