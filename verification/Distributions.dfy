/** Finite sums over keys, and the two distances between token counts. */
module Distributions {

  type Counter = map<string, nat>

  function Count(d: Counter, k: string): nat {
    if k in d then d[k] else 0
  }

  // ---------- Sums ----------

  ghost function Sum(keys: set<string>, f: string -> real): real {
    if keys == {} then 0.0
    else
      var k :| k in keys;
      f(k) + Sum(keys - {k}, f)
  }

  /** Any key may be taken first. */
  lemma {:induction false} SumPick(keys: set<string>, f: string -> real, x: string)
    requires x in keys
    ensures Sum(keys, f) == f(x) + Sum(keys - {x}, f)
    decreases |keys|
  {
    var k :| k in keys && Sum(keys, f) == f(k) + Sum(keys - {k}, f);
    if k != x {
      SumPick(keys - {k}, f, x);
      SumPick(keys - {x}, f, k);
      assert keys - {k} - {x} == keys - {x} - {k};
    }
  }

  lemma {:induction false} SumNear(keys: set<string>, f: string -> real, g: string -> real)
    requires forall k <- keys :: f(k) <= g(k)
    ensures Sum(keys, f) <= Sum(keys, g)
    decreases |keys|
  {
    if keys != {} {
      var k :| k in keys;
      SumPick(keys, f, k);
      SumPick(keys, g, k);
      SumNear(keys - {k}, f, g);
    }
  }

  lemma SumSame(keys: set<string>, f: string -> real, g: string -> real)
    requires forall k <- keys :: f(k) == g(k)
    ensures Sum(keys, f) == Sum(keys, g)
  {
    SumNear(keys, f, g);
    SumNear(keys, g, f);
  }

  function Plus(f: string -> real, g: string -> real): string -> real {
    k => f(k) + g(k)
  }

  lemma {:induction false} SumPlus(keys: set<string>, f: string -> real, g: string -> real)
    ensures Sum(keys, Plus(f, g)) == Sum(keys, f) + Sum(keys, g)
    decreases |keys|
  {
    if keys != {} {
      var k :| k in keys;
      SumPick(keys, f, k);
      SumPick(keys, g, k);
      SumPick(keys, Plus(f, g), k);
      SumPlus(keys - {k}, f, g);
    }
  }

  function Scaled(f: string -> real, c: real): string -> real {
    k => Times(f(k), c)
  }

  lemma {:induction false} SumScaled(keys: set<string>, f: string -> real, c: real)
    ensures Sum(keys, Scaled(f, c)) == Times(Sum(keys, f), c)
    decreases |keys|
  {
    hide Sum, Times;
    if keys == {} {
      NothingToSum(f);
      NothingToSum(Scaled(f, c));
      ZeroScaled(c);
    } else {
      var k :| k in keys;
      SumPick(keys, f, k);
      SumPick(keys, Scaled(f, c), k);
      SumScaled(keys - {k}, f, c);
      Distributes(f(k), Sum(keys - {k}, f), c);
    }
  }

  function Times(x: real, y: real): real {
    x * y
  }

  lemma ZeroScaled(c: real)
    ensures Times(0.0, c) == 0.0
  {
  }

  lemma Distributes(x: real, y: real, c: real)
    ensures Times(x + y, c) == Times(x, c) + Times(y, c)
  {
  }

  lemma NothingToSum(f: string -> real)
    ensures Sum({}, f) == 0.0
  {
  }

  /** Keys where the summand vanishes do not matter. */
  lemma {:induction false} SumWider(keys: set<string>, wider: set<string>, f: string -> real)
    requires keys <= wider && forall k <- wider - keys :: f(k) == 0.0
    ensures Sum(wider, f) == Sum(keys, f)
    decreases |wider|
  {
    if wider != keys {
      assert exists k :: k in wider && k !in keys;
      var k :| k in wider && k !in keys;
      SumPick(wider, f, k);
      SumWider(keys, wider - {k}, f);
    }
  }

  lemma {:induction false} SumZero(keys: set<string>, f: string -> real)
    requires forall k <- keys :: f(k) >= 0.0
    ensures Sum(keys, f) >= 0.0
    ensures Sum(keys, f) == 0.0 <==> forall k <- keys :: f(k) == 0.0
    decreases |keys|
  {
    if keys != {} {
      var k :| k in keys;
      SumPick(keys, f, k);
      SumZero(keys - {k}, f);
      assert forall x <- keys :: x == k || x in keys - {k};
    }
  }

  // ---------- Cosine ----------

  function Dot(l: Counter, r: Counter): string -> real {
    k => Times(Count(l, k) as real, Count(r, k) as real)
  }

  /** The inner product is at most the product of the lengths, squared. */
  lemma {:induction false} CauchySchwarz(keys: set<string>, l: Counter, r: Counter)
    ensures Sum(keys, Dot(l, l)) >= 0.0 && Sum(keys, Dot(r, r)) >= 0.0 && Sum(keys, Dot(l, r)) >= 0.0
    ensures Times(Sum(keys, Dot(l, r)), Sum(keys, Dot(l, r))) <= Times(Sum(keys, Dot(l, l)), Sum(keys, Dot(r, r)))
    decreases |keys|
  {
    hide Times, Sum;
    if keys == {} {
      ZeroScaled(0.0);
      NothingToSum(Dot(l, l));
      NothingToSum(Dot(r, r));
      NothingToSum(Dot(l, r));
    } else {
      var k :| k in keys;
      var rest := keys - {k};
      SumPick(keys, Dot(l, l), k);
      SumPick(keys, Dot(r, r), k);
      SumPick(keys, Dot(l, r), k);
      CauchySchwarz(rest, l, r);
      var x, y := Count(l, k) as real, Count(r, k) as real;
      CauchyStep(Sum(rest, Dot(l, l)), Sum(rest, Dot(r, r)), Sum(rest, Dot(l, r)), x, y);
      Product(x, x);
      Product(y, y);
      Product(x, y);
    }
  }

  lemma Product(x: real, y: real)
    requires x >= 0.0 && y >= 0.0
    ensures Times(x, y) >= 0.0
  {
  }

  lemma CauchyStep(a: real, b: real, d: real, x: real, y: real)
    requires a >= 0.0 && b >= 0.0 && Times(d, d) <= Times(a, b)
    ensures Times(Times(x, y) + d, Times(x, y) + d) <= Times(Times(x, x) + a, Times(y, y) + b)
  {
    var p, q, m := a * (y * y), b * (x * x), d * (x * y);
    CauchyMixed(a, b, d, x, y);
    MixedTerm(p, q, m);
    assert Times(Times(x, y) + d, Times(x, y) + d) == (x * y) * (x * y) + 2.0 * m + d * d;
    assert Times(Times(x, x) + a, Times(y, y) + b) == (x * x) * (y * y) + q + p + a * b;
    assert (x * y) * (x * y) == (x * x) * (y * y);
  }

  lemma CauchyMixed(a: real, b: real, d: real, x: real, y: real)
    requires a >= 0.0 && b >= 0.0 && d * d <= a * b
    ensures a * (y * y) >= 0.0 && b * (x * x) >= 0.0
    ensures Times(d * (x * y), d * (x * y)) <= Times(a * (y * y), b * (x * x))
  {
    var s := (x * y) * (x * y);
    assert (d * (x * y)) * (d * (x * y)) == (d * d) * s;
    assert (a * (y * y)) * (b * (x * x)) == (a * b) * s;
    ScaleBound(d * d, a * b, s);
  }

  lemma ScaleBound(u: real, v: real, s: real)
    requires u <= v && s >= 0.0
    ensures u * s <= v * s
  {
  }

  /** From `m² ≤ pq` for non-negative `p` and `q`. */
  lemma MixedTerm(p: real, q: real, m: real)
    requires p >= 0.0 && q >= 0.0 && Times(m, m) <= Times(p, q)
    ensures 2.0 * m <= p + q
  {
    var s, t := p + q, 2.0 * m;
    assert Times(s, s) - 4.0 * Times(p, q) == Times(p - q, p - q);
    assert Times(t, t) == 4.0 * Times(m, m);
    SquareOrder(t, s);
  }

  /** Squares of non-negative numbers order them. */
  lemma SquareOrder(t: real, s: real)
    requires s >= 0.0 && Times(t, t) <= Times(s, s)
    ensures t <= s
  {
    if t > s {
      SquareGrows(s, t);
    }
  }

  lemma SquareGrows(s: real, t: real)
    requires 0.0 <= s < t
    ensures Times(s, s) < Times(t, t)
  {
    var e := t - s;
    assert e * e > 0.0 && s * e >= 0.0;
    assert (s + e) * (s + e) == s * s + 2.0 * (s * e) + e * e;
  }

  /** What the square root is used for. */
  ghost predicate IsRoot(root: real -> real) {
    forall x :: x >= 0.0 ==> root(x) >= 0.0 && Times(root(x), root(x)) == x
  }

  ghost function Cosine(root: real -> real, l: Counter, r: Counter): real {
    var keys := l.Keys + r.Keys;
    var magnitude := Times(root(Sum(keys, Dot(l, l))), root(Sum(keys, Dot(r, r))));
    if magnitude == 0.0 then 0.0 else Sum(keys, Dot(l, r)) / magnitude
  }

  lemma CosineRange(root: real -> real, l: Counter, r: Counter)
    requires IsRoot(root)
    ensures 0.0 <= Cosine(root, l, r) <= 1.0
  {
    hide Times, Sum, Dot;
    var keys := l.Keys + r.Keys;
    CauchySchwarz(keys, l, r);
    var a, b, d := Sum(keys, Dot(l, l)), Sum(keys, Dot(r, r)), Sum(keys, Dot(l, r));
    RootBound(root(a), root(b), a, b, d);
  }

  lemma RootBound(u: real, v: real, a: real, b: real, d: real)
    requires u >= 0.0 && v >= 0.0 && Times(u, u) == a && Times(v, v) == b && d >= 0.0 && Times(d, d) <= Times(a, b)
    ensures Times(u, v) >= 0.0 && (Times(u, v) > 0.0 ==> 0.0 <= d / Times(u, v) <= 1.0)
  {
    var m := Times(u, v);
    Product(u, v);
    assert Times(m, m) == Times(a, b);
    SquareOrder(d, m);
    if m > 0.0 {
      Fraction(d, m);
    }
  }

  lemma Fraction(d: real, n: real)
    requires 0.0 <= d <= n && 0.0 < n
    ensures 0.0 <= d / n <= 1.0
  {
    assert d / n * n == d;
  }

  // ---------- Wasserstein-1 ----------

  function Amount(d: Counter): string -> real {
    k => Count(d, k) as real
  }

  ghost function Total(d: Counter): real {
    Sum(d.Keys, Amount(d))
  }

  /** The relative frequencies. */
  ghost function Share(d: Counter): string -> real {
    Scaled(Amount(d), if Total(d) == 0.0 then 0.0 else 1.0 / Total(d))
  }

  function Abs(x: real): real {
    if x < 0.0 then -x else x
  }

  function Gap(p: string -> real, q: string -> real): string -> real {
    k => Abs(p(k) - q(k))
  }

  ghost function Wasserstein(l: Counter, r: Counter): real {
    var tl, tr := Total(l), Total(r);
    if tl == 0.0 && tr == 0.0 then 0.0
    else if tl == 0.0 || tr == 0.0 then 1.0
    else Sum(l.Keys + r.Keys, Gap(Share(l), Share(r))) / 2.0
  }

  lemma TotalIsPositive(d: Counter)
    ensures Total(d) >= 0.0
    ensures Total(d) == 0.0 <==> forall k :: Count(d, k) == 0
  {
    SumZero(d.Keys, Amount(d));
    assert forall k :: k in d.Keys ==> (Amount(d)(k) == 0.0 <==> Count(d, k) == 0);
  }

  /** The shares of a non-empty distribution are non-negative and sum to one, over any keys holding its own. */
  lemma SharesSumToOne(d: Counter, keys: set<string>)
    requires Total(d) > 0.0 && d.Keys <= keys
    ensures Sum(keys, Share(d)) == 1.0
    ensures forall k :: Share(d)(k) >= 0.0
  {
    hide Sum, Times;
    var t := Total(d);
    var c := 1.0 / t;
    Reciprocal(t);
    SumScaled(d.Keys, Amount(d), c);
    ZeroScaled(c);
    assert forall k :: k !in d.Keys ==> Share(d)(k) == 0.0;
    SumWider(d.Keys, keys, Share(d));
    forall k
      ensures Share(d)(k) >= 0.0
    {
      Product(Amount(d)(k), c);
    }
  }

  lemma Reciprocal(t: real)
    requires t > 0.0
    ensures 1.0 / t > 0.0 && Times(t, 1.0 / t) == 1.0
  {
  }

  lemma GapRange(keys: set<string>, p: string -> real, q: string -> real)
    requires forall k :: p(k) >= 0.0 && q(k) >= 0.0
    ensures 0.0 <= Sum(keys, Gap(p, q)) <= Sum(keys, p) + Sum(keys, q)
  {
    SumNear(keys, Gap(p, q), Plus(p, q));
    SumPlus(keys, p, q);
    SumZero(keys, Gap(p, q));
  }

  lemma GapTriangle(keys: set<string>, p: string -> real, q: string -> real, s: string -> real)
    ensures Sum(keys, Gap(p, s)) <= Sum(keys, Gap(p, q)) + Sum(keys, Gap(q, s))
  {
    SumNear(keys, Gap(p, s), Plus(Gap(p, q), Gap(q, s)));
    SumPlus(keys, Gap(p, q), Gap(q, s));
  }

  lemma WassersteinRange(l: Counter, r: Counter)
    ensures 0.0 <= Wasserstein(l, r) <= 1.0
  {
    hide Sum, Share, Gap;
    TotalIsPositive(l);
    TotalIsPositive(r);
    if Total(l) > 0.0 && Total(r) > 0.0 {
      var keys := l.Keys + r.Keys;
      SharesSumToOne(l, keys);
      SharesSumToOne(r, keys);
      GapRange(keys, Share(l), Share(r));
    }
  }

  lemma WassersteinSymmetric(l: Counter, r: Counter)
    ensures Wasserstein(l, r) == Wasserstein(r, l)
  {
    hide Sum, Share;
    assert l.Keys + r.Keys == r.Keys + l.Keys;
    SumSame(l.Keys + r.Keys, Gap(Share(l), Share(r)), Gap(Share(r), Share(l)));
  }

  /** The gap summed over any keys holding both supports. */
  lemma WassersteinOver(l: Counter, r: Counter, keys: set<string>)
    requires Total(l) > 0.0 && Total(r) > 0.0 && l.Keys + r.Keys <= keys
    ensures Wasserstein(l, r) == Sum(keys, Gap(Share(l), Share(r))) / 2.0
  {
    hide Sum;
    SumWider(l.Keys + r.Keys, keys, Gap(Share(l), Share(r)));
  }

  /** An empty text is at distance 1 from every other, so the triangle law needs no exception for it. */
  lemma WassersteinTriangle(a: Counter, b: Counter, c: Counter)
    ensures Wasserstein(a, c) <= Wasserstein(a, b) + Wasserstein(b, c)
  {
    hide Sum, Share, Gap;
    TotalIsPositive(a);
    TotalIsPositive(b);
    TotalIsPositive(c);
    WassersteinRange(a, c);
    WassersteinRange(a, b);
    WassersteinRange(b, c);
    if Total(a) > 0.0 && Total(b) > 0.0 && Total(c) > 0.0 {
      var keys := a.Keys + b.Keys + c.Keys;
      WassersteinOver(a, b, keys);
      WassersteinOver(b, c, keys);
      WassersteinOver(a, c, keys);
      GapTriangle(keys, Share(a), Share(b), Share(c));
    }
  }

  /** Counts in the same ratio everywhere. */
  ghost predicate Proportional(l: Counter, r: Counter) {
    forall k :: SameRatio(l, r, k)
  }

  ghost predicate SameRatio(l: Counter, r: Counter, k: string) {
    Times(Count(l, k) as real, Total(r)) == Times(Count(r, k) as real, Total(l))
  }

  /** Distance zero exactly for proportional counts; an empty text is only at distance zero from another empty one. */
  lemma WassersteinZero(l: Counter, r: Counter)
    ensures Wasserstein(l, r) == 0.0 <==> Proportional(l, r) && (Total(l) == 0.0 <==> Total(r) == 0.0)
  {
    hide Sum, Share, Times;
    TotalIsPositive(l);
    TotalIsPositive(r);
    if Total(l) > 0.0 && Total(r) > 0.0 {
      var keys := l.Keys + r.Keys;
      SumZero(keys, Gap(Share(l), Share(r)));
      forall k
        ensures Gap(Share(l), Share(r))(k) == 0.0 <==> SameRatio(l, r, k)
        ensures k !in keys ==> SameRatio(l, r, k)
      {
        ShareRatio(l, r, k);
      }
    } else if Total(l) == 0.0 && Total(r) == 0.0 {
      forall k
        ensures SameRatio(l, r, k)
      {
        assert Count(l, k) == 0 && Count(r, k) == 0;
      }
    }
  }

  lemma ShareRatio(l: Counter, r: Counter, k: string)
    requires Total(l) > 0.0 && Total(r) > 0.0
    ensures Share(l)(k) == Share(r)(k) <==> SameRatio(l, r, k)
    ensures k !in l.Keys + r.Keys ==> SameRatio(l, r, k)
  {
    CrossMultiply(Count(l, k) as real, Total(l), Count(r, k) as real, Total(r));
  }

  lemma CrossMultiply(x: real, t: real, y: real, u: real)
    requires t > 0.0 && u > 0.0
    ensures x * (1.0 / t) == y * (1.0 / u) <==> Times(x, u) == Times(y, t)
  {
    var c, d := 1.0 / t, 1.0 / u;
    assert c * t == 1.0 && d * u == 1.0;
    if x * c == y * d {
      assert x * u == (x * c) * t * u == (y * d) * u * t == y * t;
    }
    if x * u == y * t {
      assert x * c == (x * u) * (c * d) by { assert u * (c * d) == c * (d * u); }
      assert y * d == (y * t) * (c * d) by { assert t * (c * d) == d * (c * t); }
    }
  }
}
