/** The signal between two persona texts: the worse of its two measures, and when it is none or full. */
module PersonaSignal {
  import opened Distributions
  import opened PersonaSemantic

  // ---------- The worse of the two ----------

  /** The signal is at least both measures, and is one of them. */
  lemma SignalIsWorst(root: real -> real, tokens: Tokenizer, previous: string, next: string)
    requires previous != next && Clean(tokens(previous)) && Clean(tokens(next))
    ensures var s, c, w := Signal(root, tokens, previous, next), CosineOf(root, tokens(previous), tokens(next)),
            WassersteinOf(tokens(previous), tokens(next));
            && s.Num? && c.Num? && w.Num?
            && s.x >= 1.0 - c.x && s.x >= w.x && (s.x == 1.0 - c.x || s.x == w.x)
  {
    hide Cosine, Wasserstein, Counts, Clean;
  }

  // ---------- Nothing in common ----------

  predicate Shares(l: Counter, r: Counter, k: string) {
    Count(l, k) > 0 && Count(r, k) > 0
  }

  ghost predicate Apart(l: Counter, r: Counter) {
    forall k :: !Shares(l, r, k)
  }

  /** The cosine vanishes exactly for counts without a common token. */
  lemma CosineZero(root: real -> real, l: Counter, r: Counter)
    requires IsRoot(root)
    ensures Cosine(root, l, r) == 0.0 <==> Apart(l, r)
  {
    hide Sum;
    var keys := l.Keys + r.Keys;
    CauchySchwarz(keys, l, r);
    SumZero(keys, Dot(l, r));
    var a, b, d := Sum(keys, Dot(l, l)), Sum(keys, Dot(r, r)), Sum(keys, Dot(l, r));
    assert d == 0.0 <==> Apart(l, r) by {
      forall k
        ensures Shares(l, r, k) <==> k in keys && Dot(l, r)(k) != 0.0
      {
        PositiveProduct(Count(l, k) as real, Count(r, k) as real);
      }
    }
    hide Times, Dot, Apart;
    Vanishes(root(a), root(b), a, b, d);
  }

  lemma PositiveProduct(x: real, y: real)
    requires x >= 0.0 && y >= 0.0
    ensures Times(x, y) != 0.0 <==> x > 0.0 && y > 0.0
  {
  }

  lemma Vanishes(u: real, v: real, a: real, b: real, d: real)
    requires u >= 0.0 && v >= 0.0 && Times(u, u) == a && Times(v, v) == b && d >= 0.0 && Times(d, d) <= Times(a, b)
    ensures d > 0.0 ==> Times(u, v) > 0.0 && d / Times(u, v) > 0.0
    ensures Times(u, v) > 0.0 && d == 0.0 ==> d / Times(u, v) == 0.0
  {
    if d > 0.0 {
      PositiveProduct(d, d);
      Product(d, d);
      Product(u, u);
      Product(v, v);
      PositiveProduct(a, b);
      PositiveProduct(u, u);
      PositiveProduct(v, v);
      PositiveProduct(u, v);
      Product(u, v);
      var m := Times(u, v);
      assert m > 0.0;
      assert d / m * m == d;
    }
  }

  /** What two shares have in common. */
  function Common(p: string -> real, q: string -> real): string -> real {
    k => p(k) + q(k) - Abs(p(k) - q(k))
  }

  /** The distance is full exactly for counts without a common token, two empty ones aside. */
  lemma WassersteinOne(l: Counter, r: Counter)
    ensures Wasserstein(l, r) == 1.0 <==> Apart(l, r) && (Total(l) > 0.0 || Total(r) > 0.0)
  {
    hide Sum, Share;
    TotalIsPositive(l);
    TotalIsPositive(r);
    if Total(l) > 0.0 && Total(r) > 0.0 {
      var keys, p, q := l.Keys + r.Keys, Share(l), Share(r);
      SharesSumToOne(l, keys);
      SharesSumToOne(r, keys);
      SumPlus(keys, p, q);
      SumPlus(keys, Common(p, q), Gap(p, q));
      SumSame(keys, Plus(Common(p, q), Gap(p, q)), Plus(p, q));
      SumZero(keys, Common(p, q));
      forall k
        ensures Shares(l, r, k) <==> k in keys && Common(p, q)(k) != 0.0
      {
        ShareIsPositive(l, k);
        ShareIsPositive(r, k);
      }
    }
  }

  lemma ShareIsPositive(d: Counter, k: string)
    requires Total(d) > 0.0
    ensures Share(d)(k) >= 0.0 && (Share(d)(k) > 0.0 <==> Count(d, k) > 0)
  {
    hide Sum, Total;
    Reciprocal(Total(d));
    PositiveProduct(Count(d, k) as real, 1.0 / Total(d));
    Product(Count(d, k) as real, 1.0 / Total(d));
  }

  /** The tokens of the texts, as counted. */
  lemma SharedTokens(l: seq<string>, r: seq<string>)
    ensures Apart(Counts(l), Counts(r)) <==> forall k <- l :: k !in r
    ensures Total(Counts(l)) == 0.0 <==> l == []
  {
    hide Sum;
    TotalCases(l);
    forall k
      ensures Shares(Counts(l), Counts(r), k) <==> k in l && k in r
    {
      Occurs(l, k);
      Occurs(r, k);
    }
  }

  /** The signal is full exactly for different texts without a common content token. */
  lemma FullSignal(root: real -> real, tokens: Tokenizer, previous: string, next: string)
    requires IsRoot(root) && Clean(tokens(previous)) && Clean(tokens(next))
    ensures Signal(root, tokens, previous, next) == Num(1.0) <==>
            previous != next && forall k <- tokens(previous) :: k !in tokens(next)
  {
    hide Cosine, Wasserstein, Counts, Clean, IsRoot, Apart;
    var l, r := tokens(previous), tokens(next);
    CosineRange(root, Counts(l), Counts(r));
    WassersteinRange(Counts(l), Counts(r));
    CosineZero(root, Counts(l), Counts(r));
    WassersteinOne(Counts(l), Counts(r));
    SharedTokens(l, r);
  }

  // ---------- Everything in common ----------

  /** Counts in the same proportion point the same way. */
  lemma CosineOne(root: real -> real, l: Counter, r: Counter)
    requires IsRoot(root) && Proportional(l, r) && Total(l) > 0.0 && Total(r) > 0.0
    ensures Cosine(root, l, r) == 1.0
  {
    hide Sum, Total;
    var keys := l.Keys + r.Keys;
    var a, b, d := Sum(keys, Dot(l, l)), Sum(keys, Dot(r, r)), Sum(keys, Dot(l, r));
    var c := Total(r) / Total(l);
    forall k
      ensures Dot(l, r)(k) == Scaled(Dot(l, l), c)(k) && Dot(r, r)(k) == Scaled(Scaled(Dot(l, l), c), c)(k)
    {
      assert SameRatio(l, r, k);
      InRatio(Count(l, k) as real, Count(r, k) as real, Total(l), Total(r));
    }
    SumSame(keys, Dot(l, r), Scaled(Dot(l, l), c));
    SumScaled(keys, Dot(l, l), c);
    SumSame(keys, Dot(r, r), Scaled(Scaled(Dot(l, l), c), c));
    SumScaled(keys, Scaled(Dot(l, l), c), c);
    CauchySchwarz(keys, l, r);
    SomeCount(l, keys);
    assert c > 0.0;
    hide Times, Dot, Scaled;
    RootInRatio(root(a), root(b), a, c);
  }

  lemma InRatio(x: real, y: real, t: real, u: real)
    requires t > 0.0 && Times(x, u) == Times(y, t)
    ensures Times(x, y) == Times(Times(x, x), u / t) && Times(y, y) == Times(Times(Times(x, x), u / t), u / t)
  {
    var c := u / t;
    assert c * t == u;
    assert (y - x * c) * t == 0.0;
    assert y == x * c;
    assert x * y == (x * x) * c;
    assert y * y == ((x * x) * c) * c;
  }

  /** Something was counted, so the length is positive. */
  lemma SomeCount(l: Counter, keys: set<string>)
    requires Total(l) > 0.0 && l.Keys <= keys
    ensures Sum(keys, Dot(l, l)) > 0.0
  {
    hide Sum, Total;
    TotalIsPositive(l);
    var k :| Count(l, k) != 0;
    PositiveProduct(Count(l, k) as real, Count(l, k) as real);
    forall x
      ensures Dot(l, l)(x) >= 0.0
    {
      Product(Count(l, x) as real, Count(l, x) as real);
    }
    SumZero(keys, Dot(l, l));
  }

  lemma RootInRatio(u: real, v: real, a: real, c: real)
    requires u >= 0.0 && v >= 0.0 && a > 0.0 && c > 0.0
    requires Times(u, u) == a && Times(v, v) == Times(Times(a, c), c)
    ensures Times(u, v) != 0.0 && Times(a, c) / Times(u, v) == 1.0
  {
    var w := Times(c, u);
    Product(c, u);
    assert Times(w, w) == Times(v, v);
    SquareOrder(v, w);
    SquareOrder(w, v);
    assert Times(u, v) == Times(a, c);
    PositiveProduct(a, c);
  }

  /** The number of tokens is the total of their counts. */
  lemma {:induction false} TotalIsLength(tokens: seq<string>)
    ensures Total(Counts(tokens)) == |tokens| as real
  {
    hide Sum;
    if tokens == [] {
      NothingToSum(Amount(Counts(tokens)));
      assert Counts(tokens).Keys == {};
    } else {
      var rest, t := tokens[..|tokens| - 1], tokens[|tokens| - 1];
      TotalIsLength(rest);
      var f, g := Amount(Counts(rest)), Amount(Counts(tokens));
      var keys := Counts(tokens).Keys;
      assert tokens == rest + [t];
      assert keys == Counts(rest).Keys + {t};
      Occurs(rest, t);
      SumWider(Counts(rest).Keys, keys, f);
      SumPick(keys, f, t);
      SumPick(keys, g, t);
      forall k | k in keys - {t}
        ensures f(k) == g(k)
      {
      }
      SumSame(keys - {t}, f, g);
    }
  }

  /** Every token takes the same share of both texts. */
  ghost predicate SameShares(l: seq<string>, r: seq<string>) {
    forall k :: Occurrences(l, k) * |r| == Occurrences(r, k) * |l|
  }

  /** There is no signal exactly for equal texts, and for texts of the same, not empty, mix of content tokens. */
  lemma NoSignal(root: real -> real, tokens: Tokenizer, previous: string, next: string)
    requires IsRoot(root) && Clean(tokens(previous)) && Clean(tokens(next))
    ensures Signal(root, tokens, previous, next) == Num(0.0) <==>
            || previous == next
            || (tokens(previous) != [] && tokens(next) != [] && SameShares(tokens(previous), tokens(next)))
  {
    hide Cosine, Wasserstein, Counts, Clean, IsRoot, Proportional, SameShares, Total;
    var l, r := tokens(previous), tokens(next);
    WassersteinRange(Counts(l), Counts(r));
    CosineRange(root, Counts(l), Counts(r));
    WassersteinZero(Counts(l), Counts(r));
    TotalIsLength(l);
    TotalIsLength(r);
    InProportion(l, r);
    if previous != next && l == [] && r == [] {
      EmptyTextsDiffer(root, tokens, previous, next);
    }
    if l != [] && r != [] && SameShares(l, r) {
      CosineOne(root, Counts(l), Counts(r));
    }
  }

  lemma InProportion(l: seq<string>, r: seq<string>)
    ensures Proportional(Counts(l), Counts(r)) <==> SameShares(l, r)
  {
    hide Total;
    TotalIsLength(l);
    TotalIsLength(r);
    forall k
      ensures SameRatio(Counts(l), Counts(r), k) <==> Occurrences(l, k) * |r| == Occurrences(r, k) * |l|
    {
      Occurs(l, k);
      Occurs(r, k);
      WholeProducts(Occurrences(l, k), |r|);
      WholeProducts(Occurrences(r, k), |l|);
    }
  }

  lemma WholeProducts(m: nat, n: nat)
    ensures (m * n) as real == Times(m as real, n as real)
  {
  }
}
