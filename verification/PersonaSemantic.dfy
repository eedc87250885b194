/** The comparison of two persona texts, with what inherited keys of a plain object do to it. */
module PersonaSemantic {
  import opened Distributions
  import opened EditDistances
  import Json

  /** A JavaScript number, or what string arithmetic degrades to. */
  datatype Number = Num(x: real) | NaN

  /** A record entry; `Garbled` is the text left by adding 1 to an inherited function. */
  datatype Entry = Tally(n: nat) | Garbled

  type Record = map<string, Entry>

  datatype Comparison = Comparison(identical: bool, cosine: Number, wasserstein: Number, editDistance: nat,
                                   editRatio: real, signal: Number)

  type Tokenizer = string -> seq<string>

  // ---------- Token counts ----------

  function Lookup(d: Record, k: string): Entry {
    if k in d then d[k] else if k in Json.INHERITED then Garbled else Tally(0)
  }

  function Occurrences(tokens: seq<string>, k: string): nat {
    if tokens == [] then 0 else Occurrences(tokens[..|tokens| - 1], k) + (if tokens[|tokens| - 1] == k then 1 else 0)
  }

  function Counts(tokens: seq<string>): Counter {
    map k | k in tokens :: Occurrences(tokens, k)
  }

  function Distribution(tokens: seq<string>): Record {
    map k | k in tokens :: if k in Json.INHERITED then Garbled else Tally(Occurrences(tokens, k))
  }

  predicate Clean(tokens: seq<string>) {
    forall k <- tokens :: k !in Json.INHERITED
  }

  lemma {:induction false} Occurs(tokens: seq<string>, k: string)
    ensures Occurrences(tokens, k) > 0 <==> k in tokens
  {
    if tokens != [] {
      Occurs(tokens[..|tokens| - 1], k);
      assert tokens == tokens[..|tokens| - 1] + [tokens[|tokens| - 1]];
    }
  }

  /** Counting one more token. */
  lemma OneMoreToken(tokens: seq<string>, token: string)
    ensures Distribution(tokens + [token]) ==
            Distribution(tokens)[token :=
                                 match Lookup(Distribution(tokens),
                                              token) case Tally(n) => Tally(n + 1) case Garbled => Garbled]
  {
    Occurs(tokens, token);
    assert (tokens + [token])[..|tokens|] == tokens;
  }

  method TokenDistribution(tokens: seq<string>) returns (d: Record)
    ensures d == Distribution(tokens)
  {
    d := map[];
    var i := 0;
    assert d == Distribution(tokens[..0]);
    hide Json.INHERITED, Distribution, Lookup;
    while i < |tokens|
      invariant 0 <= i <= |tokens| && d == Distribution(tokens[..i])
    {
      var token := tokens[i];
      OneMoreToken(tokens[..i], token);
      assert tokens[..i + 1] == tokens[..i] + [token];
      d := d[token := match Lookup(d, token) case Tally(n) => Tally(n + 1) case Garbled => Garbled];
      i := i + 1;
    }
    assert tokens[..i] == tokens;
  }

  /** What a lookup in a token record gives for any key. */
  lemma LookupCounts(tokens: seq<string>, k: string)
    ensures Lookup(Distribution(tokens), k) == if k in Json.INHERITED then Garbled else Tally(Count(Counts(tokens), k))
  {
  }

  // ---------- Number arithmetic ----------

  function Value(e: Entry): Number {
    match e case Tally(n) => Num(n as real) case Garbled => NaN
  }

  function Add(a: Number, b: Number): Number {
    if a.Num? && b.Num? then Num(a.x + b.x) else NaN
  }

  function Mul(a: Number, b: Number): Number {
    if a.Num? && b.Num? then Num(Times(a.x, b.x)) else NaN
  }

  /** `Math.max`, which any NaN wins. */
  function MaxOf(a: Number, b: Number): Number {
    if a.NaN? || b.NaN? then NaN else if a.x >= b.x then a else b
  }

  predicate AnyInherited(keys: set<string>) {
    exists k <- keys :: k in Json.INHERITED
  }

  /** A running sum over the keys taken so far. */
  ghost function Running(keys: set<string>, f: string -> real): Number {
    if AnyInherited(keys) then NaN else Num(Sum(keys, f))
  }

  lemma RunningStep(done: set<string>, k: string, f: string -> real)
    requires k !in done
    ensures Running(done + {k}, f) == Add(Running(done, f), if k in Json.INHERITED then NaN else Num(f(k)))
  {
    SumPick(done + {k}, f, k);
    assert done + {k} - {k} == done;
    hide Sum;
    assert AnyInherited(done + {k}) <==> AnyInherited(done) || k in Json.INHERITED by {
      if k in Json.INHERITED { assert k in done + {k}; }
      if AnyInherited(done) {
        var x :| x in done && x in Json.INHERITED;
        assert x in done + {k};
      }
    }
  }

  /** A walk over a set of keys in any order. */
  ghost predicate Walked(done: set<string>, rest: set<string>, keys: set<string>) {
    done !! rest && done + rest == keys
  }

  lemma WalkStarts(keys: set<string>)
    ensures Walked({}, keys, keys)
  {
  }

  lemma WalkOn(done: set<string>, rest: set<string>, keys: set<string>, k: string)
    requires Walked(done, rest, keys) && k in rest
    ensures Walked(done + {k}, rest - {k}, keys) && k in keys && k !in done
  {
  }

  lemma WalkEnds(done: set<string>, keys: set<string>)
    requires Walked(done, {}, keys)
    ensures done == keys
  {
  }

  // ---------- Cosine ----------

  ghost function CosineOf(root: real -> real, l: seq<string>, r: seq<string>): Number {
    if Clean(l) && Clean(r) then Num(Cosine(root, Counts(l), Counts(r))) else NaN
  }

  /** The three running sums over the keys taken so far. */
  ghost predicate Sums(l: seq<string>, r: seq<string>, done: set<string>, dot: Number, leftMag: Number,
                       rightMag: Number) {
    var a, b := Counts(l), Counts(r);
    dot == Running(done, Dot(a, b)) && leftMag == Running(done, Dot(a, a)) && rightMag == Running(done, Dot(b, b))
  }

  method CosineSimilarity(root: real -> real, ghost l: seq<string>, ghost r: seq<string>, left: Record, right: Record)
    returns (cosine: Number)
    requires left == Distribution(l) && right == Distribution(r)
    ensures cosine == CosineOf(root, l, r)
  {
    hide Walked, Json.INHERITED, Sums, Distribution, Lookup, Value, Add, Mul, Counts, CosineOf, AnyInherited, Quotient;
    var keys := left.Keys + right.Keys;
    var dot, leftMag, rightMag := Num(0.0), Num(0.0), Num(0.0);
    var rest := keys;
    ghost var done: set<string> := {};
    WalkStarts(keys);
    NothingCounted(l, r);
    while rest != {}
      invariant Walked(done, rest, keys) && Sums(l, r, done, dot, leftMag, rightMag)
      decreases |rest|
    {
      var k :| k in rest;
      WalkOn(done, rest, keys, k);
      var x, y := Value(Lookup(left, k)), Value(Lookup(right, k));
      CosineStep(l, r, done, k, dot, leftMag, rightMag);
      dot, leftMag, rightMag := Add(dot, Mul(x, y)), Add(leftMag, Mul(x, x)), Add(rightMag, Mul(y, y));
      done, rest := done + {k}, rest - {k};
    }
    WalkEnds(done, keys);
    cosine := Quotient(root, dot, leftMag, rightMag);
    CosineQuotient(root, l, r, keys, dot, leftMag, rightMag);
  }

  function Quotient(root: real -> real, dot: Number, leftMag: Number, rightMag: Number): Number {
    if dot.NaN? || leftMag.NaN? || rightMag.NaN? then NaN
    else
      var magnitude := Times(root(leftMag.x), root(rightMag.x));
      if magnitude == 0.0 then Num(0.0) else Num(dot.x / magnitude)
  }

  lemma NothingCounted(l: seq<string>, r: seq<string>)
    ensures Sums(l, r, {}, Num(0.0), Num(0.0), Num(0.0))
  {
    hide Running, Counts, Dot;
    var a, b := Counts(l), Counts(r);
    NothingRuns(Dot(a, b));
    NothingRuns(Dot(a, a));
    NothingRuns(Dot(b, b));
  }

  lemma CosineQuotient(root: real -> real, l: seq<string>, r: seq<string>, keys: set<string>, dot: Number,
                       leftMag: Number, rightMag: Number)
    requires keys == Distribution(l).Keys + Distribution(r).Keys && Sums(l, r, keys, dot, leftMag, rightMag)
    ensures Quotient(root, dot, leftMag, rightMag) == CosineOf(root, l, r)
  {
    hide Sum, Times, Dot, AnyInherited, Clean, Distribution, Counts;
    KeysOf(l, r);
  }

  lemma CosineStep(l: seq<string>, r: seq<string>, done: set<string>, k: string, dot: Number, leftMag: Number,
                   rightMag: Number)
    requires k !in done && Sums(l, r, done, dot, leftMag, rightMag)
    ensures var x, y := Value(Lookup(Distribution(l), k)), Value(Lookup(Distribution(r), k));
            Sums(l, r, done + {k}, Add(dot, Mul(x, y)), Add(leftMag, Mul(x, x)), Add(rightMag, Mul(y, y)))
  {
    hide Running, Times, Sum, Distribution, Counts, Lookup;
    var a, b := Counts(l), Counts(r);
    LookupCounts(l, k);
    LookupCounts(r, k);
    RunningStep(done, k, Dot(a, b));
    RunningStep(done, k, Dot(a, a));
    RunningStep(done, k, Dot(b, b));
  }

  lemma NothingRuns(f: string -> real)
    ensures Running({}, f) == Num(0.0)
  {
  }

  lemma KeysOf(l: seq<string>, r: seq<string>)
    ensures Distribution(l).Keys + Distribution(r).Keys == Counts(l).Keys + Counts(r).Keys
    ensures AnyInherited(Counts(l).Keys + Counts(r).Keys) <==> !(Clean(l) && Clean(r))
    ensures AnyInherited(Counts(l).Keys) <==> !Clean(l)
    ensures Distribution(l).Keys == Counts(l).Keys
  {
    assert Distribution(l).Keys == Counts(l).Keys && Distribution(r).Keys == Counts(r).Keys;
    forall k
      ensures k in Counts(l).Keys <==> k in l
      ensures k in Counts(r).Keys <==> k in r
    {
    }
  }

  // ---------- Wasserstein ----------

  /** The sum of the values; a garbled one turns it into text. */
  method TotalOf(ghost tokens: seq<string>, d: Record) returns (total: Number)
    requires d == Distribution(tokens)
    ensures total == Running(Counts(tokens).Keys, Amount(Counts(tokens)))
  {
    hide Walked, Json.INHERITED, Distribution, Running, Counts, Lookup, Add, Value, Amount, Count;
    total := Num(0.0);
    ghost var f := Amount(Counts(tokens));
    KeysOf(tokens, tokens);
    NothingRuns(f);
    var rest, done: set<string> := d.Keys, {};
    WalkStarts(d.Keys);
    while rest != {}
      invariant Walked(done, rest, d.Keys) && total == Running(done, f)
      decreases |rest|
    {
      var k :| k in rest;
      WalkOn(done, rest, d.Keys, k);
      TotalStep(tokens, done, k);
      total := Add(total, Value(d[k]));
      done, rest := done + {k}, rest - {k};
    }
    WalkEnds(done, d.Keys);
  }

  lemma TotalStep(tokens: seq<string>, done: set<string>, k: string)
    requires k in Distribution(tokens) && k !in done
    ensures var f := Amount(Counts(tokens));
            Running(done + {k}, f) == Add(Running(done, f), Value(Distribution(tokens)[k]))
  {
    hide Running, Distribution;
    RunningStep(done, k, Amount(Counts(tokens)));
    LookupCounts(tokens, k);
  }

  ghost function WassersteinOf(l: seq<string>, r: seq<string>): Number {
    if Clean(l) && Clean(r) then Num(Wasserstein(Counts(l), Counts(r)))
    else if l == [] || r == [] then Num(1.0)
    else NaN
  }

  method Wasserstein1(ghost l: seq<string>, ghost r: seq<string>, left: Record, right: Record) returns (w: Number)
    requires left == Distribution(l) && right == Distribution(r)
    ensures w == WassersteinOf(l, r)
  {
    hide Sum, Distribution, Running, Counts, Lookup, Gap, Share, AnyInherited, Clean, Wasserstein;
    var leftTotal := TotalOf(l, left);
    var rightTotal := TotalOf(r, right);
    TotalCases(l);
    TotalCases(r);
    WassersteinCases(l, r);
    if leftTotal == Num(0.0) && rightTotal == Num(0.0) {
      return Num(0.0);
    }
    if leftTotal == Num(0.0) || rightTotal == Num(0.0) {
      return Num(1.0);
    }
    if leftTotal.NaN? || rightTotal.NaN? {
      return NaN;
    }
    w := L1(l, r, left, right, leftTotal.x, rightTotal.x);
  }

  function Ratio(n: nat, total: real): real
    requires total != 0.0
  {
    n as real / total
  }

  /** `|p - q|` for one key. */
  function Difference(left: Record, right: Record, leftTotal: real, rightTotal: real, k: string): real
    requires Lookup(left, k).Tally? && Lookup(right, k).Tally? && leftTotal != 0.0 && rightTotal != 0.0
  {
    var p, q := Ratio(Lookup(left, k).n, leftTotal), Ratio(Lookup(right, k).n, rightTotal);
    Abs(p - q)
  }

  /** Half the absolute differences of the relative counts, key by key. */
  method L1(ghost l: seq<string>, ghost r: seq<string>, left: Record, right: Record, leftTotal: real, rightTotal: real)
    returns (w: Number)
    requires left == Distribution(l) && right == Distribution(r) && Clean(l) && Clean(r)
    requires leftTotal == Total(Counts(l)) > 0.0 && rightTotal == Total(Counts(r)) > 0.0
    ensures w == Num(Wasserstein(Counts(l), Counts(r)))
  {
    hide Walked, Json.INHERITED, L1Sum, Distribution, Counts, Lookup, Total, Clean, Difference, Wasserstein;
    var keys := left.Keys + right.Keys;
    var l1 := 0.0;
    var rest := keys;
    ghost var done: set<string> := {};
    WalkStarts(keys);
    L1Ends(l, r, keys);
    while rest != {}
      invariant Walked(done, rest, keys) && l1 == L1Sum(l, r, done)
      decreases |rest|
    {
      var k :| k in rest;
      WalkOn(done, rest, keys, k);
      L1Step(l, r, left, right, leftTotal, rightTotal, done, k);
      l1 := l1 + Difference(left, right, leftTotal, rightTotal, k);
      done, rest := done + {k}, rest - {k};
    }
    WalkEnds(done, keys);
    w := Num(l1 / 2.0);
  }

  ghost function L1Sum(l: seq<string>, r: seq<string>, keys: set<string>): real {
    Sum(keys, Gap(Share(Counts(l)), Share(Counts(r))))
  }

  lemma L1Ends(l: seq<string>, r: seq<string>, keys: set<string>)
    requires keys == Distribution(l).Keys + Distribution(r).Keys && Total(Counts(l)) > 0.0 && Total(Counts(r)) > 0.0
    ensures L1Sum(l, r, {}) == 0.0 && Wasserstein(Counts(l), Counts(r)) == L1Sum(l, r, keys) / 2.0
  {
    hide Total, Counts, Distribution, Sum, Share, Gap;
    KeysOf(l, r);
    NothingToSum(Gap(Share(Counts(l)), Share(Counts(r))));
  }

  lemma L1Step(l: seq<string>, r: seq<string>, left: Record, right: Record, tl: real, tr: real, done: set<string>,
               k: string)
    requires left == Distribution(l) && right == Distribution(r) && tl == Total(Counts(l)) > 0.0
             && tr == Total(Counts(r)) > 0.0
    requires k in left.Keys + right.Keys && Clean(l) && Clean(r) && k !in done
    ensures Lookup(left, k).Tally? && Lookup(right, k).Tally?
    ensures L1Sum(l, r, done + {k}) == L1Sum(l, r, done) + Difference(left, right, tl, tr, k)
  {
    hide Total, Counts, Distribution, Lookup, Ratio, Clean, Share, Sum;
    GapAt(l, r, k);
    SumPick(done + {k}, Gap(Share(Counts(l)), Share(Counts(r))), k);
    assert done + {k} - {k} == done;
  }

  lemma GapAt(l: seq<string>, r: seq<string>, k: string)
    requires k in Distribution(l).Keys + Distribution(r).Keys && Clean(l) && Clean(r)
    requires Total(Counts(l)) > 0.0 && Total(Counts(r)) > 0.0
    ensures Lookup(Distribution(l), k).Tally? && Lookup(Distribution(r), k).Tally?
    ensures Gap(Share(Counts(l)), Share(Counts(r)))(k) ==
            Abs(Ratio(Lookup(Distribution(l), k).n, Total(Counts(l))) - Ratio(Lookup(Distribution(r), k).n,
                    Total(Counts(r))))
  {
    hide Total, Counts, Distribution, Lookup, Ratio, Clean, Share;
    KeysOf(l, r);
    assert k !in Json.INHERITED;
    LookupCounts(l, k);
    LookupCounts(r, k);
    ShareAt(Counts(l), k);
    ShareAt(Counts(r), k);
  }

  lemma ShareAt(d: Counter, k: string)
    requires Total(d) > 0.0
    ensures Share(d)(k) == Ratio(Count(d, k), Total(d))
  {
    hide Total, Times;
    DividedIsScaled(Count(d, k) as real, Total(d));
  }

  lemma DividedIsScaled(n: real, t: real)
    requires t > 0.0
    ensures n / t == Times(n, 1.0 / t)
  {
    var p, q := n / t, Times(n, 1.0 / t);
    assert p * t == n;
    assert q * t == n * (1.0 / t * t) == n;
    assert (p - q) * t == 0.0;
  }

  lemma TotalCases(l: seq<string>)
    ensures Running(Counts(l).Keys, Amount(Counts(l))) == if Clean(l) then Num(Total(Counts(l))) else NaN
    ensures Total(Counts(l)) >= 0.0 && (Total(Counts(l)) == 0.0 <==> l == [])
    ensures l == [] ==> Clean(l)
  {
    hide Sum, Distribution;
    KeysOf(l, l);
    TotalIsPositive(Counts(l));
    if l != [] {
      Occurs(l, l[0]);
      assert Count(Counts(l), l[0]) > 0;
    }
  }

  lemma WassersteinCases(l: seq<string>, r: seq<string>)
    ensures l == [] && r == [] ==> WassersteinOf(l, r) == Num(0.0)
    ensures (l == []) != (r == []) ==> WassersteinOf(l, r) == Num(1.0)
    ensures l != [] && r != [] && !(Clean(l) && Clean(r)) ==> WassersteinOf(l, r) == NaN
  {
    hide Sum, Share, Gap, Clean;
    TotalCases(l);
    TotalCases(r);
    assert Total(Counts(l)) == 0.0 <==> l == [];
  }

  // ---------- The comparison ----------

  ghost function Signal(root: real -> real, tokens: Tokenizer, previous: string, next: string): Number {
    if previous == next then Num(0.0)
    else
      var l, r := tokens(previous), tokens(next);
      MaxOf(if Clean(l) && Clean(r) then Num(1.0 - Cosine(root, Counts(l), Counts(r))) else NaN, WassersteinOf(l, r))
  }

  method CompareContent(root: real -> real, tokens: Tokenizer, previous: string, next: string) returns (c: Comparison)
    ensures c.identical == (previous == next) && c.signal == Signal(root, tokens, previous, next)
    ensures c.editDistance == Dist(previous, next) && c.editRatio == EditRatio(previous, next)
    ensures c.cosine == if previous == next then Num(1.0) else CosineOf(root, tokens(previous), tokens(next))
    ensures c.wasserstein == if previous == next then Num(0.0) else WassersteinOf(tokens(previous), tokens(next))
  {
    hide Clean, Cosine, Wasserstein, Dist, Counts, Distribution;
    ZeroIsEqual(previous, next);
    if previous == next {
      RatioRange(previous, next);
      return Comparison(true, Num(1.0), Num(0.0), 0, 0.0, Num(0.0));
    }
    var l, r := tokens(previous), tokens(next);
    var left := TokenDistribution(l);
    var right := TokenDistribution(r);
    var cosine := CosineSimilarity(root, l, r, left, right);
    var wasserstein := Wasserstein1(l, r, left, right);
    var distance := EditDistance(previous, next);
    var longest := Max(|previous|, |next|);
    var ratio := if longest == 0 then 0.0 else distance as real / longest as real;
    var divergence := if cosine.NaN? then NaN else Num(1.0 - cosine.x);
    c := Comparison(false, cosine, wasserstein, distance, ratio, MaxOf(divergence, wasserstein));
  }

  /**
   * The signal is a number between 0 and 1 exactly when the texts are equal or neither has a token that
   * every object inherits (of the tokens the program makes, only the word `constructor` is one).
   */
  lemma SignalRange(root: real -> real, tokens: Tokenizer, previous: string, next: string)
    requires IsRoot(root)
    ensures var s := Signal(root, tokens, previous, next);
            s.Num? && 0.0 <= s.x <= 1.0 <==> previous == next || (Clean(tokens(previous)) && Clean(tokens(next)))
  {
    hide Clean, Cosine, Wasserstein, Counts, IsRoot;
    CosineRange(root, Counts(tokens(previous)), Counts(tokens(next)));
    WassersteinRange(Counts(tokens(previous)), Counts(tokens(next)));
  }

  lemma ConstructorBreaksTheSignal(root: real -> real, tokens: Tokenizer, previous: string, next: string)
    requires previous != next && "constructor" in tokens(previous)
    ensures Signal(root, tokens, previous, next) == NaN
  {
    hide Cosine, Wasserstein;
    assert !Clean(tokens(previous));
  }

  /** Either text may come first. */
  lemma SignalSymmetric(root: real -> real, tokens: Tokenizer, previous: string, next: string)
    ensures Signal(root, tokens, previous, next) == Signal(root, tokens, next, previous)
  {
    hide Sum, Clean, Counts, Wasserstein, Times;
    var a, b := Counts(tokens(previous)), Counts(tokens(next));
    WassersteinSymmetric(a, b);
    assert a.Keys + b.Keys == b.Keys + a.Keys;
    DotSymmetric(a.Keys + b.Keys, a, b);
    FactorsCommute(root(Sum(a.Keys + b.Keys, Dot(a, a))), root(Sum(a.Keys + b.Keys, Dot(b, b))));
  }

  lemma DotSymmetric(keys: set<string>, a: Counter, b: Counter)
    ensures Sum(keys, Dot(a, b)) == Sum(keys, Dot(b, a))
  {
    hide Sum;
    SumSame(keys, Dot(a, b), Dot(b, a));
  }

  lemma FactorsCommute(x: real, y: real)
    ensures Times(x, y) == Times(y, x)
  {
  }

  /** Two different texts without content tokens count as fully different, though their counts agree. */
  lemma EmptyTextsDiffer(root: real -> real, tokens: Tokenizer, previous: string, next: string)
    requires IsRoot(root) && previous != next && tokens(previous) == [] && tokens(next) == []
    ensures Signal(root, tokens, previous, next) == Num(1.0)
    ensures WassersteinOf(tokens(previous), tokens(next)) == Num(0.0)
  {
    hide Wasserstein;
    WassersteinCases([], []);
    var none := Counts([]);
    assert none.Keys + none.Keys == {};
    NothingToSum(Dot(none, none));
    assert Times(root(0.0), root(0.0)) == 0.0;
    assert Cosine(root, none, none) == 0.0;
  }
}
