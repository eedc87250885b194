/** What the fused score rewards: early places, more surfaces, fresh evidence; and what it punishes. */
module RankOrder {
  import opened Wrappers
  import opened ClaimStore
  import opened Ranking
  import opened RankingGuarantees

  // ---------- Places ----------

  function HitsOn(hits: seq<Hit>, s: Surface): nat {
    if hits == [] then 0 else HitsOn(hits[..|hits| - 1], s) + (if hits[|hits| - 1].surface == s then 1 else 0)
  }

  /** Hit `k` is where the surface first lists the claim. */
  ghost predicate FirstHit(hits: seq<Hit>, s: Surface, id: nat, k: nat) {
    k < |hits| && hits[k] == Hit(id, s) && Hit(id, s) !in hits[..k]
  }

  /** On this surface `a` is listed wherever `b` is, and no later. */
  ghost predicate NoLater(hits: seq<Hit>, s: Surface, a: nat, b: nat) {
    forall n: nat | n <= |hits| :: Hit(b, s) in hits[..n] ==> Hit(a, s) in hits[..n]
  }

  /** And `a` is listed before `b`, or without it. */
  ghost predicate Sooner(hits: seq<Hit>, s: Surface, a: nat, b: nat) {
    NoLater(hits, s, a, b) && exists n: nat :: n <= |hits| && Hit(a, s) in hits[..n] && Hit(b, s) !in hits[..n]
  }

  lemma {:induction false} FindFirst(hits: seq<Hit>, s: Surface, id: nat) returns (k: nat)
    requires Hit(id, s) in hits
    ensures FirstHit(hits, s, id, k)
  {
    var n := |hits| - 1;
    if Hit(id, s) in hits[..n] {
      k := FindFirst(hits[..n], s, id);
      assert hits[..n][..k] == hits[..k];
    } else {
      k := n;
      assert hits == hits[..n] + [hits[n]];
    }
  }

  lemma {:induction false} ListedOn(hits: seq<Hit>, s: Surface)
    ensures |Listed(hits, s)| == HitsOn(hits, s)
    ensures forall id :: id in Listed(hits, s) <==> Hit(id, s) in hits
  {
    if hits != [] {
      var n := |hits| - 1;
      ListedOn(hits[..n], s);
      assert hits == hits[..n] + [hits[n]];
    }
  }

  lemma {:induction false} OnRises(hits: seq<Hit>, s: Surface, k: nat)
    requires k <= |hits|
    ensures HitsOn(hits[..k], s) <= HitsOn(hits, s)
    ensures Listed(hits[..k], s) <= Listed(hits, s)
  {
    if k == |hits| {
      assert hits[..k] == hits;
    } else {
      OnRises(hits[..|hits| - 1], s, k);
      assert hits[..|hits| - 1][..k] == hits[..k];
    }
  }

  /** A surface that does not list the claim adds nothing; place `n` on one adds 1 / (60 + n). */
  lemma ShareByPlace(hits: seq<Hit>, s: Surface, id: nat, k: nat)
    ensures Hit(id, s) !in hits ==> Share(Listed(hits, s), id) == 0.0
    ensures FirstHit(hits, s, id, k) ==>
              Share(Listed(hits, s), id) == 1.0 / (60.0 + (HitsOn(hits[..k], s) + 1) as real)
  {
    ListedOn(hits, s);
    if FirstHit(hits, s, id, k) {
      ListedOn(hits[..k], s);
      assert hits[..k + 1][..k] == hits[..k];
      OnRises(hits, s, k + 1);
      var before, all := Listed(hits[..k], s), Listed(hits, s);
      assert before + [id] <= all;
      assert hits[k] in hits;
      FirstIndex(all, id, |before|);
    }
  }

  lemma FirstIndex(ids: seq<nat>, id: nat, i: nat)
    requires i < |ids| && ids[i] == id && id !in ids[..i]
    ensures IndexOf(ids, id) == Some(i)
  {
    var j := IndexOf(ids, id).value;
    assert forall p :: 0 <= p < i ==> ids[..i][p] == ids[p] && ids[p] != id;
    assert forall p :: 0 <= p < j ==> ids[..j][p] == ids[p] && ids[p] != id;
  }

  lemma PlacesFall(x: nat, y: nat)
    requires x < y
    ensures 1.0 / (60.0 + (x + 1) as real) > 1.0 / (60.0 + (y + 1) as real) > 0.0
  {
    Reciprocals(60.0 + (x + 1) as real, 60.0 + (y + 1) as real);
  }

  lemma Reciprocals(x: real, y: real)
    requires 0.0 < x < y
    ensures 1.0 / x > 1.0 / y > 0.0
  {
    var p, q := 1.0 / x, 1.0 / y;
    assert p * x == 1.0 && q * y == 1.0;
    assert q > 0.0;
    assert q * (y - x) > 0.0;
    assert p <= q ==> (q - p) * x >= 0.0;
  }

  lemma SoonerShares(hits: seq<Hit>, s: Surface, a: nat, b: nat)
    requires NoLater(hits, s, a, b)
    ensures Share(Listed(hits, s), a) >= Share(Listed(hits, s), b)
    ensures Sooner(hits, s, a, b) ==> Share(Listed(hits, s), a) > Share(Listed(hits, s), b)
  {
    hide Share, Listed, HitsOn;
    assert hits[..|hits|] == hits;
    ShareByPlace(hits, s, a, 0);
    ShareByPlace(hits, s, b, 0);
    if Hit(a, s) in hits && a != b {
      var j := FindFirst(hits, s, a);
      ShareByPlace(hits, s, a, j);
      PlacesFall(HitsOn(hits[..j], s), HitsOn(hits[..j], s) + 1);
      if Hit(b, s) in hits {
        var k := FindFirst(hits, s, b);
        ShareByPlace(hits, s, b, k);
        assert Hit(b, s) in hits[..k + 1] by { assert hits[..k + 1][k] == hits[k]; }
        EarlierPlace(hits, s, a, b, j, k);
        PlacesFall(HitsOn(hits[..j], s), HitsOn(hits[..k], s));
      }
    } else {
      NotSooner(hits, s, a, b);
    }
  }

  lemma NotSooner(hits: seq<Hit>, s: Surface, a: nat, b: nat)
    requires Hit(a, s) !in hits || a == b
    ensures !Sooner(hits, s, a, b)
  {
    assert forall n: nat, h: Hit :: n <= |hits| && h in hits[..n] ==> h in hits;
  }

  lemma EarlierPlace(hits: seq<Hit>, s: Surface, a: nat, b: nat, j: nat, k: nat)
    requires FirstHit(hits, s, a, j) && FirstHit(hits, s, b, k) && a != b && Hit(a, s) in hits[..k + 1]
    ensures HitsOn(hits[..j], s) < HitsOn(hits[..k], s)
  {
    var i :| 0 <= i < k + 1 && hits[..k + 1][i] == Hit(a, s);
    assert hits[i] == Hit(a, s) && i < k;
    assert forall p :: 0 <= p < j ==> hits[..j][p] == hits[p] && hits[p] != Hit(a, s);
    assert hits[..j + 1][..j] == hits[..j];
    assert hits[..k][..j + 1] == hits[..j + 1];
    OnRises(hits[..k], s, j + 1);
  }

  // ---------- Scores of the output ----------

  /** Nothing but its places sets the claims apart: age, status, origin, source and activation are the same. */
  predicate Peers(m: Memory, a: nat, b: nat)
    requires a < |m.claims| && b < |m.claims|
  {
    var x, y := m.claims[a], m.claims[b];
    && m.age(a) == m.age(b) && m.track(a) == m.track(b)
    && x.status == y.status && x.origin == y.origin && x.activation == y.activation
  }

  /** The lens does not silence the origin. */
  predicate Audible(o: Options, c: Claim) {
    c.origin in o.downweight ==> o.downweight[c.origin] > 0.0
  }

  lemma TimesRises(x: real, y: real, f: real)
    requires x > y && f > 0.0
    ensures Times(x, f) > Times(y, f)
  {
    assert (x - y) * f > 0.0;
    assert (x - y) * f == x * f - y * f;
  }

  lemma FactorsPositive(m: Memory, o: Options, id: nat)
    requires id < |m.claims| && Audible(o, m.claims[id])
    ensures RecencyBoost(m.age(id)) > 0.0 && Demote(m.claims[id]) > 0.0 && Downweight(o, m.claims[id]) > 0.0
    ensures Influence(m, id) > 0.0 && Lift(m.claims[id]) > 0.0
  {
    hide ReliabilityFactor;
    if m.track(id).Some? {
      ReliabilityRange(m.track(id).value);
    }
    var d := 1.0 + (if m.age(id) > 0.0 then m.age(id) else 0.0) / RECENCY_HALF_LIFE_DAYS;
    assert d >= 1.0 && 1.0 / d * d == 1.0;
  }

  lemma ScoreRises(m: Memory, o: Options, hits: seq<Hit>, a: nat, b: nat)
    requires a < |m.claims| && b < |m.claims| && Peers(m, a, b) && Audible(o, m.claims[a])
    requires RrfFuse(hits, a) > RrfFuse(hits, b)
    ensures FusedScore(m, o, hits, a) > FusedScore(m, o, hits, b)
  {
    hide Times, RecencyBoost, ReliabilityFactor, RrfFuse;
    FactorsPositive(m, o, a);
    var c := m.claims[a];
    var x0, y0 := RrfFuse(hits, a), RrfFuse(hits, b);
    var x1, y1 := Times(x0, RecencyBoost(m.age(a))), Times(y0, RecencyBoost(m.age(a)));
    var x2, y2 := Times(x1, Demote(c)), Times(y1, Demote(c));
    var x3, y3 := Times(x2, Downweight(o, c)), Times(y2, Downweight(o, c));
    TimesRises(x0, y0, RecencyBoost(m.age(a)));
    TimesRises(x1, y1, Demote(c));
    TimesRises(x2, y2, Downweight(o, c));
    TimesRises(x3, y3, Influence(m, a));
    TimesRises(Times(x3, Influence(m, a)), Times(y3, Influence(m, a)), Lift(c));
  }

  /**
   * Of two ranked claims that differ in their places only, the one that no surface lists later, and that some surface
   * lists sooner or alone, scores strictly higher.
   */
  lemma EarlierScoresHigher(m: Memory, o: Options, hits: seq<Hit>, a: Row, b: Row)
    requires a in Ranked(m, o, hits) && b in Ranked(m, o, hits)
    ensures a.id < |m.claims| && b.id < |m.claims|
    ensures (&& Peers(m, a.id, b.id) && Audible(o, a.claim)
             && (forall s :: NoLater(hits, s, a.id, b.id)) && exists s :: Sooner(hits, s, a.id, b.id))
            ==> a.score > b.score
  {
    hide FusedScore, Ranked, Share, Listed, Peers, NoLater, Sooner;
    EveryHitPlacedOnce(m, o, hits);
    if Peers(m, a.id, b.id) && Audible(o, a.claim) && (forall s :: NoLater(hits, s, a.id, b.id))
       && exists s :: Sooner(hits, s, a.id, b.id) {
      var s :| Sooner(hits, s, a.id, b.id);
      SoonerShares(hits, Lexical, a.id, b.id);
      SoonerShares(hits, Semantic, a.id, b.id);
      SoonerShares(hits, Associative, a.id, b.id);
      assert s == Lexical || s == Semantic || s == Associative;
      ScoreRises(m, o, hits, a.id, b.id);
    }
  }

  // ---------- One factor at a time ----------

  /** The 1-based place of the claim among the hits of the surface, 0 when it is not listed there. */
  function PlaceOn(hits: seq<Hit>, s: Surface, id: nat): nat {
    if hits == [] then 0
    else
      var n := |hits| - 1;
      var p := PlaceOn(hits[..n], s, id);
      if p > 0 then p else if hits[n] == Hit(id, s) then HitsOn(hits, s) else 0
  }

  /** What a place is worth. */
  function Points(place: nat): real {
    if place == 0 then 0.0 else 1.0 / (60.0 + place as real)
  }

  lemma {:induction false} PlaceIsFirst(hits: seq<Hit>, s: Surface, id: nat)
    ensures PlaceOn(hits, s, id) > 0 <==> Hit(id, s) in hits
    ensures forall k: nat :: FirstHit(hits, s, id, k) ==> PlaceOn(hits, s, id) == HitsOn(hits[..k], s) + 1
  {
    if hits != [] {
      var n := |hits| - 1;
      PlaceIsFirst(hits[..n], s, id);
      assert hits == hits[..n] + [hits[n]];
      forall k: nat | FirstHit(hits, s, id, k)
        ensures PlaceOn(hits, s, id) == HitsOn(hits[..k], s) + 1
      {
        if k < n {
          assert hits[..n][..k] == hits[..k] && hits[..n][k] == hits[k];
          assert FirstHit(hits[..n], s, id, k);
        }
      }
    }
  }

  lemma ShareIsPoints(hits: seq<Hit>, s: Surface, id: nat)
    ensures Share(Listed(hits, s), id) == Points(PlaceOn(hits, s, id))
  {
    hide Share, Listed;
    PlaceIsFirst(hits, s, id);
    ShareByPlace(hits, s, id, 0);
    if Hit(id, s) in hits {
      var k := FindFirst(hits, s, id);
      ShareByPlace(hits, s, id, k);
    }
  }

  /** What the score is made of, factor by factor. */
  function Product(base: real, age: real, status: real, lens: real, record: real, lift: real): real {
    Times(Times(Times(Times(Times(base, age), status), lens), record), lift)
  }

  lemma FactorOut(b: real, a: real, s: real, l: real, t: real, u: real, k: real)
    ensures Product(b, Times(a, k), s, l, t, u) == Times(Product(b, a, s, l, t, u), k)
    ensures Product(b, a, Times(s, k), l, t, u) == Times(Product(b, a, s, l, t, u), k)
    ensures Product(b, a, s, Times(l, k), t, u) == Times(Product(b, a, s, l, t, u), k)
    ensures Product(b, a, s, l, Times(t, k), u) == Times(Product(b, a, s, l, t, u), k)
    ensures Product(b, a, s, l, t, Times(u, k)) == Times(Product(b, a, s, l, t, u), k)
  {
  }

  /** The same claim in two rankings of the same hits, with the fields the score reads. */
  predicate SameHits(m: Memory, m': Memory, o: Options, o': Options, hits: seq<Hit>, r: Row, r': Row) {
    r in Ranked(m, o, hits) && r' in Ranked(m', o', hits) && r.id == r'.id
  }

  lemma ScoreIsProduct(m: Memory, o: Options, hits: seq<Hit>, r: Row)
    requires r in Ranked(m, o, hits)
    ensures r.id < |m.claims| && r.claim == m.claims[r.id]
    ensures r.score == Product(RrfFuse(hits, r.id), RecencyBoost(m.age(r.id)), Demote(r.claim),
                               Downweight(o, r.claim), Influence(m, r.id), Lift(r.claim))
  {
    hide Ranked, Times, RrfFuse, RecencyBoost, Demote, Downweight, Influence, Lift;
    EveryHitPlacedOnce(m, o, hits);
  }

  /** Fresh, not contradicted, of an origin the lens leaves alone, of unrecorded source and without activation. */
  predicate Neutral(m: Memory, o: Options, id: nat)
    requires id < |m.claims|
  {
    var c := m.claims[id];
    && m.age(id) <= 0.0 && c.status != Contradicted && c.origin !in o.downweight
    && m.track(id).None? && c.activation.None?
  }

  /** The score of a neutral claim is what its places are worth; a sole first hit scores 1 / 61. */
  lemma NeutralScore(m: Memory, o: Options, hits: seq<Hit>, r: Row)
    requires r in Ranked(m, o, hits)
    ensures r.id < |m.claims|
    ensures Neutral(m, o, r.id) ==>
              r.score == Points(PlaceOn(hits, Lexical, r.id)) + Points(PlaceOn(hits, Semantic, r.id))
                         + Points(PlaceOn(hits, Associative, r.id))
    ensures Neutral(m, o, r.id) && |hits| == 1 ==> r.score == 1.0 / 61.0
  {
    hide Ranked, Share, Listed, ReliabilityFactor, PlaceOn;
    ScoreIsProduct(m, o, hits, r);
    ShareIsPoints(hits, Lexical, r.id);
    ShareIsPoints(hits, Semantic, r.id);
    ShareIsPoints(hits, Associative, r.id);
    AllOnes(RrfFuse(hits, r.id));
    if |hits| == 1 {
      OnlyPlace(m, o, hits, r);
    }
  }

  lemma AllOnes(b: real)
    ensures Product(b, 1.0, 1.0, 1.0, 1.0, 1.0) == b
  {
  }

  lemma OnlyPlace(m: Memory, o: Options, hits: seq<Hit>, r: Row)
    requires |hits| == 1 && r in Ranked(m, o, hits)
    ensures PlaceOn(hits, hits[0].surface, r.id) == 1
    ensures forall s :: s != hits[0].surface ==> PlaceOn(hits, s, r.id) == 0
  {
    hide FusedScore, Ranked;
    EveryHitPlacedOnce(m, o, hits);
    var i :| 0 <= i < |Ranked(m, o, hits)| && Ranked(m, o, hits)[i] == r;
    assert Placed(Ranked(m, o, hits), r.id);
    assert hits[..0] == [];
    forall s
      ensures PlaceOn(hits, s, r.id) == if s == hits[0].surface then 1 else 0
    {
      assert PlaceOn(hits[..0], s, r.id) == 0 && HitsOn(hits[..0], s) == 0;
    }
  }

  /** Evidence `d` days old divides the score of fresh evidence by 1 + d / 30. */
  lemma AgeDivides(m: Memory, m': Memory, o: Options, hits: seq<Hit>, r: Row, r': Row)
    requires SameHits(m, m', o, o, hits, r, r') && r.claim == r'.claim && m.track(r.id) == m'.track(r.id)
    requires m.age(r.id) <= 0.0 < m'.age(r.id)
    ensures r'.score * (1.0 + m'.age(r.id) / 30.0) == r.score
  {
    hide Ranked, RrfFuse, Demote, Downweight, ReliabilityFactor, Lift;
    ScoreIsProduct(m, o, hits, r);
    ScoreIsProduct(m', o, hits, r');
    var b, s, l := RrfFuse(hits, r.id), Demote(r.claim), Downweight(o, r.claim);
    var t, u := Influence(m, r.id), Lift(r.claim);
    var a, d := RecencyBoost(m'.age(r.id)), 1.0 + m'.age(r.id) / 30.0;
    assert d > 0.0 && RecencyBoost(m.age(r.id)) == 1.0;
    assert Times(a, d) == 1.0;
    FactorOut(b, a, s, l, t, u, d);
  }

  /** Fresher evidence scores strictly higher, unless the lens silences the claim or no surface lists it. */
  lemma FresherScoresHigher(m: Memory, m': Memory, o: Options, hits: seq<Hit>, r: Row, r': Row)
    requires SameHits(m, m', o, o, hits, r, r') && r.claim == r'.claim && m.track(r.id) == m'.track(r.id)
    requires m.age(r.id) < m'.age(r.id) && 0.0 < m'.age(r.id) && Audible(o, r.claim)
    ensures r.score > r'.score > 0.0
  {
    hide Ranked, RrfFuse, Times, ReliabilityFactor, Product, RecencyBoost;
    ScoreIsProduct(m, o, hits, r);
    ScoreIsProduct(m', o, hits, r');
    FactorsPositive(m, o, r.id);
    FactorsPositive(m', o, r.id);
    HitsScore(m, o, hits, r);
    Fresher(m.age(r.id), m'.age(r.id));
    ProductRises(RrfFuse(hits, r.id), RecencyBoost(m.age(r.id)), RecencyBoost(m'.age(r.id)), Demote(r.claim),
                 Downweight(o, r.claim), Influence(m, r.id), Lift(r.claim));
  }

  lemma Fresher(x: real, y: real)
    requires x < y && 0.0 < y
    ensures RecencyBoost(x) > RecencyBoost(y) > 0.0
  {
    Reciprocals(1.0 + (if x > 0.0 then x else 0.0) / 30.0, 1.0 + y / 30.0);
  }

  lemma ProductRises(b: real, a: real, a': real, s: real, l: real, t: real, u: real)
    requires b > 0.0 && a > a' > 0.0 && s > 0.0 && l > 0.0 && t > 0.0 && u > 0.0
    ensures Product(b, a, s, l, t, u) > Product(b, a', s, l, t, u) > 0.0
  {
    hide Times;
    assert Times(b, a) > Times(b, a') > 0.0 by { Factors(b, a, a'); }
    FactorKeepsOrder(Times(b, a), Times(b, a'), s);
    FactorKeepsOrder(Times(Times(b, a), s), Times(Times(b, a'), s), l);
    FactorKeepsOrder(Times(Times(Times(b, a), s), l), Times(Times(Times(b, a'), s), l), t);
    FactorKeepsOrder(Times(Times(Times(Times(b, a), s), l), t), Times(Times(Times(Times(b, a'), s), l), t), u);
  }

  lemma Factors(b: real, a: real, a': real)
    requires b > 0.0 && a > a' > 0.0
    ensures Times(b, a) > Times(b, a') > 0.0
  {
    assert b * (a - a') > 0.0;
    assert b * (a - a') == b * a - b * a';
  }

  lemma FactorKeepsOrder(x: real, y: real, f: real)
    requires x > y > 0.0 && f > 0.0
    ensures Times(x, f) > Times(y, f) > 0.0
  {
    TimesRises(x, y, f);
  }

  /** A ranked claim was hit, so its base score is positive. */
  lemma HitsScore(m: Memory, o: Options, hits: seq<Hit>, r: Row)
    requires r in Ranked(m, o, hits)
    ensures RrfFuse(hits, r.id) > 0.0
  {
    hide FusedScore, Ranked, Share, Listed;
    EveryHitPlacedOnce(m, o, hits);
    var i :| 0 <= i < |Ranked(m, o, hits)| && Ranked(m, o, hits)[i] == r;
    assert Placed(Ranked(m, o, hits), r.id);
    var k :| 0 <= k < |hits| && hits[k].claimId == r.id;
    assert hits[k] in hits;
    var s := hits[k].surface;
    var j := FindFirst(hits, s, r.id);
    ShareByPlace(hits, s, r.id, j);
    PlacesFall(HitsOn(hits[..j], s), HitsOn(hits[..j], s) + 1);
    assert s == Lexical || s == Semantic || s == Associative;
  }

  /** A contradicted claim scores half of what it would score otherwise. */
  lemma ContradictionHalves(m: Memory, m': Memory, o: Options, hits: seq<Hit>, r: Row, r': Row)
    requires SameHits(m, m', o, o, hits, r, r') && m.age(r.id) == m'.age(r.id) && m.track(r.id) == m'.track(r.id)
    requires r.claim.status != Contradicted && r'.claim == r.claim.(status := Contradicted)
    ensures r'.score * 2.0 == r.score
  {
    hide Ranked, RrfFuse, RecencyBoost, ReliabilityFactor, Times, Product;
    ScoreIsProduct(m, o, hits, r);
    ScoreIsProduct(m', o, hits, r');
    FactorOut(RrfFuse(hits, r.id), RecencyBoost(m.age(r.id)), 1.0, Downweight(o, r.claim), Influence(m, r.id),
              Lift(r.claim), 0.5);
    TimesIs(1.0, 0.5);
    TimesIs(r.score, 0.5);
  }

  lemma TimesIs(x: real, y: real)
    ensures Times(x, y) == x * y
  {
  }

  /** An activation of `v` above zero multiplies the score by 1 + v / 5, any other activation changes nothing. */
  lemma ActivationLifts(m: Memory, m': Memory, o: Options, hits: seq<Hit>, r: Row, r': Row, v: real)
    requires SameHits(m, m', o, o, hits, r, r') && m.age(r.id) == m'.age(r.id) && m.track(r.id) == m'.track(r.id)
    requires r.claim.activation.None? && r'.claim == r.claim.(activation := Some(v))
    ensures r'.score == r.score * (1.0 + (if v > 0.0 then v else 0.0) / 5.0)
    ensures Audible(o, r.claim) && 0.0 < v <= 1.0 ==> r.score < r'.score <= r.score * 1.2
  {
    hide Ranked, RrfFuse, RecencyBoost, ReliabilityFactor, Times, Product;
    ScoreIsProduct(m, o, hits, r);
    ScoreIsProduct(m', o, hits, r');
    var k := 1.0 + (if v > 0.0 then v else 0.0) / 5.0;
    assert Lift(r.claim) == 1.0 && Lift(r'.claim) == k;
    TimesIs(1.0, k);
    TimesIs(r.score, k);
    FactorOut(RrfFuse(hits, r.id), RecencyBoost(m.age(r.id)), Demote(r.claim), Downweight(o, r.claim),
              Influence(m, r.id), 1.0, k);
    if Audible(o, r.claim) && 0.0 < v <= 1.0 {
      HeardScores(m, o, hits, r);
      assert r.score * (k - 1.0) > 0.0 && r.score * (1.2 - k) >= 0.0;
    }
  }

  /** A claim the lens lets be heard has a positive score. */
  lemma HeardScores(m: Memory, o: Options, hits: seq<Hit>, r: Row)
    requires r in Ranked(m, o, hits)
    ensures Audible(o, r.claim) ==> r.score > 0.0
  {
    hide Ranked, RrfFuse, RecencyBoost, ReliabilityFactor, Times, Product;
    ScoreIsProduct(m, o, hits, r);
    HitsScore(m, o, hits, r);
    if Audible(o, r.claim) {
      FactorsPositive(m, o, r.id);
      var a := RecencyBoost(m.age(r.id));
      ProductRises(RrfFuse(hits, r.id), 2.0 * a, a, Demote(r.claim), Downweight(o, r.claim), Influence(m, r.id),
                   Lift(r.claim));
    }
  }

  /** A factor the lens sets for the claim's origin multiplies the score. */
  lemma LensScales(m: Memory, o: Options, o': Options, hits: seq<Hit>, r: Row, r': Row)
    requires SameHits(m, m, o, o', hits, r, r')
    requires r.claim.origin !in o.downweight && r.claim.origin in o'.downweight
    ensures r'.score == r.score * o'.downweight[r.claim.origin]
  {
    hide Ranked, RrfFuse, RecencyBoost, ReliabilityFactor, Times, Product;
    ScoreIsProduct(m, o, hits, r);
    ScoreIsProduct(m, o', hits, r');
    var k := o'.downweight[r.claim.origin];
    TimesIs(1.0, k);
    TimesIs(r.score, k);
    FactorOut(RrfFuse(hits, r.id), RecencyBoost(m.age(r.id)), Demote(r.claim), 1.0, Influence(m, r.id),
              Lift(r.claim), k);
  }

  /** A recorded source multiplies the score by 1 while its wins are not outnumbered, and by the rule otherwise. */
  lemma RecordScales(m: Memory, m': Memory, o: Options, hits: seq<Hit>, r: Row, r': Row)
    requires SameHits(m, m', o, o, hits, r, r') && r.claim == r'.claim && m.age(r.id) == m'.age(r.id)
    requires m.track(r.id).None? && m'.track(r.id).Some?
    ensures var t := m'.track(r.id).value;
            r'.score == r.score * (if t.wins >= t.losses then 1.0
                                   else 0.5 + (t.wins + 1) as real / (t.wins + t.losses + 2) as real)
  {
    hide Ranked, RrfFuse, RecencyBoost, Times, Product;
    ScoreIsProduct(m, o, hits, r);
    ScoreIsProduct(m', o, hits, r');
    var t := m'.track(r.id).value;
    var k := if t.wins >= t.losses then 1.0 else 0.5 + (t.wins + 1) as real / (t.wins + t.losses + 2) as real;
    AgainstHalf((t.wins + 1) as real, (t.wins + t.losses + 2) as real);
    assert Influence(m', r.id) == k && Influence(m, r.id) == 1.0;
    TimesIs(1.0, k);
    TimesIs(r.score, k);
    FactorOut(RrfFuse(hits, r.id), RecencyBoost(m.age(r.id)), Demote(r.claim), Downweight(o, r.claim), 1.0,
              Lift(r.claim), k);
  }
}
