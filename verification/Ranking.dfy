/** Recall ranking: reciprocal-rank fusion, gates, duplicate suppression and bands. */
module Ranking {
  import opened Wrappers
  import opened Text
  import opened ClaimStore
  import opened Sorting

  const RRF_K: real := 60.0
  const CONTRADICTED_DEMOTE: real := 0.5
  const RECENCY_HALF_LIFE_DAYS: real := 30.0
  const ACTIVATION_RANK_WEIGHT: real := 0.2

  datatype Surface = Lexical | Semantic | Associative

  datatype Hit = Hit(claimId: nat, surface: Surface)

  datatype Reason = ByLens | ByGate | ByDuplicate

  datatype Disposition = Recalled | Familiar | Unranked | Excluded(reason: Reason)

  datatype Row = Row(id: nat, claim: Claim, score: real, demoted: bool, disposition: Disposition)

  /** Wins and losses of the claim's first source. */
  datatype Track = Track(wins: nat, losses: nat)

  /** What ranking reads: the claims, the age of each claim's latest evidence in days, the record of its source. */
  datatype Memory = Memory(claims: seq<Claim>, age: nat -> real, track: nat -> Option<Track>)

  datatype Options = Options(
    exclude: set<Origin>, downweight: map<Origin, real>, includeGated: bool, gate: real, recalledLimit: nat,
        familiarLimit: nat)

  // ---------- Scores ----------

  /** The claims a surface listed, in its order. */
  function Listed(hits: seq<Hit>, s: Surface): seq<nat> {
    if hits == [] then []
    else Listed(hits[..|hits| - 1], s) + (if hits[|hits| - 1].surface == s then [hits[|hits| - 1].claimId] else [])
  }

  function IndexOf(ids: seq<nat>, id: nat): (r: Option<nat>)
    ensures r.Some? <==> id in ids
    ensures r.Some? ==> r.value < |ids| && ids[r.value] == id && id !in ids[..r.value]
  {
    if ids == [] then None
    else
      match IndexOf(ids[..|ids| - 1], id)
      case Some(i) => assert ids[..|ids| - 1][..i] == ids[..i]; Some(i)
      case None => if ids[|ids| - 1] == id then Some(|ids| - 1) else None
  }

  /** The share of one surface: its 1-based rank, damped. */
  function Share(ids: seq<nat>, id: nat): (r: real)
    ensures 0.0 <= r < 1.0
  {
    match IndexOf(ids, id)
    case None => 0.0
    case Some(i) =>
      assert 1.0 / (RRF_K + (i + 1) as real) * (RRF_K + (i + 1) as real) == 1.0;
      1.0 / (RRF_K + (i + 1) as real)
  }

  function RrfFuse(hits: seq<Hit>, id: nat): real {
    Share(Listed(hits, Lexical), id) + Share(Listed(hits, Semantic), id) + Share(Listed(hits, Associative), id)
  }

  function RecencyBoost(age: real): real {
    1.0 / (1.0 + (if age > 0.0 then age else 0.0) / RECENCY_HALF_LIFE_DAYS)
  }

  function ReliabilityFactor(t: Track): real {
    var factor := 0.5 + (t.wins + 1) as real / (t.wins + t.losses + 2) as real;
    if factor < 1.0 then factor else 1.0
  }

  function Times(x: real, y: real): real {
    x * y
  }

  function Demote(c: Claim): real {
    if c.status == Contradicted then CONTRADICTED_DEMOTE else 1.0
  }

  function Downweight(o: Options, c: Claim): real {
    if c.origin in o.downweight then o.downweight[c.origin] else 1.0
  }

  function Influence(m: Memory, id: nat): real {
    if m.track(id).Some? then ReliabilityFactor(m.track(id).value) else 1.0
  }

  function Lift(c: Claim): real {
    if c.activation.Some? && c.activation.value > 0.0 then 1.0 + ACTIVATION_RANK_WEIGHT * c.activation.value else 1.0
  }

  function FusedScore(m: Memory, o: Options, hits: seq<Hit>, id: nat): real
    requires id < |m.claims|
  {
    var c := m.claims[id];
    Times(Times(Times(Times(Times(RrfFuse(hits, id), RecencyBoost(m.age(id))), Demote(c)), Downweight(o, c)),
                Influence(m, id)), Lift(c))
  }

  /** Factors the lens documents and an activation the store keeps. */
  predicate InRange(m: Memory, o: Options) {
    && (forall k <- o.downweight :: 0.0 <= o.downweight[k] <= 1.0)
    && (forall c <- m.claims :: c.activation.Some? ==> c.activation.value <= 1.0)
  }

  lemma Shrinks(x: real, f: real, bound: real)
    requires 0.0 <= x <= bound && 0.0 <= f <= 1.0
    ensures 0.0 <= Times(x, f) <= bound
  {
  }

  lemma RecencyRange(age: real)
    ensures 0.0 <= RecencyBoost(age) <= 1.0
  {
    var d := 1.0 + (if age > 0.0 then age else 0.0) / RECENCY_HALF_LIFE_DAYS;
    assert d >= 1.0;
    assert 1.0 / d * d == 1.0;
  }

  /** Punishment only: between a half and one. */
  lemma ReliabilityRange(t: Track)
    ensures 0.5 < ReliabilityFactor(t) <= 1.0
    ensures ReliabilityFactor(t) == 1.0 <==> t.wins >= t.losses
  {
    AgainstHalf((t.wins + 1) as real, (t.wins + t.losses + 2) as real);
  }

  lemma AgainstHalf(a: real, b: real)
    requires a > 0.0 && b > 0.0
    ensures a / b > 0.0 && (a / b >= 0.5 <==> 2.0 * a >= b)
  {
    var q := a / b;
    assert q * b == a;
    assert (q - 0.5) * b == a - 0.5 * b;
    if q >= 0.5 {
      assert (q - 0.5) * b >= 0.0;
    } else {
      assert (0.5 - q) * b > 0.0;
    }
  }

  /** Every fused score stays far below the step between shrink priorities. */
  lemma ScoreRange(m: Memory, o: Options, hits: seq<Hit>, id: nat)
    requires id < |m.claims| && InRange(m, o)
    ensures 0.0 <= FusedScore(m, o, hits, id) < 1_000_000.0
  {
    hide Times, RecencyBoost, ReliabilityFactor;
    var c := m.claims[id];
    var r := RrfFuse(hits, id);
    assert c in m.claims;
    RecencyRange(m.age(id));
    Shrinks(r, RecencyBoost(m.age(id)), 3.0);
    var s1 := Times(r, RecencyBoost(m.age(id)));
    Shrinks(s1, Demote(c), 3.0);
    var s2 := Times(s1, Demote(c));
    Shrinks(s2, Downweight(o, c), 3.0);
    var s3 := Times(s2, Downweight(o, c));
    if m.track(id).Some? {
      ReliabilityRange(m.track(id).value);
    }
    Shrinks(s3, Influence(m, id), 3.0);
    var s4 := Times(s3, Influence(m, id));
    assert 1.0 <= Lift(c) <= 1.2;
    Lifts(s4, Lift(c));
  }

  lemma Lifts(x: real, f: real)
    requires 0.0 <= x <= 3.0 && 1.0 <= f <= 1.2
    ensures 0.0 <= Times(x, f) <= 3.6
  {
    assert x * (1.2 - f) >= 0.0;
    assert x * f == x * 1.2 - x * (1.2 - f);
  }

  // ---------- Resolving hits ----------

  /** The claim ids hit, each once, in order of first hit. */
  function Distinct(hits: seq<Hit>): seq<nat> {
    if hits == [] then []
    else
      var ids, id := Distinct(hits[..|hits| - 1]), hits[|hits| - 1].claimId;
      if id in ids then ids else ids + [id]
  }

  ghost predicate Unique(ids: seq<nat>) {
    forall i, j :: 0 <= i < j < |ids| ==> ids[i] != ids[j]
  }

  lemma {:induction false} DistinctHits(hits: seq<Hit>)
    ensures Unique(Distinct(hits))
    ensures forall id :: id in Distinct(hits) <==> exists k :: 0 <= k < |hits| && hits[k].claimId == id
  {
    if hits != [] {
      var n := |hits| - 1;
      DistinctHits(hits[..n]);
      forall id
        ensures id in Distinct(hits) <==> exists k :: 0 <= k < |hits| && hits[k].claimId == id
      {
        if id in Distinct(hits[..n]) {
          var k :| 0 <= k < n && hits[..n][k].claimId == id;
          assert hits[k].claimId == id;
        } else {
          assert forall k :: 0 <= k < n ==> hits[..n][k] == hits[k];
        }
      }
    }
  }

  function RowOf(m: Memory, o: Options, hits: seq<Hit>, id: nat): Row
    requires id < |m.claims|
  {
    Row(id, m.claims[id], FusedScore(m, o, hits, id), m.claims[id].status == Contradicted, Unranked)
  }

  /** A row for every id that resolves; the others have vanished. */
  function Rows(m: Memory, o: Options, hits: seq<Hit>, ids: seq<nat>): seq<Row> {
    if ids == [] then []
    else
      var id := ids[|ids| - 1];
      Rows(m, o, hits, ids[..|ids| - 1]) + (if id < |m.claims| then [RowOf(m, o, hits, id)] else [])
  }

  function Vanished(m: Memory, ids: seq<nat>): seq<nat> {
    if ids == [] then []
    else
      var id := ids[|ids| - 1];
      Vanished(m, ids[..|ids| - 1]) + (if id < |m.claims| then [] else [id])
  }

  ghost predicate UniqueRows(rows: seq<Row>) {
    forall i, j :: 0 <= i < j < |rows| ==> rows[i].id != rows[j].id
  }

  lemma {:induction false} RowsCover(m: Memory, o: Options, hits: seq<Hit>, ids: seq<nat>)
    requires Unique(ids)
    ensures UniqueRows(Rows(m, o, hits, ids)) && Unique(Vanished(m, ids))
    ensures forall r <- Rows(m, o, hits, ids) :: r.id in ids && r.id < |m.claims| && r == RowOf(m, o, hits, r.id)
    ensures forall id :: id in Vanished(m, ids) <==> id in ids && id >= |m.claims|
    ensures forall id :: id in ids && id < |m.claims| ==> RowOf(m, o, hits, id) in Rows(m, o, hits, ids)
  {
    hide FusedScore;
    if ids != [] {
      var n := |ids| - 1;
      RowsCover(m, o, hits, ids[..n]);
      assert ids == ids[..n] + [ids[n]];
      assert ids[n] !in ids[..n];
    }
  }

  // ---------- Gates ----------

  function Gate(o: Options, c: Claim): Disposition {
    if c.origin in o.exclude then Excluded(ByLens)
    else if c.confidence < o.gate && !c.locked && !o.includeGated then Excluded(ByGate)
    else Unranked
  }

  function Gated(o: Options, rows: seq<Row>): seq<Row> {
    seq(|rows|, i requires 0 <= i < |rows| => rows[i].(disposition := Gate(o, rows[i].claim)))
  }

  // ---------- Duplicates ----------

  function KeyOf(c: Claim): string {
    Lower(Trim(c.triple.subj)) + "|" + Lower(Trim(c.triple.pred)) + "|" + Lower(Trim(c.triple.obj))
    + "|" + (if c.negated then "negated" else "affirmed")
  }

  predicate In(r: Row) {
    !r.disposition.Excluded?
  }

  /** Row `j` is kept before row `i`: same key, higher score, or the same score and seen earlier. */
  predicate Beats(rows: seq<Row>, j: nat, i: nat)
    requires j < |rows| && i < |rows|
  {
    && In(rows[j]) && KeyOf(rows[j].claim) == KeyOf(rows[i].claim)
    && (rows[j].score > rows[i].score || (rows[j].score == rows[i].score && j < i))
  }

  predicate Beaten(rows: seq<Row>, n: nat, i: nat)
    requires n <= |rows| && i < |rows|
  {
    exists j :: 0 <= j < n && Beats(rows, j, i)
  }

  /** The first `n` rows deduplicated among themselves. */
  function Deduped(rows: seq<Row>, n: nat): seq<Row>
    requires n <= |rows|
  {
    seq(|rows|, i requires 0 <= i < |rows| =>
      if i < n && In(rows[i]) && Beaten(rows, n, i) then rows[i].(disposition := Excluded(ByDuplicate)) else rows[i])
  }

  // ---------- Bands ----------

  function ScoreAt(rows: seq<Row>, i: nat): real {
    if i < |rows| then rows[i].score else 0.0
  }

  function Higher(rows: seq<Row>): Before<nat> {
    (i: nat, j: nat) => ScoreAt(rows, i) > ScoreAt(rows, j)
  }

  /** Positions of the surviving rows, best first. */
  function Contenders(rows: seq<Row>): seq<nat> {
    Sort(Survivors(rows, |rows|), Higher(rows))
  }

  function Survivors(rows: seq<Row>, n: nat): (s: seq<nat>)
    requires n <= |rows|
    ensures forall i <- s :: i < n
  {
    if n == 0 then [] else Survivors(rows, n - 1) + (if In(rows[n - 1]) then [n - 1] else [])
  }

  function BandAt(o: Options, p: nat): Disposition {
    if p < o.recalledLimit then Recalled else if p < o.recalledLimit + o.familiarLimit then Familiar else Unranked
  }

  /** The first `n` contenders put in their bands. */
  function Banded(o: Options, rows: seq<Row>, order: seq<nat>, n: nat): seq<Row>
    requires n <= |order|
  {
    if n == 0 then rows
    else
      var before, i := Banded(o, rows, order, n - 1), order[n - 1];
      if i < |before| then before[i := before[i].(disposition := BandAt(o, n - 1))] else before
  }

  function BandOrder(d: Disposition): nat {
    match d
    case Recalled => 0
    case Familiar => 1
    case Unranked => 2
    case Excluded(_) => 3
  }

  predicate OutputBefore(a: Row, b: Row) {
    BandOrder(a.disposition) < BandOrder(b.disposition)
    || (BandOrder(a.disposition) == BandOrder(b.disposition) && a.score > b.score)
  }

  // ---------- The ranking ----------

  function Ranked(m: Memory, o: Options, hits: seq<Hit>): seq<Row> {
    var rows := Rows(m, o, hits, Distinct(hits));
    var gated := Gated(o, rows);
    var kept := Deduped(gated, |gated|);
    var order := Contenders(kept);
    Sort(Banded(o, kept, order, |order|), OutputBefore)
  }

  // ---------- Its guarantees ----------

  lemma SurvivorsAre(rows: seq<Row>, n: nat)
    requires n <= |rows|
    ensures forall i: nat :: i in Survivors(rows, n) <==> i < n && In(rows[i])
    ensures Unique(Survivors(rows, n))
  {
    if n > 0 {
      SurvivorsAre(rows, n - 1);
    }
  }

  lemma UniqueByCount(a: seq<nat>, b: seq<nat>)
    requires multiset(a) == multiset(b) && Unique(a)
    ensures Unique(b) && |a| == |b| && forall x :: x in a <==> x in b
  {
    assert |a| == |multiset(a)| == |multiset(b)| == |b|;
    forall x
      ensures x in a <==> x in b
    {
      assert x in multiset(a) <==> x in multiset(b);
    }
    forall i, j | 0 <= i < j < |b|
      ensures b[i] != b[j]
    {
      if b[i] == b[j] {
        TwiceCounts(b, i, j);
        OnceCounts(a, b[i]);
      }
    }
  }

  lemma TwiceCounts(s: seq<nat>, i: nat, j: nat)
    requires i < j < |s| && s[i] == s[j]
    ensures multiset(s)[s[i]] >= 2
  {
    assert s == s[..j] + [s[j]] + s[j + 1..];
    assert s[..j][i] == s[i];
    assert multiset(s) == multiset(s[..j]) + multiset{s[j]} + multiset(s[j + 1..]);
    assert s[i] in multiset(s[..j]);
  }

  lemma {:induction false} OnceCounts(s: seq<nat>, x: nat)
    requires Unique(s)
    ensures multiset(s)[x] <= 1
  {
    if s != [] {
      var n := |s| - 1;
      OnceCounts(s[..n], x);
      assert s == s[..n] + [s[n]];
      assert s[n] == x ==> x !in s[..n];
    }
  }

  ghost predicate OrderOf(rows: seq<Row>, order: seq<nat>) {
    && Unique(order) && (forall i: nat :: i in order <==> i < |rows| && In(rows[i]))
    && forall p, q :: 0 <= p < q < |order| ==> ScoreAt(rows, order[p]) >= ScoreAt(rows, order[q])
  }

  lemma ContendersOrdered(rows: seq<Row>)
    ensures OrderOf(rows, Contenders(rows))
  {
    var s := Survivors(rows, |rows|);
    SurvivorsAre(rows, |rows|);
    SortSorts(s, Higher(rows));
    UniqueByCount(s, Contenders(rows));
  }
}
