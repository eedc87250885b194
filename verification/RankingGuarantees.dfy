/** What the ranking promises about every hit. */
module RankingGuarantees {
  import opened Text
  import ClaimIdentity
  import opened ClaimStore
  import opened Sorting
  import opened Ranking

  // ---------- From the stages to the output ----------

  ghost predicate Inside(order: seq<nat>, bound: nat) {
    forall p :: 0 <= p < |order| ==> order[p] < bound
  }

  lemma OrderInside(rows: seq<Row>, order: seq<nat>)
    requires OrderOf(rows, order)
    ensures Inside(order, |rows|)
    ensures forall p :: 0 <= p < |order| ==> In(rows[order[p]])
  {
    forall p | 0 <= p < |order|
      ensures order[p] < |rows| && In(rows[order[p]])
    {
      assert order[p] in order;
    }
  }

  /** Banding touches the contenders only, each by its place. */
  lemma {:induction false} BandedAt(o: Options, rows: seq<Row>, order: seq<nat>, n: nat)
    requires n <= |order| && Unique(order) && Inside(order, |rows|)
    ensures |Banded(o, rows, order, n)| == |rows|
    ensures forall p :: 0 <= p < n ==>
              Banded(o, rows, order, n)[order[p]] == rows[order[p]].(disposition := BandAt(o, p))
    ensures forall i: nat :: i < |rows| && i !in order[..n] ==> Banded(o, rows, order, n)[i] == rows[i]
  {
    if n > 0 {
      BandedAt(o, rows, order, n - 1);
      assert order[..n] == order[..n - 1] + [order[n - 1]];
      assert order[n - 1] !in order[..n - 1];
    }
  }

  /** All stages before the final sort. */
  function Staged(m: Memory, o: Options, hits: seq<Hit>): seq<Row> {
    var gated := Gated(o, Rows(m, o, hits, Distinct(hits)));
    var kept := Deduped(gated, |gated|);
    Banded(o, kept, Contenders(kept), |Contenders(kept)|)
  }

  lemma OutputIsWeak()
    ensures Weak(OutputBefore)
  {
  }

  lemma RankedSorts(m: Memory, o: Options, hits: seq<Hit>)
    ensures multiset(Ranked(m, o, hits)) == multiset(Staged(m, o, hits))
    ensures Ordered(Ranked(m, o, hits), OutputBefore)
    ensures forall r :: r in Ranked(m, o, hits) <==> r in Staged(m, o, hits)
  {
    OutputIsWeak();
    SortSorts(Staged(m, o, hits), OutputBefore);
    forall r
      ensures r in Ranked(m, o, hits) <==> r in Staged(m, o, hits)
    {
      assert r in multiset(Ranked(m, o, hits)) <==> r in multiset(Staged(m, o, hits));
    }
  }

  /** Row `i` of the output stages, against the rows resolved and gated. */
  ghost predicate StagedRow(o: Options, gated: seq<Row>, i: nat, r: Row)
    requires i < |gated|
  {
    var g := gated[i];
    if g.disposition.Excluded? then r == g
    else if Beaten(gated, |gated|, i) then r == g.(disposition := Excluded(ByDuplicate))
    else In(r) && r == g.(disposition := r.disposition)
  }

  lemma StagedRows(m: Memory, o: Options, hits: seq<Hit>)
    ensures var gated := Gated(o, Rows(m, o, hits, Distinct(hits)));
            && |Staged(m, o, hits)| == |gated|
            && forall i :: 0 <= i < |gated| ==> StagedRow(o, gated, i, Staged(m, o, hits)[i])
  {
    hide Rows;
    var gated := Gated(o, Rows(m, o, hits, Distinct(hits)));
    var kept := Deduped(gated, |gated|);
    var order := Contenders(kept);
    ContendersOrdered(kept);
    hide Contenders, Beaten;
    OrderInside(kept, order);
    BandedAt(o, kept, order, |order|);
    assert order[..|order|] == order;
    forall i | 0 <= i < |gated|
      ensures StagedRow(o, gated, i, Staged(m, o, hits)[i])
    {
      if i in order {
        var p :| 0 <= p < |order| && order[p] == i;
        assert Staged(m, o, hits)[order[p]] == kept[i].(disposition := BandAt(o, p));
      }
    }
  }

  // ---------- Every hit in exactly one place ----------

  ghost predicate WasHit(hits: seq<Hit>, id: nat) {
    exists k :: 0 <= k < |hits| && hits[k].claimId == id
  }

  ghost predicate Placed(rows: seq<Row>, id: nat) {
    exists i :: 0 <= i < |rows| && rows[i].id == id
  }

  /** A hit that resolves has one row, with its claim and fused score; any other has vanished; nothing else appears. */
  lemma EveryHitPlacedOnce(m: Memory, o: Options, hits: seq<Hit>)
    ensures var out := Ranked(m, o, hits);
            && UniqueRows(out) && Unique(Vanished(m, Distinct(hits)))
            && (forall id: nat :: Placed(out, id) <==> WasHit(hits, id) && id < |m.claims|)
            && (forall id: nat :: id in Vanished(m, Distinct(hits)) <==> WasHit(hits, id) && id >= |m.claims|)
            && (forall r <- out ::
                r.id < |m.claims| && r.claim == m.claims[r.id] && r.score == FusedScore(m, o, hits, r.id)
                                   && r.demoted == (r.claim.status == Contradicted))
  {
    hide FusedScore, Staged, Rows, Distinct, Vanished, Ranked, Gated, UniqueRows, Placed;
    DistinctHits(hits);
    var ids := Distinct(hits);
    RowsCover(m, o, hits, ids);
    var rows, staged, out := Rows(m, o, hits, ids), Staged(m, o, hits), Ranked(m, o, hits);
    StagedAre(m, o, hits);
    RankedSorts(m, o, hits);
    SameIds(rows, staged, out);
    RowsPlaced(m, o, hits, rows);
    forall r | r in out
      ensures r.id < |m.claims| && r.claim == m.claims[r.id] && r.score == FusedScore(m, o, hits, r.id)
      ensures r.demoted == (r.claim.status == Contradicted)
    {
      var i :| 0 <= i < |staged| && staged[i] == r;
      assert rows[i] in rows;
    }
  }

  lemma StagedAre(m: Memory, o: Options, hits: seq<Hit>)
    ensures var rows, staged := Rows(m, o, hits, Distinct(hits)), Staged(m, o, hits);
            |staged| == |rows| && forall i :: 0 <= i < |rows| ==>
                  staged[i] == rows[i].(disposition := staged[i].disposition)
  {
    hide Rows, Staged, Distinct, Beaten, Gate;
    StagedRows(m, o, hits);
    var rows, staged := Rows(m, o, hits, Distinct(hits)), Staged(m, o, hits);
    forall i | 0 <= i < |rows|
      ensures staged[i] == rows[i].(disposition := staged[i].disposition)
    {
      assert StagedRow(o, Gated(o, rows), i, staged[i]);
    }
  }

  lemma RowsPlaced(m: Memory, o: Options, hits: seq<Hit>, rows: seq<Row>)
    requires forall r <- rows :: WasHit(hits, r.id) && r.id < |m.claims|
    requires forall id: nat :: WasHit(hits, id) && id < |m.claims| ==> RowOf(m, o, hits, id) in rows
    ensures forall id: nat :: Placed(rows, id) <==> WasHit(hits, id) && id < |m.claims|
  {
    hide WasHit, FusedScore;
    forall id: nat
      ensures Placed(rows, id) <==> WasHit(hits, id) && id < |m.claims|
    {
      if Placed(rows, id) {
        var i :| 0 <= i < |rows| && rows[i].id == id;
        assert rows[i] in rows;
      }
      if WasHit(hits, id) && id < |m.claims| {
        var i :| 0 <= i < |rows| && rows[i] == RowOf(m, o, hits, id);
      }
    }
  }

  lemma SameIds(rows: seq<Row>, staged: seq<Row>, out: seq<Row>)
    requires |staged| == |rows| && forall i :: 0 <= i < |rows| ==> staged[i].id == rows[i].id
    requires UniqueRows(rows) && multiset(out) == multiset(staged)
    ensures UniqueRows(out) && forall id: nat :: Placed(out, id) <==> Placed(rows, id)
  {
    forall id: nat
      ensures Placed(out, id) <==> Placed(rows, id)
    {
      if Placed(out, id) {
        var i :| 0 <= i < |out| && out[i].id == id;
        assert out[i] in multiset(staged);
        var j :| 0 <= j < |staged| && staged[j] == out[i];
        assert rows[j].id == id;
      }
      if Placed(rows, id) {
        var i :| 0 <= i < |rows| && rows[i].id == id;
        assert staged[i] in multiset(out);
        var j :| 0 <= j < |out| && out[j] == staged[i];
      }
    }
    UniqueIds(staged, out);
  }

  lemma WithoutOne(s: seq<Row>, t: seq<Row>, i: nat)
    requires multiset(s) == multiset(t) && s != [] && i < |t| && t[i] == s[|s| - 1]
    ensures multiset(s[..|s| - 1]) == multiset(t[..i] + t[i + 1..])
  {
    var x, rest := t[i], t[..i] + t[i + 1..];
    assert s == s[..|s| - 1] + [x];
    assert t == t[..i] + [x] + t[i + 1..];
    assert multiset(t) == multiset(rest) + multiset{x};
    assert multiset(s) == multiset(s[..|s| - 1]) + multiset{x};
    assert multiset(s[..|s| - 1]) == multiset(s) - multiset{x} == multiset(rest);
  }

  lemma {:induction false} UniqueIds(staged: seq<Row>, out: seq<Row>)
    requires UniqueRows(staged) && multiset(out) == multiset(staged)
    ensures UniqueRows(out)
    decreases |out|
  {
    if out != [] {
      var n := |out| - 1;
      var r := out[n];
      assert out == out[..n] + [r];
      assert r in multiset(staged);
      var i :| 0 <= i < |staged| && staged[i] == r;
      var rest := staged[..i] + staged[i + 1..];
      WithoutOne(out, staged, i);
      UniqueIds(rest, out[..n]);
      forall k | 0 <= k < n
        ensures out[k].id != r.id
      {
        assert out[..n][k] in multiset(rest);
        var j :| 0 <= j < |rest| && rest[j] == out[k];
        assert rest[j] == staged[if j < i then j else j + 1];
      }
    }
  }

  // ---------- Gates ----------

  /** A row is excluded by lens or gate exactly when its claim calls for it; nothing else keeps it in or out there. */
  lemma GatesHold(m: Memory, o: Options, hits: seq<Hit>)
    ensures forall r <- Ranked(m, o, hits) ::
              && (r.disposition == Excluded(ByLens) <==> r.claim.origin in o.exclude)
              && (r.disposition == Excluded(ByGate) <==>
                    r.claim.origin !in o.exclude && r.claim.confidence < o.gate && !r.claim.locked && !o.includeGated)
  {
    hide Rows, Distinct, Beaten, Staged, Ranked;
    StagedRows(m, o, hits);
    RankedSorts(m, o, hits);
    var gated, staged := Gated(o, Rows(m, o, hits, Distinct(hits))), Staged(m, o, hits);
    forall r | r in Ranked(m, o, hits)
      ensures r.disposition == Excluded(ByLens) <==> r.claim.origin in o.exclude
      ensures r.disposition == Excluded(ByGate) <==>
                r.claim.origin !in o.exclude && r.claim.confidence < o.gate && !r.claim.locked && !o.includeGated
    {
      var i :| 0 <= i < |staged| && staged[i] == r;
      assert StagedRow(o, gated, i, r);
      assert gated[i].disposition == Gate(o, gated[i].claim);
    }
  }

  // ---------- Duplicates ----------

  /** Some unbeaten row stands at or above any active row of its key. */
  lemma BestOfKey(rows: seq<Row>, i: nat) returns (b: nat)
    requires i < |rows| && In(rows[i])
    ensures b < |rows| && In(rows[b]) && KeyOf(rows[b].claim) == KeyOf(rows[i].claim)
    ensures !Beaten(rows, |rows|, b) && rows[b].score >= rows[i].score
  {
    hide KeyOf;
    b := i;
    var n := 0;
    while n < |rows|
      invariant 0 <= n <= |rows| && b < |rows| && In(rows[b]) && KeyOf(rows[b].claim) == KeyOf(rows[i].claim)
      invariant !Beaten(rows, n, b) && rows[b].score >= rows[i].score
    {
      if Beats(rows, n, b) {
        assert forall j :: 0 <= j < n && Beats(rows, j, n) ==> Beats(rows, j, b);
        b := n;
      }
      n := n + 1;
    }
  }

  /** Passed lens and gate. */
  predicate Admitted(r: Row) {
    In(r) || r.disposition == Excluded(ByDuplicate)
  }

  /** Among admitted rows of one triple and marker exactly the highest-scored survives. */
  lemma OneRowPerKey(m: Memory, o: Options, hits: seq<Hit>)
    ensures var out := Ranked(m, o, hits);
            && (forall r <- out, r' <- out ::
                In(r) && Admitted(r') && r.id != r'.id && KeyOf(r.claim) == KeyOf(r'.claim) ==>
                  r'.disposition == Excluded(ByDuplicate) && r'.score <= r.score)
            && (forall r <- out :: Admitted(r) ==> exists r' <- out :: In(r') && KeyOf(r'.claim) == KeyOf(r.claim))
  {
    hide Rows, Distinct, Staged, Ranked, KeyOf, Gate;
    StagedRows(m, o, hits);
    RankedSorts(m, o, hits);
    var gated, staged, out := Gated(o, Rows(m, o, hits, Distinct(hits))), Staged(m, o, hits), Ranked(m, o, hits);
    forall r, r' | r in out && r' in out && In(r) && Admitted(r') && r.id != r'.id && KeyOf(r.claim) == KeyOf(r'.claim)
      ensures r'.disposition == Excluded(ByDuplicate) && r'.score <= r.score
    {
      var i :| 0 <= i < |staged| && staged[i] == r;
      var j :| 0 <= j < |staged| && staged[j] == r';
      assert StagedRow(o, gated, i, r) && StagedRow(o, gated, j, r');
      GatedDispositions(o, Rows(m, o, hits, Distinct(hits)), i);
      GatedDispositions(o, Rows(m, o, hits, Distinct(hits)), j);
      OneBeats(gated, i, j);
    }
    forall r | r in out && Admitted(r)
      ensures exists r' <- out :: In(r') && KeyOf(r'.claim) == KeyOf(r.claim)
    {
      var i :| 0 <= i < |staged| && staged[i] == r;
      assert StagedRow(o, gated, i, r);
      GatedDispositions(o, Rows(m, o, hits, Distinct(hits)), i);
      var b := BestOfKey(gated, i);
      assert StagedRow(o, gated, b, staged[b]);
      assert staged[b] in out;
    }
  }

  lemma GatedDispositions(o: Options, rows: seq<Row>, i: nat)
    requires i < |rows|
    ensures Gated(o, rows)[i].disposition != Excluded(ByDuplicate)
  {
  }

  lemma OneBeats(rows: seq<Row>, i: nat, j: nat)
    requires i < |rows| && j < |rows| && i != j && In(rows[i]) && In(rows[j])
             && KeyOf(rows[i].claim) == KeyOf(rows[j].claim)
    requires !Beaten(rows, |rows|, i)
    ensures Beaten(rows, |rows|, j) && rows[j].score <= rows[i].score
  {
    hide KeyOf;
    assert !Beats(rows, j, i);
    assert Beats(rows, i, j);
  }

  // ---------- What counts as the same thing ----------

  /** The two claims say the same, letter case and outer white space aside. */
  predicate SayTheSame(a: Claim, b: Claim) {
    && Lower(Trim(a.triple.subj)) == Lower(Trim(b.triple.subj))
    && Lower(Trim(a.triple.pred)) == Lower(Trim(b.triple.pred))
    && Lower(Trim(a.triple.obj)) == Lower(Trim(b.triple.obj)) && a.negated == b.negated
  }

  predicate Barless(c: Claim) {
    '|' !in Lower(Trim(c.triple.subj)) && '|' !in Lower(Trim(c.triple.pred)) && '|' !in Lower(Trim(c.triple.obj))
  }

  /** Claims that say the same share the key; those that share it agree on the marker, and without bars say the same. */
  lemma KeyMeansSame(a: Claim, b: Claim)
    ensures SayTheSame(a, b) ==> KeyOf(a) == KeyOf(b)
    ensures KeyOf(a) == KeyOf(b) ==> a.negated == b.negated
    ensures KeyOf(a) == KeyOf(b) && Barless(a) ==> SayTheSame(a, b)
  {
    hide Lower, Trim;
    var x, y := Fields(a), Fields(b);
    KeyEnds(x, a.negated, y, b.negated);
    if KeyOf(a) == KeyOf(b) && Barless(a) {
      var t := a.triple;
      ClaimIdentity.KeyDeterminesFields(Lower(Trim(t.subj)), Lower(Trim(t.pred)), Lower(Trim(t.obj)));
    }
  }

  function Fields(c: Claim): string {
    ClaimIdentity.JoinKey(Lower(Trim(c.triple.subj)), Lower(Trim(c.triple.pred)), Lower(Trim(c.triple.obj)))
  }

  function Marked(fields: string, negated: bool): string {
    fields + "|" + (if negated then "negated" else "affirmed")
  }

  /** Neither marker ends the other's key. */
  lemma KeyEnds(x: string, n: bool, y: string, m: bool)
    ensures Marked(x, n) == Marked(y, m) ==> x == y && n == m
  {
    var k, l := Marked(x, n), Marked(y, m);
    assert k[|k| - 3] == if n then 't' else 'm';
    assert l[|l| - 3] == if m then 't' else 'm';
    assert k[..|x|] == x && l[..|y|] == y;
    assert n == m ==> |k| - |x| == |l| - |y|;
  }

  // ---------- Bands ----------

  function CountBand(rows: seq<Row>, b: nat): nat {
    if rows == [] then 0
    else CountBand(rows[..|rows| - 1], b) + (if BandOrder(rows[|rows| - 1].disposition) == b then 1 else 0)
  }

  lemma {:induction false} CountJoin(s: seq<Row>, t: seq<Row>, b: nat)
    ensures CountBand(s + t, b) == CountBand(s, b) + CountBand(t, b)
  {
    if t == [] {
      assert s + t == s;
    } else {
      assert (s + t)[..|s + t| - 1] == s + t[..|t| - 1];
      CountJoin(s, t[..|t| - 1], b);
    }
  }

  lemma CountOut(rows: seq<Row>, i: nat, b: nat)
    requires i < |rows|
    ensures CountBand(rows, b) ==
            CountBand(rows[..i] + rows[i + 1..], b) + (if BandOrder(rows[i].disposition) == b then 1 else 0)
  {
    assert rows == rows[..i] + [rows[i]] + rows[i + 1..];
    CountJoin(rows[..i], [rows[i]], b);
    CountJoin(rows[..i] + [rows[i]], rows[i + 1..], b);
    CountJoin(rows[..i], rows[i + 1..], b);
    assert [rows[i]][..0] == [];
  }

  lemma CountChange(rows: seq<Row>, i: nat, r: Row, b: nat)
    requires i < |rows|
    ensures CountBand(rows[i := r], b) + (if BandOrder(rows[i].disposition) == b then 1 else 0)
            == CountBand(rows, b) + (if BandOrder(r.disposition) == b then 1 else 0)
  {
    CountOut(rows, i, b);
    CountOut(rows[i := r], i, b);
    assert rows[i := r][..i] == rows[..i] && rows[i := r][i + 1..] == rows[i + 1..];
  }

  lemma {:induction false} CountPermuted(s: seq<Row>, t: seq<Row>, b: nat)
    requires multiset(s) == multiset(t)
    ensures CountBand(s, b) == CountBand(t, b)
    decreases |s|
  {
    if s == [] {
      assert multiset(t) == multiset{};
      assert |t| == |multiset(t)|;
    } else {
      var n := |s| - 1;
      assert s == s[..n] + [s[n]];
      assert s[n] in multiset(t);
      var i :| 0 <= i < |t| && t[i] == s[n];
      CountOut(t, i, b);
      WithoutOne(s, t, i);
      CountPermuted(s[..n], t[..i] + t[i + 1..], b);
    }
  }

  function Least(a: nat, b: nat): nat {
    if a <= b then a else b
  }

  lemma {:induction false} BandedCounts(o: Options, rows: seq<Row>, order: seq<nat>, n: nat)
    requires n <= |order| && Unique(order) && Inside(order, |rows|)
    requires forall p :: 0 <= p < |order| ==> rows[order[p]].disposition == Unranked
    requires forall i :: 0 <= i < |rows| ==> BandOrder(rows[i].disposition) >= 2
    ensures var r := Banded(o, rows, order, n);
            && CountBand(r, 0) == Least(n, o.recalledLimit)
            && CountBand(r, 1) == Least(n - Least(n, o.recalledLimit), o.familiarLimit)
  {
    assert Banded(o, rows, order, 0) == rows;
    hide CountBand, Banded, Unique;
    if n == 0 {
      NoBands(rows);
    } else {
      BandedCounts(o, rows, order, n - 1);
      BandedOne(o, rows, order, n);
      CountBoth(Banded(o, rows, order, n - 1), order[n - 1], BandAt(o, n - 1));
    }
  }

  /** Moving an unranked row into a band changes that band's count only. */
  lemma CountBoth(rows: seq<Row>, i: nat, d: Disposition)
    requires i < |rows| && rows[i].disposition == Unranked && !d.Excluded?
    ensures CountBand(rows[i := rows[i].(disposition := d)], 0) == CountBand(rows, 0) + (if d.Recalled? then 1 else 0)
    ensures CountBand(rows[i := rows[i].(disposition := d)], 1) == CountBand(rows, 1) + (if d.Familiar? then 1 else 0)
  {
    CountChange(rows, i, rows[i].(disposition := d), 0);
    CountChange(rows, i, rows[i].(disposition := d), 1);
    hide CountBand;
  }

  lemma BandedOne(o: Options, rows: seq<Row>, order: seq<nat>, n: nat)
    requires 0 < n <= |order| && Unique(order) && Inside(order, |rows|)
    ensures var before, i := Banded(o, rows, order, n - 1), order[n - 1];
            && i < |before| && i < |rows| && before[i] == rows[i]
            && Banded(o, rows, order, n) == before[i := before[i].(disposition := BandAt(o, n - 1))]
  {
    BandedAt(o, rows, order, n - 1);
    assert order[n - 1] !in order[..n - 1];
  }

  lemma {:induction false} NoBands(rows: seq<Row>)
    requires forall i :: 0 <= i < |rows| ==> BandOrder(rows[i].disposition) >= 2
    ensures CountBand(rows, 0) == 0 && CountBand(rows, 1) == 0
  {
    if rows != [] {
      NoBands(rows[..|rows| - 1]);
    }
  }

  /** Rows still in play before banding. */
  function Contending(m: Memory, o: Options, hits: seq<Hit>): nat {
    var gated := Gated(o, Rows(m, o, hits, Distinct(hits)));
    |Contenders(Deduped(gated, |gated|))|
  }

  /**
   * The output lists recalled, familiar, unranked and excluded rows in this order, each by falling score; the best
   * `recalledLimit` survivors are recalled and the next `familiarLimit` familiar; no row of a later band outscores
   * a survivor of an earlier one.
   */
  lemma BandsHold(m: Memory, o: Options, hits: seq<Hit>)
    ensures var out, n := Ranked(m, o, hits), Contending(m, o, hits);
            && Ordered(out, OutputBefore)
            && CountBand(out, 0) == Least(n, o.recalledLimit)
            && CountBand(out, 1) == Least(n - Least(n, o.recalledLimit), o.familiarLimit)
            && (forall r <- out, r' <- out ::
                In(r) && In(r') && BandOrder(r.disposition) < BandOrder(r'.disposition) ==>
                  r.score >= r'.score)
  {
    var gated := Gated(o, Rows(m, o, hits, Distinct(hits)));
    var kept := Deduped(gated, |gated|);
    KeptDispositions(o, Rows(m, o, hits, Distinct(hits)));
    RankedSorts(m, o, hits);
    ContendersOrdered(kept);
    hide Rows, Distinct, Deduped, Gated, Ranked, Contenders, Banded, CountBand;
    var order, staged, out := Contenders(kept), Staged(m, o, hits), Ranked(m, o, hits);
    OrderInside(kept, order);
    BandedCounts(o, kept, order, |order|);
    CountPermuted(out, staged, 0);
    CountPermuted(out, staged, 1);
    BandsOutscore(o, kept, order);
  }

  lemma BandsOutscore(o: Options, rows: seq<Row>, order: seq<nat>)
    requires OrderOf(rows, order)
    requires forall i :: 0 <= i < |rows| ==> BandOrder(rows[i].disposition) >= 2
    ensures var out := Banded(o, rows, order, |order|);
            forall r <- out, r' <- out :: In(r) && In(r') && BandOrder(r.disposition) < BandOrder(r'.disposition) ==>
                  r.score >= r'.score
  {
    hide Banded;
    var out := Banded(o, rows, order, |order|);
    forall r, r' | r in out && r' in out && In(r) && In(r') && BandOrder(r.disposition) < BandOrder(r'.disposition)
      ensures r.score >= r'.score
    {
      var p := PlaceOf(o, rows, order, r);
      var q := PlaceOf(o, rows, order, r');
      assert p < q;
    }
  }

  lemma KeptDispositions(o: Options, rows: seq<Row>)
    ensures var gated := Gated(o, rows);
            var kept := Deduped(gated, |gated|);
            forall i :: 0 <= i < |kept| ==> BandOrder(kept[i].disposition) >= 2
  {
    hide Beaten;
  }

  /** The place of a surviving output row among the contenders. */
  lemma PlaceOf(o: Options, rows: seq<Row>, order: seq<nat>, r: Row) returns (p: nat)
    requires OrderOf(rows, order) && r in Banded(o, rows, order, |order|) && In(r)
    requires forall i :: 0 <= i < |rows| ==> BandOrder(rows[i].disposition) >= 2
    ensures p < |order| && ScoreAt(rows, order[p]) == r.score && r.disposition == BandAt(o, p)
  {
    OrderInside(rows, order);
    BandedAt(o, rows, order, |order|);
    var banded := Banded(o, rows, order, |order|);
    var i :| 0 <= i < |banded| && banded[i] == r;
    assert order[..|order|] == order;
    assert i in order;
    p :| 0 <= p < |order| && order[p] == i;
    assert banded[order[p]] == rows[order[p]].(disposition := BandAt(o, p));
  }
}
