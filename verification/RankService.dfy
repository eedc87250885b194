/** The ranking as it runs: maps filled from the hits, then rows changed in place stage by stage. */
module RankServices {
  import opened ClaimStore
  import opened Sorting
  import opened Ranking
  import opened RankingGuarantees

  /** Hits grouped by claim, in order of first hit, and by surface. */
  method Merge(hits: seq<Hit>) returns (order: seq<nat>, bySurface: map<Surface, seq<nat>>)
    ensures order == Distinct(hits)
    ensures forall s :: (if s in bySurface then bySurface[s] else []) == Listed(hits, s)
  {
    order, bySurface := [], map[];
    var merged: map<nat, set<Surface>> := map[];
    var i := 0;
    while i < |hits|
      invariant 0 <= i <= |hits| && order == Distinct(hits[..i])
      invariant forall id :: id in merged <==> id in order
      invariant forall s :: (if s in bySurface then bySurface[s] else []) == Listed(hits[..i], s)
    {
      var hit := hits[i];
      assert hits[..i + 1][..i] == hits[..i];
      if hit.claimId !in merged {
        order := order + [hit.claimId];
      }
      merged := merged[hit.claimId := (if hit.claimId in merged then merged[hit.claimId] else {}) + {hit.surface}];
      bySurface :=
          bySurface[hit.surface := (if hit.surface in bySurface then bySurface[hit.surface] else []) + [hit.claimId]];
      i := i + 1;
    }
    assert hits[..i] == hits;
  }

  function Fuse(bySurface: map<Surface, seq<nat>>, id: nat): real {
    (if Lexical in bySurface then Share(bySurface[Lexical], id) else 0.0)
    + (if Semantic in bySurface then Share(bySurface[Semantic], id) else 0.0)
    + (if Associative in bySurface then Share(bySurface[Associative], id) else 0.0)
  }

  /** One row per claim that still exists. */
  method Resolve(m: Memory, o: Options, hits: seq<Hit>) returns (rows: seq<Row>, vanished: seq<nat>)
    ensures rows == Rows(m, o, hits, Distinct(hits)) && vanished == Vanished(m, Distinct(hits))
  {
    hide FusedScore, Distinct;
    var order, bySurface := Merge(hits);
    rows, vanished := [], [];
    var i := 0;
    while i < |order|
      invariant 0 <= i <= |order| && rows == Rows(m, o, hits, order[..i]) && vanished == Vanished(m, order[..i])
    {
      var id := order[i];
      assert order[..i + 1][..i] == order[..i];
      if id < |m.claims| {
        var row := ScoreRow(m, o, hits, bySurface, id);
        rows := rows + [row];
      } else {
        vanished := vanished + [id];
      }
      i := i + 1;
    }
    assert order[..i] == order;
  }

  method ScoreRow(m: Memory, o: Options, ghost hits: seq<Hit>, bySurface: map<Surface, seq<nat>>, id: nat)
    returns (row: Row)
    requires id < |m.claims| && forall s :: (if s in bySurface then bySurface[s] else []) == Listed(hits, s)
    ensures row == RowOf(m, o, hits, id)
  {
    hide Times, RecencyBoost, ReliabilityFactor, Listed;
    var claim := m.claims[id];
    assert Fuse(bySurface, id) == RrfFuse(hits, id) by { assert Share([], id) == 0.0; }
    OneIsNeutral();
    var fused := Times(Fuse(bySurface, id), RecencyBoost(m.age(id)));
    if claim.status == Contradicted {
      fused := Times(fused, CONTRADICTED_DEMOTE);
    }
    if claim.origin in o.downweight && o.downweight[claim.origin] != 1.0 {
      fused := Times(fused, o.downweight[claim.origin]);
    }
    if m.track(id).Some? && ReliabilityFactor(m.track(id).value) < 1.0 {
      fused := Times(fused, ReliabilityFactor(m.track(id).value));
    } else if m.track(id).Some? {
      ReliabilityRange(m.track(id).value);
    }
    if claim.activation.Some? && claim.activation.value > 0.0 {
      fused := Times(fused, 1.0 + ACTIVATION_RANK_WEIGHT * claim.activation.value);
    }
    row := Row(id, claim, fused, claim.status == Contradicted, Unranked);
  }

  lemma OneIsNeutral()
    ensures forall x :: Times(x, 1.0) == x
  {
  }

  /** Lens and gate, row by row. */
  method ApplyGates(o: Options, rows: array<Row>)
    modifies rows
    ensures rows[..] == Gated(o, old(rows[..]))
  {
    hide Gate;
    var i := 0;
    while i < rows.Length
      invariant 0 <= i <= rows.Length
      invariant forall k :: 0 <= k < i ==> rows[k] == old(rows[k]).(disposition := Gate(o, old(rows[k]).claim))
      invariant forall k :: i <= k < rows.Length ==> rows[k] == old(rows[k])
    {
      rows[i] := rows[i].(disposition := Gate(o, rows[i].claim));
      i := i + 1;
    }
  }

  /** The incumbents of the first `n` rows, by key. */
  ghost predicate Seen(was: seq<Row>, n: nat, seen: map<string, nat>)
    requires n <= |was|
  {
    && (forall k <- seen ::
        seen[k] < n && In(was[seen[k]]) && KeyOf(was[seen[k]].claim) == k && !Beaten(was, n, seen[k]))
    && (forall i: nat :: i < n && In(was[i]) ==> KeyOf(was[i].claim) in seen)
  }

  lemma BeatenThen(was: seq<Row>, n: nat, i: nat)
    requires n < |was| && i < |was|
    ensures Beaten(was, n + 1, i) <==> Beaten(was, n, i) || Beats(was, n, i)
  {
    hide Beats;
  }

  /** The incumbent stands above every other active row of its key. */
  lemma IncumbentBeats(was: seq<Row>, n: nat, seen: map<string, nat>, i: nat)
    requires n <= |was| && Seen(was, n, seen) && i < n && In(was[i])
    ensures var b := seen[KeyOf(was[i].claim)];
            i != b ==> Beaten(was, n, i) && was[i].score <= was[b].score
  {
    hide KeyOf;
    var b := seen[KeyOf(was[i].claim)];
    if i != b {
      assert !Beats(was, i, b);
      assert Beats(was, b, i);
    }
  }

  /** A row already excluded changes nothing. */
  lemma SeenOut(was: seq<Row>, n: nat, seen: map<string, nat>)
    requires n < |was| && Seen(was, n, seen) && !In(was[n])
    ensures Seen(was, n + 1, seen) && Deduped(was, n + 1) == Deduped(was, n)
  {
    hide KeyOf, Beaten;
    forall i: nat | i < |was|
      ensures Beaten(was, n + 1, i) == Beaten(was, n, i)
    {
      BeatenThen(was, n, i);
    }
  }

  /** The first row of its key becomes the incumbent. */
  lemma SeenNew(was: seq<Row>, n: nat, seen: map<string, nat>)
    requires n < |was| && Seen(was, n, seen) && In(was[n]) && KeyOf(was[n].claim) !in seen
    ensures Seen(was, n + 1, seen[KeyOf(was[n].claim) := n]) && Deduped(was, n + 1) == Deduped(was, n)
  {
    hide KeyOf;
    assert !Beaten(was, n, n);
    hide Beaten;
    forall i: nat | i <= n && In(was[i])
      ensures Beaten(was, n + 1, i) == Beaten(was, n, i)
    {
      BeatenThen(was, n, i);
    }
  }

  /** A higher score replaces the incumbent. */
  lemma SeenWins(was: seq<Row>, n: nat, seen: map<string, nat>)
    requires n < |was| && Seen(was, n, seen) && In(was[n]) && KeyOf(was[n].claim) in seen
    requires was[n].score > was[seen[KeyOf(was[n].claim)]].score
    ensures var b := seen[KeyOf(was[n].claim)];
            && Seen(was, n + 1, seen[KeyOf(was[n].claim) := n])
            && Deduped(was, n + 1) == Deduped(was, n)[b := was[b].(disposition := Excluded(ByDuplicate))]
  {
    hide KeyOf;
    var k := KeyOf(was[n].claim);
    var b := seen[k];
    forall i: nat | i < n && In(was[i])
      ensures i != b ==> Beaten(was, n + 1, i) == Beaten(was, n, i)
      ensures KeyOf(was[i].claim) == k ==> was[i].score <= was[b].score
    {
      BeatenThen(was, n, i);
      IncumbentBeats(was, n, seen, i);
    }
    assert !Beaten(was, n, n);
    BeatenThen(was, n, n);
    BeatenThen(was, n, b);
    hide Beaten;
  }

  /** Otherwise the incumbent stays. */
  lemma SeenLoses(was: seq<Row>, n: nat, seen: map<string, nat>)
    requires n < |was| && Seen(was, n, seen) && In(was[n]) && KeyOf(was[n].claim) in seen
    requires was[n].score <= was[seen[KeyOf(was[n].claim)]].score
    ensures Seen(was, n + 1, seen)
    ensures Deduped(was, n + 1) == Deduped(was, n)[n := was[n].(disposition := Excluded(ByDuplicate))]
  {
    hide KeyOf;
    var b := seen[KeyOf(was[n].claim)];
    assert Beats(was, b, n);
    forall i: nat | i < n && In(was[i])
      ensures Beaten(was, n + 1, i) == Beaten(was, n, i)
    {
      BeatenThen(was, n, i);
      IncumbentBeats(was, n, seen, i);
    }
    BeatenThen(was, n, n);
  }

  method ExcludeAt(rows: array<Row>, i: nat)
    requires i < rows.Length
    modifies rows
    ensures rows[..] == old(rows[..])[i := old(rows[i]).(disposition := Excluded(ByDuplicate))]
  {
    rows[i] := rows[i].(disposition := Excluded(ByDuplicate));
  }

  /** Near-duplicate suppression with one incumbent per key. */
  method Dedupe(rows: array<Row>)
    modifies rows
    ensures rows[..] == Deduped(old(rows[..]), rows.Length)
  {
    ghost var was := rows[..];
    var seen: map<string, nat> := map[];
    var n := 0;
    assert Deduped(was, 0) == was && Seen(was, 0, seen);
    hide Deduped, KeyOf, Seen, In;
    while n < rows.Length
      invariant 0 <= n <= rows.Length && |was| == rows.Length
      invariant rows[..] == Deduped(was, n) && Seen(was, n, seen)
    {
      UndedupedYet(was, n, seen, KeyOf(was[n].claim));
      assert rows[n] == rows[..][n] == was[n];
      var k := KeyOf(rows[n].claim);
      if !In(rows[n]) {
        SeenOut(was, n, seen);
      } else {
        if k !in seen {
          SeenNew(was, n, seen);
          seen := seen[k := n];
        } else if rows[n].score > rows[seen[k]].score {
          assert rows[seen[k]] == rows[..][seen[k]] == was[seen[k]];
          SeenWins(was, n, seen);
          ExcludeAt(rows, seen[k]);
          seen := seen[k := n];
        } else {
          assert rows[seen[k]] == rows[..][seen[k]] == was[seen[k]];
          SeenLoses(was, n, seen);
          ExcludeAt(rows, n);
        }
      }
      n := n + 1;
    }
  }

  /** The row at hand and the incumbent of a key are still as they were. */
  lemma UndedupedYet(was: seq<Row>, n: nat, seen: map<string, nat>, k: string)
    requires n < |was| && Seen(was, n, seen)
    ensures Deduped(was, n)[n] == was[n]
    ensures k in seen ==> seen[k] < |was| && Deduped(was, n)[seen[k]] == was[seen[k]]
  {
    hide Beaten;
  }

  /** The best survivors into the two bands. */
  method AssignBands(o: Options, rows: array<Row>)
    modifies rows
    ensures rows[..] == Banded(o, old(rows[..]), Contenders(old(rows[..])), |Contenders(old(rows[..]))|)
  {
    hide Contenders;
    ghost var was := rows[..];
    var order := Contenders(rows[..]);
    ContendersOrdered(rows[..]);
    OrderInside(was, order);
    var p := 0;
    while p < |order|
      invariant 0 <= p <= |order| && rows[..] == Banded(o, was, order, p) && |was| == rows.Length
    {
      var i := order[p];
      rows[i] := rows[i].(disposition := BandAt(o, p));
      p := p + 1;
    }
  }

  method Rank(m: Memory, o: Options, hits: seq<Hit>) returns (ranked: seq<Row>, vanished: seq<nat>)
    ensures ranked == Ranked(m, o, hits) && vanished == Vanished(m, Distinct(hits))
  {
    hide Rows, Distinct, Vanished, Gated, Deduped, Contenders, Banded;
    var found;
    found, vanished := Resolve(m, o, hits);
    var rows := new Row[|found|](i requires 0 <= i < |found| => found[i]);
    assert rows[..] == found;
    ApplyGates(o, rows);
    Dedupe(rows);
    AssignBands(o, rows);
    ranked := Sort(rows[..], OutputBefore);
  }
}
