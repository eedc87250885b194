/** The memory band of a prompt and the loop that shrinks it into its budget. */
module PromptBands {
  import opened Wrappers
  import opened Text
  import opened Sorting
  import opened Ranking
  import RankingGuarantees

  /** How rows and counts are worded; the wording itself is presentation. */
  datatype Wording = Wording(recalled: Row -> string, familiar: Row -> string, header: nat -> string)

  datatype Budgeted = Budgeted(kept: seq<Row>, dropped: seq<nat>, band: Option<string>)

  const FAMILIAR_LABEL := "[vaguely familiar \U{2014} uncertain, not verified]: "

  function EstimateTokens(text: string): nat {
    var quarters := (UnitLength(text) + 3) / 4;
    if quarters > 1 then quarters else 1
  }

  // ---------- The band ----------

  predicate Is(r: Row, d: Disposition) {
    r.disposition == d
  }

  function At(d: Disposition): Row -> bool {
    (r: Row) => Is(r, d)
  }

  function NotIn(ids: seq<nat>): Row -> bool {
    (r: Row) => r.id !in ids
  }

  function Other(id: nat): Row -> bool {
    (r: Row) => r.id != id
  }

  function Filter(rows: seq<Row>, keep: Row -> bool): seq<Row> {
    if rows == [] then []
    else Filter(rows[..|rows| - 1], keep) + (if keep(rows[|rows| - 1]) then [rows[|rows| - 1]] else [])
  }

  function Join(parts: seq<string>, separator: string): string {
    if parts == [] then ""
    else if |parts| == 1 then parts[0]
    else Join(parts[..|parts| - 1], separator) + separator + parts[|parts| - 1]
  }

  function Worded(rows: seq<Row>, word: Row -> string): seq<string> {
    seq(|rows|, i requires 0 <= i < |rows| => word(rows[i]))
  }

  /** Recalled lines under their header, every note, then the near-misses on one line. */
  function Lines(w: Wording, rows: seq<Row>, notes: seq<string>): seq<string> {
    var recalled := Filter(rows, At(Recalled));
    var familiar := Filter(rows, At(Familiar));
    (if recalled == [] then [] else [w.header(|recalled|)] + Worded(recalled, w.recalled))
    + notes
    + (if familiar == [] then [] else [FAMILIAR_LABEL + Join(Worded(familiar, w.familiar), "; ")])
  }

  function Band(w: Wording, rows: seq<Row>, notes: seq<string>): Option<string> {
    var lines := Lines(w, rows, notes);
    if lines == [] then None else Some(Join(lines, "\n"))
  }

  // ---------- Shrinking ----------

  predicate Droppable(r: Row) {
    Is(r, Familiar) || r.demoted || Is(r, Recalled)
  }

  /** Familiar rows go first, then demoted ones, then plain recalled ones. */
  function Class(r: Row): nat {
    if Is(r, Familiar) then 0 else if r.demoted then 1 else 2
  }

  function Priority(r: Row): real {
    Class(r) as real * 1_000_000.0 + r.score
  }

  predicate Lower(a: Row, b: Row) {
    Priority(a) < Priority(b)
  }

  predicate Over(w: Wording, rows: seq<Row>, notes: seq<string>, maxTokens: int) {
    var band := Band(w, rows, notes);
    band.Some? && EstimateTokens(band.value) > maxTokens
  }

  /** The rows left after dropping some ids. */
  function Without(rows: seq<Row>, ids: seq<nat>): seq<Row> {
    Filter(rows, NotIn(ids))
  }

  function Candidates(rows: seq<Row>): seq<Row> {
    Filter(rows, Droppable)
  }

  /** The row dropped next: the first of the least priority. */
  function Victim(rows: seq<Row>): Option<Row> {
    var candidates := Sort(Candidates(rows), Lower);
    if candidates == [] then None else Some(candidates[0])
  }

  lemma {:induction false} FilterIn(rows: seq<Row>, keep: Row -> bool)
    ensures forall r :: r in Filter(rows, keep) <==> r in rows && keep(r)
    ensures |Filter(rows, keep)| <= |rows|
    ensures |Filter(rows, keep)| == |rows| ==> forall r <- rows :: keep(r)
  {
    if rows != [] {
      var n := |rows| - 1;
      FilterIn(rows[..n], keep);
      assert rows == rows[..n] + [rows[n]];
    }
  }

  /** The victim is droppable and of least priority among those that are; there is none only if no row is droppable. */
  lemma VictimIsLeast(rows: seq<Row>)
    ensures Victim(rows).None? ==> forall r <- rows :: !Droppable(r)
    ensures Victim(rows).Some? ==>
              var v := Victim(rows).value;
              v in rows && Droppable(v) && forall r <- rows :: Droppable(r) ==> Priority(v) <= Priority(r)
  {
    FilterIn(rows, Droppable);
    hide Priority;
    var c := Candidates(rows);
    SortSorts(c, Lower);
    if c != [] {
      FirstIsLeast(c, Lower);
    }
  }

  // ---------- What the loop reaches ----------

  /** Ids dropped one after the other, each a victim while the band was still too long. */
  ghost predicate Shrinks(w: Wording, rows: seq<Row>, notes: seq<string>, maxTokens: int, dropped: seq<nat>) {
    forall k :: 0 <= k < |dropped| ==> DropsNext(w, rows, notes, maxTokens, dropped, k)
  }

  ghost predicate DropsNext(w: Wording, rows: seq<Row>, notes: seq<string>, maxTokens: int, dropped: seq<nat>, k: nat)
    requires k < |dropped|
  {
    var left := Without(rows, dropped[..k]);
    Over(w, left, notes, maxTokens) && Victim(left).Some? && Victim(left).value.id == dropped[k]
  }

  lemma {:induction false} WithoutOne(rows: seq<Row>, ids: seq<nat>, id: nat)
    ensures Filter(Without(rows, ids), Other(id)) == Without(rows, ids + [id])
  {
    hide Filter;
    if rows == [] {
      NothingToFilter(NotIn(ids));
      NothingToFilter(NotIn(ids + [id]));
      NothingToFilter(Other(id));
    } else {
      var front, last := rows[..|rows| - 1], rows[|rows| - 1];
      assert rows == front + [last];
      WithoutOne(front, ids, id);
      FilterJoin(front, last, NotIn(ids));
      FilterJoin(front, last, NotIn(ids + [id]));
      var left := Without(front, ids);
      FilterJoin(left, last, Other(id));
      assert left + [] == left;
      assert Without(rows, ids) == if last.id in ids then left else left + [last];
      assert Without(front, ids + [id]) + [] == Without(front, ids + [id]);
    }
  }

  lemma NothingToFilter(keep: Row -> bool)
    ensures Filter([], keep) == []
  {
  }

  lemma FilterJoin(rows: seq<Row>, r: Row, keep: Row -> bool)
    ensures Filter(rows + [r], keep) == Filter(rows, keep) + (if keep(r) then [r] else [])
  {
    assert (rows + [r])[..|rows|] == rows;
  }

  lemma {:induction false} NothingDropped(rows: seq<Row>)
    ensures Without(rows, []) == rows
  {
    if rows != [] {
      NothingDropped(rows[..|rows| - 1]);
      assert rows == rows[..|rows| - 1] + [rows[|rows| - 1]];
    }
  }

  /**
   * The loop ends with no band, a band that fits, or nothing left to drop; it dropped one least-priority row at a
   * time and only while the band was too long, and keeps all other rows in their order.
   */
  method ApplyBandBudget(w: Wording, ranked: seq<Row>, notes: seq<string>, maxTokens: int) returns (r: Budgeted)
    ensures r.kept == Without(ranked, r.dropped) && r.band == Band(w, r.kept, notes)
    ensures Shrinks(w, ranked, notes, maxTokens, r.dropped)
    ensures || r.band.None? || EstimateTokens(r.band.value) <= maxTokens
            || forall row <- r.kept :: row.disposition !in {Familiar, Recalled} && !row.demoted
  {
    hide Band, EstimateTokens, Victim, Without, Filter;
    var kept, dropped: seq<nat> := ranked, [];
    var band := Band(w, kept, notes);
    NothingDropped(ranked);
    while band.Some? && EstimateTokens(band.value) > maxTokens
      invariant kept == Without(ranked, dropped) && band == Band(w, kept, notes)
      invariant Shrinks(w, ranked, notes, maxTokens, dropped)
      decreases |kept|
    {
      VictimIsLeast(kept);
      var victim := Victim(kept);
      if victim.None? {
        break;
      }
      var id := victim.value.id;
      FilterIn(kept, Other(id));
      WithoutOne(ranked, dropped, id);
      Extends(w, ranked, notes, maxTokens, dropped, id);
      kept := Filter(kept, Other(id));
      dropped := dropped + [id];
      band := Band(w, kept, notes);
    }
    r := Budgeted(kept, dropped, band);
  }

  lemma Extends(w: Wording, rows: seq<Row>, notes: seq<string>, maxTokens: int, dropped: seq<nat>, id: nat)
    requires Shrinks(w, rows, notes, maxTokens, dropped)
    requires var left := Without(rows, dropped);
             Over(w, left, notes, maxTokens) && Victim(left).Some? && Victim(left).value.id == id
    ensures Shrinks(w, rows, notes, maxTokens, dropped + [id])
  {
    hide Over, Victim, Without;
    var all := dropped + [id];
    forall k | 0 <= k < |all|
      ensures DropsNext(w, rows, notes, maxTokens, all, k)
    {
      assert all[..k] == (if k < |dropped| then dropped[..k] else dropped);
      if k < |dropped| {
        assert DropsNext(w, rows, notes, maxTokens, dropped, k);
      }
    }
  }

  // ---------- Conservation and order ----------

  ghost predicate OneRowPerId(rows: seq<Row>) {
    forall a <- rows, b <- rows :: a.id == b.id ==> a == b
  }

  /** The row that gave the `k`-th dropped id. */
  lemma DroppedRow(w: Wording, rows: seq<Row>, notes: seq<string>, maxTokens: int, dropped: seq<nat>, k: nat)
    returns (v: Row)
    requires Shrinks(w, rows, notes, maxTokens, dropped) && k < |dropped|
    ensures v.id == dropped[k] && v in rows && Droppable(v) && v.id !in dropped[..k]
    ensures forall r <- rows :: r.id !in dropped[..k] && Droppable(r) ==> Priority(v) <= Priority(r)
  {
    hide Over, Priority, Victim;
    assert DropsNext(w, rows, notes, maxTokens, dropped, k);
    var left := Without(rows, dropped[..k]);
    v := Victim(left).value;
    VictimIsLeast(left);
    FilterIn(rows, NotIn(dropped[..k]));
  }

  /** Kept and dropped share out the input: every row is either kept or named once among the dropped. */
  lemma KeptAndDroppedPartition(w: Wording, rows: seq<Row>, notes: seq<string>, maxTokens: int, dropped: seq<nat>)
    requires Shrinks(w, rows, notes, maxTokens, dropped)
    ensures Unique(dropped)
    ensures forall r :: r in Without(rows, dropped) <==> r in rows && r.id !in dropped
    ensures forall id <- dropped :: exists r <- rows :: r.id == id && Droppable(r)
  {
    hide Priority;
    FilterIn(rows, NotIn(dropped));
    forall i, j | 0 <= i < j < |dropped|
      ensures dropped[i] != dropped[j]
    {
      var v := DroppedRow(w, rows, notes, maxTokens, dropped, j);
      assert dropped[..j][i] == dropped[i];
    }
    forall id | id in dropped
      ensures exists r <- rows :: r.id == id && Droppable(r)
    {
      var k :| 0 <= k < |dropped| && dropped[k] == id;
      var v := DroppedRow(w, rows, notes, maxTokens, dropped, k);
    }
  }

  /** With one row per id, rows drop by rising priority. */
  lemma DropsByPriority(w: Wording, rows: seq<Row>, notes: seq<string>, maxTokens: int, dropped: seq<nat>, i: nat,
                        j: nat, a: Row, b: Row)
    requires Shrinks(w, rows, notes, maxTokens, dropped) && OneRowPerId(rows) && i < j < |dropped|
    requires a in rows && b in rows && a.id == dropped[i] && b.id == dropped[j]
    ensures Priority(a) <= Priority(b)
  {
    hide Priority;
    var v := DroppedRow(w, rows, notes, maxTokens, dropped, i);
    var u := DroppedRow(w, rows, notes, maxTokens, dropped, j);
    assert b == u && a == v;
    assert forall k :: 0 <= k < i ==> dropped[..j][k] == dropped[..i][k];
    assert b.id !in dropped[..i];
  }

  /** Row `a` may go before row `b`: familiar rows first, then demoted ones, then the rest, each by rising score. */
  predicate GoesBefore(a: Row, b: Row) {
    if b.disposition == Familiar then a.disposition == Familiar && a.score <= b.score
    else if b.demoted then a.disposition == Familiar || (a.demoted && a.score <= b.score)
    else a.disposition == Familiar || a.demoted || a.score <= b.score
  }

  lemma PriorityOrders(a: Row, b: Row)
    requires 0.0 <= a.score < 1_000_000.0 && 0.0 <= b.score < 1_000_000.0
    ensures Priority(a) <= Priority(b) <==> GoesBefore(a, b)
  {
  }

  /** Scores below a million never outweigh the kind of row: every row drops before all that may not go before it. */
  lemma DropsInOrder(w: Wording, rows: seq<Row>, notes: seq<string>, maxTokens: int, dropped: seq<nat>, i: nat, j: nat,
                     a: Row, b: Row)
    requires Shrinks(w, rows, notes, maxTokens, dropped) && OneRowPerId(rows) && i < j < |dropped|
    requires a in rows && b in rows && a.id == dropped[i] && b.id == dropped[j]
    requires forall r <- rows :: 0.0 <= r.score < 1_000_000.0
    ensures GoesBefore(a, b)
  {
    hide Shrinks, Priority, GoesBefore;
    DropsByPriority(w, rows, notes, maxTokens, dropped, i, j, a, b);
    PriorityOrders(a, b);
  }

  /** A row is dropped only once every row that must go before it is gone. */
  lemma NoneSkipped(w: Wording, rows: seq<Row>, notes: seq<string>, maxTokens: int, dropped: seq<nat>, k: nat,
                    a: Row, r: Row)
    requires Shrinks(w, rows, notes, maxTokens, dropped) && OneRowPerId(rows) && k < |dropped|
    requires a in rows && a.id == dropped[k] && r in rows && !GoesBefore(a, r)
    requires r.disposition == Familiar || r.disposition == Recalled || r.demoted
    requires forall x <- rows :: 0.0 <= x.score < 1_000_000.0
    ensures r.id in dropped[..k]
  {
    hide Shrinks, Priority, GoesBefore;
    var v := DroppedRow(w, rows, notes, maxTokens, dropped, k);
    PriorityOrders(a, r);
  }

  /** Of the rows ranking produces every familiar one goes before any demoted one, and those before any plain one. */
  lemma RankedRowsDropInOrder(m: Memory, o: Options, hits: seq<Hit>, w: Wording, notes: seq<string>, maxTokens: int,
                              dropped: seq<nat>, i: nat, j: nat, a: Row, b: Row)
    requires InRange(m, o) && Shrinks(w, Ranked(m, o, hits), notes, maxTokens, dropped) && i < j < |dropped|
    requires a in Ranked(m, o, hits) && b in Ranked(m, o, hits) && a.id == dropped[i] && b.id == dropped[j]
    ensures GoesBefore(a, b)
  {
    hide Ranked, FusedScore, Shrinks, InRange, GoesBefore;
    var rows := Ranked(m, o, hits);
    RankingGuarantees.EveryHitPlacedOnce(m, o, hits);
    assert OneRowPerId(rows) by {
      forall x, y | x in rows && y in rows && x.id == y.id
        ensures x == y
      {
        var k, l :| 0 <= k < |rows| && 0 <= l < |rows| && rows[k] == x && rows[l] == y;
      }
    }
    forall r | r in rows
      ensures 0.0 <= r.score < 1_000_000.0
    {
      ScoreRange(m, o, hits, r.id);
    }
    DropsInOrder(w, rows, notes, maxTokens, dropped, i, j, a, b);
  }

  /** A band is charged one token for every four units of its length, rounded up, and one at least. */
  lemma ChargeIsCeiling(text: string)
    ensures var n := EstimateTokens(text);
            n >= 1 && 4 * n >= UnitLength(text) && (n > 1 ==> 4 * (n - 1) < UnitLength(text))
  {
  }

  /** The band is silent exactly when nothing is recalled, noted or familiar. */
  lemma BandIsSilent(w: Wording, rows: seq<Row>, notes: seq<string>)
    ensures Band(w, rows, notes).None? <==> notes == [] && forall r <- rows :: !Is(r, Recalled) && !Is(r, Familiar)
  {
    var recalled, familiar := Filter(rows, At(Recalled)), Filter(rows, At(Familiar));
    FilterIn(rows, At(Recalled));
    FilterIn(rows, At(Familiar));
    if recalled != [] {
      assert recalled[0] in recalled;
    }
    if familiar != [] {
      assert familiar[0] in familiar;
    }
  }

  function HowMany(rows: seq<Row>, d: Disposition): nat {
    if rows == [] then 0 else HowMany(rows[..|rows| - 1], d) + (if rows[|rows| - 1].disposition == d then 1 else 0)
  }

  lemma {:induction false} FilterCounts(rows: seq<Row>, d: Disposition)
    ensures |Filter(rows, At(d))| == HowMany(rows, d)
  {
    if rows != [] {
      FilterCounts(rows[..|rows| - 1], d);
    }
  }

  /**
   * The lines of a band: a header that counts the recalled rows, their wordings, every note, and one line for all
   * near-misses; nothing else.
   */
  lemma BandSays(w: Wording, rows: seq<Row>, notes: seq<string>)
    ensures var lines, n, f := Lines(w, rows, notes), HowMany(rows, Recalled), HowMany(rows, Familiar);
            var head := if n == 0 then 0 else n + 1;
            && |lines| == head + |notes| + (if f == 0 then 0 else 1)
            && (n > 0 ==> lines[0] == w.header(n))
            && (forall r <- rows :: r.disposition == Recalled ==> w.recalled(r) in lines)
            && lines[head..head + |notes|] == notes
            && (f > 0 ==> FAMILIAR_LABEL <= lines[|lines| - 1])
  {
    hide Filter;
    FilterCounts(rows, Recalled);
    FilterCounts(rows, Familiar);
    FilterIn(rows, At(Recalled));
    var recalled := Filter(rows, At(Recalled));
    forall r | r in rows && r.disposition == Recalled
      ensures w.recalled(r) in Lines(w, rows, notes)
    {
      var k :| 0 <= k < |recalled| && recalled[k] == r;
      assert Worded(recalled, w.recalled)[k] == w.recalled(r);
      assert Lines(w, rows, notes)[k + 1] == w.recalled(r);
    }
  }
}
