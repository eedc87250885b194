/** The cumulative drift alarm: kept up incrementally, and equal to a recomputation over the whole history. */
module DriftAlarm {
  import opened Sorting

  const TREND_LIMIT: nat := 50

  type Time = nat

  datatype ChangeType = SemanticDrift | CumulativeSemanticDrift

  datatype Trend = Trend(record: string, cycle: nat, signal: real)

  /** What a log id is made of. */
  datatype LogId = LogId(user: string, subject: string, changeType: ChangeType, at: Time)

  datatype Finding = Finding(id: LogId, reviewed: bool)

  datatype Store = Store(trends: seq<Trend>, log: seq<Finding>)

  /** Floor and streak length the alarm is configured with. */
  datatype Policy = Policy(floor: real, minCycles: nat)

  // ---------- Trends ----------

  function Max(a: nat, b: nat): nat {
    if a >= b then a else b
  }

  function LastCycle(trends: seq<Trend>, record: string): nat {
    if trends == [] then 0
    else
      var t := trends[|trends| - 1];
      Max(LastCycle(trends[..|trends| - 1], record), if t.record == record then t.cycle else 0)
  }

  function RecordTrend(trends: seq<Trend>, record: string, signal: real): seq<Trend> {
    trends + [Trend(record, LastCycle(trends, record) + 1, signal)]
  }

  /** The record's trends in the order they were written. */
  function History(trends: seq<Trend>, record: string): seq<Trend> {
    if trends == [] then []
    else
      var t := trends[|trends| - 1];
      History(trends[..|trends| - 1], record) + (if t.record == record then [t] else [])
  }

  predicate LaterCycle(a: Trend, b: Trend) {
    a.cycle > b.cycle
  }

  /** The newest review cycles first, at most `limit`. */
  function ListTrends(trends: seq<Trend>, record: string, limit: nat): seq<Trend> {
    var all := Sort(History(trends, record), LaterCycle);
    if |all| <= limit then all else all[..limit]
  }

  /** How many of the listed trends, from the first, stay at or above the floor. */
  function Elevated(listed: seq<Trend>, floor: real): nat {
    if listed == [] || listed[0].signal < floor then 0 else 1 + Elevated(listed[1..], floor)
  }

  // ---------- Findings ----------

  predicate Matches(f: Finding, user: string, subject: string, t: ChangeType) {
    f.id.user == user && f.id.subject == subject && f.id.changeType == t && !f.reviewed
  }

  predicate HasUnresolved(log: seq<Finding>, user: string, subject: string, t: ChangeType) {
    exists i :: 0 <= i < |log| && Matches(log[i], user, subject, t)
  }

  function ResolveDrift(log: seq<Finding>, user: string, subject: string, t: ChangeType): seq<Finding> {
    seq(|log|, i requires 0 <= i < |log| =>
        if Matches(log[i], user, subject, t) then log[i].(reviewed := true) else log[i])
  }

  /** An id already in the log is left alone. */
  function LogDrift(log: seq<Finding>, id: LogId): seq<Finding> {
    if exists i :: 0 <= i < |log| && log[i].id == id then log else log + [Finding(id, false)]
  }

  function LogOnce(log: seq<Finding>, id: LogId): seq<Finding> {
    if HasUnresolved(log, id.user, id.subject, id.changeType) then log else LogDrift(log, id)
  }

  function Subject(record: string): string {
    "record:" + record
  }

  // ---------- One evaluation ----------

  function DetectCumulative(p: Policy, s: Store, user: string, record: string, now: Time): Store {
    var listed := ListTrends(s.trends, record, TREND_LIMIT);
    if Elevated(listed, p.floor) < p.minCycles then
      if (if listed == [] then 0.0 else listed[0].signal) < p.floor
      then s.(log := ResolveDrift(s.log, user, Subject(record), CumulativeSemanticDrift)) else s
    else s.(log := LogOnce(s.log, LogId(user, Subject(record), CumulativeSemanticDrift, now)))
  }

  function Evaluate(p: Policy, s: Store, user: string, record: string, signal: real, now: Time): Store {
    var detected := DetectCumulative(p, s.(trends := RecordTrend(s.trends, record, signal)), user, record, now);
    if signal < p.floor then detected
    else detected.(log := LogOnce(detected.log, LogId(user, Subject(record), SemanticDrift, now)))
  }

  datatype Evaluation = Evaluation(record: string, signal: real, at: Time)

  function After(p: Policy, user: string, evals: seq<Evaluation>): Store {
    if evals == [] then Store([], [])
    else
      var e := evals[|evals| - 1];
      Evaluate(p, After(p, user, evals[..|evals| - 1]), user, e.record, e.signal, e.at)
  }

  // ---------- The recomputation ----------

  /** The newest consecutive cycles at or above the floor, over the whole history. */
  function Streak(evals: seq<Evaluation>, record: string, floor: real): nat {
    if evals == [] then 0
    else
      var e, rest := evals[|evals| - 1], evals[..|evals| - 1];
      if e.record != record then Streak(rest, record, floor)
      else if e.signal < floor then 0 else 1 + Streak(rest, record, floor)
  }

  predicate Evaluated(evals: seq<Evaluation>, record: string) {
    exists i :: 0 <= i < |evals| && evals[i].record == record
  }

  /** Unresolved findings of one kind on one record. */
  function Open(log: seq<Finding>, user: string, subject: string, t: ChangeType): nat {
    if log == [] then 0
    else Open(log[..|log| - 1], user, subject, t) + (if Matches(log[|log| - 1], user, subject, t) then 1 else 0)
  }

  // ---------- Trends are listed newest first ----------

  /** Cycles count up from one. */
  ghost predicate Numbered(h: seq<Trend>) {
    forall i :: 0 <= i < |h| ==> h[i].cycle == i + 1
  }

  lemma {:induction false} CyclesCount(trends: seq<Trend>, record: string)
    requires Numbered(History(trends, record))
    ensures LastCycle(trends, record) == |History(trends, record)|
  {
    if trends != [] {
      var n := |trends| - 1;
      var h := History(trends[..n], record);
      assert forall i :: 0 <= i < |h| ==> History(trends, record)[i] == h[i];
      CyclesCount(trends[..n], record);
      if trends[n].record == record {
        assert History(trends, record)[|h|].cycle == |h| + 1;
      }
    }
  }

  lemma RecordedHistory(trends: seq<Trend>, record: string, signal: real, other: string)
    ensures History(RecordTrend(trends, record, signal), other) ==
            History(trends, other)
                + (if other == record then [Trend(record, LastCycle(trends, record) + 1, signal)] else [])
  {
    assert RecordTrend(trends, record, signal)[..|trends|] == trends;
  }

  function Reversed(h: seq<Trend>): seq<Trend> {
    if h == [] then [] else [h[|h| - 1]] + Reversed(h[..|h| - 1])
  }

  lemma {:induction false} InsertFirst(s: seq<Trend>, x: Trend)
    requires forall i :: 0 <= i < |s| ==> LaterCycle(x, s[i])
    ensures Insert(s, x, LaterCycle) == [x] + s
  {
    if s != [] {
      InsertFirst(s[..|s| - 1], x);
      assert s == s[..|s| - 1] + [s[|s| - 1]];
    }
  }

  lemma {:induction false} SortReverses(h: seq<Trend>)
    requires Numbered(h)
    ensures Sort(h, LaterCycle) == Reversed(h)
    ensures |Reversed(h)| == |h| && forall i :: 0 <= i < |h| ==> Reversed(h)[i].cycle == |h| - i
  {
    if h != [] {
      var n := |h| - 1;
      SortReverses(h[..n]);
      InsertFirst(Reversed(h[..n]), h[n]);
    }
  }

  /** The streak read off the history. */
  function HistoryStreak(h: seq<Trend>, floor: real): nat {
    if h == [] || h[|h| - 1].signal < floor then 0 else 1 + HistoryStreak(h[..|h| - 1], floor)
  }

  function Least(a: nat, b: nat): nat {
    if a <= b then a else b
  }

  lemma {:induction false} ElevatedTake(s: seq<Trend>, floor: real, limit: nat)
    ensures Elevated(if |s| <= limit then s else s[..limit], floor) == Least(Elevated(s, floor), limit)
  {
    if s != [] && limit > 0 && s[0].signal >= floor {
      ElevatedTake(s[1..], floor, limit - 1);
      if |s| > limit {
        assert s[..limit][1..] == s[1..][..limit - 1];
      }
    }
  }

  lemma {:induction false} ElevatedReversed(h: seq<Trend>, floor: real)
    ensures Elevated(Reversed(h), floor) == HistoryStreak(h, floor)
  {
    if h != [] {
      ElevatedReversed(h[..|h| - 1], floor);
      assert Reversed(h)[1..] == Reversed(h[..|h| - 1]);
    }
  }

  /** What the alarm sees: the streak, as far as the listing reaches. */
  lemma ListedStreak(trends: seq<Trend>, record: string, floor: real)
    requires Numbered(History(trends, record))
    ensures var listed := ListTrends(trends, record, TREND_LIMIT);
            && Elevated(listed, floor) == Least(HistoryStreak(History(trends, record), floor), TREND_LIMIT)
            && (History(trends, record) != [] ==>
                listed != [] && listed[0] == History(trends, record)[|History(trends, record)| - 1])
  {
    var h := History(trends, record);
    SortReverses(h);
    ElevatedReversed(h, floor);
    ElevatedTake(Reversed(h), floor, TREND_LIMIT);
  }

  lemma HistoryThen(h: seq<Trend>, t: Trend, floor: real)
    requires Numbered(h) && t.cycle == |h| + 1
    ensures Numbered(h + [t])
    ensures HistoryStreak(h + [t], floor) == if t.signal < floor then 0 else 1 + HistoryStreak(h, floor)
  {
    assert (h + [t])[..|h|] == h;
  }

  // ---------- Counting findings ----------

  lemma {:induction false} OpenMeansUnresolved(log: seq<Finding>, user: string, subject: string, t: ChangeType)
    ensures Open(log, user, subject, t) > 0 <==> HasUnresolved(log, user, subject, t)
  {
    if log != [] {
      var n := |log| - 1;
      OpenMeansUnresolved(log[..n], user, subject, t);
      if HasUnresolved(log[..n], user, subject, t) {
        var i :| 0 <= i < n && Matches(log[..n][i], user, subject, t);
        assert Matches(log[i], user, subject, t);
      }
      if HasUnresolved(log, user, subject, t) {
        var i :| 0 <= i < |log| && Matches(log[i], user, subject, t);
        assert i < n ==> log[..n][i] == log[i];
      }
    }
  }

  lemma {:induction false} ResolvedOpen(log: seq<Finding>, user: string, subject: string, t: ChangeType, other: string)
    ensures Open(ResolveDrift(log, user, subject, t), user, other, t) ==
            if other == subject then 0 else Open(log, user, other, t)
  {
    if log != [] {
      var n := |log| - 1;
      ResolvedOpen(log[..n], user, subject, t, other);
      assert ResolveDrift(log, user, subject, t)[..n] == ResolveDrift(log[..n], user, subject, t);
    }
  }

  /** A finding is raised once, unless its id is taken while none of its kind is open. */
  lemma LoggedOpen(log: seq<Finding>, id: LogId, other: string, t: ChangeType)
    requires HasUnresolved(log, id.user, id.subject, id.changeType) || forall i :: 0 <= i < |log| ==> log[i].id != id
    ensures Open(LogOnce(log, id), id.user, other, t) ==
            if other == id.subject && t == id.changeType then Max(1, Open(log, id.user, other, t))
            else Open(log, id.user, other, t)
  {
    hide Open;
    OpenMeansUnresolved(log, id.user, id.subject, id.changeType);
    OpenThen(log, Finding(id, false), id.user, other, t);
  }

  lemma OpenThen(log: seq<Finding>, f: Finding, user: string, subject: string, t: ChangeType)
    ensures Open(log + [f], user, subject, t) ==
            Open(log, user, subject, t) + (if Matches(f, user, subject, t) then 1 else 0)
  {
    assert (log + [f])[..|log|] == log;
  }

  lemma SemanticNeverCounts(log: seq<Finding>, id: LogId, subject: string)
    requires id.changeType == SemanticDrift
    ensures Open(LogOnce(log, id), id.user, subject, CumulativeSemanticDrift) ==
            Open(log, id.user, subject, CumulativeSemanticDrift)
  {
    assert (log + [Finding(id, false)])[..|log|] == log;
  }
}
