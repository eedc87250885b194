/** When the drift alarm equals a recomputation over the whole history: an exact condition on the review schedule. */
module DriftAgreement {
  import opened DriftAlarm

  /** Which record is reviewed, and at what time; what the texts say is left open. */
  datatype Slot = Slot(record: string, at: Time)

  function Schedule(evals: seq<Evaluation>): (slots: seq<Slot>)
    ensures |slots| == |evals| && forall i :: 0 <= i < |evals| ==> slots[i] == Slot(evals[i].record, evals[i].at)
  {
    seq(|evals|, i requires 0 <= i < |evals| => Slot(evals[i].record, evals[i].at))
  }

  /** How often a record is reviewed. */
  function Count(slots: seq<Slot>, record: string): nat {
    if slots == [] then 0
    else Count(slots[..|slots| - 1], record) + (if slots[|slots| - 1].record == record then 1 else 0)
  }

  /**
   * Reviews `i` and `j` of one record share a time, `i` is late enough to raise the alarm, and enough reviews
   * of the record lie between for the streak to break and be back at `j`.
   */
  predicate Repeats(min: nat, slots: seq<Slot>, i: nat, j: nat)
    requires i < j < |slots|
  {
    var record := slots[i].record;
    && slots[i] == slots[j]
    && Count(slots[..i + 1], record) >= min
    && Count(slots[..j], record) >= Count(slots[..i + 1], record) + min
  }

  /** A schedule on which the alarm never differs from the recomputation, whatever the signals. */
  predicate Safe(min: nat, slots: seq<Slot>) {
    if min > TREND_LIMIT then forall k | 0 <= k < |slots| :: Count(slots, slots[k].record) < min
    else min == 0 || forall i, j | 0 <= i < j < |slots| :: !Repeats(min, slots, i, j)
  }

  /** The evaluations of a run along the schedule, perhaps not yet at its end. */
  ghost predicate Follows(evals: seq<Evaluation>, slots: seq<Slot>) {
    |evals| <= |slots| && Schedule(evals) == slots[..|evals|]
  }

  /** One finding while the streak over the whole history is long enough, none otherwise. */
  function Alarms(p: Policy, evals: seq<Evaluation>, record: string): nat {
    if Evaluated(evals, record) && Streak(evals, record, p.floor) >= p.minCycles then 1 else 0
  }

  ghost predicate AgreesOn(p: Policy, user: string, evals: seq<Evaluation>, record: string) {
    Open(After(p, user, evals).log, user, Subject(record), CumulativeSemanticDrift) == Alarms(p, evals, record)
  }

  // ---------- One more review ----------

  function Times(evals: seq<Evaluation>, record: string): nat {
    Count(Schedule(evals), record)
  }

  lemma TimesThen(evals: seq<Evaluation>, e: Evaluation, record: string)
    ensures Times(evals + [e], record) == Times(evals, record) + (if e.record == record then 1 else 0)
  {
    assert Schedule(evals + [e])[..|evals|] == Schedule(evals);
  }

  lemma {:induction false} TimesGrow(evals: seq<Evaluation>, n: nat, record: string)
    requires n <= |evals|
    ensures Times(evals[..n], record) <= Times(evals, record)
  {
    if n == |evals| {
      assert evals[..n] == evals;
    } else {
      var m := |evals| - 1;
      TimesGrow(evals[..m], n, record);
      assert evals[..m][..n] == evals[..n] && evals == evals[..m] + [evals[m]];
      TimesThen(evals[..m], evals[m], record);
    }
  }

  lemma StreakThen(evals: seq<Evaluation>, e: Evaluation, record: string, floor: real)
    ensures Streak(evals + [e], record, floor) ==
            if e.record != record then Streak(evals, record, floor)
            else if e.signal < floor then 0 else 1 + Streak(evals, record, floor)
  {
    assert (evals + [e])[..|evals|] == evals;
  }

  lemma {:induction false} StreakWithin(evals: seq<Evaluation>, record: string, floor: real)
    ensures Streak(evals, record, floor) <= Times(evals, record)
    ensures Streak(evals, record, floor) > 0 ==> Evaluated(evals, record)
  {
    hide Count, Schedule;
    if evals != [] {
      var n := |evals| - 1;
      assert evals == evals[..n] + [evals[n]];
      StreakWithin(evals[..n], record, floor);
      TimesThen(evals[..n], evals[n], record);
      EvaluatedThen(evals[..n], evals[n], record);
    }
  }

  lemma EvaluatedThen(evals: seq<Evaluation>, e: Evaluation, record: string)
    ensures Evaluated(evals + [e], record) <==> Evaluated(evals, record) || e.record == record
  {
    if Evaluated(evals, record) {
      var i :| 0 <= i < |evals| && evals[i].record == record;
      assert (evals + [e])[i].record == record;
    }
    if e.record == record {
      assert (evals + [e])[|evals|].record == record;
    }
  }

  /** The stored trends give the streak. */
  lemma {:induction false} TrendsFollow(p: Policy, user: string, evals: seq<Evaluation>, record: string)
    ensures var h := History(After(p, user, evals).trends, record);
            Numbered(h) && HistoryStreak(h, p.floor) == Streak(evals, record, p.floor)
  {
    if evals != [] {
      hide Evaluate, LogOnce, RecordTrend, LastCycle, History, HistoryStreak, Numbered;
      var n := |evals| - 1;
      var e, trends := evals[n], After(p, user, evals[..n]).trends;
      var before := History(trends, record);
      TrendsFollow(p, user, evals[..n], record);
      TrendsKept(p, After(p, user, evals[..n]), user, e);
      RecordedHistory(trends, e.record, e.signal, record);
      CyclesCount(trends, record);
      HistoryThen(before, Trend(record, |before| + 1, e.signal), p.floor);
      assert before + [] == before;
    }
  }

  lemma TrendsKept(p: Policy, s: Store, user: string, e: Evaluation)
    ensures Evaluate(p, s, user, e.record, e.signal, e.at).trends == RecordTrend(s.trends, e.record, e.signal)
  {
    hide ListTrends, Elevated, LogOnce, ResolveDrift, RecordTrend;
  }

  function AlarmId(user: string, e: Evaluation): LogId {
    LogId(user, Subject(e.record), CumulativeSemanticDrift, e.at)
  }

  /** What an evaluation does to the findings of the alarm, given the streak it leaves. */
  function AlarmLog(p: Policy, user: string, log: seq<Finding>, e: Evaluation, streak: nat): seq<Finding> {
    if Least(streak, TREND_LIMIT) >= p.minCycles then LogOnce(log, AlarmId(user, e))
    else if e.signal < p.floor then ResolveDrift(log, user, Subject(e.record), CumulativeSemanticDrift) else log
  }

  function SemanticLog(p: Policy, user: string, log: seq<Finding>, e: Evaluation): seq<Finding> {
    if e.signal < p.floor then log else LogOnce(log, LogId(user, Subject(e.record), SemanticDrift, e.at))
  }

  lemma LogThen(p: Policy, user: string, evals: seq<Evaluation>, e: Evaluation)
    ensures var streak := Streak(evals + [e], e.record, p.floor);
            After(p, user, evals + [e]).log ==
            SemanticLog(p, user, AlarmLog(p, user, After(p, user, evals).log, e, streak), e)
  {
    hide ListTrends, Elevated, History, HistoryStreak, RecordTrend, LastCycle, Numbered, LogOnce, ResolveDrift, Streak,
         Subject;
    var s := After(p, user, evals);
    var trends := RecordTrend(s.trends, e.record, e.signal);
    var before := History(s.trends, e.record);
    assert (evals + [e])[..|evals|] == evals;
    TrendsFollow(p, user, evals, e.record);
    RecordedHistory(s.trends, e.record, e.signal, e.record);
    CyclesCount(s.trends, e.record);
    HistoryThen(before, Trend(e.record, |before| + 1, e.signal), p.floor);
    StreakThen(evals, e, e.record, p.floor);
    ListedStreak(trends, e.record, p.floor);
  }

  /** Only the alarm moves the number of open alarms. */
  lemma OpenThenStep(p: Policy, user: string, evals: seq<Evaluation>, e: Evaluation, record: string)
    ensures var streak := Streak(evals + [e], e.record, p.floor);
            Open(After(p, user, evals + [e]).log, user, Subject(record), CumulativeSemanticDrift) ==
            Open(AlarmLog(p, user, After(p, user, evals).log, e, streak), user, Subject(record),
                 CumulativeSemanticDrift)
  {
    hide After, Open, AlarmLog, LogOnce, Streak, Subject;
    LogThen(p, user, evals, e);
    var streak := Streak(evals + [e], e.record, p.floor);
    SemanticNeverCounts(AlarmLog(p, user, After(p, user, evals).log, e, streak),
                        LogId(user, Subject(e.record), SemanticDrift, e.at), Subject(record));
  }

  lemma SubjectsDiffer(a: string, b: string)
    ensures Subject(a) == Subject(b) <==> a == b
  {
    assert Subject(a)[7..] == a && Subject(b)[7..] == b;
  }

  // ---------- Where findings come from ----------

  /** Review `i` can have raised the finding; if it is settled, the streak broke after it. */
  ghost predicate RaisedAt(p: Policy, evals: seq<Evaluation>, record: string, f: Finding, i: nat) {
    && i < |evals| && evals[i].record == record && evals[i].at == f.id.at
    && Times(evals[..i + 1], record) >= p.minCycles
    && (f.reviewed ==>
        p.minCycles > 0 && Times(evals, record) > Times(evals[..i + 1], record) + Streak(evals, record, p.floor))
  }

  ghost predicate Raised(p: Policy, evals: seq<Evaluation>, record: string, f: Finding) {
    exists i: nat :: RaisedAt(p, evals, record, f, i)
  }

  predicate IsAlarm(f: Finding, user: string, record: string) {
    f.id.user == user && f.id.subject == Subject(record) && f.id.changeType == CumulativeSemanticDrift
  }

  ghost predicate Traced(p: Policy, user: string, evals: seq<Evaluation>, log: seq<Finding>) {
    forall k, r :: 0 <= k < |log| && IsAlarm(log[k], user, r) ==> Raised(p, evals, r, log[k])
  }

  lemma RaisedThen(p: Policy, evals: seq<Evaluation>, e: Evaluation, record: string, f: Finding)
    requires Raised(p, evals, record, f)
    ensures Raised(p, evals + [e], record, f)
    ensures e.record == record && e.signal < p.floor && p.minCycles > 0 ==>
              Raised(p, evals + [e], record, f.(reviewed := true))
  {
    hide Times, Streak;
    var i: nat :| RaisedAt(p, evals, record, f, i);
    var all := evals + [e];
    assert all[..i + 1] == evals[..i + 1];
    TimesThen(evals, e, record);
    TimesGrow(evals, i + 1, record);
    StreakThen(evals, e, record, p.floor);
    assert RaisedAt(p, all, record, f, i);
    if e.record == record && e.signal < p.floor && p.minCycles > 0 {
      assert RaisedAt(p, all, record, f.(reviewed := true), i);
    }
  }

  lemma RaisedNow(p: Policy, user: string, evals: seq<Evaluation>, e: Evaluation)
    requires Streak(evals + [e], e.record, p.floor) >= p.minCycles
    ensures Raised(p, evals + [e], e.record, Finding(AlarmId(user, e), false))
  {
    hide Times, Streak;
    var all := evals + [e];
    assert all[..|evals| + 1] == all;
    StreakWithin(all, e.record, p.floor);
    assert RaisedAt(p, all, e.record, Finding(AlarmId(user, e), false), |evals|);
  }

  lemma TracedThen(p: Policy, user: string, evals: seq<Evaluation>, e: Evaluation, log: seq<Finding>)
    requires Traced(p, user, evals, log)
    ensures var streak := Streak(evals + [e], e.record, p.floor);
            Traced(p, user, evals + [e], SemanticLog(p, user, AlarmLog(p, user, log, e, streak), e))
  {
    hide Raised, Streak, HasUnresolved, Subject;
    var streak := Streak(evals + [e], e.record, p.floor);
    if streak >= p.minCycles {
      RaisedNow(p, user, evals, e);
    }
    var alarms := AlarmLog(p, user, log, e, streak);
    forall k, r | 0 <= k < |alarms| && IsAlarm(alarms[k], user, r)
      ensures Raised(p, evals + [e], r, alarms[k])
    {
      SubjectsDiffer(r, e.record);
      if k < |log| {
        RaisedThen(p, evals, e, r, log[k]);
      }
    }
  }

  /** A settled finding under the id the alarm is about to use comes from a review the schedule repeats. */
  lemma IdRepeats(p: Policy, user: string, evals: seq<Evaluation>, e: Evaluation, log: seq<Finding>, k: nat)
    returns (i: nat)
    requires Traced(p, user, evals, log) && Streak(evals + [e], e.record, p.floor) >= p.minCycles
    requires !HasUnresolved(log, user, Subject(e.record), CumulativeSemanticDrift)
    requires k < |log| && log[k].id == AlarmId(user, e)
    ensures p.minCycles > 0 && i < |evals| && Repeats(p.minCycles, Schedule(evals + [e]), i, |evals|)
  {
    hide Streak, Count, HasUnresolved, Subject;
    var n, all, r := |evals|, evals + [e], e.record;
    NotMatched(log, user, Subject(r), k);
    assert IsAlarm(log[k], user, r) && Raised(p, evals, r, log[k]);
    i :| RaisedAt(p, evals, r, log[k], i);
    StreakThen(evals, e, r, p.floor);
    assert all[..i + 1] == evals[..i + 1] && all[..n] == evals;
    assert Schedule(all)[..i + 1] == Schedule(evals[..i + 1]) && Schedule(all)[..n] == Schedule(evals);
  }

  lemma IdIsFresh(p: Policy, user: string, evals: seq<Evaluation>, e: Evaluation, log: seq<Finding>, k: nat)
    requires p.minCycles <= TREND_LIMIT && Safe(p.minCycles, Schedule(evals + [e])) && Traced(p, user, evals, log)
    requires Streak(evals + [e], e.record, p.floor) >= p.minCycles
    requires !HasUnresolved(log, user, Subject(e.record), CumulativeSemanticDrift) && k < |log|
    ensures log[k].id != AlarmId(user, e)
  {
    hide Streak, Repeats, HasUnresolved, Subject;
    if log[k].id == AlarmId(user, e) {
      var i := IdRepeats(p, user, evals, e, log, k);
      assert false;
    }
  }

  lemma NotMatched(log: seq<Finding>, user: string, subject: string, k: nat)
    requires !HasUnresolved(log, user, subject, CumulativeSemanticDrift) && k < |log|
    requires log[k].id.user == user && log[k].id.subject == subject && log[k].id.changeType == CumulativeSemanticDrift
    ensures log[k].reviewed
  {
    assert !Matches(log[k], user, subject, CumulativeSemanticDrift);
  }

  // ---------- A safe schedule is enough ----------

  lemma AgreesThen(p: Policy, user: string, evals: seq<Evaluation>, e: Evaluation, record: string)
    requires p.minCycles <= TREND_LIMIT && Safe(p.minCycles, Schedule(evals + [e]))
    requires Traced(p, user, evals, After(p, user, evals).log) && AgreesOn(p, user, evals, record)
    ensures AgreesOn(p, user, evals + [e], record)
  {
    hide After, Open, LogOnce, ResolveDrift, Streak, Subject, Evaluated, Safe, Traced, HasUnresolved;
    var log, streak := After(p, user, evals).log, Streak(evals + [e], e.record, p.floor);
    var id := AlarmId(user, e);
    OpenThenStep(p, user, evals, e, record);
    SubjectsDiffer(record, e.record);
    EvaluatedThen(evals, e, record);
    StreakThen(evals, e, record, p.floor);
    ResolvedOpen(log, user, Subject(e.record), CumulativeSemanticDrift, Subject(record));
    if streak >= p.minCycles {
      if !HasUnresolved(log, user, Subject(e.record), CumulativeSemanticDrift) {
        forall k | 0 <= k < |log|
          ensures log[k].id != id
        {
          IdIsFresh(p, user, evals, e, log, k);
        }
      }
      LoggedOpen(log, id, Subject(record), CumulativeSemanticDrift);
    }
  }

  lemma {:induction false} RunAgrees(p: Policy, user: string, evals: seq<Evaluation>, record: string)
    requires p.minCycles <= TREND_LIMIT && Safe(p.minCycles, Schedule(evals))
    ensures AgreesOn(p, user, evals, record) && Traced(p, user, evals, After(p, user, evals).log)
  {
    if evals == [] {
      assert After(p, user, evals) == Store([], []);
    } else {
      hide AgreesOn, Traced, Safe, After, AlarmLog, SemanticLog, Streak;
      var n := |evals| - 1;
      assert evals == evals[..n] + [evals[n]] && Schedule(evals)[..n] == Schedule(evals[..n]);
      SafePrefix(p.minCycles, Schedule(evals), n);
      RunAgrees(p, user, evals[..n], record);
      AgreesThen(p, user, evals[..n], evals[n], record);
      TracedThen(p, user, evals[..n], evals[n], After(p, user, evals[..n]).log);
      LogThen(p, user, evals[..n], evals[n]);
    }
  }

  lemma SafePrefix(min: nat, slots: seq<Slot>, n: nat)
    requires Safe(min, slots) && n <= |slots|
    ensures Safe(min, slots[..n])
  {
    hide Count;
    if min > TREND_LIMIT {
      forall k | 0 <= k < n
        ensures Count(slots[..n], slots[..n][k].record) < min
      {
        CountGrows(slots, n, slots[k].record);
        assert slots[..n][k] == slots[k];
      }
    } else if min > 0 {
      forall i, j | 0 <= i < j < n
        ensures !Repeats(min, slots[..n], i, j)
      {
        assert !Repeats(min, slots, i, j);
        assert slots[..n][..i + 1] == slots[..i + 1] && slots[..n][..j] == slots[..j];
      }
    }
  }

  lemma {:induction false} CountGrows(slots: seq<Slot>, n: nat, record: string)
    requires n <= |slots|
    ensures Count(slots[..n], record) <= Count(slots, record)
  {
    if n == |slots| {
      assert slots[..n] == slots;
    } else {
      CountGrows(slots[..|slots| - 1], n, record);
      assert slots[..|slots| - 1][..n] == slots[..n];
    }
  }

  /**
   * Alarm equals recomputation: after any run on a safe schedule, each record has exactly one unresolved cumulative
   * finding if it was evaluated and its streak reaches the configured length, and none otherwise.
   */
  lemma AlarmAgrees(p: Policy, user: string, evals: seq<Evaluation>, record: string)
    requires Safe(p.minCycles, Schedule(evals))
    ensures AgreesOn(p, user, evals, record)
  {
    hide After, Open, Streak;
    if p.minCycles <= TREND_LIMIT {
      RunAgrees(p, user, evals, record);
    } else {
      NeverAlarms(p, user, evals, record);
      StreakWithin(evals, record, p.floor);
      if Evaluated(evals, record) {
        var k :| 0 <= k < |evals| && evals[k].record == record;
        assert Schedule(evals)[k].record == record;
      }
    }
  }

  /** With a longer streak asked for than is ever listed, the alarm stays silent for good. */
  lemma {:induction false} NeverAlarms(p: Policy, user: string, evals: seq<Evaluation>, record: string)
    requires p.minCycles > TREND_LIMIT
    ensures Open(After(p, user, evals).log, user, Subject(record), CumulativeSemanticDrift) == 0
  {
    if evals == [] {
      assert After(p, user, evals) == Store([], []);
    } else {
      hide After, Open, ResolveDrift, Subject;
      var n := |evals| - 1;
      var e := evals[n];
      assert evals == evals[..n] + [e];
      NeverAlarms(p, user, evals[..n], record);
      OpenThenStep(p, user, evals[..n], e, record);
      ResolvedOpen(After(p, user, evals[..n]).log, user, Subject(e.record), CumulativeSemanticDrift, Subject(record));
    }
  }

  // ---------- And it is needed ----------

  lemma QuietStep(p: Policy, user: string, evals: seq<Evaluation>, e: Evaluation, record: string)
    requires Open(After(p, user, evals).log, user, Subject(record), CumulativeSemanticDrift) == 0
    requires Streak(evals + [e], record, p.floor) < p.minCycles
    ensures Open(After(p, user, evals + [e]).log, user, Subject(record), CumulativeSemanticDrift) == 0
  {
    hide After, Open, ResolveDrift, Streak, LogOnce, Subject;
    var log := After(p, user, evals).log;
    OpenThenStep(p, user, evals, e, record);
    SubjectsDiffer(record, e.record);
    ResolvedOpen(log, user, Subject(e.record), CumulativeSemanticDrift, Subject(record));
    if e.record != record {
      OtherSubject(log, AlarmId(user, e), Subject(record));
    }
  }

  /** While the streak is too short, a silent alarm stays silent. */
  lemma {:induction false} StaysQuiet(p: Policy, user: string, evals: seq<Evaluation>, record: string, from: nat)
    requires from <= |evals|
    requires Open(After(p, user, evals[..from]).log, user, Subject(record), CumulativeSemanticDrift) == 0
    requires forall n :: from < n <= |evals| ==> Streak(evals[..n], record, p.floor) < p.minCycles
    ensures Open(After(p, user, evals).log, user, Subject(record), CumulativeSemanticDrift) == 0
  {
    hide After, Open, Streak, Subject;
    if from == |evals| {
      assert evals[..from] == evals;
    } else {
      var n := |evals| - 1;
      var rest, e := evals[..n], evals[n];
      assert evals == rest + [e] == evals[..|evals|] && rest[..from] == evals[..from];
      forall m | from < m <= n
        ensures Streak(rest[..m], record, p.floor) < p.minCycles
      {
        assert rest[..m] == evals[..m];
      }
      StaysQuiet(p, user, rest, record, from);
      QuietStep(p, user, rest, e, record);
    }
  }

  lemma OtherSubject(log: seq<Finding>, id: LogId, subject: string)
    requires id.subject != subject
    ensures Open(LogOnce(log, id), id.user, subject, id.changeType) == Open(log, id.user, subject, id.changeType)
  {
    hide Open, HasUnresolved;
    OpenThen(log, Finding(id, false), id.user, subject, id.changeType);
  }

  ghost predicate Taken(log: seq<Finding>, id: LogId) {
    exists k :: 0 <= k < |log| && log[k].id == id
  }

  lemma IdStep(p: Policy, user: string, evals: seq<Evaluation>, e: Evaluation, id: LogId)
    requires Taken(After(p, user, evals).log, id)
    ensures Taken(After(p, user, evals + [e]).log, id)
  {
    hide After, Streak, Subject, HasUnresolved;
    LogThen(p, user, evals, e);
    var log := After(p, user, evals).log;
    var k :| 0 <= k < |log| && log[k].id == id;
    assert After(p, user, evals + [e]).log[k].id == id;
  }

  /** Findings are never deleted. */
  lemma {:induction false} IdStays(p: Policy, user: string, evals: seq<Evaluation>, n: nat, id: LogId)
    requires n <= |evals| && Taken(After(p, user, evals[..n]).log, id)
    ensures Taken(After(p, user, evals).log, id)
  {
    hide After, Taken;
    if n == |evals| {
      assert evals[..n] == evals;
    } else {
      var m := |evals| - 1;
      var rest, e := evals[..m], evals[m];
      assert evals == rest + [e] && rest[..n] == evals[..n];
      IdStays(p, user, rest, n, id);
      IdStep(p, user, rest, e, id);
    }
  }

  /** A streak long enough takes the id, or found it taken, when nothing is open. */
  lemma IdTaken(p: Policy, user: string, evals: seq<Evaluation>, e: Evaluation)
    requires p.minCycles <= TREND_LIMIT && Streak(evals + [e], e.record, p.floor) >= p.minCycles
    requires Open(After(p, user, evals).log, user, Subject(e.record), CumulativeSemanticDrift) == 0
    ensures Taken(After(p, user, evals + [e]).log, AlarmId(user, e))
  {
    hide After, Streak, Subject, Open, HasUnresolved;
    var log, streak := After(p, user, evals).log, Streak(evals + [e], e.record, p.floor);
    LogThen(p, user, evals, e);
    OpenMeansUnresolved(log, user, Subject(e.record), CumulativeSemanticDrift);
    var alarms := AlarmLog(p, user, log, e, streak);
    if !Taken(log, AlarmId(user, e)) {
      assert alarms[|log|].id == AlarmId(user, e);
    }
    var k :| 0 <= k < |alarms| && alarms[k].id == AlarmId(user, e);
    assert After(p, user, evals + [e]).log[k].id == AlarmId(user, e);
  }

  /** A raised alarm that is resolved at `k` and due again in the millisecond of its first raising is missed. */
  lemma Missed(p: Policy, user: string, evals: seq<Evaluation>, record: string, i: nat, k: nat)
    requires 0 < p.minCycles <= TREND_LIMIT && i < k < |evals| - 1
    requires evals[i].record == evals[k].record == evals[|evals| - 1].record == record
    requires evals[i].at == evals[|evals| - 1].at && evals[k].signal < p.floor
    requires forall n :: 0 <= n <= i || k < n < |evals| ==> Streak(evals[..n], record, p.floor) < p.minCycles
    requires Streak(evals[..i + 1], record, p.floor) >= p.minCycles && Streak(evals, record, p.floor) >= p.minCycles
    ensures Open(After(p, user, evals).log, user, Subject(record), CumulativeSemanticDrift) == 0
    ensures Alarms(p, evals, record) == 1
  {
    hide After, Streak, Open, Taken, ResolveDrift, Subject, LogOnce;
    var j := |evals| - 1;
    var id := AlarmId(user, evals[i]);
    var start, broken, rest := evals[..i], evals[..k], evals[..j];
    NothingOpen(p, user, record);
    assert start[..0] == [] && forall n :: 0 <= n <= i ==> start[..n] == evals[..n];
    StaysQuiet(p, user, start, record, 0);
    assert evals[..i + 1] == start + [evals[i]];
    IdTaken(p, user, start, evals[i]);
    assert rest[..i + 1] == evals[..i + 1];
    IdStays(p, user, rest, i + 1, id);
    assert rest[..k + 1] == evals[..k + 1] == broken + [evals[k]];
    StreakThen(broken, evals[k], record, p.floor);
    OpenThenStep(p, user, broken, evals[k], record);
    ResolvedOpen(After(p, user, broken).log, user, Subject(record), CumulativeSemanticDrift, Subject(record));
    assert forall n :: k < n <= j ==> rest[..n] == evals[..n];
    StaysQuiet(p, user, rest, record, k + 1);
    assert evals == rest + [evals[j]];
    OpenThenStep(p, user, rest, evals[j], record);
    CollisionRaisesNothing(After(p, user, rest).log, id);
    EvaluatedThen(rest, evals[j], record);
  }

  lemma NothingOpen(p: Policy, user: string, record: string)
    ensures Open(After(p, user, []).log, user, Subject(record), CumulativeSemanticDrift) == 0
  {
  }

  /** Logging under an id that is already there raises nothing. */
  lemma CollisionRaisesNothing(log: seq<Finding>, id: LogId)
    requires Taken(log, id) && Open(log, id.user, id.subject, id.changeType) == 0
    ensures Open(LogOnce(log, id), id.user, id.subject, id.changeType) == 0
  {
    OpenMeansUnresolved(log, id.user, id.subject, id.changeType);
  }

  // ---------- Signals that show it ----------

  /** The rank of a review among those of its record. */
  function Rank(slots: seq<Slot>, record: string, k: nat): nat
    requires k < |slots|
  {
    Count(slots[..k + 1], record)
  }

  /** High over the `min` reviews up to rank `a` and up to rank `b`, low elsewhere. */
  function TwoStreaks(floor: real, min: nat, a: nat, b: nat, rank: nat): real {
    if (a < rank + min && rank <= a) || (b < rank + min && rank <= b) then floor else floor - 1.0
  }

  function StreakAt(min: nat, a: nat, b: nat, rank: nat): nat {
    if a < rank + min && rank <= a then rank + min - a
    else if b < rank + min && rank <= b then rank + min - b else 0
  }

  function Signals(slots: seq<Slot>, record: string, floor: real, min: nat, a: nat, b: nat): (evals: seq<Evaluation>)
    ensures |evals| == |slots| && Schedule(evals) == slots
    ensures forall k :: 0 <= k < |slots| ==> evals[k].signal == TwoStreaks(floor, min, a, b, Rank(slots, record, k))
  {
    seq(|slots|, k requires 0 <= k < |slots| =>
      Evaluation(slots[k].record, TwoStreaks(floor, min, a, b, Rank(slots, record, k)), slots[k].at))
  }

  lemma {:induction false} StreakByRank(evals: seq<Evaluation>, record: string, floor: real, min: nat, a: nat, b: nat)
    requires 0 < min <= a && a + min < b
    requires forall k :: 0 <= k < |evals| ==>
               evals[k].signal == TwoStreaks(floor, min, a, b, Times(evals[..k + 1], record))
    ensures Times(evals, record) <= b ==> Streak(evals, record, floor) == StreakAt(min, a, b, Times(evals, record))
  {
    hide Times;
    if evals == [] {
      assert Times([], record) == 0 by { NoTimes(record); }
    } else {
      var n := |evals| - 1;
      var rest := evals[..n];
      assert evals == rest + [evals[n]] == evals[..n + 1];
      assert forall k :: 0 <= k < n ==> rest[k] == evals[k] && rest[..k + 1] == evals[..k + 1];
      StreakByRank(rest, record, floor, min, a, b);
      TimesThen(rest, evals[n], record);
      StreakThen(rest, evals[n], record, floor);
    }
  }

  lemma NoTimes(record: string)
    ensures Times([], record) == 0
  {
  }

  /** Every rank up to the number of reviews is some review's. */
  lemma {:induction false} FindRank(slots: seq<Slot>, record: string, rank: nat) returns (k: nat)
    requires 0 < rank <= Count(slots, record)
    ensures k < |slots| && slots[k].record == record && Rank(slots, record, k) == rank
  {
    var n := |slots| - 1;
    if Count(slots[..n], record) >= rank {
      k := FindRank(slots[..n], record, rank);
      assert slots[..n][..k + 1] == slots[..k + 1];
    } else {
      k := n;
      assert slots[..n + 1] == slots;
    }
  }

  /** The signals lead to the streaks they are made for. */
  lemma StreakAlong(slots: seq<Slot>, record: string, floor: real, min: nat, a: nat, b: nat, n: nat)
    requires 0 < min <= a && a + min < b && n <= |slots| && Count(slots[..n], record) <= b
    ensures Streak(Signals(slots, record, floor, min, a, b)[..n], record, floor) ==
            StreakAt(min, a, b, Count(slots[..n], record))
  {
    hide Count, Streak, StreakAt, TwoStreaks;
    var evals := Signals(slots, record, floor, min, a, b);
    var rest := evals[..n];
    assert Schedule(rest) == slots[..n];
    forall k | 0 <= k < |rest|
      ensures rest[k].signal == TwoStreaks(floor, min, a, b, Times(rest[..k + 1], record))
    {
      assert Schedule(rest[..k + 1]) == slots[..k + 1];
    }
    StreakByRank(rest, record, floor, min, a, b);
  }

  /** Counts up to two places of a schedule. */
  lemma CountsRise(slots: seq<Slot>, record: string, m: nat, n: nat)
    requires m <= n <= |slots|
    ensures Count(slots[..m], record) <= Count(slots[..n], record)
    ensures m < n && slots[m].record == record ==> Count(slots[..m], record) < Count(slots[..n], record)
  {
    hide Count;
    CountGrows(slots[..n], m, record);
    assert slots[..n][..m] == slots[..m];
    if m < n && slots[m].record == record {
      CountGrows(slots[..n], m + 1, record);
      assert slots[..n][..m + 1] == slots[..m + 1];
      RankSteps(slots, m);
    }
  }

  lemma RankSteps(slots: seq<Slot>, k: nat)
    requires k < |slots|
    ensures Rank(slots, slots[k].record, k) == Count(slots[..k], slots[k].record) + 1
  {
    assert slots[..k + 1][..k] == slots[..k];
  }

  /** Before rank `a` and between the two streaks the streak is too short. */
  lemma ShortBetween(slots: seq<Slot>, record: string, floor: real, min: nat, a: nat, b: nat, n: nat)
    requires 0 < min <= a && a + min < b && n <= |slots|
    requires Count(slots[..n], record) < a || a < Count(slots[..n], record) < b
    ensures Streak(Signals(slots, record, floor, min, a, b)[..n], record, floor) < min
  {
    hide Count, Streak, TwoStreaks;
    StreakAlong(slots, record, floor, min, a, b, n);
  }

  /** The rank of every review up to `i` and of every one between `k` and `j`. */
  lemma RanksBetween(slots: seq<Slot>, record: string, i: nat, k: nat, j: nat, n: nat)
    requires i < k < j < |slots| && slots[i].record == record == slots[j].record
             && Rank(slots, record, k) == Rank(slots, record, i) + 1
    requires n <= i || k < n <= j
    ensures n <= i ==> Count(slots[..n], record) < Rank(slots, record, i)
    ensures k < n ==> Rank(slots, record, i) < Count(slots[..n], record) < Rank(slots, record, j)
  {
    hide Count;
    RankSteps(slots, i);
    RankSteps(slots, j);
    if n <= i {
      CountsRise(slots, record, n, i);
    } else {
      CountsRise(slots, record, k + 1, n);
      CountsRise(slots, record, n, j);
    }
  }

  /** A review just after rank `a`, which the signals make low. */
  lemma BreakAfter(slots: seq<Slot>, i: nat, j: nat, min: nat) returns (k: nat)
    requires 0 < min && i < j < |slots| && Repeats(min, slots, i, j)
    ensures i < k < j && slots[k].record == slots[i].record
    ensures var r := slots[i].record;
            Rank(slots, r, k) == Rank(slots, r, i) + 1 && min <= Rank(slots, r, i)
                && Rank(slots, r, i) + min < Rank(slots, r, j)
  {
    hide Count;
    var record := slots[i].record;
    RankSteps(slots, j);
    k := FindRank(slots[..j], record, Rank(slots, record, i) + 1);
    assert slots[..j][..k + 1] == slots[..k + 1];
    if k <= i {
      CountsRise(slots, record, k + 1, i + 1);
    }
  }

  /** Every repetition can be missed. */
  lemma RepeatMisses(p: Policy, user: string, slots: seq<Slot>, i: nat, j: nat) returns (evals: seq<Evaluation>)
    requires 0 < p.minCycles <= TREND_LIMIT && i < j < |slots| && Repeats(p.minCycles, slots, i, j)
    ensures Follows(evals, slots) && !AgreesOn(p, user, evals, slots[i].record)
  {
    hide Count, Open, After, Streak, Alarms;
    var min, record, taken := p.minCycles, slots[i].record, slots[..j + 1];
    assert taken[..j] == slots[..j] && taken[..i + 1] == slots[..i + 1] && taken[..j + 1] == taken;
    var k := BreakAfter(taken, i, j, min);
    var a, b := Rank(taken, record, i), Rank(taken, record, j);
    evals := Signals(taken, record, p.floor, min, a, b);
    StreakAlong(taken, record, p.floor, min, a, b, i + 1);
    StreakAlong(taken, record, p.floor, min, a, b, j + 1);
    assert evals[..j + 1] == evals;
    assert evals[k].signal < p.floor && evals[i].record == evals[k].record == evals[j].record == record;
    assert Streak(evals[..i + 1], record, p.floor) >= min && Streak(evals, record, p.floor) >= min;
    hide Rank, Signals, TwoStreaks, StreakAt, Repeats;
    forall n | 0 <= n <= i || k < n < |evals|
      ensures Streak(evals[..n], record, p.floor) < min
    {
      RanksBetween(taken, record, i, k, j, n);
      ShortBetween(taken, record, p.floor, min, a, b, n);
    }
    Missed(p, user, evals, record, i, k);
  }

  /** A run at the floor throughout has as long a streak as it has reviews. */
  function Steady(slots: seq<Slot>, floor: real): (evals: seq<Evaluation>)
    ensures |evals| == |slots| && Schedule(evals) == slots
    ensures forall k :: 0 <= k < |slots| ==> evals[k].signal == floor
  {
    seq(|slots|, k requires 0 <= k < |slots| => Evaluation(slots[k].record, floor, slots[k].at))
  }

  lemma {:induction false} SteadyStreak(evals: seq<Evaluation>, record: string, floor: real)
    requires forall k :: 0 <= k < |evals| ==> evals[k].signal == floor
    ensures Streak(evals, record, floor) == Times(evals, record)
  {
    if evals != [] {
      hide Times;
      var n := |evals| - 1;
      assert evals == evals[..n] + [evals[n]];
      SteadyStreak(evals[..n], record, floor);
      TimesThen(evals[..n], evals[n], record);
    }
  }

  /** With more cycles required than are listed, a record reviewed that often is missed. */
  lemma LongStreakMisses(p: Policy, user: string, slots: seq<Slot>, k: nat) returns (evals: seq<Evaluation>)
    requires p.minCycles > TREND_LIMIT && k < |slots| && Count(slots, slots[k].record) >= p.minCycles
    ensures Follows(evals, slots) && !AgreesOn(p, user, evals, slots[k].record)
  {
    hide Count, Streak, Open, After;
    evals := Steady(slots, p.floor);
    assert slots[..|slots|] == slots;
    SteadyStreak(evals, slots[k].record, p.floor);
    NeverAlarms(p, user, evals, slots[k].record);
    assert evals[k].record == slots[k].record;
  }

  /**
   * The alarm equals the recomputation throughout every run along a schedule of reviews, whatever the signals,
   * exactly when the schedule is safe.
   */
  lemma ScheduleCondition(p: Policy, user: string, slots: seq<Slot>)
    ensures (forall evals, record :: Follows(evals, slots) ==> AgreesOn(p, user, evals, record)) <==>
            Safe(p.minCycles, slots)
  {
    hide AgreesOn, Repeats, Count;
    if Safe(p.minCycles, slots) {
      forall evals, record | Follows(evals, slots)
        ensures AgreesOn(p, user, evals, record)
      {
        SafePrefix(p.minCycles, slots, |evals|);
        AlarmAgrees(p, user, evals, record);
      }
    } else if p.minCycles > TREND_LIMIT {
      var k :| 0 <= k < |slots| && Count(slots, slots[k].record) >= p.minCycles;
      var evals := LongStreakMisses(p, user, slots, k);
    } else {
      var i, j :| 0 <= i < j < |slots| && Repeats(p.minCycles, slots, i, j);
      var evals := RepeatMisses(p, user, slots, i, j);
    }
  }

  /** No record is reviewed twice in one millisecond. */
  ghost predicate DistinctTimes(evals: seq<Evaluation>) {
    forall i, j :: 0 <= i < j < |evals| && evals[i].record == evals[j].record ==> evals[i].at != evals[j].at
  }

  /** On such runs they agree exactly when the configured length is at most the listing limit. */
  lemma AgreementCondition(p: Policy, user: string)
    ensures (forall evals, record :: DistinctTimes(evals) ==> AgreesOn(p, user, evals, record)) <==>
            p.minCycles <= TREND_LIMIT
  {
    hide AgreesOn, Count;
    if p.minCycles <= TREND_LIMIT {
      forall evals, record | DistinctTimes(evals)
        ensures AgreesOn(p, user, evals, record)
      {
        AlarmAgrees(p, user, evals, record);
      }
    } else {
      var slots := seq(p.minCycles, (k: nat) => Slot("", k));
      AllCounted(slots, "");
      var evals := LongStreakMisses(p, user, slots, 0);
      var record := slots[0].record;
      assert DistinctTimes(evals) by {
        assert Schedule(evals) == slots[..|evals|];
        assert forall k :: 0 <= k < |evals| ==> Schedule(evals)[k] == slots[k];
      }
    }
  }

  lemma {:induction false} AllCounted(slots: seq<Slot>, record: string)
    requires forall k :: 0 <= k < |slots| ==> slots[k].record == record
    ensures Count(slots, record) == |slots|
  {
    if slots != [] {
      AllCounted(slots[..|slots| - 1], record);
    }
  }

  /** Three reviews in one millisecond, high, low and high: the second streak goes unreported. */
  lemma SameMillisecondMissed(p: Policy, user: string, e: Evaluation, f: Evaluation, g: Evaluation)
    requires p.minCycles == 1 && e.signal >= p.floor > f.signal && g.signal >= p.floor
    requires e.record == f.record == g.record && e.at == f.at == g.at
    ensures Open(After(p, user, [e, f, g]).log, user, Subject(e.record), CumulativeSemanticDrift) == 0
    ensures Alarms(p, [e, f, g], e.record) == 1
  {
    hide After, Open, Streak;
    var evals := [e, f, g];
    assert evals[..0] == [] && evals[..1] == [] + [e] && evals[..2] == [e] + [f] && [e, f] + [g] == evals;
    assert [e] + [f] == [e, f] && [] + [e] == [e];
    EmptyStreak(e.record, p.floor);
    StreakThen([], e, e.record, p.floor);
    StreakThen([e], f, e.record, p.floor);
    StreakThen([e, f], g, e.record, p.floor);
    Missed(p, user, evals, e.record, 0, 1);
  }

  lemma EmptyStreak(record: string, floor: real)
    ensures Streak([], record, floor) == 0
  {
  }
}
