/** The finding a single strong review leaves: one per record, dated by the first of them, and never resolved here. */
module DriftFindings {
  import opened Wrappers
  import opened DriftAlarm
  import opened DriftAgreement

  /** The semantic findings on one subject, in the order they were logged. */
  function Semantic(log: seq<Finding>, user: string, subject: string): seq<Finding> {
    if log == [] then []
    else
      var f := log[|log| - 1];
      Semantic(log[..|log| - 1], user, subject)
      + (if f.id.changeType == SemanticDrift && f.id.user == user && f.id.subject == subject then [f] else [])
  }

  /** When the record was first reviewed with a signal at or above the floor. */
  function FirstStrong(evals: seq<Evaluation>, record: string, floor: real): Option<Time> {
    if evals == [] then None
    else
      var e, before := evals[|evals| - 1], FirstStrong(evals[..|evals| - 1], record, floor);
      if before.Some? then before else if e.record == record && e.signal >= floor then Some(e.at) else None
  }

  lemma SemanticThen(log: seq<Finding>, f: Finding, user: string, subject: string)
    ensures Semantic(log + [f], user, subject) ==
            Semantic(log, user, subject)
            + (if f.id.changeType == SemanticDrift && f.id.user == user && f.id.subject == subject then [f] else [])
  {
    assert (log + [f])[..|log|] == log;
  }

  lemma {:induction false} ResolvingSpares(log: seq<Finding>, user: string, subject: string, who: string, what: string)
    ensures Semantic(ResolveDrift(log, who, what, CumulativeSemanticDrift), user, subject) ==
            Semantic(log, user, subject)
  {
    if log != [] {
      var n := |log| - 1;
      var resolved := ResolveDrift(log, who, what, CumulativeSemanticDrift);
      ResolvingSpares(log[..n], user, subject, who, what);
      assert resolved[..n] == ResolveDrift(log[..n], who, what, CumulativeSemanticDrift);
    }
  }

  lemma AlarmSpares(p: Policy, s: Store, who: string, record: string, now: Time, user: string, subject: string)
    ensures Semantic(DetectCumulative(p, s, who, record, now).log, user, subject) == Semantic(s.log, user, subject)
  {
    hide ListTrends, Elevated, Semantic, ResolveDrift, HasUnresolved;
    ResolvingSpares(s.log, user, subject, who, Subject(record));
    SemanticThen(s.log, Finding(LogId(who, Subject(record), CumulativeSemanticDrift, now), false), user, subject);
  }

  /** An open finding of the kind is one of those listed. */
  lemma {:induction false} OpenIsListed(log: seq<Finding>, user: string, subject: string)
    ensures HasUnresolved(log, user, subject, SemanticDrift) <==>
            exists f <- Semantic(log, user, subject) :: !f.reviewed
    ensures forall f <- log :: f.id.changeType == SemanticDrift && f.id.user == user && f.id.subject == subject ==>
              f in Semantic(log, user, subject)
  {
    if log != [] {
      var n := |log| - 1;
      OpenIsListed(log[..n], user, subject);
      assert log == log[..n] + [log[n]];
      SemanticThen(log[..n], log[n], user, subject);
      if HasUnresolved(log, user, subject, SemanticDrift) {
        var i :| 0 <= i < |log| && Matches(log[i], user, subject, SemanticDrift);
        if i < n {
          assert Matches(log[..n][i], user, subject, SemanticDrift);
        }
      }
      if HasUnresolved(log[..n], user, subject, SemanticDrift) {
        var i :| 0 <= i < n && Matches(log[..n][i], user, subject, SemanticDrift);
        assert Matches(log[i], user, subject, SemanticDrift);
      }
      assert Matches(log[n], user, subject, SemanticDrift) ==> HasUnresolved(log, user, subject, SemanticDrift);
    }
  }

  /** Logging one adds it exactly when none is open; a listed one is open. */
  lemma LoggedOnce(log: seq<Finding>, id: LogId, user: string, subject: string)
    requires id.changeType == SemanticDrift
    requires forall f <- Semantic(log, id.user, id.subject) :: !f.reviewed
    ensures Semantic(LogOnce(log, id), user, subject) ==
            Semantic(log, user, subject)
            + (if id.user == user && id.subject == subject && Semantic(log, user, subject) == []
               then [Finding(id, false)] else [])
  {
    hide Semantic;
    OpenIsListed(log, id.user, id.subject);
    SemanticThen(log, Finding(id, false), user, subject);
    var listed := Semantic(log, id.user, id.subject);
    if listed != [] {
      assert listed[0] in listed;
    }
    if exists i :: 0 <= i < |log| && log[i].id == id {
      var i :| 0 <= i < |log| && log[i].id == id;
      assert log[i] in log;
    }
  }

  /** Whatever the policy and the reviews, a record has one open semantic finding, from its first strong review. */
  lemma {:induction false} StrongReviewsLogged(p: Policy, user: string, evals: seq<Evaluation>, record: string)
    ensures Semantic(After(p, user, evals).log, user, Subject(record)) ==
            match FirstStrong(evals, record, p.floor)
            case None => []
            case Some(t) => [Finding(LogId(user, Subject(record), SemanticDrift, t), false)]
  {
    hide Semantic, DetectCumulative, LogOnce, Subject, RecordTrend;
    if evals == [] {
      assert Semantic([], user, Subject(record)) == [] by { NothingListed(user, Subject(record)); }
    } else {
      var n := |evals| - 1;
      var e, s := evals[n], After(p, user, evals[..n]);
      StrongReviewsLogged(p, user, evals[..n], record);
      StrongReviewsLogged(p, user, evals[..n], e.record);
      var s1 := s.(trends := RecordTrend(s.trends, e.record, e.signal));
      AlarmSpares(p, s1, user, e.record, e.at, user, Subject(record));
      AlarmSpares(p, s1, user, e.record, e.at, user, Subject(e.record));
      SubjectsDiffer(record, e.record);
      if e.signal >= p.floor {
        LoggedOnce(DetectCumulative(p, s1, user, e.record, e.at).log,
                   LogId(user, Subject(e.record), SemanticDrift, e.at), user, Subject(record));
      }
    }
  }

  lemma NothingListed(user: string, subject: string)
    ensures Semantic([], user, subject) == []
  {
  }
}
