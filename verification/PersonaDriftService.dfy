/** The drift service and the tables behind it, stepping as `DriftAlarm` says. */
module PersonaDriftServices {
  import opened Wrappers
  import opened DriftAlarm
  import D = Distributions
  import S = PersonaSemantic

  function Clamped(x: real): real {
    if x < 0.0 then 0.0 else if x > 1.0 then 1.0 else x
  }

  /** The signal of a change: the embeddings decide where there are any, the token counts otherwise. */
  ghost function SignalOf(root: real -> real, tokens: S.Tokenizer, previous: string, next: string,
                          embedding: Option<real>): S.Number {
    if embedding.Some? then S.Num(Clamped(1.0 - embedding.value)) else S.Signal(root, tokens, previous, next)
  }

  /** Neither text has a token every object inherits. */
  predicate Countable(tokens: S.Tokenizer, previous: string, next: string) {
    S.Clean(tokens(previous)) && S.Clean(tokens(next))
  }

  /** Every change that gets as far as the trend table has a signal between 0 and 1. */
  lemma SignalInRange(root: real -> real, tokens: S.Tokenizer, previous: string, next: string, embedding: Option<real>)
    requires D.IsRoot(root) && Countable(tokens, previous, next)
    ensures var s := SignalOf(root, tokens, previous, next, embedding); s.Num? && 0.0 <= s.x <= 1.0
  {
    hide S.Signal, S.Clean, D.IsRoot;
    S.SignalRange(root, tokens, previous, next);
  }

  class PersonaRepository {
    var trends: seq<Trend>
    var log: seq<Finding>

    function Now(): Store
      reads this
    {
      Store(trends, log)
    }

    constructor ()
      ensures Now() == Store([], [])
    {
      trends, log := [], [];
    }

    method RecordDriftTrend(record: string, signal: real)
      modifies this`trends
      ensures trends == RecordTrend(old(trends), record, signal)
    {
      trends := trends + [Trend(record, LastCycle(trends, record) + 1, signal)];
    }

    method HasUnresolvedDrift(user: string, subject: string, t: ChangeType) returns (present: bool)
      ensures present == HasUnresolved(log, user, subject, t)
    {
      var i := 0;
      while i < |log|
        invariant 0 <= i <= |log| && forall k :: 0 <= k < i ==> !Matches(log[k], user, subject, t)
      {
        if Matches(log[i], user, subject, t) {
          return true;
        }
        i := i + 1;
      }
      present := false;
    }

    /** The update statement; it reports how many rows it changed. */
    method ResolveDrift(user: string, subject: string, t: ChangeType) returns (changes: nat)
      modifies this`log
      ensures log == DriftAlarm.ResolveDrift(old(log), user, subject, t) && changes == Open(old(log), user, subject, t)
    {
      var rows;
      rows, changes := Resolved(log, user, subject, t);
      log := rows;
    }

    static method Resolved(was: seq<Finding>, user: string, subject: string, t: ChangeType)
      returns (rows: seq<Finding>, changes: nat)
      ensures rows == DriftAlarm.ResolveDrift(was, user, subject, t) && changes == Open(was, user, subject, t)
    {
      hide Matches;
      rows, changes := [], 0;
      while |rows| < |was|
        invariant |rows| <= |was|
        invariant forall k :: 0 <= k < |rows| ==>
                    rows[k] == if Matches(was[k], user, subject, t) then was[k].(reviewed := true) else was[k]
        invariant changes == Open(was[..|rows|], user, subject, t)
      {
        var i := |rows|;
        assert was[..i + 1][..i] == was[..i];
        if Matches(was[i], user, subject, t) {
          rows, changes := rows + [was[i].(reviewed := true)], changes + 1;
        } else {
          rows := rows + [was[i]];
        }
      }
      assert was[..|rows|] == was;
    }

    method LogDrift(id: LogId)
      modifies this`log
      ensures log == DriftAlarm.LogDrift(old(log), id)
    {
      if forall i :: 0 <= i < |log| ==> log[i].id != id {
        log := log + [Finding(id, false)];
      }
    }
  }

  class PersonaDriftService {
    const repository: PersonaRepository
    const policy: Policy
    const user: string

    constructor (repository: PersonaRepository, policy: Policy, user: string)
      ensures this.repository == repository && this.policy == policy && this.user == user
    {
      this.repository, this.policy, this.user := repository, policy, user;
    }

    /**
     * One review of a record's text. An unchanged text leaves no trace; a measure that is no number is refused by the
     * trend table, before anything is written.
     */
    method EvaluateTexts(root: real -> real, tokens: S.Tokenizer, record: string, previous: string, next: string,
                         embedding: Option<real>, now: Time)
      returns (refused: bool)
      modifies repository
      ensures refused <==> previous != next && !Countable(tokens, previous, next)
      ensures refused || previous == next ==> repository.Now() == old(repository.Now())
      ensures !refused && previous != next ==>
                var s := SignalOf(root, tokens, previous, next, embedding);
                s.Num? && repository.Now() == Evaluate(policy, old(repository.Now()), user, record, s.x, now)
    {
      hide Evaluate, S.Clean, D.Cosine, D.Wasserstein;
      var comparison := S.CompareContent(root, tokens, previous, next);
      if comparison.identical {
        return false;
      }
      var signal := if embedding.Some? then S.Num(Clamped(1.0 - embedding.value)) else comparison.signal;
      if comparison.cosine.NaN? || comparison.wasserstein.NaN? || signal.NaN? {
        return true;
      }
      EvaluateSemanticChange(record, signal.x, now);
      refused := false;
    }

    /** A changed text whose distance is `signal`. */
    method EvaluateSemanticChange(record: string, signal: real, now: Time)
      modifies repository
      ensures repository.Now() == Evaluate(policy, old(repository.Now()), user, record, signal, now)
    {
      hide DetectCumulative, DriftAlarm.LogOnce, RecordTrend;
      repository.RecordDriftTrend(record, signal);
      DetectCumulativeDrift(record, now);
      if signal >= policy.floor {
        LogOnce(LogId(user, Subject(record), SemanticDrift, now));
      }
    }

    method DetectCumulativeDrift(record: string, now: Time)
      modifies repository
      ensures repository.Now() == DetectCumulative(policy, old(repository.Now()), user, record, now)
    {
      hide ListTrends, DriftAlarm.LogOnce, DriftAlarm.ResolveDrift;
      var trends := ListTrends(repository.trends, record, TREND_LIMIT);
      var elevated := CountElevated(trends);
      if elevated < policy.minCycles {
        if (if |trends| > 0 then trends[0].signal else 0.0) < policy.floor {
          var _ := repository.ResolveDrift(user, Subject(record), CumulativeSemanticDrift);
        }
      } else {
        LogOnce(LogId(user, Subject(record), CumulativeSemanticDrift, now));
      }
    }

    /** The elevated trends before the first one below the floor. */
    method CountElevated(trends: seq<Trend>) returns (n: nat)
      ensures n == Elevated(trends, policy.floor)
    {
      n := 0;
      while n < |trends| && trends[n].signal >= policy.floor
        invariant n <= |trends| && Elevated(trends, policy.floor) == n + Elevated(trends[n..], policy.floor)
      {
        assert trends[n..][1..] == trends[n + 1..];
        n := n + 1;
      }
    }

    method LogOnce(id: LogId)
      modifies repository
      ensures repository.log == DriftAlarm.LogOnce(old(repository.log), id)
              && repository.trends == old(repository.trends)
    {
      var present := repository.HasUnresolvedDrift(id.user, id.subject, id.changeType);
      if !present {
        repository.LogDrift(id);
      }
    }
  }
}
