/** How far neglect, near misses and access move a claim: half-lives, one step of suppression, a bounded glow. */
module MaintenanceAmounts {
  import opened Wrappers
  import opened C = ClaimStore
  import opened P = MaintenancePolicy
  import opened Maintenance
  import opened MaintenanceConvergence
  import opened MaintenanceDecay

  // ---------- Half-lives ----------

  function HalfLifeDays(c: Category): nat {
    match c case Fact => 90 case Preference => 72 case Relationship => 180 case Procedure => 135
  }

  function Bottom(c: Category): real {
    match c case Fact => 0.2 case Preference => 0.15 case Relationship => 0.3 case Procedure => 0.25
  }

  /** Half of the confidence, but never below the bottom of its category; what is below already stays. */
  function Halved(c: Claim): real {
    if c.confidence <= Bottom(c.category) then c.confidence
    else if c.confidence / 2.0 < Bottom(c.category) then Bottom(c.category) else c.confidence / 2.0
  }

  function Days(n: nat): nat { n * 86_400_000 }

  /** The claim was read within seven days. */
  predicate ReadLately(c: Claim, now: Time) {
    c.lastAccessedAt.Some? && now <= c.lastAccessedAt.value + Days(7)
  }

  lemma BilledDays(now: Time, from: Time, n: nat)
    ensures now == from + Days(n) ==> DaysSince(now, from) == n as real
    ensures DaysSince(now, from) <= n as real <==> now <= from + Days(n)
  {
    if now > from {
      var d := now - from;
      assert d as real / DAY_MS as real * DAY_MS as real == d as real;
      if d <= Days(n) {
        assert d as real <= Days(n) as real;
      }
    }
  }

  /** One half-life of neglect takes half of the confidence. */
  lemma HalfLifeStep(c: Claim, now: Time, lastDecay: Option<Time>, half: real -> real)
    requires half(1.0) == 0.5 && !c.locked && !ReadLately(c, now)
    requires match lastDecay
             case Some(t) => now == t + Days(HalfLifeDays(c.category))
             case None => c.lastAccessedAt.Some?
                          && now == c.lastAccessedAt.value + Days(30 + HalfLifeDays(c.category))
    ensures var next := DecayStep(c, now, lastDecay, half);
            (if next.Some? then next.value else c.confidence) == Halved(c)
  {
    hide DaysSince;
    if c.lastAccessedAt.Some? {
      BilledDays(now, c.lastAccessedAt.value, 7);
      BilledDays(now, c.lastAccessedAt.value, 30 + HalfLifeDays(c.category));
    }
    if lastDecay.Some? {
      BilledDays(now, lastDecay.value, HalfLifeDays(c.category));
    }
    var h := HalfLifeDays(c.category) as real;
    assert HalfLife(c.category) == h && h / h == 1.0;
    assert Billable(c, now, lastDecay) == h;
    assert Times(c.confidence, 0.5) == c.confidence / 2.0;
  }

  /** When neglect starts to count: at the last decay, or thirty days after the last access or else the last write. */
  function NeglectedFrom(c: Claim, lastDecay: Option<Time>): Time {
    if lastDecay.Some? then lastDecay.value
    else Days(30) + (if c.lastAccessedAt.Some? then c.lastAccessedAt.value else c.updatedAt)
  }

  /** A claim decays exactly when it is unlocked, not read lately, neglected, and above the bottom of its category. */
  lemma DecaysExactly(c: Claim, now: Time, lastDecay: Option<Time>, half: real -> real)
    requires HalvingLaws(half)
    ensures DecayStep(c, now, lastDecay, half).Some? <==>
            !c.locked && !ReadLately(c, now) && now > NeglectedFrom(c, lastDecay) && c.confidence > Bottom(c.category)
  {
    hide DaysSince, Times, HalvingLaws, Kept;
    if c.lastAccessedAt.Some? {
      BilledDays(now, c.lastAccessedAt.value, 7);
      BilledDays(now, c.lastAccessedAt.value, 30);
    } else {
      BilledDays(now, c.updatedAt, 30);
    }
    if lastDecay.Some? {
      BilledDays(now, lastDecay.value, 0);
    }
    var days := Billable(c, now, lastDecay);
    assert days > 0.0 <==> now > NeglectedFrom(c, lastDecay);
    if days > 0.0 {
      KeptAdds(days, 1.0, c.category, half);
      if c.confidence > Bottom(c.category) {
        TimesShrinks(c.confidence, Kept(days, c.category, half));
      }
    }
  }

  /** And so it is for a whole pass, over a claim that can do nothing else but decay. */
  lemma PassHalves(env: Env, s: Store, i: ClaimId)
    requires i < |s.claims| && OnlyDecays(s, i) && i in Listed(s.claims) && HalvingLaws(env.half)
    ensures |RunPass(env, s).store.claims| == |s.claims|
    ensures var c, c' := s.claims[i], RunPass(env, s).store.claims[i];
            ReadLately(c, env.now) || env.now <= NeglectedFrom(c, LastDecay(s, i)) || c.confidence <= Bottom(c.category)
            ==> c'.confidence == c.confidence
    ensures var c, c', due := s.claims[i], RunPass(env, s).store.claims[i],
            NeglectedFrom(s.claims[i], LastDecay(s, i)) + Days(HalfLifeDays(s.claims[i].category));
            env.half(1.0) == 0.5 && !ReadLately(c, env.now) && env.now == due ==> c'.confidence == Halved(c)
  {
    hide RunPass, DecayStep, HalvingLaws, Latest, Listed;
    var c := s.claims[i];
    PassTicks(env, s, i);
    assert c.(confidence := c.confidence) == c;
    DecaysExactly(c, env.now, LastDecay(s, i), env.half);
    if env.half(1.0) == 0.5 && !ReadLately(c, env.now)
       && env.now == NeglectedFrom(c, LastDecay(s, i)) + Days(HalfLifeDays(c.category)) {
      HalfLifeStep(c, env.now, LastDecay(s, i), env.half);
    }
  }

  // ---------- Suppression ----------

  /** The claim has not been suppressed since the time given. */
  predicate NotSince(s: Store, i: ClaimId, at: Time) {
    var latest := Latest(s.history, i, IsSuppress);
    latest.None? || latest.value.at < at
  }

  /** A tenth less, but not below zero. */
  function Dimmed(activation: Option<real>): Option<real> {
    match activation
    case None => None
    case Some(a) => if a <= 0.0 then Some(a) else if a < 0.1 then Some(0.0) else Some(a - 0.1)
  }

  /** One step if it was due and there is something to lose, none otherwise. */
  ghost predicate SuppressedIf(env: Env, s: Store, s': Store, i: ClaimId, due: bool) {
    && |s'.claims| == |s.claims|
    && (i < |s.claims| ==>
          if due && s.claims[i].activation.Some? && s.claims[i].activation.value > 0.0
          then
            && s'.claims[i].activation == Dimmed(s.claims[i].activation)
            && Latest(s'.history, i, IsSuppress) == Some(Row(i, Suppressed, env.now))
          else
            && s'.claims[i].activation == s.claims[i].activation
            && Latest(s'.history, i, IsSuppress) == Latest(s.history, i, IsSuppress))
  }

  lemma OneSuppressed(env: Env, s: Store, id: ClaimId, at: Time, i: ClaimId)
    ensures SuppressedIf(env, s, SuppressOne(env, s, id, at), i, id == i && NotSince(s, i, at))
  {
    LatestsAfter(s.history, Row(id, Suppressed, env.now), i);
    hide Latest;
  }

  lemma {:induction false} RowsSuppressed(env: Env, s: Store, ids: seq<ClaimId>, at: Time, i: ClaimId)
    requires at <= env.now
    ensures SuppressedIf(env, s, SuppressRows(env, s, ids, at), i, i in ids && NotSince(s, i, at))
    decreases ids
  {
    hide SuppressOne, Latest, Dimmed;
    if ids != [] {
      OneSuppressed(env, s, ids[0], at, i);
      RowsSuppressed(env, SuppressOne(env, s, ids[0], at), ids[1..], at, i);
      assert i in ids <==> i == ids[0] || i in ids[1..];
    }
  }

  /** Some trace saw the claim as a near miss after its last suppression. */
  predicate NearMiss(s: Store, i: ClaimId, traces: seq<Trace>) {
    exists k :: 0 <= k < |traces| && i in traces[k].familiar && NotSince(s, i, traces[k].at)
  }

  lemma {:induction false} TracesSuppressed(env: Env, s: Store, traces: seq<Trace>, i: ClaimId)
    requires forall k :: 0 <= k < |traces| ==> traces[k].at <= env.now
    ensures SuppressedIf(env, s, SuppressFromTraces(env, s, traces), i, NearMiss(s, i, traces))
    decreases traces
  {
    hide SuppressRows, Latest, Dimmed;
    if traces != [] {
      var t := traces[0];
      var s1 := SuppressRows(env, s, t.familiar, t.at);
      RowsSuppressed(env, s, t.familiar, t.at, i);
      TracesSuppressed(env, s1, traces[1..], i);
      assert NearMiss(s, i, traces) <==> (i in t.familiar && NotSince(s, i, t.at)) || NearMiss(s, i, traces[1..]) by {
        if NearMiss(s, i, traces[1..]) {
          var k :| 0 <= k < |traces| - 1 && i in traces[1..][k].familiar && NotSince(s, i, traces[1..][k].at);
          assert traces[k + 1] == traces[1..][k];
        }
        if NearMiss(s, i, traces) {
          var k :| 0 <= k < |traces| && i in traces[k].familiar && NotSince(s, i, traces[k].at);
          assert k > 0 ==> traces[1..][k - 1] == traces[k];
        }
      }
    }
  }

  /**
   * However many stored traces list a claim as a near miss, their suppression lowers its activation by one step, and
   * taking it again at the same time lowers nothing.
   */
  lemma SuppressedOnce(env: Env, s: Store, i: ClaimId)
    requires i < |s.claims| && forall k :: 0 <= k < |env.traces| ==> env.traces[k].at <= env.now
    ensures var s' := SuppressFromTraces(env, s, env.traces);
            && |s'.claims| == |s.claims|
            && s'.claims[i].activation ==
               (if NearMiss(s, i, env.traces) then Dimmed(s.claims[i].activation) else s.claims[i].activation)
            && |SuppressFromTraces(env, s', env.traces).claims| == |s.claims|
            && (s'.claims[i].activation != s.claims[i].activation ==>
                  SuppressFromTraces(env, s', env.traces).claims[i].activation == s'.claims[i].activation)
  {
    hide SuppressFromTraces;
    TracesSuppressed(env, s, env.traces, i);
    TracesSuppressed(env, SuppressFromTraces(env, s, env.traces), env.traces, i);
  }
}
