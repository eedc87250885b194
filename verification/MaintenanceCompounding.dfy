/** How much corroboration is worth: one bounded step per claim, however many passes run. */
module MaintenanceCompounding {
  import opened Wrappers
  import opened C = ClaimStore
  import opened P = MaintenancePolicy
  import opened MaintenanceRevision
  import opened Maintenance
  import opened MaintenanceConvergence
  import opened MaintenanceRest
  import opened MaintenanceDecay

  /** Two hundredths for each of up to five observations, dampened when an agent said it. */
  function Worth(c: Claim, dampening: real): real {
    0.02 * (if c.timesObserved > 5 then 5 else c.timesObserved) as real
    * (if c.origin == AgentOrigin then dampening else 1.0)
  }

  function Lesser(x: real, y: real): real { if x <= y then x else y }

  predicate Observed(s: Store, i: ClaimId)
    requires i < |s.claims|
  {
    CorroborationApplied(s, i, s.claims[i].timesObserved)
  }

  /** Observed again since it last compounded, below the ceiling, and with something to gain. */
  predicate Due(s: Store, i: ClaimId, dampening: real)
    requires i < |s.claims|
  {
    var c := s.claims[i];
    c.timesObserved >= 2 && c.confidence < 0.99 && !Observed(s, i) && Worth(c, dampening) > 0.0
  }

  /** The rung applies when it is due, and then adds the worth of the observations or what is left below the ceiling. */
  lemma CompoundAdds(env: Env, s: Store, id: ClaimId)
    requires id < |s.claims|
    ensures var c, r := s.claims[id], Compound(env, s, id, s.claims[id]);
            && (r.Some? <==> Due(s, id, env.dampening))
            && (r.Some? ==>
                  && |r.value.claims| == |s.claims|
                  && r.value.claims[id].confidence - c.confidence ==
                      Lesser(0.99 - c.confidence, Worth(c, env.dampening))
                  && r.value.claims ==
                     s.claims[id := c.(confidence := r.value.claims[id].confidence, updatedAt := env.now)]
                  && r.value.history == s.history + [Row(id, Compounded(c.timesObserved), env.now)])
  {
  }

  /** Dampened by a fraction, an agent's claim gains no more than the same claim of a user would. */
  lemma AgentGainsLess(env: Env, s: Store, id: ClaimId)
    requires id < |s.claims| && 0.0 <= env.dampening <= 1.0 && s.claims[id].origin == AgentOrigin
    ensures var user := s.(claims := s.claims[id := s.claims[id].(origin := UserOrigin)]);
            var a, u := Compound(env, s, id, s.claims[id]), Compound(env, user, id, user.claims[id]);
            a.Some? ==> u.Some? && a.value.claims[id].confidence <= u.value.claims[id].confidence
  {
    hide Compound, Latest;
    var user := s.(claims := s.claims[id := s.claims[id].(origin := UserOrigin)]);
    CompoundAdds(env, s, id);
    CompoundAdds(env, user, id);
    Dampened(s.claims[id], env.dampening);
  }

  lemma Dampened(c: Claim, dampening: real)
    requires dampening <= 1.0 && c.origin == AgentOrigin
    ensures Worth(c, dampening) <= Worth(c.(origin := UserOrigin), dampening)
  {
    var n := 0.02 * (if c.timesObserved > 5 then 5 else c.timesObserved) as real;
    assert n * (1.0 - dampening) >= 0.0;
    assert n * (1.0 - dampening) == n - n * dampening;
  }

  // ---------- A visit, a pass ----------

  /** The claim as before, its due step taken; nothing gained where none was due. */
  ghost predicate Stepped(s: Store, s': Store, i: ClaimId, dampening: real)
    requires i < |s.claims|
  {
    && i < |s'.claims|
    && s'.claims[i].timesObserved == s.claims[i].timesObserved && s'.claims[i].origin == s.claims[i].origin
    && (if Due(s, i, dampening)
        then
          Observed(s', i)
          && s'.claims[i].confidence - s.claims[i].confidence ==
             Lesser(0.99 - s.claims[i].confidence, Worth(s.claims[i], dampening))
        else (Observed(s', i) <==> Observed(s, i)) && s'.claims[i].confidence <= s.claims[i].confidence)
  }

  lemma ClockKeepsDue(s: Store, s': Store, i: ClaimId, dampening: real)
    requires i < |s.claims| && SameClock(s, s', i)
    ensures Due(s', i, dampening) <==> Due(s, i, dampening)
    ensures Observed(s', i) <==> Observed(s, i)
    ensures Worth(s'.claims[i], dampening) == Worth(s.claims[i], dampening)
  {
    hide Latest;
  }

  lemma StepsAfter(s0: Store, s: Store, s': Store, i: ClaimId, dampening: real)
    requires i < |s0.claims| && SameClock(s0, s, i) && Stepped(s, s', i, dampening)
    ensures Stepped(s0, s', i, dampening)
  {
    hide Latest, Worth;
    ClockKeepsDue(s0, s, i, dampening);
  }

  lemma StepsBefore(s: Store, s': Store, s1: Store, i: ClaimId, dampening: real)
    requires i < |s.claims| && Stepped(s, s', i, dampening) && SameClock(s', s1, i)
    ensures Stepped(s, s1, i, dampening)
  {
    hide Latest, Worth;
    ClockKeepsDue(s', s1, i, dampening);
  }

  lemma OwnStep(env: Env, s: Store, i: ClaimId, c: Claim, family: set<ClaimId>)
    requires i < |s.claims| && SameCore(s.claims[i], c)
    ensures Stepped(s, MaintainOne(env, s, i, c, family).0, i, env.dampening)
  {
    hide Rung, Compound, Decay, LinkCounterparts, ProposeGist, Revise, Activate, Classify, Latest, MaintainOne,
         MaintainLock, Worth, CorroborationApplied;
    FirstRung(env, s, i, c, family);
    OwnRung(env, s, i, c, family);
    CompoundOfListed(env, s, i, c);
    if Compound(env, s, i, s.claims[i]).Some? {
      CompoundStep(env, s, i);
    }
    CompoundAdds(env, s, i);
    var (s', outcome) := MaintainOne(env, s, i, c, family);
    if outcome == DidDecay {
      DecayNoStep(env, s, i, c);
    } else if outcome == DidLock {
      LockNoStep(env, s, i, c);
    } else if outcome != DidCompound && outcome != DidSkip {
      RungKeepsClock(env, s, i, c, family, outcome, i);
      ClockKeepsDue(s, s', i, env.dampening);
    }
  }

  lemma OwnRung(env: Env, s: Store, i: ClaimId, c: Claim, family: set<ClaimId>)
    requires i < |s.claims|
    ensures var (s', outcome) := MaintainOne(env, s, i, c, family);
            if outcome == DidSkip then s' == s else Rung(env, s, i, c, family, outcome) == Some(s')
    ensures Rung(env, s, i, c, family, DidCompound) == Compound(env, s, i, c)
    ensures Rung(env, s, i, c, family, DidDecay) == Decay(env, s, i, c)
    ensures Rung(env, s, i, c, family, DidLock) == MaintainLock(env, s, i, c)
  {
    hide Compound, Decay, LinkCounterparts, ProposeGist, Revise, Activate, Classify, MaintainLock;
  }

  /** The rung reads of the listed claim what the claim still is. */
  lemma CompoundOfListed(env: Env, s: Store, i: ClaimId, c: Claim)
    requires i < |s.claims| && SameCore(s.claims[i], c)
    ensures Compound(env, s, i, c) == Compound(env, s, i, s.claims[i])
  {
    hide Latest, CompoundConfidence;
  }

  lemma CompoundStep(env: Env, s: Store, i: ClaimId)
    requires i < |s.claims| && Compound(env, s, i, s.claims[i]).Some?
    ensures Stepped(s, Compound(env, s, i, s.claims[i]).value, i, env.dampening)
  {
    hide Latest, Worth, Compound;
    CompoundAdds(env, s, i);
    LatestsAfter(s.history, Row(i, Compounded(s.claims[i].timesObserved), env.now), i);
  }

  lemma DecayNoStep(env: Env, s: Store, i: ClaimId, c: Claim)
    requires i < |s.claims| && SameCore(s.claims[i], c) && Decay(env, s, i, c).Some?
    ensures var s' := Decay(env, s, i, c).value;
            && |s'.claims| == |s.claims| && s'.claims[i].confidence <= s.claims[i].confidence
            && s'.claims[i].timesObserved == s.claims[i].timesObserved && s'.claims[i].origin == s.claims[i].origin
            && (Observed(s', i) <==> Observed(s, i))
  {
    hide Latest, DecayStep;
    StepLowers(c, env.now, LastDecay(s, i), env.half);
    LatestsAfter(s.history, Row(i, DecayedBy, env.now), i);
  }

  lemma LockNoStep(env: Env, s: Store, i: ClaimId, c: Claim)
    requires i < |s.claims| && MaintainLock(env, s, i, c).Some?
    ensures var s' := MaintainLock(env, s, i, c).value;
            && |s'.claims| == |s.claims| && s'.claims[i].confidence == s.claims[i].confidence
            && s'.claims[i].timesObserved == s.claims[i].timesObserved && s'.claims[i].origin == s.claims[i].origin
            && (Observed(s', i) <==> Observed(s, i))
  {
    hide Latest;
    LatestsAfter(s.history, Row(i, Unlocked, env.now), i);
    LatestsAfter(s.history, Row(i, LockedUp, env.now), i);
  }

  lemma StillThere(s: Store, s': Store, i: ClaimId, dampening: real)
    requires i < |s.claims| && Stepped(s, s', i, dampening)
    ensures i < |s'.claims|
  {
    hide Due, Observed, Worth;
  }

  lemma {:induction false} EachSteps(env: Env, snapshot: seq<Claim>, s: Store, ids: seq<ClaimId>, i: ClaimId)
    requires InTable(snapshot, ids) && Distinct(ids) && i in ids && i < |s.claims| && SameCore(s.claims[i], snapshot[i])
    ensures Stepped(s, MaintainEach(env, snapshot, s, ids).0, i, env.dampening)
    decreases ids
  {
    hide MaintainOne, Family, Due, Observed, Latest, Stepped;
    assert i == ids[0] || i in ids[1..];
    if ids[0] >= |s.claims| {
      EachSteps(env, snapshot, s, ids[1..], i);
    } else {
      var family := Family(snapshot, snapshot[ids[0]]);
      var s1 := MaintainOne(env, s, ids[0], snapshot[ids[0]], family).0;
      var s' := MaintainEach(env, snapshot, s1, ids[1..]).0;
      if ids[0] == i {
        OwnStep(env, s, i, snapshot[i], family);
        StillThere(s, s1, i, env.dampening);
        OthersKeepClock(env, snapshot, s1, ids[1..], i);
        StepsBefore(s, s1, s', i, env.dampening);
      } else {
        OtherVisit(env, s, ids[0], snapshot[ids[0]], family, i);
        EachSteps(env, snapshot, s1, ids[1..], i);
        StepsAfter(s, s1, s', i, env.dampening);
      }
    }
  }

  /** A pass takes the due step of every listed claim, and raises no other confidence. */
  lemma PassCompounds(env: Env, s: Store, i: ClaimId)
    requires i < |s.claims|
    ensures var s' := RunPass(env, s).store;
            if i in Listed(s.claims) then Stepped(s, s', i, env.dampening)
            else SameClock(s, s', i)
  {
    hide MaintainEach, SuppressFromTraces, Latest, Stepped;
    SuppressKeepsLength(env, s);
    var s0 := SuppressFromTraces(env, s, env.traces);
    TracesKeepClock(env, s, env.traces, i);
    assert Listed(s0.claims) == Listed(s.claims);
    if i in Listed(s.claims) {
      CoreItself(s0.claims[i]);
      EachSteps(env, s0.claims, s0, Listed(s0.claims), i);
      StepsAfter(s, s0, RunPass(env, s).store, i, env.dampening);
    } else {
      OthersKeepClock(env, s0.claims, s0, Listed(s0.claims), i);
      ClockTransitive(s, s0, RunPass(env, s).store, i);
    }
  }

  // ---------- Many passes ----------

  function Greater(x: real, y: real): real { if x >= y then x else y }

  /** The highest confidence corroboration can have lifted the claim to. */
  function Summit(c: Claim, dampening: real): real {
    Greater(c.confidence, Lesser(0.99, c.confidence + Worth(c, dampening)))
  }

  /** At most one step since: none before the observations were answered, and none again. */
  ghost predicate OneStep(s: Store, s': Store, i: ClaimId, dampening: real)
    requires i < |s.claims|
  {
    && i < |s'.claims|
    && s'.claims[i].timesObserved == s.claims[i].timesObserved && s'.claims[i].origin == s.claims[i].origin
    && (Observed(s, i) ==> Observed(s', i))
    && (Observed(s, i) || !Observed(s', i) ==> s'.claims[i].confidence <= s.claims[i].confidence)
    && s'.claims[i].confidence <= Summit(s.claims[i], dampening)
  }

  lemma OneStepOn(s: Store, s1: Store, s': Store, i: ClaimId, dampening: real)
    requires i < |s.claims| && OneStep(s, s1, i, dampening) && OneStep(s1, s', i, dampening)
    ensures OneStep(s, s', i, dampening)
  {
    hide Observed;
  }

  lemma PassIsOneStep(env: Env, s: Store, i: ClaimId, dampening: real)
    requires i < |s.claims| && env.dampening <= dampening
    ensures OneStep(s, RunPass(env, s).store, i, dampening)
  {
    hide RunPass, CorroborationApplied, Latest;
    PassCompounds(env, s, i);
    WorthRises(s.claims[i], env.dampening, dampening);
    if i !in Listed(s.claims) {
      ClockKeepsDue(s, RunPass(env, s).store, i, dampening);
    }
  }

  lemma WorthRises(c: Claim, x: real, y: real)
    requires x <= y
    ensures Worth(c, x) <= Worth(c, y)
  {
    var n := 0.02 * (if c.timesObserved > 5 then 5 else c.timesObserved) as real;
    assert n * (y - x) >= 0.0;
    assert n * (y - x) == n * y - n * x;
  }

  /**
   * No ratchet to certainty: as maintenance observes nothing itself, any number of passes lifts a claim by at most one
   * step, and by none if its observations have compounded before.
   */
  lemma {:induction false} CompoundsOnce(envs: seq<Env>, s: Store, i: ClaimId, dampening: real)
    requires i < |s.claims| && forall k :: 0 <= k < |envs| ==> envs[k].dampening <= dampening
    ensures OneStep(s, RunPasses(envs, s), i, dampening)
  {
    hide RunPass, OneStep, Observed;
    if envs == [] {
      NoStep(s, i, dampening);
    } else {
      var n := |envs| - 1;
      var rest := RunPasses(envs[..n], s);
      CompoundsOnce(envs[..n], s, i, dampening);
      OneStepInTable(s, rest, i, dampening);
      PassIsOneStep(envs[n], rest, i, dampening);
      OneStepOn(s, rest, RunPass(envs[n], rest).store, i, dampening);
    }
  }

  lemma NoStep(s: Store, i: ClaimId, dampening: real)
    requires i < |s.claims|
    ensures OneStep(s, s, i, dampening)
  {
  }

  lemma OneStepInTable(s: Store, s': Store, i: ClaimId, dampening: real)
    requires i < |s.claims| && OneStep(s, s', i, dampening)
    ensures i < |s'.claims|
  {
  }
}
