/** Decay over whole passes: when their frequency does not matter, and that a fresh claim's grace restarts. */
module MaintenanceDecay {
  import opened Wrappers
  import opened C = ClaimStore
  import opened P = MaintenancePolicy
  import opened MaintenanceRevision
  import opened Maintenance
  import opened MaintenanceConvergence
  import opened MaintenanceRest
  import opened MaintenanceWrites

  // ---------- What moves a claim's decay ----------

  /** The columns and rows decay and compounding read, all but the time of the last write. */
  ghost predicate SameClock(s: Store, s': Store, i: ClaimId)
    requires i < |s.claims|
  {
    && i < |s'.claims|
    && SameCore(s.claims[i], s'.claims[i])
    && Latest(s'.history, i, IsDecay) == Latest(s.history, i, IsDecay)
    && Latest(s'.history, i, IsCompound) == Latest(s.history, i, IsCompound)
  }

  predicate SameCore(c: Claim, c': Claim) {
    && c'.confidence == c.confidence && c'.locked == c.locked && c'.category == c.category
    && c'.lastAccessedAt == c.lastAccessedAt && c'.timesObserved == c.timesObserved && c'.origin == c.origin
  }

  function ClockOf(s: Store, i: ClaimId): Clock
    requires i < |s.claims|
  {
    Clock(s.claims[i].confidence, LastDecay(s, i))
  }

  /** Nothing but decay can move the confidence, and decay no longer reads the time of the last write. */
  predicate OnlyDecays(s: Store, i: ClaimId)
    requires i < |s.claims|
  {
    var c := s.claims[i];
    && !c.locked && !Strong(c)
    && (c.timesObserved <= 1 || CorroborationApplied(s, i, c.timesObserved))
    && (c.lastAccessedAt.Some? || LastDecay(s, i).Some?)
  }

  lemma RowOfAnother(h: seq<Row>, row: Row, i: ClaimId)
    requires row.claimId != i || !(row.step.DecayedBy? || row.step.Compounded?)
    ensures Latest(h + [row], i, IsDecay) == Latest(h, i, IsDecay)
            && Latest(h + [row], i, IsCompound) == Latest(h, i, IsCompound)
  {
    LatestsAfter(h, row, i);
  }

  lemma RelatedKeepsClock(s: Store, id: ClaimId, more: seq<ClaimId>, now: Time, i: ClaimId)
    requires i < |s.claims|
    ensures SameClock(s, Related(s, id, more, now), i)
  {
  }

  lemma {:induction false} SettleKeepsClock(env: Env, s: Store, contenders: seq<ClaimId>, w: ClaimId, i: ClaimId)
    requires i < |s.claims|
    ensures SameClock(s, SettleContenders(env, s, contenders, w).0, i)
    decreases contenders
  {
    hide Related, Latest;
    if contenders != [] {
      var x := contenders[0];
      if x == w {
        RowOfAnother(s.history, Row(w, Affirmed, env.now), i);
        SettleKeepsClock(env, Log(s, w, Affirmed, env.now), contenders[1..], w, i);
      } else {
        match SetStatus(s.claims, x, Contradicted, env.now)
        case None =>
          SettleKeepsClock(env, s, contenders[1..], w, i);
        case Some(claims) =>
          var s1 := Log(s.(claims := claims), x, Superseded(w), env.now);
          RowOfAnother(s.history, Row(x, Superseded(w), env.now), i);
          var s2 := Related(s1, x, [w], env.now);
          RelatedKeepsClock(s1, x, [w], env.now, i);
          RelatedKeepsClock(s2, w, [x], env.now, i);
          SettleKeepsClock(env, Related(s2, w, [x], env.now), contenders[1..], w, i);
      }
    }
  }

  lemma {:induction false} SpreadKeepsClock(env: Env, s: Store, neighbors: seq<ClaimId>, share: real, i: ClaimId)
    requires i < |s.claims|
    ensures SameClock(s, Spread(env, s, neighbors, share), i)
    decreases neighbors
  {
    hide Latest;
    if neighbors != [] {
      if neighbors[0] >= |s.claims| {
        SpreadKeepsClock(env, s, neighbors[1..], share, i);
      } else {
        var a := s.claims[neighbors[0]].activation;
        var boosted := Min(1.0, (if a.Some? then a.value else 0.0) + share);
        var s1 := Log(SetActivation(s, neighbors[0], boosted, env.now), neighbors[0], Activated(None), env.now);
        RowOfAnother(s.history, Row(neighbors[0], Activated(None), env.now), i);
        SpreadKeepsClock(env, s1, neighbors[1..], share, i);
      }
    }
  }

  lemma ReviseKeepsClock(env: Env, s: Store, id: ClaimId, i: ClaimId)
    requires id < |s.claims| && i < |s.claims| && Revise(env, s, id).Some?
    ensures SameClock(s, Revise(env, s, id).value, i)
  {
    hide SettleContenders, Related, SessionMates, ActiveRivals, Latest;
    var contenders := [id] + ActiveRivals(s.claims, id);
    var w := PickRevisionWinner(s.claims, contenders);
    var s1 := SettleContenders(env, s, contenders, w).0;
    SettleKeepsClock(env, s, contenders, w, i);
    RelatedKeepsClock(s1, w, SessionMates(env, s.claims, contenders, Listed(s.claims), 5), env.now, i);
  }

  lemma ActivateKeepsClock(env: Env, s: Store, id: ClaimId, c: Claim, i: ClaimId)
    requires id < |s.claims| && i < |s.claims| && Activate(env, s, id, c).Some?
    ensures SameClock(s, Activate(env, s, id, c).value, i)
  {
    hide Latest, Spread;
    var s1 := Log(SetActivation(s, id, ActivationBoost(c.activation), env.now), id, Activated(c.lastAccessedAt),
                  env.now);
    RowOfAnother(s.history, Row(id, Activated(c.lastAccessedAt), env.now), i);
    RowOfAnother(s.history, Row(id, Activated(None), env.now), i);
    SpreadKeepsClock(env, s1, Neighbors(c), SpreadShare(|c.related|), i);
  }

  lemma LinkKeepsClock(env: Env, s: Store, id: ClaimId, c: Claim, i: ClaimId)
    requires id < |s.claims| && i < |s.claims| && LinkCounterparts(env, s, id, c).Some?
    ensures SameClock(s, LinkCounterparts(env, s, id, c).value, i)
  {
    hide Latest, Related;
    var unlinked := Without(Counterparts(env.journal, id), c.related);
    RelatedKeepsClock(s, id, unlinked, env.now, i);
    RowOfAnother(Related(s, id, unlinked, env.now).history, Row(id, Linked(unlinked), env.now), i);
  }

  predicate OfItsOwn(which: Outcome) {
    which == DidCompound || which == DidDecay || which == DidLock
  }

  /** Only the claim's own visit compounds, decays or locks it. */
  lemma RungKeepsClock(env: Env, s: Store, id: ClaimId, c: Claim, family: set<ClaimId>, which: Outcome, i: ClaimId)
    requires id < |s.claims| && i < |s.claims| && Rung(env, s, id, c, family, which).Some?
    requires id == i ==> !OfItsOwn(which)
    ensures SameClock(s, Rung(env, s, id, c, family, which).value, i)
  {
    hide Latest, Revise, Activate, LinkCounterparts, CompoundConfidence, DecayStep;
    match which
    case DidCompound => RowOfAnother(s.history, Row(id, Compounded(c.timesObserved), env.now), i);
    case DidDecay => RowOfAnother(s.history, Row(id, DecayedBy, env.now), i);
    case DidLink => LinkKeepsClock(env, s, id, c, i);
    case DidProposeGist => RowOfAnother(s.history, Row(id, GistProposed(family - {id}), env.now), i);
    case DidRevise => ReviseKeepsClock(env, s, id, i);
    case DidLock =>
      RowOfAnother(s.history, Row(id, LockedUp, env.now), i);
      RowOfAnother(s.history, Row(id, Unlocked, env.now), i);
    case DidActivate => ActivateKeepsClock(env, s, id, c, i);
    case DidClassify => RowOfAnother(s.history, Row(id, Classified, env.now), i);
    case DidSkip =>
  }

  lemma OtherVisit(env: Env, s: Store, id: ClaimId, c: Claim, family: set<ClaimId>, i: ClaimId)
    requires id < |s.claims| && i < |s.claims| && id != i
    ensures SameClock(s, MaintainOne(env, s, id, c, family).0, i)
  {
    hide Rung, Latest;
    var outcome := MaintainOne(env, s, id, c, family).1;
    if outcome != DidSkip {
      RungKeepsClock(env, s, id, c, family, outcome, i);
    }
  }

  lemma ClockTransitive(a: Store, b: Store, c: Store, i: ClaimId)
    requires i < |a.claims| && SameClock(a, b, i) && SameClock(b, c, i)
    ensures SameClock(a, c, i)
  {
    hide Latest;
  }

  lemma {:induction false} OthersKeepClock(env: Env, snapshot: seq<Claim>, s: Store, ids: seq<ClaimId>, i: ClaimId)
    requires InTable(snapshot, ids) && i < |s.claims| && i !in ids
    ensures SameClock(s, MaintainEach(env, snapshot, s, ids).0, i)
    decreases ids
  {
    hide MaintainOne, Family, Latest, SameCore;
    if ids == [] {
      assert SameCore(s.claims[i], s.claims[i]) by { CoreItself(s.claims[i]); }
    } else {
      assert ids[0] != i && i !in ids[1..];
      if ids[0] >= |s.claims| {
        OthersKeepClock(env, snapshot, s, ids[1..], i);
      } else {
        var family := Family(snapshot, snapshot[ids[0]]);
        var s1 := MaintainOne(env, s, ids[0], snapshot[ids[0]], family).0;
        OtherVisit(env, s, ids[0], snapshot[ids[0]], family, i);
        OthersKeepClock(env, snapshot, s1, ids[1..], i);
        ClockTransitive(s, s1, MaintainEach(env, snapshot, s1, ids[1..]).0, i);
      }
    }
  }

  lemma CoreItself(c: Claim)
    ensures SameCore(c, c)
  {
  }

  // ---------- One pass is one tick ----------

  /** Once the time of the last write no longer matters, the decay step reads the core columns only. */
  lemma StepReadsCore(c: Claim, c': Claim, now: Time, lastDecay: Option<Time>, half: real -> real)
    requires SameCore(c, c') && (c.lastAccessedAt.Some? || lastDecay.Some?)
    ensures DecayStep(c', now, lastDecay, half) == DecayStep(c, now, lastDecay, half)
  {
    hide Decayed;
  }

  /** The claim as another with its own confidence. */
  ghost predicate TicksAs(s: Store, i: ClaimId, c: Claim)
    requires i < |s.claims|
  {
    SameCore(s.claims[i], c.(confidence := s.claims[i].confidence))
  }

  /** The claim's own visit decays it if decay is due, and touches neither confidence nor clock otherwise. */
  lemma OwnVisit(env: Env, s: Store, i: ClaimId, c: Claim, family: set<ClaimId>)
    requires i < |s.claims| && OnlyDecays(s, i) && SameCore(s.claims[i], c)
    ensures var s' := MaintainOne(env, s, i, c, family).0;
            && i < |s'.claims| && TicksAs(s', i, s.claims[i]) && OnlyDecays(s', i)
            && ClockOf(s', i) == Tick(s.claims[i], ClockOf(s, i), env.now, env.half)
  {
    hide Rung, Decay, LinkCounterparts, ProposeGist, Revise, Activate, Classify, Latest, MaintainOne, MaintainLock;
    FirstRung(env, s, i, c, family);
    NoLock(env, s, i, c);
    assert Compound(env, s, i, c).None?;
    DecayOrNot(env, s, i, c);
    VisitIsRung(env, s, i, c, family);
    var (s', outcome) := MaintainOne(env, s, i, c, family);
    if outcome != DidDecay && outcome != DidSkip {
      RungKeepsClock(env, s, i, c, family, outcome, i);
    }
  }

  lemma NoLock(env: Env, s: Store, i: ClaimId, c: Claim)
    requires i < |s.claims| && !c.locked && !Strong(c)
    ensures MaintainLock(env, s, i, c).None?
  {
  }

  lemma VisitIsRung(env: Env, s: Store, i: ClaimId, c: Claim, family: set<ClaimId>)
    requires i < |s.claims|
    ensures var (s', outcome) := MaintainOne(env, s, i, c, family);
            if outcome == DidSkip then s' == s else Rung(env, s, i, c, family, outcome) == Some(s')
    ensures Rung(env, s, i, c, family, DidDecay) == Decay(env, s, i, c)
  {
    hide Compound, Decay, LinkCounterparts, ProposeGist, Revise, Activate, Classify, MaintainLock;
  }

  /** What the decay rung does, as a tick of the claim. */
  lemma DecayOrNot(env: Env, s: Store, i: ClaimId, c: Claim)
    requires i < |s.claims| && OnlyDecays(s, i) && SameCore(s.claims[i], c)
    ensures Decay(env, s, i, c).None? ==> Tick(s.claims[i], ClockOf(s, i), env.now, env.half) == ClockOf(s, i)
    ensures Decay(env, s, i, c).Some? ==>
              var s' := Decay(env, s, i, c).value;
              && i < |s'.claims| && TicksAs(s', i, s.claims[i]) && OnlyDecays(s', i)
              && ClockOf(s', i) == Tick(s.claims[i], ClockOf(s, i), env.now, env.half)
  {
    var was := s.claims[i];
    StepReadsCore(was, c, env.now, LastDecay(s, i), env.half);
    assert was.(confidence := was.confidence) == was;
    LatestsAfter(s.history, Row(i, DecayedBy, env.now), i);
    StepLowers(c, env.now, LastDecay(s, i), env.half);
    hide Latest, DecayStep;
  }

  lemma StepLowers(c: Claim, now: Time, lastDecay: Option<Time>, half: real -> real)
    ensures DecayStep(c, now, lastDecay, half).Some? ==> DecayStep(c, now, lastDecay, half).value < c.confidence
  {
  }

  lemma ClockCarries(s: Store, s': Store, i: ClaimId)
    requires i < |s.claims| && SameClock(s, s', i)
    ensures ClockOf(s', i) == ClockOf(s, i) && (OnlyDecays(s, i) ==> OnlyDecays(s', i))
  {
    hide Latest;
  }

  lemma OnlyDecaysMeans(s: Store, i: ClaimId)
    requires i < |s.claims| && OnlyDecays(s, i)
    ensures s.claims[i].lastAccessedAt.Some? || ClockOf(s, i).lastDecay.Some?
  {
    hide Latest;
  }

  /** Of a listing that holds the claim once, exactly one visit is a tick of it. */
  lemma {:induction false} EachTicks(env: Env, snapshot: seq<Claim>, s: Store, ids: seq<ClaimId>, i: ClaimId)
    requires InTable(snapshot, ids) && Distinct(ids) && i in ids && i < |s.claims|
    requires OnlyDecays(s, i) && SameCore(s.claims[i], snapshot[i])
    ensures var s' := MaintainEach(env, snapshot, s, ids).0;
            && i < |s'.claims| && TicksAs(s', i, s.claims[i]) && OnlyDecays(s', i)
            && ClockOf(s', i) == Tick(s.claims[i], ClockOf(s, i), env.now, env.half)
    decreases ids
  {
    hide MaintainOne, Family, OnlyDecays, DecayStep, Latest;
    assert i == ids[0] || i in ids[1..];
    if ids[0] >= |s.claims| {
      EachTicks(env, snapshot, s, ids[1..], i);
    } else {
      var family := Family(snapshot, snapshot[ids[0]]);
      var s1 := MaintainOne(env, s, ids[0], snapshot[ids[0]], family).0;
      var s' := MaintainEach(env, snapshot, s1, ids[1..]).0;
      if ids[0] == i {
        OwnVisit(env, s, i, snapshot[i], family);
        OthersKeepClock(env, snapshot, s1, ids[1..], i);
        ClockCarries(s1, s', i);
      } else {
        OtherVisit(env, s, ids[0], snapshot[ids[0]], family, i);
        ClockCarries(s, s1, i);
        EachTicks(env, snapshot, s1, ids[1..], i);
        OnlyDecaysMeans(s, i);
        TickReadsCore(s.claims[i], s1.claims[i], ClockOf(s, i), env.now, env.half);
      }
    }
  }

  lemma TickReadsCore(c: Claim, c': Claim, k: Clock, now: Time, half: real -> real)
    requires SameCore(c', c.(confidence := c'.confidence)) && (c.lastAccessedAt.Some? || k.lastDecay.Some?)
    ensures Tick(c', k, now, half) == Tick(c, k, now, half)
  {
    StepReadsCore(c.(confidence := k.confidence), c'.(confidence := k.confidence), now, k.lastDecay, half);
    hide DecayStep;
  }

  lemma SuppressOneKeepsClock(env: Env, s: Store, id: ClaimId, at: Time, i: ClaimId)
    requires i < |s.claims|
    ensures SameClock(s, SuppressOne(env, s, id, at), i)
  {
    hide Latest;
    RowOfAnother(s.history, Row(id, Suppressed, env.now), i);
  }

  lemma {:induction false} RowsKeepClock(env: Env, s: Store, ids: seq<ClaimId>, at: Time, i: ClaimId)
    requires i < |s.claims|
    ensures SameClock(s, SuppressRows(env, s, ids, at), i)
    decreases ids
  {
    hide SuppressOne, Latest;
    if ids != [] {
      var s1 := SuppressOne(env, s, ids[0], at);
      SuppressOneKeepsClock(env, s, ids[0], at, i);
      RowsKeepClock(env, s1, ids[1..], at, i);
    }
  }

  lemma {:induction false} TracesKeepClock(env: Env, s: Store, traces: seq<Trace>, i: ClaimId)
    requires i < |s.claims|
    ensures SameClock(s, SuppressFromTraces(env, s, traces), i)
    decreases traces
  {
    hide SuppressRows, Latest;
    if traces != [] {
      RowsKeepClock(env, s, traces[0].familiar, traces[0].at, i);
      TracesKeepClock(env, SuppressRows(env, s, traces[0].familiar, traces[0].at), traces[1..], i);
    }
  }

  /** A pass is one tick of every listed claim that only decays, and none of any other. */
  lemma PassTicks(env: Env, s: Store, i: ClaimId)
    requires i < |s.claims| && OnlyDecays(s, i)
    ensures var s' := RunPass(env, s).store;
            && |s'.claims| == |s.claims| && TicksAs(s', i, s.claims[i]) && OnlyDecays(s', i)
            && ClockOf(s', i) ==
                if i in Listed(s.claims) then Tick(s.claims[i], ClockOf(s, i), env.now, env.half) else ClockOf(s, i)
  {
    hide MaintainEach, SuppressFromTraces, OnlyDecays, DecayStep, Latest;
    PassKeepsLength(env, s);
    SuppressKeepsLength(env, s);
    var s0 := SuppressFromTraces(env, s, env.traces);
    var s' := MaintainEach(env, s0.claims, s0, Listed(s0.claims)).0;
    TracesKeepClock(env, s, env.traces, i);
    ClockCarries(s, s0, i);
    assert Listed(s0.claims) == Listed(s.claims);
    if i in Listed(s.claims) {
      assert SameCore(s0.claims[i], s0.claims[i]);
      EachTicks(env, s0.claims, s0, Listed(s0.claims), i);
      OnlyDecaysMeans(s, i);
      TickReadsCore(s.claims[i], s0.claims[i], ClockOf(s, i), env.now, env.half);
    } else {
      OthersKeepClock(env, s0.claims, s0, Listed(s0.claims), i);
      ClockCarries(s0, s', i);
    }
  }

  lemma SuppressKeepsLength(env: Env, s: Store)
    ensures |SuppressFromTraces(env, s, env.traces).claims| == |s.claims|
  {
    hide SuppressFromTraces, WrittenAll;
    SuppressWrites(env, s, env.traces);
    var s0 := SuppressFromTraces(env, s, env.traces);
    var ws :| WrittenAll(s.claims, ws, env.now) == s0.claims;
    WritesKeepLength(s.claims, ws, env.now);
  }

  // ---------- Many passes ----------

  function RunPasses(envs: seq<Env>, s: Store): Store {
    if envs == [] then s else RunPass(envs[|envs| - 1], RunPasses(envs[..|envs| - 1], s)).store
  }

  function TimesOf(envs: seq<Env>): (times: seq<Time>)
    ensures |times| == |envs| && forall k :: 0 <= k < |envs| ==> times[k] == envs[k].now
  {
    seq(|envs|, k requires 0 <= k < |envs| => envs[k].now)
  }

  /** The passes of one installation: the decay curve is fixed, time moves on, all else may change. */
  ghost predicate Successive(envs: seq<Env>, half: real -> real) {
    && (forall k :: 0 <= k < |envs| ==> envs[k].half == half)
    && forall j, k :: 0 <= j < k < |envs| ==> envs[j].now <= envs[k].now
  }

  lemma {:induction false} PassesTick(envs: seq<Env>, s: Store, i: ClaimId, half: real -> real)
    requires i < |s.claims| && OnlyDecays(s, i) && Successive(envs, half)
    ensures var s' := RunPasses(envs, s);
            && |s'.claims| == |s.claims| && TicksAs(s', i, s.claims[i]) && OnlyDecays(s', i)
            && ClockOf(s', i) ==
                if i in Listed(s.claims) then Ticks(s.claims[i], ClockOf(s, i), TimesOf(envs), half) else ClockOf(s, i)
  {
    hide RunPass, OnlyDecays, Tick, LastDecay;
    if envs != [] {
      var n := |envs| - 1;
      var rest := RunPasses(envs[..n], s);
      PassesTick(envs[..n], s, i, half);
      PassTicks(envs[n], rest, i);
      assert TimesOf(envs)[..n] == TimesOf(envs[..n]);
      assert Listed(rest.claims) == Listed(s.claims);
      OnlyDecaysMeans(rest, i);
      TickReadsCore(s.claims[i], rest.claims[i], ClockOf(rest, i), envs[n].now, half);
    }
  }

  /**
   * However often passes run and whatever else they do, a claim that can only decay, and was accessed or has decayed
   * before, has the confidence one pass at the last time leaves; it never rises, nor falls below floor and start.
   */
  lemma PassesIgnoreFrequency(envs: seq<Env>, s: Store, i: ClaimId, half: real -> real)
    requires HalvingLaws(half) && envs != [] && Successive(envs, half) && i < |s.claims| && OnlyDecays(s, i)
    ensures var often, once := RunPasses(envs, s), RunPass(envs[|envs| - 1], s).store;
            && |often.claims| == |once.claims| == |s.claims|
            && often.claims[i].confidence == once.claims[i].confidence
            && Min(s.claims[i].confidence, Floor(s.claims[i].category)) <= often.claims[i].confidence <=
                s.claims[i].confidence
  {
    hide RunPass, OnlyDecays, Tick, LastDecay, HalvingLaws, Floor;
    PassesTick(envs, s, i, half);
    PassTicks(envs[|envs| - 1], s, i);
    DecayIgnoresFrequency(s.claims[i], ClockOf(s, i), TimesOf(envs), half);
  }

  // ---------- Before the first decay every write restarts the grace ----------

  /** A store of one claim that was observed once, never accessed and never decayed. */
  predicate Fresh(s: Store) {
    && |s.claims| == 1 && s.claims[0].timesObserved <= 1 && !s.claims[0].locked
    && s.claims[0].lastAccessedAt.None? && s.claims[0].activation.None? && LastDecay(s, 0).None?
  }

  lemma SolePass(env: Env, s: Store)
    requires |s.claims| == 1 && env.traces == []
    ensures RunPass(env, s).store == MaintainOne(env, s, 0, s.claims[0], {}).0
  {
    hide MaintainOne, Family;
    OneIsNoFamily(s.claims);
    assert SuppressFromTraces(env, s, env.traces) == s;
    var ids := Listed(s.claims);
    assert ids[0] == 0 && ids[1..] == [];
    var s1 := MaintainOne(env, s, 0, s.claims[0], {}).0;
    assert MaintainEach(env, s.claims, s1, ids[1..]).0 == s1;
  }

  /** The decay step alone decides the confidence of a fresh claim. */
  lemma FreshPass(env: Env, s: Store)
    requires Fresh(s) && env.traces == []
    ensures |RunPass(env, s).store.claims| == 1
    ensures RunPass(env, s).store.claims[0].confidence ==
            match DecayStep(s.claims[0], env.now, None, env.half)
            case None => s.claims[0].confidence
            case Some(next) => next
  {
    hide RunPass, MaintainOne, LinkCounterparts, ProposeGist, Revise, Activate, Classify, DecayStep, Latest,
         MaintainLock;
    var c := s.claims[0];
    PassKeepsLength(env, s);
    SolePass(env, s);
    FirstRung(env, s, 0, c, {});
    NoLock(env, s, 0, c);
    VisitIsRung(env, s, 0, c, {});
    var outcome := MaintainOne(env, s, 0, c, {}).1;
    assert outcome == DidDecay <==> DecayStep(c, env.now, None, env.half).Some?;
    hide Rung;
    if outcome != DidDecay && outcome != DidSkip {
      RungKeepsClock(env, s, 0, c, {}, outcome, 0);
    }
  }

  /** A fresh claim with no source type yet is stamped by its first pass inside the grace. */
  lemma FreshStamp(env: Env, s: Store)
    requires Fresh(s) && env.traces == [] && env.journal == []
    requires s.claims[0].sourceType.None? && DecayStep(s.claims[0], env.now, None, env.half).None?
    ensures var s' := RunPass(env, s).store;
            Fresh(s') && s'.claims[0] == s.claims[0].(sourceType := s'.claims[0].sourceType, updatedAt := env.now)
  {
    hide RunPass, MaintainOne, LinkCounterparts, Revise, DecayStep, Latest, MaintainLock, Spread;
    var c := s.claims[0];
    SolePass(env, s);
    FirstRung(env, s, 0, c, {});
    NoLock(env, s, 0, c);
    NothingToLink(env, s, c);
    VisitIsRung(env, s, 0, c, {});
    assert MaintainOne(env, s, 0, c, {}).1 == DidClassify;
    RowOfAnother(s.history, Row(0, Classified, env.now), 0);
  }

  lemma NothingToLink(env: Env, s: Store, c: Claim)
    requires |s.claims| == 1 && env.journal == []
    ensures LinkCounterparts(env, s, 0, c).None? && Revise(env, s, 0).None?
  {
    assert Without([], c.related) == [];
    ReviseApplies(env, s, 0);
    hide Revise;
    var rivals := ActiveRivals(s.claims, 0);
    assert forall k :: 0 <= k < |rivals| ==> rivals[k] < 1 && rivals[k] != 0;
  }

  /**
   * A claim past its grace decays; but a pass inside the grace that stamps it writes it, the grace starts over, and the
   * later pass leaves it alone.
   */
  lemma StampRestartsGrace(first: Env, second: Env, c: Claim)
    requires first.traces == [] == second.traces && first.journal == [] && HalvingLaws(second.half)
    requires Fresh(Store([c], [])) && c.sourceType.None? && Floor(c.category) < c.confidence
    requires DaysSince(first.now, c.updatedAt) <= DECAY_GRACE_DAYS < DaysSince(second.now, c.updatedAt)
    requires DaysSince(second.now, first.now) <= DECAY_GRACE_DAYS
    ensures var s := Store([c], []);
            var late, both := RunPass(second, s).store, RunPass(second, RunPass(first, s).store).store;
            && |late.claims| == |both.claims| == 1
            && late.claims[0].confidence < c.confidence == both.claims[0].confidence
  {
    hide RunPass, HalvingLaws;
    var s := Store([c], []);
    DecaysAfterGrace(c, second.now, second.half);
    StepLowers(c, second.now, None, second.half);
    FreshPass(second, s);
    FreshStamp(first, s);
    FreshPass(second, RunPass(first, s).store);
  }
}
