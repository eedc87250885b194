/** What each rung may write, and where: one kind of change, on the claim visited unless it settles or spreads. */
module MaintenanceTouches {
  import opened Wrappers
  import opened C = ClaimStore
  import opened P = MaintenancePolicy
  import opened MaintenanceRevision
  import opened Maintenance

  /** How reliable a claim counts as: agents infer; a user's word by how sure the extractor was. */
  function Worthiness(c: Claim): SourceType {
    match c.origin
    case AgentOrigin => Inference
    case UserOrigin =>
      if c.extractorConfidence < 0.5 then Speculation
      else if c.extractorConfidence < 0.8 then Inference else DirectStatement
  }

  /** The columns a rung may write, on any claim. */
  ghost predicate Touched(which: Outcome, a: Claim, b: Claim) {
    match which
    case DidCompound => b == a.(confidence := b.confidence, updatedAt := b.updatedAt) && b.confidence > a.confidence
    case DidDecay => b == a.(confidence := b.confidence, updatedAt := b.updatedAt) && b.confidence < a.confidence
    case DidLink => b == a.(related := b.related, updatedAt := b.updatedAt) && a.related <= b.related
    case DidProposeGist => b == a
    case DidRevise =>
      && b == a.(status := b.status, related := b.related, updatedAt := b.updatedAt) && a.related <= b.related
      && (b.status == a.status || (a.status == Active && b.status == Contradicted))
    case DidLock =>
      && b == a.(locked := b.locked, updatedAt := b.updatedAt) && b.locked == !a.locked
      && (b.locked ==> a.timesObserved >= 5 && a.confidence >= 0.9) && (a.locked ==> a.status == Contradicted)
    case DidActivate => b == a.(activation := b.activation, updatedAt := b.updatedAt)
    case DidClassify =>
      a.sourceType == None && b == a.(sourceType := Some(Worthiness(a)), updatedAt := b.updatedAt)
    case DidSkip => b == a
  }

  /** The rungs that write other claims than the one visited. */
  predicate Wide(which: Outcome) {
    which == DidRevise || which == DidActivate
  }

  ghost predicate AllTouched(which: Outcome, s: Store, s': Store) {
    |s'.claims| == |s.claims| && forall i :: 0 <= i < |s.claims| ==> Touched(which, s.claims[i], s'.claims[i])
  }

  lemma TouchedTwice(which: Outcome, a: Store, b: Store, c: Store)
    requires Wide(which) && AllTouched(which, a, b) && AllTouched(which, b, c)
    ensures AllTouched(which, a, c)
  {
  }

  lemma RelatedTouches(s: Store, id: ClaimId, more: seq<ClaimId>, now: Time)
    ensures AllTouched(DidRevise, s, Related(s, id, more, now))
  {
  }

  lemma {:induction false} SettleTouches(env: Env, s: Store, contenders: seq<ClaimId>, w: ClaimId)
    ensures AllTouched(DidRevise, s, SettleContenders(env, s, contenders, w).0)
    decreases contenders
  {
    hide Related, AllTouched;
    if contenders == [] {
      SelfTouched(s);
    } else if contenders[0] == w {
      var s1 := Log(s, w, Affirmed, env.now);
      SettleTouches(env, s1, contenders[1..], w);
      SameClaims(DidRevise, s, s1, SettleContenders(env, s1, contenders[1..], w).0);
    } else {
      match SetStatus(s.claims, contenders[0], Contradicted, env.now)
      case None =>
        SettleTouches(env, s, contenders[1..], w);
      case Some(claims) =>
        var s1 := Log(s.(claims := claims), contenders[0], Superseded(w), env.now);
        DemoteTouches(env, s, contenders[0], w);
        var s2 := Related(s1, contenders[0], [w], env.now);
        RelatedTouches(s1, contenders[0], [w], env.now);
        var s3 := Related(s2, w, [contenders[0]], env.now);
        RelatedTouches(s2, w, [contenders[0]], env.now);
        SettleTouches(env, s3, contenders[1..], w);
        TouchedTwice(DidRevise, s, s1, s2);
        TouchedTwice(DidRevise, s, s2, s3);
        TouchedTwice(DidRevise, s, s3, SettleContenders(env, s3, contenders[1..], w).0);
    }
  }

  lemma SelfTouched(s: Store)
    ensures AllTouched(DidRevise, s, s) && AllTouched(DidActivate, s, s)
  {
  }

  lemma SameClaims(which: Outcome, s: Store, s1: Store, s': Store)
    requires s1.claims == s.claims && AllTouched(which, s1, s')
    ensures AllTouched(which, s, s')
  {
  }

  lemma DemoteTouches(env: Env, s: Store, x: ClaimId, w: ClaimId)
    requires SetStatus(s.claims, x, Contradicted, env.now).Some?
    ensures AllTouched(DidRevise, s, Log(s.(claims := SetStatus(s.claims, x, Contradicted, env.now).value), x,
                                         Superseded(w), env.now))
  {
  }

  lemma {:induction false} SpreadTouches(env: Env, s: Store, neighbors: seq<ClaimId>, share: real)
    ensures AllTouched(DidActivate, s, Spread(env, s, neighbors, share))
    decreases neighbors
  {
    if neighbors == [] {
    } else if neighbors[0] >= |s.claims| {
      SpreadTouches(env, s, neighbors[1..], share);
    } else {
      var a := s.claims[neighbors[0]].activation;
      var boosted := Min(1.0, (if a.Some? then a.value else 0.0) + share);
      var s1 := Log(SetActivation(s, neighbors[0], boosted, env.now), neighbors[0], Activated(None), env.now);
      SpreadTouches(env, s1, neighbors[1..], share);
      TouchedTwice(DidActivate, s, s1, Spread(env, s1, neighbors[1..], share));
    }
  }

  lemma ReviseTouches(env: Env, s: Store, id: ClaimId)
    requires id < |s.claims| && Revise(env, s, id).Some?
    ensures AllTouched(DidRevise, s, Revise(env, s, id).value)
  {
    hide SettleContenders, Related, SessionMates, ActiveRivals, AllTouched;
    var contenders := [id] + ActiveRivals(s.claims, id);
    var w := PickRevisionWinner(s.claims, contenders);
    var mates := SessionMates(env, s.claims, contenders, Listed(s.claims), 5);
    var s1 := SettleContenders(env, s, contenders, w).0;
    SettleTouches(env, s, contenders, w);
    RelatedTouches(s1, w, mates, env.now);
    TouchedTwice(DidRevise, s, s1, Related(s1, w, mates, env.now));
  }

  lemma ActivateTouches(env: Env, s: Store, id: ClaimId)
    requires id < |s.claims| && Activate(env, s, id, s.claims[id]).Some?
    ensures AllTouched(DidActivate, s, Activate(env, s, id, s.claims[id]).value)
  {
    hide Spread, LastBoostAccess, ActivationDue;
    var c := s.claims[id];
    var s1 := Log(SetActivation(s, id, ActivationBoost(c.activation), env.now), id, Activated(c.lastAccessedAt),
                  env.now);
    SpreadTouches(env, s1, Neighbors(c), SpreadShare(|c.related|));
    TouchedTwice(DidActivate, s, s1, Spread(env, s1, Neighbors(c), SpreadShare(|c.related|)));
  }

  /** A rung writes its own column and no other, and only revision and activation reach beyond the claim visited. */
  lemma RungTouches(env: Env, s: Store, id: ClaimId, family: set<ClaimId>, which: Outcome)
    requires id < |s.claims| && Rung(env, s, id, s.claims[id], family, which).Some?
    ensures var s' := Rung(env, s, id, s.claims[id], family, which).value;
            && |s'.claims| == |s.claims| && Touched(which, s.claims[id], s'.claims[id])
            && forall i :: 0 <= i < |s.claims| && i != id ==>
                 if Wide(which) then Touched(which, s.claims[i], s'.claims[i]) else s'.claims[i] == s.claims[i]
  {
    hide Latest, Revise, Activate, CompoundConfidence, Without, Counterparts;
    match which
    case DidRevise => ReviseTouches(env, s, id);
    case DidActivate => ActivateTouches(env, s, id);
    case DidDecay => hide Decayed, Billable;
    case _ =>
  }

  /** Certainty is locked and unlocked exactly at these bars. */
  lemma LockExactly(env: Env, s: Store, id: ClaimId)
    requires id < |s.claims|
    ensures var c := s.claims[id];
            MaintainLock(env, s, id, c).Some? <==>
              if c.locked then c.status == Contradicted else c.timesObserved >= 5 && c.confidence >= 0.9
  {
  }
}
