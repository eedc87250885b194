/** With the clock and the inputs frozen, passes pay off a finite debt: maintenance converges instead of ratcheting. */
module MaintenanceConvergence {
  import opened Wrappers
  import opened C = ClaimStore
  import opened P = MaintenancePolicy
  import opened MaintenanceRevision
  import opened Maintenance
  import J = PromotionJournal
  import PI = PromotionInvariant

  // ---------- The debt of one claim ----------

  /** What is still to be done for a claim, by kind. */
  datatype Debt = Debt(
    compound: nat, decay: nat, link: nat, gist: nat, active: nat,
    access: nat, activation: nat, stamp: nat, suppress: nat)
  {
    function Sum(): nat { compound + decay + link + gist + active + access + activation + stamp + suppress }

    predicate AtMost(d: Debt) {
      && compound <= d.compound && decay <= d.decay && link <= d.link && gist <= d.gist && active <= d.active
      && access <= d.access && activation <= d.activation && stamp <= d.stamp && suppress <= d.suppress
    }
  }

  function One(b: bool): nat { if b then 1 else 0 }

  predicate CorroborationApplied(s: Store, i: ClaimId, timesObserved: nat) {
    var latest := Latest(s.history, i, IsCompound);
    latest.Some? && latest.value.step.timesObserved >= timesObserved
  }

  predicate FamilyProposed(s: Store, i: ClaimId, family: set<ClaimId>) {
    var latest := Latest(s.history, i, IsGist);
    family == {} || (latest.Some? && latest.value.step.family == family - {i})
  }

  predicate SuppressedAt(s: Store, i: ClaimId, now: Time) {
    var latest := Latest(s.history, i, IsSuppress);
    latest.Some? && latest.value.at == now
  }

  predicate AccessUnanswered(s: Store, i: ClaimId, c: Claim) {
    c.lastAccessedAt.Some? && c.lastAccessedAt != LastBoostAccess(s.history, i)
  }

  function DebtOf(env: Env, s: Store, i: ClaimId): Debt
    requires i < |s.claims|
  {
    var c := s.claims[i];
    Debt(One(!CorroborationApplied(s, i, c.timesObserved)),
         One(LastDecay(s, i) != Some(env.now)),
         |Without(Counterparts(env.journal, i), c.related)|,
         One(!FamilyProposed(s, i, Family(s.claims, c))),
         One(c.status == Active),
         One(AccessUnanswered(s, i, c)),
         One(ActivationDue(env, s, i)),
         One(c.sourceType.None?),
         One(!SuppressedAt(s, i, env.now)))
  }

  /** Traces lie in the past, no contest is with itself, and no recorded access is newer than the claim's own. */
  ghost predicate Sane(env: Env, s: Store) {
    && (forall k :: 0 <= k < |env.traces| ==> env.traces[k].at <= env.now)
    && PI.ContestsDiffer(env.journal)
    && forall i :: 0 <= i < |s.claims| && LastBoostAccess(s.history, i).Some? ==>
                     s.claims[i].lastAccessedAt.Some?
                         && LastBoostAccess(s.history, i).value <= s.claims[i].lastAccessedAt.value
  }

  ghost predicate NoWorse(env: Env, s: Store, s': Store) {
    && Advances(s, s') && Sane(env, s')
    && forall i :: 0 <= i < |s.claims| ==> DebtOf(env, s', i).AtMost(DebtOf(env, s, i))
  }

  /** No claim owes more, and some claim owes less. */
  ghost predicate Pays(env: Env, s: Store, s': Store) {
    NoWorse(env, s, s') && exists i :: 0 <= i < |s.claims| && DebtOf(env, s', i).Sum() < DebtOf(env, s, i).Sum()
  }

  lemma NoWorseTransitive(env: Env, a: Store, b: Store, c: Store)
    requires NoWorse(env, a, b) && NoWorse(env, b, c)
    ensures NoWorse(env, a, c)
    ensures Pays(env, a, b) || Pays(env, b, c) ==> Pays(env, a, c)
  {
    hide DebtOf;
    AdvancesTransitive(a, b, c);
    forall i | 0 <= i < |a.claims|
      ensures DebtOf(env, c, i).AtMost(DebtOf(env, a, i))
      ensures DebtOf(env, c, i).Sum() <= DebtOf(env, b, i).Sum() <= DebtOf(env, a, i).Sum()
    {
    }
    if Pays(env, a, b) {
      var i :| 0 <= i < |a.claims| && DebtOf(env, b, i).Sum() < DebtOf(env, a, i).Sum();
      assert DebtOf(env, c, i).Sum() < DebtOf(env, a, i).Sum();
    }
    if Pays(env, b, c) {
      var i :| 0 <= i < |b.claims| && DebtOf(env, c, i).Sum() < DebtOf(env, b, i).Sum();
      assert DebtOf(env, c, i).Sum() < DebtOf(env, a, i).Sum();
    }
  }

  // ---------- How one write moves the debt ----------

  lemma LatestAfter(history: seq<Row>, row: Row, i: ClaimId, keep: Step -> bool)
    ensures Latest(history + [row], i, keep) ==
            if row.claimId == i && keep(row.step) then Some(row) else Latest(history, i, keep)
  {
    assert (history + [row])[..|history|] == history;
  }

  lemma LastBoostAfter(history: seq<Row>, row: Row, i: ClaimId)
    ensures LastBoostAccess(history + [row], i) ==
            if row.claimId == i && row.step.Activated? && row.step.accessedAt.Some?
               && (LastBoostAccess(history, i).None? || row.step.accessedAt.value > LastBoostAccess(history, i).value)
            then row.step.accessedAt else LastBoostAccess(history, i)
  {
    assert (history + [row])[..|history|] == history;
  }

  /** The family of a claim depends on facts a pass never changes. */
  lemma FamilyStable(s: Store, s': Store, i: ClaimId)
    requires Advances(s, s') && i < |s.claims|
    ensures Family(s'.claims, s'.claims[i]) == Family(s.claims, s.claims[i])
  {
    var c, c' := s.claims[i], s'.claims[i];
    assert Listed(s'.claims) == Listed(s.claims);
    var ids := Listed(s.claims);
    var group := set x | 0 <= x < |s.claims| && x in ids && FamilyKey(s.claims[x]) == FamilyKey(c);
    var group' := set x | 0 <= x < |s'.claims| && x in ids && FamilyKey(s'.claims[x]) == FamilyKey(c');
    assert forall x :: 0 <= x < |s.claims| ==>
             (FamilyKey(s.claims[x]) == FamilyKey(c) <==> FamilyKey(s'.claims[x]) == FamilyKey(c'));
    assert group == group';
    assert forall x <- group :: Sources(s.claims[x]) == Sources(s'.claims[x]);
  }

  lemma {:induction false} WithoutShrinks(ids: seq<ClaimId>, a: seq<ClaimId>, b: seq<ClaimId>)
    requires forall r <- a :: r in b
    ensures |Without(ids, b)| <= |Without(ids, a)|
  {
    if ids != [] {
      WithoutShrinks(ids[1..], a, b);
    }
  }

  /** A history row that tells the truth about the claim it is for. */
  predicate Truthful(env: Env, s: Store, id: ClaimId, step: Step)
    requires id < |s.claims|
  {
    match step
    case Compounded(n) => n == s.claims[id].timesObserved
    case GistProposed(family) => family == Family(s.claims, s.claims[id]) - {id}
    case Activated(at) => at.Some? ==> at == s.claims[id].lastAccessedAt
    case _ => true
  }

  /** Rewriting columns adds no debt while the history stays. */
  lemma ColumnsNoWorse(env: Env, s: Store, s': Store)
    requires Sane(env, s) && Advances(s, s') && s'.history == s.history
    ensures NoWorse(env, s, s')
  {
    forall i | 0 <= i < |s.claims|
      ensures DebtOf(env, s', i).AtMost(DebtOf(env, s, i))
    {
      hide Family, Without, Counterparts, Latest, LastBoostAccess;
      FamilyStable(s, s', i);
      WithoutShrinks(Counterparts(env.journal, i), s.claims[i].related, s'.claims[i].related);
    }
  }

  lemma LatestsAfter(history: seq<Row>, row: Row, i: ClaimId)
    ensures Latest(history + [row], i, IsCompound) ==
            if row.claimId == i && row.step.Compounded? then Some(row) else Latest(history, i, IsCompound)
    ensures Latest(history + [row], i, IsDecay) ==
            if row.claimId == i && row.step.DecayedBy? then Some(row) else Latest(history, i, IsDecay)
    ensures Latest(history + [row], i, IsGist) ==
            if row.claimId == i && row.step.GistProposed? then Some(row) else Latest(history, i, IsGist)
    ensures Latest(history + [row], i, IsActivate) ==
            if row.claimId == i && row.step.Activated? then Some(row) else Latest(history, i, IsActivate)
    ensures Latest(history + [row], i, IsSuppress) ==
            if row.claimId == i && row.step.Suppressed? then Some(row) else Latest(history, i, IsSuppress)
  {
    hide Latest;
    LatestAfter(history, row, i, IsCompound);
    LatestAfter(history, row, i, IsDecay);
    LatestAfter(history, row, i, IsGist);
    LatestAfter(history, row, i, IsActivate);
    LatestAfter(history, row, i, IsSuppress);
  }

  /** A truthful row at the present time adds no debt to any claim, and pays the debt it speaks of. */
  lemma LogDebt(env: Env, s: Store, id: ClaimId, step: Step, i: ClaimId)
    requires Sane(env, s) && id < |s.claims| && Truthful(env, s, id, step) && i < |s.claims|
    ensures var s' := Log(s, id, step, env.now);
            var d := DebtOf(env, s', i);
            && d.AtMost(DebtOf(env, s, i))
            && (LastBoostAccess(s'.history, i).Some? ==>
                  s.claims[i].lastAccessedAt.Some?
                      && LastBoostAccess(s'.history, i).value <= s.claims[i].lastAccessedAt.value)
            && (i == id ==>
                  && (step.Compounded? ==> d.compound == 0) && (step.DecayedBy? ==> d.decay == 0)
                  && (step.GistProposed? ==> d.gist == 0) && (step.Activated? ==> d.activation == 0)
                  && (step.Activated? && step.accessedAt.Some? ==> d.access == 0)
                      && (step.Suppressed? ==> d.suppress == 0))
  {
    hide Family, Without, Counterparts, Latest, LastBoostAccess;
    var row := Row(id, step, env.now);
    LatestsAfter(s.history, row, i);
    LastBoostAfter(s.history, row, i);
  }

  lemma LogNoWorse(env: Env, s: Store, id: ClaimId, step: Step)
    requires Sane(env, s) && id < |s.claims| && Truthful(env, s, id, step)
    ensures var s' := Log(s, id, step, env.now);
            var d := DebtOf(env, s', id);
            && NoWorse(env, s, s')
            && (step.Compounded? ==> d.compound == 0) && (step.DecayedBy? ==> d.decay == 0)
            && (step.GistProposed? ==> d.gist == 0) && (step.Activated? ==> d.activation == 0)
            && (step.Activated? && step.accessedAt.Some? ==> d.access == 0) && (step.Suppressed? ==> d.suppress == 0)
  {
    hide DebtOf, Truthful, LastBoostAccess;
    forall i: ClaimId | i < |s.claims| {
      LogDebt(env, s, id, step, i);
    }
  }

  /** The common shape of a rung: rewrite columns, then log one truthful row. */
  lemma WriteThenLog(env: Env, s: Store, s1: Store, id: ClaimId, step: Step)
    requires Sane(env, s) && Advances(s, s1) && s1.history == s.history
    requires id < |s.claims| && Truthful(env, s, id, step)
    ensures NoWorse(env, s, s1) && NoWorse(env, s1, Log(s1, id, step, env.now))
            && NoWorse(env, s, Log(s1, id, step, env.now))
    ensures var d := DebtOf(env, Log(s1, id, step, env.now), id);
            && (step.Compounded? ==> d.compound == 0) && (step.DecayedBy? ==> d.decay == 0)
            && (step.GistProposed? ==> d.gist == 0) && (step.Activated? ==> d.activation == 0)
            && (step.Activated? && step.accessedAt.Some? ==> d.access == 0) && (step.Suppressed? ==> d.suppress == 0)
  {
    hide DebtOf, Family;
    ColumnsNoWorse(env, s, s1);
    FamilyStable(s, s1, id);
    LogNoWorse(env, s1, id, step);
    NoWorseTransitive(env, s, s1, Log(s1, id, step, env.now));
  }

  // ---------- Each rung pays ----------

  /** `s0` is the store the listing was taken from: `c` is what it showed, and nothing has got worse since. */
  ghost predicate Since(env: Env, s0: Store, s: Store, id: ClaimId, c: Claim) {
    && Sane(env, s0) && Sane(env, s) && NoWorse(env, s0, s)
    && id < |s0.claims| && c == s0.claims[id] && Snapshot(c, s.claims[id])
  }

  lemma PaysSince(env: Env, s0: Store, s: Store, s': Store, id: ClaimId)
    requires NoWorse(env, s0, s) && NoWorse(env, s, s') && id < |s0.claims|
    requires DebtOf(env, s', id).Sum() < DebtOf(env, s0, id).Sum()
    ensures Pays(env, s0, s')
  {
    NoWorseTransitive(env, s0, s, s');
  }

  /** A component that was owed and is now zero lowers the sum. */
  lemma SmallerSum(d: Debt, d': Debt)
    requires d'.AtMost(d)
    requires || (d.compound > 0 && d'.compound == 0) || (d.decay > 0 && d'.decay == 0) || (d.link > 0 && d'.link == 0)
             || (d.gist > 0 && d'.gist == 0) || (d.active > 0 && d'.active == 0) || (d.access > 0 && d'.access == 0)
             || (d.activation > 0 && d'.activation == 0) || (d.stamp > 0 && d'.stamp == 0)
                 || (d.suppress > 0 && d'.suppress == 0)
    ensures d'.Sum() < d.Sum()
  {
  }

  lemma OwesAtMost(env: Env, s: Store, s': Store, i: ClaimId)
    requires NoWorse(env, s, s') && i < |s.claims|
    ensures Sane(env, s') && |s'.claims| == |s.claims| && DebtOf(env, s', i).AtMost(DebtOf(env, s, i))
  {
    hide DebtOf, Sane;
  }

  lemma CompoundPays(env: Env, s0: Store, s: Store, id: ClaimId, c: Claim)
    requires Since(env, s0, s, id, c) && Compound(env, s, id, c).Some?
    ensures NoWorse(env, s, Compound(env, s, id, c).value) && Pays(env, s0, Compound(env, s, id, c).value)
  {
    var after := CompoundConfidence(c.confidence, c.timesObserved,
                                    if c.origin.AgentOrigin? then env.dampening else 1.0);
    var s1 := SetConfidence(s, id, after, env.now);
    var s' := Log(s1, id, Compounded(c.timesObserved), env.now);
    WriteThenLog(env, s, s1, id, Compounded(c.timesObserved));
    assert DebtOf(env, s, id).compound == 1;
    NoWorseTransitive(env, s0, s, s');
    SmallerSum(DebtOf(env, s0, id), DebtOf(env, s', id));
    PaysSince(env, s0, s, s', id);
  }

  lemma DecayPays(env: Env, s0: Store, s: Store, id: ClaimId, c: Claim)
    requires Since(env, s0, s, id, c) && Decay(env, s, id, c).Some?
    ensures NoWorse(env, s, Decay(env, s, id, c).value) && Pays(env, s0, Decay(env, s, id, c).value)
  {
    var s1 := SetConfidence(s, id, DecayStep(c, env.now, LastDecay(s, id), env.half).value, env.now);
    var s' := Log(s1, id, DecayedBy, env.now);
    WriteThenLog(env, s, s1, id, DecayedBy);
    assert DaysSince(env.now, env.now) == 0.0;
    assert DebtOf(env, s, id).decay == 1;
    NoWorseTransitive(env, s0, s, s');
    SmallerSum(DebtOf(env, s0, id), DebtOf(env, s', id));
    PaysSince(env, s0, s, s', id);
  }

  /** No claim is its own counterpart. */
  lemma {:induction false} NotOwnCounterpart(journal: seq<J.Entry>, id: ClaimId)
    requires PI.ContestsDiffer(journal)
    ensures id !in Counterparts(journal, id)
  {
    if journal != [] {
      var n := |journal| - 1;
      assert PI.ContestsDiffer(journal[..n]) by {
        assert forall r :: 0 <= r < n ==> journal[..n][r] == journal[r];
      }
      NotOwnCounterpart(journal[..n], id);
    }
  }

  lemma {:induction false} WithoutAll(ids: seq<ClaimId>, linked: seq<ClaimId>)
    requires forall x <- ids :: x in linked
    ensures Without(ids, linked) == []
  {
    if ids != [] {
      assert ids[0] in ids;
      WithoutAll(ids[1..], linked);
    }
  }

  /** After a link every counterpart is in the claim's list. */
  lemma RelatedHolds(s: Store, id: ClaimId, more: seq<ClaimId>, now: Time)
    requires id < |s.claims| && id !in more
    ensures var s' := Related(s, id, more, now);
            |s'.claims| == |s.claims| && forall x :: x in more || x in s.claims[id].related ==>
                  x in s'.claims[id].related
  {
    var merged := MergeRelated(id, s.claims[id].related, more);
    if |merged| == |s.claims[id].related| {
      assert merged == s.claims[id].related;
    }
  }

  lemma LinkPays(env: Env, s0: Store, s: Store, id: ClaimId, c: Claim)
    requires Since(env, s0, s, id, c) && LinkCounterparts(env, s, id, c).Some?
    ensures NoWorse(env, s, LinkCounterparts(env, s, id, c).value)
            && Pays(env, s0, LinkCounterparts(env, s, id, c).value)
  {
    var others := Counterparts(env.journal, id);
    var unlinked := Without(others, c.related);
    var s1 := Related(s, id, unlinked, env.now);
    var s' := Log(s1, id, Linked(unlinked), env.now);
    RelatedAdvances(s, id, unlinked, env.now);
    WriteThenLog(env, s, s1, id, Linked(unlinked));
    NotOwnCounterpart(env.journal, id);
    RelatedHolds(s, id, unlinked, env.now);
    assert forall x <- others :: x in unlinked || x in c.related;
    WithoutAll(others, s1.claims[id].related);
    assert DebtOf(env, s', id).link == 0 && DebtOf(env, s0, id).link > 0;
    NoWorseTransitive(env, s0, s, s');
    SmallerSum(DebtOf(env, s0, id), DebtOf(env, s', id));
    PaysSince(env, s0, s, s', id);
  }

  lemma GistPays(env: Env, s0: Store, s: Store, id: ClaimId, c: Claim, family: set<ClaimId>)
    requires Since(env, s0, s, id, c) && family == Family(s0.claims, c) && ProposeGist(env, s, id, family).Some?
    ensures NoWorse(env, s, ProposeGist(env, s, id, family).value)
            && Pays(env, s0, ProposeGist(env, s, id, family).value)
  {
    hide Family;
    FamilyStable(s0, s, id);
    var s' := Log(s, id, GistProposed(family - {id}), env.now);
    LogNoWorse(env, s, id, GistProposed(family - {id}));
    assert DebtOf(env, s, id).gist == 1;
    NoWorseTransitive(env, s0, s, s');
    SmallerSum(DebtOf(env, s0, id), DebtOf(env, s', id));
    PaysSince(env, s0, s, s', id);
  }

  lemma ClassifyPays(env: Env, s0: Store, s: Store, id: ClaimId, c: Claim)
    requires Since(env, s0, s, id, c) && Classify(env, s, id, c).Some?
    ensures NoWorse(env, s, Classify(env, s, id, c).value) && Pays(env, s0, Classify(env, s, id, c).value)
  {
    var s1 := s.(claims := s.claims[id := s.claims[id].(sourceType := Some(SourceOf(c)), updatedAt := env.now)]);
    var s' := Log(s1, id, Classified, env.now);
    WriteThenLog(env, s, s1, id, Classified);
    NoWorseTransitive(env, s0, s, s');
    SmallerSum(DebtOf(env, s0, id), DebtOf(env, s', id));
    PaysSince(env, s0, s, s', id);
  }

  lemma LockNoWorse(env: Env, s: Store, id: ClaimId, c: Claim)
    requires Sane(env, s) && id < |s.claims| && MaintainLock(env, s, id, c).Some?
    ensures NoWorse(env, s, MaintainLock(env, s, id, c).value)
  {
    var unlock := c.locked && c.status == Contradicted;
    var s1 := s.(claims := s.claims[id := s.claims[id].(locked := !unlock, updatedAt := env.now)]);
    WriteThenLog(env, s, s1, id, if unlock then Unlocked else LockedUp);
  }

  lemma {:induction false} SpreadNoWorse(env: Env, s: Store, neighbors: seq<ClaimId>, share: real)
    requires Sane(env, s)
    ensures NoWorse(env, s, Spread(env, s, neighbors, share))
    decreases neighbors
  {
    hide DebtOf;
    if neighbors == [] {
      ColumnsNoWorse(env, s, s);
    } else if neighbors[0] >= |s.claims| {
      SpreadNoWorse(env, s, neighbors[1..], share);
    } else {
      var a := s.claims[neighbors[0]].activation;
      var boosted := Min(1.0, (if a.Some? then a.value else 0.0) + share);
      var s1 := SetActivation(s, neighbors[0], boosted, env.now);
      var s2 := Log(s1, neighbors[0], Activated(None), env.now);
      WriteThenLog(env, s, s1, neighbors[0], Activated(None));
      SpreadNoWorse(env, s2, neighbors[1..], share);
      NoWorseTransitive(env, s, s2, Spread(env, s2, neighbors[1..], share));
    }
  }

  /** The activation an activating visit writes, and the row it leaves. */
  function ActivationWritten(s: Store, id: ClaimId, c: Claim, now: Time): Store
    requires id < |s.claims| && (AccessUnanswered(s, id, c) || c.activation.Some?)
  {
    var touched := AccessUnanswered(s, id, c);
    var value := if touched then ActivationBoost(c.activation) else ActivationDecayStep(c.activation.value);
    Log(SetActivation(s, id, value, now), id, Activated(if touched then c.lastAccessedAt else None), now)
  }

  lemma ActivateOwed(env: Env, s: Store, id: ClaimId, c: Claim)
    requires id < |s.claims| && Snapshot(c, s.claims[id]) && Activate(env, s, id, c).Some?
    ensures AccessUnanswered(s, id, c) || c.activation.Some?
    ensures AccessUnanswered(s, id, c) ==> DebtOf(env, s, id).access == 1
    ensures !AccessUnanswered(s, id, c) ==> DebtOf(env, s, id).activation == 1
    ensures var s2 := ActivationWritten(s, id, c, env.now);
            Activate(env, s, id, c).value ==
            if AccessUnanswered(s, id, c) then Spread(env, s2, Neighbors(c), SpreadShare(|c.related|)) else s2
  {
    hide Family, Without, Counterparts, Latest, LastBoostAccess, Spread;
  }

  lemma ActivationAdvances(s: Store, id: ClaimId, activation: real, now: Time)
    requires id < |s.claims|
    ensures Advances(s, SetActivation(s, id, activation, now))
  {
  }

  lemma ActivationWrittenPays(env: Env, s: Store, id: ClaimId, c: Claim)
    requires Sane(env, s) && id < |s.claims| && Snapshot(c, s.claims[id])
    requires AccessUnanswered(s, id, c) || c.activation.Some?
    ensures var s2 := ActivationWritten(s, id, c, env.now);
            NoWorse(env, s, s2) && id < |s2.claims| && DebtOf(env, s2, id).activation == 0
            && (AccessUnanswered(s, id, c) ==> DebtOf(env, s2, id).access == 0)
  {
    hide NoWorse, Sane, DebtOf, LastBoostAccess, Family, Advances;
    var touched := AccessUnanswered(s, id, c);
    var value := if touched then ActivationBoost(c.activation) else ActivationDecayStep(c.activation.value);
    ActivationAdvances(s, id, value, env.now);
    var step := Activated(if touched then c.lastAccessedAt else None);
    WriteThenLog(env, s, SetActivation(s, id, value, env.now), id, step);
    OwesAtMost(env, s, ActivationWritten(s, id, c, env.now), id);
  }

  lemma ActivatePays(env: Env, s0: Store, s: Store, id: ClaimId, c: Claim)
    requires Since(env, s0, s, id, c) && Activate(env, s, id, c).Some?
    ensures NoWorse(env, s, Activate(env, s, id, c).value) && Pays(env, s0, Activate(env, s, id, c).value)
  {
    hide NoWorse, Sane, DebtOf, Activate, ActivationWritten, Snapshot, AccessUnanswered, Spread;
    OwesAtMost(env, s0, s, id);
    ActivateOwed(env, s, id, c);
    ActivationWrittenPays(env, s, id, c);
    var s2 := ActivationWritten(s, id, c, env.now);
    OwesAtMost(env, s, s2, id);
    NoWorseTransitive(env, s0, s, s2);
    SmallerSum(DebtOf(env, s0, id), DebtOf(env, s2, id));
    PaysSince(env, s0, s, s2, id);
    if AccessUnanswered(s, id, c) {
      SpreadNoWorse(env, s2, Neighbors(c), SpreadShare(|c.related|));
      NoWorseTransitive(env, s0, s2, Activate(env, s, id, c).value);
      NoWorseTransitive(env, s, s2, Activate(env, s, id, c).value);
    }
  }

  // ---------- Revision ----------

  ghost predicate Distinct(ids: seq<ClaimId>) {
    forall j, k :: 0 <= j < k < |ids| ==> ids[j] != ids[k]
  }

  ghost predicate AllActive(s: Store, ids: seq<ClaimId>) {
    forall k :: 0 <= k < |ids| ==> ids[k] < |s.claims| && s.claims[ids[k]].status == Active
  }

  /** One contender that is not the winner: demoted, linked both ways. */
  function Demote(env: Env, s: Store, x: ClaimId, w: ClaimId): Store
    requires x < |s.claims|
  {
    var s1 := Log(s.(claims := s.claims[x := s.claims[x].(status := Contradicted, updatedAt := env.now)]), x,
                  Superseded(w), env.now);
    Related(Related(s1, x, [w], env.now), w, [x], env.now)
  }

  /** The claim and its row, before the links. */
  function Beaten(env: Env, s: Store, x: ClaimId, w: ClaimId): Store
    requires x < |s.claims|
  {
    Log(s.(claims := s.claims[x := s.claims[x].(status := Contradicted, updatedAt := env.now)]), x, Superseded(w),
        env.now)
  }

  lemma BeatenPays(env: Env, s: Store, x: ClaimId, w: ClaimId)
    requires Sane(env, s) && x < |s.claims| && s.claims[x].status == Active
    ensures Pays(env, s, Beaten(env, s, x, w))
  {
    hide Without, Family, Latest, LastBoostAccess, Sane;
    var s1 := s.(claims := s.claims[x := s.claims[x].(status := Contradicted, updatedAt := env.now)]);
    var s2 := Beaten(env, s, x, w);
    assert DebtOf(env, s, x).active == 1 && DebtOf(env, s2, x).active == 0;
    assert Advances(s, s1);
    hide DebtOf, NoWorse, Advances;
    WriteThenLog(env, s, s1, x, Superseded(w));
    OwesAtMost(env, s, s2, x);
    SmallerSum(DebtOf(env, s, x), DebtOf(env, s2, x));
    AdvancesItself(s);
    ColumnsNoWorse(env, s, s);
    PaysSince(env, s, s, s2, x);
  }

  lemma AdvancesItself(s: Store)
    ensures Advances(s, s)
  {
  }

  lemma DemotePays(env: Env, s: Store, x: ClaimId, w: ClaimId)
    requires Sane(env, s) && x < |s.claims| && s.claims[x].status == Active
    ensures Pays(env, s, Demote(env, s, x, w))
  {
    hide Related, NoWorse, Sane, DebtOf;
    BeatenPays(env, s, x, w);
    var s2 := Beaten(env, s, x, w);
    OwesAtMost(env, s, s2, x);
    RelatedNoWorse(env, s2, x, [w]);
    var s3 := Related(s2, x, [w], env.now);
    OwesAtMost(env, s2, s3, x);
    RelatedNoWorse(env, s3, w, [x]);
    NoWorseTransitive(env, s2, s3, Related(s3, w, [x], env.now));
    NoWorseTransitive(env, s, s2, Related(s3, w, [x], env.now));
  }

  lemma RelatedNoWorse(env: Env, s: Store, id: ClaimId, more: seq<ClaimId>)
    requires Sane(env, s)
    ensures NoWorse(env, s, Related(s, id, more, env.now))
  {
    RelatedAdvances(s, id, more, env.now);
    ColumnsNoWorse(env, s, Related(s, id, more, env.now));
  }

  lemma RelatedKeepsStatuses(s: Store, id: ClaimId, more: seq<ClaimId>, now: Time)
    ensures |Related(s, id, more, now).claims| == |s.claims|
    ensures forall i :: 0 <= i < |s.claims| ==> Related(s, id, more, now).claims[i].status == s.claims[i].status
  {
  }

  lemma DemoteStatuses(env: Env, s: Store, x: ClaimId, w: ClaimId)
    requires x < |s.claims|
    ensures |Demote(env, s, x, w).claims| == |s.claims|
    ensures forall i :: 0 <= i < |s.claims| ==>
                          Demote(env, s, x, w).claims[i].status == if i == x then Contradicted else s.claims[i].status
  {
    hide Related;
    var s1 := Log(s.(claims := s.claims[x := s.claims[x].(status := Contradicted, updatedAt := env.now)]), x,
                  Superseded(w), env.now);
    RelatedKeepsStatuses(s1, x, [w], env.now);
    RelatedKeepsStatuses(Related(s1, x, [w], env.now), w, [x], env.now);
  }

  /** One step of the settling loop. */
  lemma SettleUnrolls(env: Env, s: Store, contenders: seq<ClaimId>, w: ClaimId)
    requires contenders != [] && contenders[0] < |s.claims| && s.claims[contenders[0]].status == Active
    ensures SettleContenders(env, s, contenders, w) ==
            if contenders[0] == w then SettleContenders(env, Log(s, w, Affirmed, env.now), contenders[1..], w)
            else (SettleContenders(env, Demote(env, s, contenders[0], w), contenders[1..], w).0, true)
  {
  }

  /** Settling contradicts every contender but the winner and changes no other status. */
  lemma {:induction false} SettleStatuses(env: Env, s: Store, contenders: seq<ClaimId>, w: ClaimId)
    requires AllActive(s, contenders) && Distinct(contenders)
    ensures var (s', changed) := SettleContenders(env, s, contenders, w);
            && (changed <==> exists k :: 0 <= k < |contenders| && contenders[k] != w)
            && |s'.claims| == |s.claims|
            && forall i :: 0 <= i < |s.claims| ==>
                             s'.claims[i].status ==
                                 if i in contenders && i != w then Contradicted else s.claims[i].status
    decreases contenders
  {
    if contenders != [] {
      var x, rest := contenders[0], contenders[1..];
      SettleUnrolls(env, s, contenders, w);
      assert forall k :: 0 < k < |contenders| ==> contenders[k] == rest[k - 1];
      assert forall i :: i in contenders <==> i == x || i in rest;
      if x == w {
        SettleStatuses(env, Log(s, w, Affirmed, env.now), rest, w);
      } else {
        DemoteStatuses(env, s, x, w);
        SettleStatuses(env, Demote(env, s, x, w), rest, w);
      }
    }
  }

  lemma {:induction false} SettlePays(env: Env, s: Store, contenders: seq<ClaimId>, w: ClaimId)
    requires Sane(env, s) && AllActive(s, contenders) && Distinct(contenders) && w < |s.claims|
    ensures NoWorse(env, s, SettleContenders(env, s, contenders, w).0)
    ensures SettleContenders(env, s, contenders, w).1 ==> Pays(env, s, SettleContenders(env, s, contenders, w).0)
    decreases contenders
  {
    hide DebtOf, Demote;
    if contenders == [] {
      ColumnsNoWorse(env, s, s);
    } else {
      var x, rest := contenders[0], contenders[1..];
      SettleUnrolls(env, s, contenders, w);
      if x == w {
        var s1 := Log(s, w, Affirmed, env.now);
        LogNoWorse(env, s, w, Affirmed);
        SettlePays(env, s1, rest, w);
        NoWorseTransitive(env, s, s1, SettleContenders(env, s1, rest, w).0);
      } else {
        var s1 := Demote(env, s, x, w);
        DemotePays(env, s, x, w);
        DemoteStatuses(env, s, x, w);
        SettlePays(env, s1, rest, w);
        NoWorseTransitive(env, s, s1, SettleContenders(env, s1, rest, w).0);
      }
    }
  }

  /** The claim and its active rivals: all active, no repeats. */
  lemma ContendersActive(s: Store, id: ClaimId)
    requires id < |s.claims| && s.claims[id].status == Active
    ensures AllActive(s, [id] + ActiveRivals(s.claims, id)) && Distinct([id] + ActiveRivals(s.claims, id))
  {
    var c := s.claims[id];
    var keep := (x: Claim) => x.About(c.norm.subj, c.norm.pred) && x.status == Active
                && (x.norm.obj != c.norm.obj || x.negated != c.negated);
    assert ActiveRivals(s.claims, id) == Select(s.claims, keep);
  }

  lemma RevisePays(env: Env, s0: Store, s: Store, id: ClaimId, c: Claim)
    requires Since(env, s0, s, id, c) && Revise(env, s, id).Some?
    ensures NoWorse(env, s, Revise(env, s, id).value) && Pays(env, s0, Revise(env, s, id).value)
  {
    hide DebtOf, SettleContenders, SessionMates, Related, Family;
    var contenders := [id] + ActiveRivals(s.claims, id);
    var w := PickRevisionWinner(s.claims, contenders);
    ContendersActive(s, id);
    SettlePays(env, s, contenders, w);
    var s1 := SettleContenders(env, s, contenders, w).0;
    var s' := Revise(env, s, id).value;
    RelatedNoWorse(env, s1, w, SessionMates(env, s.claims, contenders, Listed(s.claims), 5));
    ColumnsNoWorse(env, s1, s1);
    NoWorseTransitive(env, s, s1, s');
    NoWorseTransitive(env, s0, s, s');
  }
}
