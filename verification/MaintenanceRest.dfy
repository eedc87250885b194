/** Two passes in a row that move only locks settle the matter: from then on nothing else ever moves. */
module MaintenanceRest {
  import opened C = ClaimStore
  import opened P = MaintenancePolicy
  import opened MaintenanceRevision
  import opened Maintenance
  import opened MaintenanceConvergence
  import opened MaintenancePasses
  import opened MaintenanceLocks

  // ---------- Stores that differ in locks only ----------

  /** The rows a rung other than the lock may look up. */
  ghost predicate SameRows(h: seq<Row>, h': seq<Row>, i: ClaimId) {
    && Latest(h', i, IsCompound) == Latest(h, i, IsCompound)
    && Latest(h', i, IsDecay) == Latest(h, i, IsDecay)
    && Latest(h', i, IsGist) == Latest(h, i, IsGist)
    && Latest(h', i, IsActivate) == Latest(h, i, IsActivate)
    && Latest(h', i, IsSuppress) == Latest(h, i, IsSuppress)
    && LastBoostAccess(h', i) == LastBoostAccess(h, i)
  }

  predicate SameButLock(c: Claim, c': Claim) {
    c' == c.(locked := c'.locked, updatedAt := c'.updatedAt)
  }

  /** The same claims up to locks and update times, the same history up to lock rows. */
  ghost predicate Twins(s: Store, s': Store) {
    && |s'.claims| == |s.claims|
    && (forall i :: 0 <= i < |s.claims| ==> SameButLock(s.claims[i], s'.claims[i]))
    && forall i: ClaimId :: SameRows(s.history, s'.history, i)
  }

  lemma TwinsTransitive(a: Store, b: Store, c: Store)
    requires Twins(a, b) && Twins(b, c)
    ensures Twins(a, c)
  {
    forall i: ClaimId
      ensures SameRows(a.history, c.history, i)
    {
      assert SameRows(a.history, b.history, i) && SameRows(b.history, c.history, i);
    }
  }

  lemma TwinsBack(s: Store, s': Store)
    requires Twins(s, s')
    ensures Twins(s', s)
  {
    forall i | 0 <= i < |s.claims|
      ensures SameButLock(s'.claims[i], s.claims[i])
    {
      assert SameButLock(s.claims[i], s'.claims[i]);
    }
    forall i: ClaimId
      ensures SameRows(s'.history, s.history, i)
    {
      assert SameRows(s.history, s'.history, i);
    }
  }

  lemma TwinsAdvance(s: Store, s': Store)
    requires Twins(s, s')
    ensures Advances(s, s')
  {
  }

  /** The same claim, perhaps written at the present time. */
  predicate Like(env: Env, c: Claim, c': Claim) {
    c' == c.(updatedAt := c'.updatedAt) && (c'.updatedAt == c.updatedAt || c'.updatedAt == env.now)
  }

  /** No rung but the lock applies: those after the lock need only be idle when the lock does not move. */
  ghost predicate Calm(env: Env, s: Store, id: ClaimId, c: Claim, family: set<ClaimId>)
    requires id < |s.claims|
  {
    && Compound(env, s, id, c).None? && Decay(env, s, id, c).None? && LinkCounterparts(env, s, id, c).None?
    && ProposeGist(env, s, id, family).None? && Revise(env, s, id).None?
    && (Toggles(c) || (Activate(env, s, id, c).None? && Classify(env, s, id, c).None?))
  }

  lemma LockMoves(env: Env, s: Store, id: ClaimId, c: Claim)
    requires id < |s.claims|
    ensures MaintainLock(env, s, id, c).Some? <==> Toggles(c)
  {
  }

  lemma ClimbOn(env: Env, s: Store, id: ClaimId, c: Claim, family: set<ClaimId>, k: nat, which: Outcome)
    requires id < |s.claims| && k < |LADDER| && LADDER[k] == which
    ensures Climb(env, s, id, c, family, LADDER[k..]).1 ==
            if Rung(env, s, id, c, family, which).Some? then which else Climb(env, s, id, c, family, LADDER[k + 1..]).1
  {
    hide Rung;
    assert LADDER[k..][0] == LADDER[k] && LADDER[k..][1..] == LADDER[k + 1..];
  }

  lemma LadderIs()
    ensures |LADDER| == 8 && LADDER[0] == DidCompound && LADDER[1] == DidDecay && LADDER[2] == DidLink
    ensures LADDER[3] == DidProposeGist && LADDER[4] == DidRevise && LADDER[5] == DidLock
    ensures LADDER[6] == DidActivate && LADDER[7] == DidClassify
  {
  }

  lemma ClimbEnds(env: Env, s: Store, id: ClaimId, c: Claim, family: set<ClaimId>)
    requires id < |s.claims|
    ensures |LADDER| == 8 && Climb(env, s, id, c, family, LADDER[8..]).1 == DidSkip
  {
  }

  lemma LastRungs(env: Env, s: Store, id: ClaimId, c: Claim, family: set<ClaimId>)
    requires id < |s.claims|
    ensures |LADDER| == 8
    ensures Climb(env, s, id, c, family, LADDER[4..]).1 ==
            if Revise(env, s, id).Some? then DidRevise
            else if MaintainLock(env, s, id, c).Some? then DidLock
            else if Activate(env, s, id, c).Some? then DidActivate
            else if Classify(env, s, id, c).Some? then DidClassify else DidSkip
  {
    hide LADDER, Climb, Compound, Decay, LinkCounterparts, ProposeGist, Revise, MaintainLock, Activate, Classify;
    LadderIs();
    ClimbOn(env, s, id, c, family, 4, DidRevise);
    ClimbOn(env, s, id, c, family, 5, DidLock);
    ClimbOn(env, s, id, c, family, 6, DidActivate);
    ClimbOn(env, s, id, c, family, 7, DidClassify);
    ClimbEnds(env, s, id, c, family);
  }

  lemma MiddleRungs(env: Env, s: Store, id: ClaimId, c: Claim, family: set<ClaimId>)
    requires id < |s.claims|
    ensures |LADDER| == 8
    ensures Climb(env, s, id, c, family, LADDER[2..]).1 ==
            if LinkCounterparts(env, s, id, c).Some? then DidLink
            else if ProposeGist(env, s, id, family).Some? then DidProposeGist
            else Climb(env, s, id, c, family, LADDER[4..]).1
  {
    hide LADDER, Climb, LinkCounterparts, ProposeGist;
    LadderIs();
    ClimbOn(env, s, id, c, family, 2, DidLink);
    ClimbOn(env, s, id, c, family, 3, DidProposeGist);
  }

  /** The outcome of a visit is the first rung that applies. */
  lemma FirstRung(env: Env, s: Store, id: ClaimId, c: Claim, family: set<ClaimId>)
    requires id < |s.claims|
    ensures MaintainOne(env, s, id, c, family).1 ==
            if Compound(env, s, id, c).Some? then DidCompound
            else if Decay(env, s, id, c).Some? then DidDecay
            else if LinkCounterparts(env, s, id, c).Some? then DidLink
            else if ProposeGist(env, s, id, family).Some? then DidProposeGist
            else if Revise(env, s, id).Some? then DidRevise
            else if MaintainLock(env, s, id, c).Some? then DidLock
            else if Activate(env, s, id, c).Some? then DidActivate
            else if Classify(env, s, id, c).Some? then DidClassify else DidSkip
  {
    hide LADDER, Climb, Compound, Decay, LinkCounterparts, ProposeGist, Revise, MaintainLock, Activate, Classify;
    LadderIs();
    assert LADDER[0..] == LADDER;
    ClimbOn(env, s, id, c, family, 0, DidCompound);
    ClimbOn(env, s, id, c, family, 1, DidDecay);
    MiddleRungs(env, s, id, c, family);
    LastRungs(env, s, id, c, family);
  }

  /** Being calm is what a visit that is not busy finds. */
  lemma CalmIsIdle(env: Env, s: Store, id: ClaimId, c: Claim, family: set<ClaimId>)
    requires id < |s.claims|
    ensures Calm(env, s, id, c, family) <==> !Busy(MaintainOne(env, s, id, c, family).1)
  {
    hide Compound, Decay, LinkCounterparts, ProposeGist, Revise, MaintainLock, Activate, Classify, Toggles, MaintainOne;
    LockMoves(env, s, id, c);
    FirstRung(env, s, id, c, family);
  }

  // ---------- What twins agree on ----------

  lemma LookupsAgree(s: Store, s': Store, id: ClaimId)
    requires Twins(s, s') && id < |s.claims|
    ensures SameRows(s.history, s'.history, id)
  {
    hide SameRows;
  }

  lemma DecayAgrees(env: Env, s: Store, s': Store, id: ClaimId, c: Claim, c': Claim)
    requires Twins(s, s') && id < |s.claims| && Like(env, c, c') && Decay(env, s, id, c).None?
    ensures Decay(env, s', id, c').None?
  {
    LookupsAgree(s, s', id);
    hide Twins, Latest, Decayed;
  }

  lemma StepsAgree(env: Env, s: Store, s': Store, id: ClaimId, c: Claim, c': Claim, family: set<ClaimId>)
    requires Twins(s, s') && id < |s.claims| && Like(env, c, c')
    ensures Compound(env, s', id, c').None? <==> Compound(env, s, id, c).None?
    ensures LinkCounterparts(env, s', id, c').None? <==> LinkCounterparts(env, s, id, c).None?
    ensures ProposeGist(env, s', id, family).None? <==> ProposeGist(env, s, id, family).None?
    ensures Toggles(c') <==> Toggles(c)
    ensures Classify(env, s', id, c').None? <==> Classify(env, s, id, c).None?
  {
    LookupsAgree(s, s', id);
    hide Twins, Latest, LastBoostAccess, Without, Counterparts, Related, CompoundConfidence;
  }

  lemma ActivateAgrees(env: Env, s: Store, s': Store, id: ClaimId, c: Claim, c': Claim)
    requires Twins(s, s') && id < |s.claims| && Like(env, c, c')
    ensures Activate(env, s', id, c').None? <==> Activate(env, s, id, c).None?
  {
    LookupsAgree(s, s', id);
    hide Twins, Latest, LastBoostAccess, Spread;
  }

  /** Whether a revision applies depends on who is active, and on nothing else. */
  lemma ReviseApplies(env: Env, s: Store, id: ClaimId)
    requires id < |s.claims|
    ensures Revise(env, s, id).Some? <==> s.claims[id].status == Active && ActiveRivals(s.claims, id) != []
  {
    hide SettleContenders, SessionMates, Related, ActiveRivals;
    var rivals := ActiveRivals(s.claims, id);
    if s.claims[id].status == Active && rivals != [] {
      var contenders := [id] + rivals;
      var w := PickRevisionWinner(s.claims, contenders);
      ContendersActive(s, id);
      SettleStatuses(env, s, contenders, w);
      assert contenders[0] != contenders[1];
      assert contenders[0] != w || contenders[1] != w;
    }
  }

  lemma RivalsAgree(s: Store, s': Store, id: ClaimId)
    requires Twins(s, s') && id < |s.claims|
    ensures |s'.claims| == |s.claims| && (ActiveRivals(s'.claims, id) != [] <==> ActiveRivals(s.claims, id) != [])
  {
    TwinsBack(s, s');
    TwinsKeepLength(s, s');
    hide ActiveRivals, Twins;
    if ActiveRivals(s.claims, id) != [] {
      RivalsCarry(s, s', id);
    } else if ActiveRivals(s'.claims, id) != [] {
      RivalsCarry(s', s, id);
    }
  }

  lemma RivalsCarry(s: Store, s': Store, id: ClaimId)
    requires Twins(s, s') && id < |s.claims| && ActiveRivals(s.claims, id) != []
    ensures ActiveRivals(s'.claims, id) != []
  {
    var c, c' := s.claims[id], s'.claims[id];
    var keep := (x: Claim) => x.About(c.norm.subj, c.norm.pred) && x.status == Active
                && (x.norm.obj != c.norm.obj || x.negated != c.negated);
    var keep' := (x: Claim) =>
      x.About(c'.norm.subj, c'.norm.pred) && x.status == Active
          && (x.norm.obj != c'.norm.obj || x.negated != c'.negated);
    assert ActiveRivals(s.claims, id) == Select(s.claims, keep)
           && ActiveRivals(s'.claims, id) == Select(s'.claims, keep');
    var i := ActiveRivals(s.claims, id)[0];
    assert keep(s.claims[i]) && keep'(s'.claims[i]);
  }

  lemma CalmTwins(env: Env, s: Store, s': Store, id: ClaimId, c: Claim, c': Claim, family: set<ClaimId>)
    requires Twins(s, s') && id < |s.claims| && Like(env, c, c') && Calm(env, s, id, c, family)
    ensures Calm(env, s', id, c', family)
  {
    hide Compound, Decay, LinkCounterparts, ProposeGist, Revise, Activate, Classify, Toggles, SameRows;
    StepsAgree(env, s, s', id, c, c', family);
    DecayAgrees(env, s, s', id, c, c');
    ActivateAgrees(env, s, s', id, c, c');
    ReviseApplies(env, s, id);
    ReviseApplies(env, s', id);
    RivalsAgree(s, s', id);
    assert SameButLock(s.claims[id], s'.claims[id]);
  }

  // ---------- Idle passes keep twins ----------

  lemma {:induction false} LockRowHides(h: seq<Row>, row: Row, i: ClaimId)
    requires row.step in {LockedUp, Unlocked}
    ensures SameRows(h, h + [row], i)
  {
    LatestsAfter(h, row, i);
    LastBoostAfter(h, row, i);
  }

  lemma SelfTwins(s: Store)
    ensures Twins(s, s)
  {
  }

  lemma IdleVisitTwins(env: Env, s: Store, id: ClaimId, family: set<ClaimId>)
    requires id < |s.claims| && !Busy(MaintainOne(env, s, id, s.claims[id], family).1)
    ensures Twins(s, MaintainOne(env, s, id, s.claims[id], family).0)
  {
    hide Compound, Decay, LinkCounterparts, ProposeGist, Revise, MaintainLock, Activate, Classify, Climb;
    var c := s.claims[id];
    var (s', outcome) := MaintainOne(env, s, id, c, family);
    IdleOutcome(env, s, id, family);
    hide MaintainOne, Twins;
    SelfTwins(s);
    if outcome == DidLock {
      LockTwins(env, s, id);
    }
  }

  lemma LockTwins(env: Env, s: Store, id: ClaimId)
    requires id < |s.claims| && MaintainLock(env, s, id, s.claims[id]).Some?
    ensures Twins(s, MaintainLock(env, s, id, s.claims[id]).value)
  {
    hide SameRows;
    forall i: ClaimId
      ensures SameRows(s.history, s.history + [Row(id, LockedUp, env.now)], i)
      ensures SameRows(s.history, s.history + [Row(id, Unlocked, env.now)], i)
    {
      LockRowHides(s.history, Row(id, LockedUp, env.now), i);
      LockRowHides(s.history, Row(id, Unlocked, env.now), i);
    }
  }

  /** A listing is worked through without a busy visit exactly when every listed claim was calm at the start. */
  lemma {:induction false} EachCalm(env: Env, start: Store, s: Store, ids: seq<ClaimId>)
    requires InTable(start.claims, ids) && Distinct(ids) && Twins(start, s)
    requires forall k :: 0 <= k < |ids| ==> s.claims[ids[k]] == start.claims[ids[k]]
    ensures NoneBusy(MaintainEach(env, start.claims, s, ids).1) <==>
            forall k :: 0 <= k < |ids| ==>
                  Calm(env, start, ids[k], start.claims[ids[k]], Family(start.claims, start.claims[ids[k]]))
    ensures NoneBusy(MaintainEach(env, start.claims, s, ids).1) ==>
              Twins(start, MaintainEach(env, start.claims, s, ids).0)
    decreases ids
  {
    hide MaintainOne, Family, Calm, Busy, SameRows, SameButLock;
    if ids != [] {
      var id, c := ids[0], start.claims[ids[0]];
      var family := Family(start.claims, c);
      var (s1, outcome) := MaintainOne(env, s, id, c, family);
      var full := MaintainEach(env, start.claims, s, ids).1;
      SkippingIsIdle();
      CalmIsIdle(env, s, id, c, family);
      CalmAt(env, start, s, id, c, family);
      assert forall k :: 0 <= k < |ids[1..]| ==> ids[1..][k] == ids[k + 1];
      assert full[0] == outcome;
      if !Busy(outcome) {
        IdleVisitTwins(env, s, id, family);
        IdleVisit(env, s, id, family);
        IdleOutcome(env, s, id, family);
        TwinsTransitive(start, s, s1);
        EachCalm(env, start, s1, ids[1..]);
        var rest := MaintainEach(env, start.claims, s1, ids[1..]).1;
        assert full == [outcome] + rest;
        assert forall k :: 0 <= k < |rest| ==> rest[k] == full[k + 1];
      }
    }
  }

  lemma SkippingIsIdle()
    ensures !Busy(DidSkip) && !Busy(DidLock)
  {
  }

  lemma CalmAt(env: Env, s: Store, s': Store, id: ClaimId, c: Claim, family: set<ClaimId>)
    requires Twins(s, s') && id < |s.claims|
    ensures Calm(env, s, id, c, family) <==> Calm(env, s', id, c, family)
  {
    TwinsBack(s, s');
    TwinsKeepLength(s, s');
    hide Twins, Calm;
    if Calm(env, s, id, c, family) {
      CalmTwins(env, s, s', id, c, c, family);
    } else if Calm(env, s', id, c, family) {
      CalmTwins(env, s', s, id, c, c, family);
    }
  }

  // ---------- Suppression ----------

  lemma SuppressAgrees(env: Env, s: Store, s': Store, id: ClaimId, at: Time)
    requires Twins(s, s') && SuppressOne(env, s, id, at) == s
    ensures SuppressOne(env, s', id, at) == s'
  {
    assert SameRows(s.history, s'.history, id);
    hide SameRows, Latest;
  }

  lemma {:induction false} RowsGrow(env: Env, s: Store, ids: seq<ClaimId>, at: Time)
    ensures |SuppressRows(env, s, ids, at).history| >= |s.history|
    ensures |SuppressRows(env, s, ids, at).history| == |s.history| ==> SuppressRows(env, s, ids, at) == s
    decreases ids
  {
    hide Latest;
    if ids != [] {
      RowsGrow(env, SuppressOne(env, s, ids[0], at), ids[1..], at);
    }
  }

  lemma {:induction false} TracesGrow(env: Env, s: Store, traces: seq<Trace>)
    ensures |SuppressFromTraces(env, s, traces).history| >= |s.history|
    ensures |SuppressFromTraces(env, s, traces).history| == |s.history| ==> SuppressFromTraces(env, s, traces) == s
    decreases traces
  {
    if traces != [] {
      RowsGrow(env, s, traces[0].familiar, traces[0].at);
      TracesGrow(env, SuppressRows(env, s, traces[0].familiar, traces[0].at), traces[1..]);
    }
  }

  lemma {:induction false} RowsAgree(env: Env, s: Store, s': Store, ids: seq<ClaimId>, at: Time)
    requires Twins(s, s') && SuppressRows(env, s, ids, at) == s
    ensures SuppressRows(env, s', ids, at) == s'
    decreases ids
  {
    hide Twins;
    if ids != [] {
      RowsGrow(env, SuppressOne(env, s, ids[0], at), ids[1..], at);
      OneGrows(env, s, ids[0], at);
      SuppressAgrees(env, s, s', ids[0], at);
      RowsAgree(env, s, s', ids[1..], at);
    }
  }

  lemma OneGrows(env: Env, s: Store, id: ClaimId, at: Time)
    ensures SuppressOne(env, s, id, at) == s || |SuppressOne(env, s, id, at).history| > |s.history|
  {
  }

  lemma {:induction false} TracesAgree(env: Env, s: Store, s': Store, traces: seq<Trace>)
    requires Twins(s, s') && SuppressFromTraces(env, s, traces) == s
    ensures SuppressFromTraces(env, s', traces) == s'
    decreases traces
  {
    hide Twins, SuppressRows;
    if traces != [] {
      RowsGrow(env, s, traces[0].familiar, traces[0].at);
      TracesGrow(env, SuppressRows(env, s, traces[0].familiar, traces[0].at), traces[1..]);
      RowsAgree(env, s, s', traces[0].familiar, traces[0].at);
      TracesAgree(env, s, s', traces[1..]);
    }
  }

  // ---------- Two idle passes ----------

  ghost predicate AllCalm(env: Env, s: Store) {
    && SuppressFromTraces(env, s, env.traces) == s
    && forall id: ClaimId :: id in Listed(s.claims) ==> Calm(env, s, id, s.claims[id], Family(s.claims, s.claims[id]))
  }

  lemma IdleMeansCalm(env: Env, s: Store)
    ensures !Acts(RunPass(env, s)) <==> AllCalm(env, s)
    ensures !Acts(RunPass(env, s)) ==> Twins(s, RunPass(env, s).store)
  {
    hide Calm, Family, Twins, SuppressFromTraces, MaintainEach;
    var ids := Listed(s.claims);
    if SuppressFromTraces(env, s, env.traces) == s {
      SelfTwins(s);
      EachCalm(env, s, s, ids);
      assert forall k :: 0 <= k < |ids| ==> ids[k] in ids;
    }
  }

  /** What an idle pass makes of one listed claim. */
  function Locked(c: Claim, now: Time): Claim {
    if Toggles(c) then Flipped(c, now) else c
  }

  /** Locks have period two; a claim that stops moving has stopped after one pass. */
  lemma LocksAlternate(env: Env, c: Claim)
    ensures var c1, c2 := Locked(c, env.now), Locked(Locked(c, env.now), env.now);
            if Toggles(c2) then Like(env, c, c2) else c2 == c1
  {
  }

  lemma IdleClaim(env: Env, s: Store, id: ClaimId)
    requires !Acts(RunPass(env, s)) && id in Listed(s.claims)
    ensures |RunPass(env, s).store.claims| == |s.claims|
            && RunPass(env, s).store.claims[id] == Locked(s.claims[id], env.now)
  {
    hide RunPass, Acts, Toggles, Flipped;
    IdlePass(env, s);
  }

  lemma CalmAgain(env: Env, s: Store, s': Store, id: ClaimId)
    requires Twins(s, s') && id < |s.claims| && Like(env, s.claims[id], s'.claims[id])
    requires Calm(env, s, id, s.claims[id], Family(s.claims, s.claims[id]))
    ensures Calm(env, s', id, s'.claims[id], Family(s'.claims, s'.claims[id]))
  {
    hide Calm, Family, SameRows;
    TwinsAdvance(s, s');
    FamilyStable(s, s', id);
    CalmTwins(env, s, s', id, s.claims[id], s'.claims[id], Family(s.claims, s.claims[id]));
  }

  ghost predicate TwoIdle(env: Env, s: Store) {
    !Acts(RunPass(env, s)) && !Acts(RunPass(env, RunPass(env, s).store))
  }

  /** After two idle passes the third is idle too. */
  lemma ThirdIsIdle(env: Env, s: Store)
    requires TwoIdle(env, s)
    ensures TwoIdle(env, RunPass(env, s).store)
  {
    hide RunPass, Acts, Calm, Family, Twins, Like, Toggles, Flipped;
    var s1 := RunPass(env, s).store;
    var s2 := RunPass(env, s1).store;
    IdleMeansCalm(env, s);
    IdleMeansCalm(env, s1);
    TwinsTransitive(s, s1, s2);
    TwinsKeepLength(s, s1);
    TwinsKeepLength(s1, s2);
    TracesAgree(env, s, s2, env.traces);
    var ids := Listed(s.claims);
    assert Listed(s1.claims) == ids && Listed(s2.claims) == ids;
    forall id: ClaimId | id in Listed(s2.claims)
      ensures Calm(env, s2, id, s2.claims[id], Family(s2.claims, s2.claims[id]))
    {
      IdleClaim(env, s, id);
      IdleClaim(env, s1, id);
      LocksAlternate(env, s.claims[id]);
      if Toggles(s2.claims[id]) {
        CalmAgain(env, s, s2, id);
      } else {
        LikeItself(env, s1.claims[id]);
        CalmAgain(env, s1, s2, id);
      }
    }
    IdleMeansCalm(env, s2);
  }

  lemma TwinsKeepLength(s: Store, s': Store)
    requires Twins(s, s')
    ensures |s'.claims| == |s.claims|
  {
  }

  lemma LikeItself(env: Env, c: Claim)
    ensures Like(env, c, c)
  {
  }

  /** Two idle passes in a row are the last: nothing but locks moves from then on. */
  lemma {:induction false} TwoIdleSettle(env: Env, s: Store)
    requires TwoIdle(env, s)
    ensures OnlyLocks(env, s)
  {
    hide RunPass, Acts;
    forall m: nat
      ensures !Acts(RunPass(env, Passes(env, s, m)))
    {
      StaysIdle(env, s, m);
    }
  }

  lemma {:induction false} StaysIdle(env: Env, s: Store, m: nat)
    requires TwoIdle(env, s)
    ensures TwoIdle(env, Passes(env, s, m))
  {
    hide TwoIdle, RunPass;
    if m > 0 {
      StaysIdle(env, s, m - 1);
      ThirdIsIdle(env, Passes(env, s, m - 1));
    }
  }

  /**
   * When two passes in a row move nothing but locks, maintenance comes to rest exactly when no listed claim is a
   * strong loser: such a claim is unlocked and locked again by every other pass, for ever.
   */
  lemma QuiescenceCondition(env: Env, s: Store)
    requires !Acts(RunPass(env, s)) && !Acts(RunPass(env, RunPass(env, s).store))
    ensures OnlyLocks(env, s)
    ensures Quiesces(env, s) <==> !HasStrongLoser(s)
  {
    hide RunPass, Acts, HasStrongLoser, Quiet;
    TwoIdleSettle(env, s);
    LocksSettle(env, s);
  }

  // ---------- From any store ----------

  /** Of every two passes one acts, unless two in a row are idle. */
  lemma {:induction false} PairsAct(env: Env, s: Store, n: nat)
    requires forall m: nat :: m < n ==> !TwoIdle(env, Passes(env, s, 2 * m))
    ensures ActingPasses(env, s, 2 * n) >= n
  {
    hide RunPass, Acts;
    if n > 0 {
      PairsAct(env, s, n - 1);
      assert !TwoIdle(env, Passes(env, s, 2 * (n - 1)));
      assert Passes(env, s, 2 * n - 1) == RunPass(env, Passes(env, s, 2 * n - 2)).store;
    }
  }

  /** A quiet pass is repeated by every pass after it. */
  lemma {:induction false} QuietStays(env: Env, s: Store, m: nat, n: nat)
    requires Sane(env, s) && m <= n && Quiet(RunPass(env, Passes(env, s, m)))
    ensures Passes(env, s, n) == Passes(env, s, m)
  {
    hide RunPass, Quiet, NoWorse, Sane, Owed;
    if m < n {
      QuietStays(env, s, m, n - 1);
      PassesStaySane(env, s, m);
      PassPays(env, Passes(env, s, m));
    }
  }

  lemma QuiescesLater(env: Env, s: Store, n: nat)
    requires Sane(env, s)
    ensures Quiesces(env, Passes(env, s, n)) <==> Quiesces(env, s)
  {
    hide RunPass, Quiet, Sane, Passes;
    if Quiesces(env, Passes(env, s, n)) {
      var m: nat :| Quiet(RunPass(env, Passes(env, Passes(env, s, n), m)));
      PassesCompose(env, s, n, m);
      assert Quiet(RunPass(env, Passes(env, s, n + m)));
    }
    if Quiesces(env, s) {
      var m: nat :| Quiet(RunPass(env, Passes(env, s, m)));
      if m >= n {
        PassesCompose(env, s, n, m - n);
        assert Quiet(RunPass(env, Passes(env, Passes(env, s, n), m - n)));
      } else {
        QuietStays(env, s, m, n);
        PassesCompose(env, s, n, 0);
        assert Quiet(RunPass(env, Passes(env, Passes(env, s, n), 0)));
      }
    }
  }

  lemma {:induction false} OnlyLocksLater(env: Env, s: Store, m: nat)
    requires OnlyLocks(env, s)
    ensures OnlyLocks(env, Passes(env, s, m))
  {
    hide RunPass, Acts;
    forall n: nat
      ensures !Acts(RunPass(env, Passes(env, Passes(env, s, m), n)))
    {
      PassesCompose(env, s, m, n);
    }
  }

  /** Twice as many passes as there is debt, and only locks can move. */
  lemma SettledAfter(env: Env, s: Store)
    requires Sane(env, s)
    ensures OnlyLocks(env, Passes(env, s, 2 * Owed(env, s)))
  {
    hide RunPass, Acts, Owed, OnlyLocks, TwoIdle;
    var n := Owed(env, s);
    if m: nat :| m <= n && TwoIdle(env, Passes(env, s, 2 * m)) {
      TwoIdleSettle(env, Passes(env, s, 2 * m));
      OnlyLocksLater(env, Passes(env, s, 2 * m), 2 * (n - m));
      PassesCompose(env, s, 2 * m, 2 * (n - m));
    } else {
      PairsAct(env, s, n + 1);
      FewPassesAct(env, s, 2 * (n + 1));
    }
  }

  /**
   * From any sane store: maintenance comes to rest exactly when, after twice as many passes as were owed, no listed
   * claim is a strong loser; otherwise it ends in endless lock toggling.
   */
  lemma RestOrToggle(env: Env, s: Store)
    requires Sane(env, s)
    ensures var settled := Passes(env, s, 2 * Owed(env, s));
            OnlyLocks(env, settled) && (Quiesces(env, s) <==> !HasStrongLoser(settled))
  {
    hide RunPass, Owed, OnlyLocks, HasStrongLoser, Sane;
    var n := 2 * Owed(env, s);
    SettledAfter(env, s);
    LocksSettle(env, Passes(env, s, n));
    QuiescesLater(env, s, n);
  }

  // ---------- A store that never comes to rest ----------

  /** One strong contradicted claim with nothing else to do. */
  predicate Settled(env: Env, c: Claim) {
    && StrongLoser(c) && c.confidence >= COMPOUND_CEILING && c.updatedAt >= env.now
    && c.lastAccessedAt.None? && c.activation.None? && c.sourceType.Some?
  }

  lemma SettledIsCalm(env: Env, s: Store, c: Claim)
    requires Settled(env, c) && env.journal == [] && env.traces == [] && Twins(Store([c], []), s) && s.claims == [c]
    ensures !Acts(RunPass(env, s))
  {
    hide RunPass, Acts, Decayed, CompoundConfidence, Spread, SettleContenders, SessionMates, Twins;
    IdleMeansCalm(env, s);
    OneIsNoFamily([c]);
    LoserMoves(c);
    assert Without([], c.related) == [];
    assert Calm(env, Store([c], []), 0, c, {});
    hide Calm;
    CalmAt(env, Store([c], []), s, 0, c, {});
  }

  lemma LoserMoves(c: Claim)
    requires StrongLoser(c)
    ensures Toggles(c)
  {
  }

  lemma OneIsNoFamily(claims: seq<Claim>)
    requires |claims| == 1
    ensures Family(claims, claims[0]) == {}
  {
    var c, ids := claims[0], Listed(claims);
    var group := set i | 0 <= i < |claims| && i in ids && FamilyKey(claims[i]) == FamilyKey(c);
    assert group <= {0};
    Smaller(group, {0});
  }

  lemma Smaller(a: set<ClaimId>, b: set<ClaimId>)
    requires a <= b
    ensures |a| <= |b|
  {
    assert b == a + (b - a);
  }

  /** A claim contradicted after five observations at confidence 0.99 is locked and unlocked for ever. */
  lemma StrongLoserNeverRests(env: Env, c: Claim)
    requires Settled(env, c) && env.journal == [] && env.traces == []
    ensures !Quiesces(env, Store([c], []))
  {
    hide RunPass, Acts, SameRows;
    var s := Store([c], []);
    SelfTwins(s);
    SettledIsCalm(env, s, c);
    IdleMeansCalm(env, s);
    var next := RunPass(env, s).store;
    assert Listed(s.claims)[0] == 0;
    IdleClaim(env, s, 0);
    LoserMoves(c);
    var c' := Flipped(c, env.now);
    assert next.claims == [c'];
    assert Twins(Store([c'], []), next);
    SettledIsCalm(env, next, c');
    QuiescenceCondition(env, s);
  }
}
