/** The maintenance service over the claim and history stores, rung by rung. */
module MaintenanceServices {
  import opened Wrappers
  import opened C = ClaimStore
  import opened P = MaintenancePolicy
  import opened MaintenanceRevision
  import opened Maintenance
  import opened MaintenanceConvergence

  /** The append-only `claim_history` table. */
  class HistoryRepository {
    var rows: seq<Row>

    constructor ()
      ensures rows == []
    {
      rows := [];
    }

    method Record(id: ClaimId, step: Step, at: Time)
      modifies this
      ensures rows == old(rows) + [Row(id, step, at)]
    {
      rows := rows + [Row(id, step, at)];
    }

    method LatestByClaim(id: ClaimId, keep: Step -> bool) returns (row: Option<Row>)
      ensures row == Latest(rows, id, keep)
    {
      row := None;
      for k := 0 to |rows|
        invariant row == Latest(rows[..k], id, keep)
      {
        assert rows[..k + 1][..k] == rows[..k];
        if rows[k].claimId == id && keep(rows[k].step) {
          row := Some(rows[k]);
        }
      }
      assert rows[..|rows|] == rows;
    }
  }

  class MaintenanceService {
    const claims: ClaimRepository
    const history: HistoryRepository
    const env: Env

    constructor (claims: ClaimRepository, history: HistoryRepository, env: Env)
      ensures this.claims == claims && this.history == history && this.env == env
    {
      this.claims, this.history, this.env := claims, history, env;
    }

    ghost function Now(): Store
      reads claims, history
    {
      Store(claims.rows, history.rows)
    }

    // ---------- Writes ----------

    method Record(id: ClaimId, step: Step)
      modifies history
      ensures Now() == Log(old(Now()), id, step, env.now)
    {
      history.Record(id, step, env.now);
    }

    method AdjustConfidence(id: ClaimId, confidence: real)
      requires id < |claims.rows|
      modifies claims
      ensures Now() == SetConfidence(old(Now()), id, confidence, env.now)
    {
      var _ := claims.Adjust(id, claims.rows[id].(confidence := confidence), env.now);
    }

    method WriteActivation(id: ClaimId, activation: real)
      requires id < |claims.rows|
      modifies claims
      ensures Now() == SetActivation(old(Now()), id, activation, env.now)
    {
      var _ := claims.Adjust(id, claims.rows[id].(activation := Some(activation)), env.now);
    }

    method Link(id: ClaimId, more: seq<ClaimId>)
      modifies claims
      ensures Now() == Related(old(Now()), id, more, env.now)
    {
      var _ := claims.Relate(id, more, env.now);
    }

    // ---------- Rungs ----------

    method CompoundRung(id: ClaimId, c: Claim) returns (done: bool)
      requires id < |claims.rows|
      modifies claims, history
      ensures Did(old(Now()), Now(), Compound(env, old(Now()), id, c), done)
    {
      if c.timesObserved <= 1 || c.confidence >= COMPOUND_CEILING {
        return false;
      }
      var latest := history.LatestByClaim(id, IsCompound);
      if latest.Some? && latest.value.step.timesObserved >= c.timesObserved {
        return false;
      }
      var after := CompoundConfidence(c.confidence, c.timesObserved,
                                      if c.origin.AgentOrigin? then env.dampening else 1.0);
      if after <= c.confidence {
        return false;
      }
      AdjustConfidence(id, after);
      Record(id, Compounded(c.timesObserved));
      return true;
    }

    method DecayRung(id: ClaimId, c: Claim) returns (done: bool)
      requires id < |claims.rows|
      modifies claims, history
      ensures Did(old(Now()), Now(), Decay(env, old(Now()), id, c), done)
    {
      var latest := history.LatestByClaim(id, IsDecay);
      var next := DecayStep(c, env.now, if latest.Some? then Some(latest.value.at) else None, env.half);
      if next.None? {
        return false;
      }
      AdjustConfidence(id, next.value);
      Record(id, DecayedBy);
      return true;
    }

    method LinkRung(id: ClaimId, c: Claim) returns (done: bool)
      requires id < |claims.rows|
      modifies claims, history
      ensures Did(old(Now()), Now(), LinkCounterparts(env, old(Now()), id, c), done)
    {
      var unlinked := Without(Counterparts(env.journal, id), c.related);
      if unlinked == [] {
        return false;
      }
      Link(id, unlinked);
      Record(id, Linked(unlinked));
      return true;
    }

    method GistRung(id: ClaimId, family: set<ClaimId>) returns (done: bool)
      modifies history
      ensures Did(old(Now()), Now(), ProposeGist(env, old(Now()), id, family), done)
    {
      if family == {} {
        return false;
      }
      var latest := history.LatestByClaim(id, IsGist);
      if latest.Some? && latest.value.step.family == family - {id} {
        return false;
      }
      Record(id, GistProposed(family - {id}));
      return true;
    }

    /** Demote the losers one by one, linking each with the winner. */
    method SettleAll(contenders: seq<ClaimId>, w: ClaimId) returns (changed: bool)
      modifies claims, history
      ensures (Now(), changed) == SettleContenders(env, old(Now()), contenders, w)
    {
      hide Log, Related;
      changed := false;
      for k := 0 to |contenders|
        invariant SettleContenders(env, old(Now()), contenders, w) ==
                  (SettleContenders(env, Now(), contenders[k..], w).0, changed
                   || SettleContenders(env, Now(), contenders[k..], w).1)
      {
        assert contenders[k..][1..] == contenders[k + 1..];
        if contenders[k] == w {
          Record(w, Affirmed);
        } else {
          var demoted := claims.MoveTo(contenders[k], Contradicted, env.now);
          if demoted.Some? {
            changed := true;
            Record(contenders[k], Superseded(w));
            Link(contenders[k], [w]);
            Link(w, [contenders[k]]);
          }
        }
      }
    }

    method ReviseRung(id: ClaimId) returns (done: bool)
      requires id < |claims.rows|
      modifies claims, history
      ensures Did(old(Now()), Now(), Revise(env, old(Now()), id), done)
    {
      if claims.rows[id].status != Active {
        return false;
      }
      var rivals := ActiveRivals(claims.rows, id);
      if rivals == [] {
        return false;
      }
      var contenders := [id] + rivals;
      var w := PickRevisionWinner(claims.rows, contenders);
      var mates := SessionMates(env, claims.rows, contenders, Listed(claims.rows), 5);
      RivalsChange(env, Now(), id, w);
      done := SettleAll(contenders, w);
      if done && mates != [] {
        Link(w, mates);
      }
    }

    method LockRung(id: ClaimId, c: Claim) returns (done: bool)
      requires id < |claims.rows|
      modifies claims, history
      ensures Did(old(Now()), Now(), MaintainLock(env, old(Now()), id, c), done)
    {
      if c.locked && c.status == Contradicted {
        var _ := claims.Adjust(id, claims.rows[id].(locked := false), env.now);
        Record(id, Unlocked);
        return true;
      }
      if !c.locked && Strong(c) {
        var _ := claims.Adjust(id, claims.rows[id].(locked := true), env.now);
        Record(id, LockedUp);
        return true;
      }
      return false;
    }

    /** Give each neighbour its share of a boost. */
    method SpreadTo(neighbors: seq<ClaimId>, share: real)
      modifies claims, history
      ensures Now() == Spread(env, old(Now()), neighbors, share)
    {
      for k := 0 to |neighbors|
        invariant Spread(env, Now(), neighbors[k..], share) == Spread(env, old(Now()), neighbors, share)
      {
        assert neighbors[k..][1..] == neighbors[k + 1..];
        if neighbors[k] < |claims.rows| {
          var a := claims.rows[neighbors[k]].activation;
          WriteActivation(neighbors[k], Min(1.0, (if a.Some? then a.value else 0.0) + share));
          Record(neighbors[k], Activated(None));
        }
      }
    }

    method ActivateRung(id: ClaimId, c: Claim) returns (done: bool)
      requires id < |claims.rows|
      modifies claims, history
      ensures Did(old(Now()), Now(), Activate(env, old(Now()), id, c), done)
    {
      var latest := history.LatestByClaim(id, IsActivate);
      if c.lastAccessedAt.Some? && c.lastAccessedAt != LastBoostAccess(history.rows, id) {
        WriteActivation(id, ActivationBoost(c.activation));
        Record(id, Activated(c.lastAccessedAt));
        SpreadTo(Neighbors(c), SpreadShare(|c.related|));
        return true;
      }
      if c.activation.Some? && (latest.None? || env.now - latest.value.at >= ACTIVATION_MIN_INTERVAL_MS) {
        var next := ActivationDecayStep(c.activation.value);
        if next < c.activation.value {
          WriteActivation(id, next);
          Record(id, Activated(None));
          return true;
        }
      }
      return false;
    }

    method ClassifyRung(id: ClaimId, c: Claim) returns (done: bool)
      requires id < |claims.rows|
      modifies claims, history
      ensures Did(old(Now()), Now(), Classify(env, old(Now()), id, c), done)
    {
      if c.sourceType.Some? {
        return false;
      }
      var _ := claims.Adjust(id, claims.rows[id].(sourceType := Some(SourceOf(c))), env.now);
      Record(id, Classified);
      return true;
    }

    // ---------- The ladder and the pass ----------

    method ClimbRung(id: ClaimId, c: Claim, family: set<ClaimId>, which: Outcome) returns (done: bool)
      requires id < |claims.rows|
      modifies claims, history
      ensures Did(old(Now()), Now(), Rung(env, old(Now()), id, c, family, which), done)
    {
      hide Compound, Decay, LinkCounterparts, ProposeGist, Revise, MaintainLock, Activate, Classify;
      match which
      case DidCompound => done := CompoundRung(id, c);
      case DidDecay => done := DecayRung(id, c);
      case DidLink => done := LinkRung(id, c);
      case DidProposeGist => done := GistRung(id, family);
      case DidRevise => done := ReviseRung(id);
      case DidLock => done := LockRung(id, c);
      case DidActivate => done := ActivateRung(id, c);
      case DidClassify => done := ClassifyRung(id, c);
      case DidSkip => done := false;
    }

    /** At most one rung per claim, in order of priority. */
    method MaintainClaim(id: ClaimId, c: Claim, family: set<ClaimId>) returns (outcome: Outcome)
      requires id < |claims.rows|
      modifies claims, history
      ensures (Now(), outcome) == MaintainOne(env, old(Now()), id, c, family)
    {
      hide Rung;
      for k := 0 to |LADDER|
        invariant Now() == old(Now())
        invariant Climb(env, Now(), id, c, family, LADDER[k..]) == Climb(env, Now(), id, c, family, LADDER)
      {
        assert LADDER[k..][0] == LADDER[k] && LADDER[k..][1..] == LADDER[k + 1..];
        var done := ClimbRung(id, c, family, LADDER[k]);
        if done {
          return LADDER[k];
        }
      }
      assert LADDER[|LADDER|..] == [];
      return DidSkip;
    }

    method SuppressClaim(id: ClaimId, at: Time) returns (done: bool)
      modifies claims, history
      ensures Now() == SuppressOne(env, old(Now()), id, at)
      ensures done <==> Now() != old(Now())
      ensures |history.rows| == |old(history.rows)| + if done then 1 else 0
    {
      if id >= |claims.rows| || claims.rows[id].activation.None? {
        return false;
      }
      var latest := history.LatestByClaim(id, IsSuppress);
      if latest.Some? && latest.value.at >= at {
        return false;
      }
      var next := Max(0.0, claims.rows[id].activation.value - SUPPRESS_STEP);
      if next >= claims.rows[id].activation.value {
        return false;
      }
      WriteActivation(id, next);
      Record(id, Suppressed);
      assert |history.rows| == |old(history.rows)| + 1;
      return true;
    }

    method SuppressFamiliar(ids: seq<ClaimId>, at: Time) returns (suppressed: nat)
      modifies claims, history
      ensures Now() == SuppressRows(env, old(Now()), ids, at)
      ensures |history.rows| == |old(history.rows)| + suppressed
    {
      hide SuppressOne;
      suppressed := 0;
      for k := 0 to |ids|
        invariant SuppressRows(env, Now(), ids[k..], at) == SuppressRows(env, old(Now()), ids, at)
        invariant |history.rows| == |old(history.rows)| + suppressed
      {
        assert ids[k..][1..] == ids[k + 1..];
        var done := SuppressClaim(ids[k], at);
        if done {
          suppressed := suppressed + 1;
        }
      }
    }

    /** Every suppression leaves one row of history, and they are counted. */
    method SuppressTraces() returns (suppressed: nat)
      modifies claims, history
      ensures Now() == SuppressFromTraces(env, old(Now()), env.traces)
      ensures suppressed == |Now().history| - |old(Now()).history|
    {
      hide SuppressRows;
      suppressed := 0;
      for k := 0 to |env.traces|
        invariant SuppressFromTraces(env, Now(), env.traces[k..]) == SuppressFromTraces(env, old(Now()), env.traces)
        invariant |history.rows| == |old(history.rows)| + suppressed
      {
        assert env.traces[k..][1..] == env.traces[k + 1..];
        var more := SuppressFamiliar(env.traces[k].familiar, env.traces[k].at);
        suppressed := suppressed + more;
      }
    }

    /** Visit the listed claims in order, each against the listing's own view of it. */
    method MaintainListed(snapshot: seq<Claim>, ids: seq<ClaimId>) returns (outcomes: seq<Outcome>)
      requires InTable(snapshot, ids)
      modifies claims, history
      ensures Now() == MaintainEach(env, snapshot, old(Now()), ids).0
              && outcomes == MaintainEach(env, snapshot, old(Now()), ids).1
    {
      hide MaintainOne, Family;
      outcomes := [];
      for k := 0 to |ids|
        invariant MaintainEach(env, snapshot, old(Now()), ids).0 == MaintainEach(env, snapshot, Now(), ids[k..]).0
        invariant MaintainEach(env, snapshot, old(Now()), ids).1 ==
                  outcomes + MaintainEach(env, snapshot, Now(), ids[k..]).1
      {
        assert ids[k..][1..] == ids[k + 1..];
        ghost var before := Now();
        var outcome := DidSkip;
        if ids[k] < |claims.rows| {
          outcome := MaintainClaim(ids[k], snapshot[ids[k]], Family(snapshot, snapshot[ids[k]]));
        }
        assert MaintainEach(env, snapshot, before, ids[k..]).1 ==
               [outcome] + MaintainEach(env, snapshot, Now(), ids[k + 1..]).1;
        outcomes := outcomes + [outcome];
      }
      assert ids[|ids|..] == [] && outcomes + [] == outcomes;
    }

    /** One pass: suppress near misses, list, then at most one transition per listed claim. */
    method RunOnePass() returns (suppressed: nat, outcomes: seq<Outcome>)
      modifies claims, history
      ensures Now() == RunPass(env, old(Now())).store && outcomes == RunPass(env, old(Now())).outcomes
      ensures suppressed == |SuppressFromTraces(env, old(Now()), env.traces).history| - |old(Now()).history|
    {
      hide SuppressFromTraces, MaintainEach;
      suppressed := SuppressTraces();
      outcomes := MaintainListed(claims.rows, Listed(claims.rows));
    }
  }

  /** A rung either made exactly its change, or nothing. */
  ghost predicate Did(s: Store, s': Store, rung: Option<Store>, done: bool) {
    done == rung.Some? && s' == if done then rung.value else s
  }

  /** With a rival present, settling always changes something. */
  lemma RivalsChange(env: Env, s: Store, id: ClaimId, w: ClaimId)
    requires id < |s.claims| && s.claims[id].status == Active && ActiveRivals(s.claims, id) != []
    ensures SettleContenders(env, s, [id] + ActiveRivals(s.claims, id), w).1
  {
    hide ActiveRivals;
    var contenders := [id] + ActiveRivals(s.claims, id);
    ContendersActive(s, id);
    SettleStatuses(env, s, contenders, w);
    assert contenders[0] != contenders[1];
    assert contenders[0] != w || contenders[1] != w;
  }
}
