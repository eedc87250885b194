/** The lock rung ignores status, so quiescence has an exact condition. */
module MaintenanceLocks {
  import opened C = ClaimStore
  import opened P = MaintenancePolicy
  import opened MaintenanceRevision
  import opened Maintenance
  import opened MaintenanceConvergence
  import opened MaintenancePasses

  /** Contradicted, yet corroborated and confident enough to be locked again. */
  predicate StrongLoser(c: Claim) {
    c.status == Contradicted && Strong(c)
  }

  function NextLock(c: Claim): bool {
    if c.locked && c.status == Contradicted then false else if !c.locked && Strong(c) then true else c.locked
  }

  predicate Toggles(c: Claim) { NextLock(c) != c.locked }

  predicate NoneBusy(outcomes: seq<Outcome>) {
    forall k :: 0 <= k < |outcomes| ==> !Busy(outcomes[k])
  }

  /** A visit that is not busy flips the lock when the claim asks for it, and does nothing else. */
  lemma IdleVisit(env: Env, s: Store, id: ClaimId, family: set<ClaimId>)
    requires id < |s.claims|
    requires !Busy(MaintainOne(env, s, id, s.claims[id], family).1)
    ensures var c := s.claims[id];
            var (s', outcome) := MaintainOne(env, s, id, c, family);
            && (outcome == DidLock <==> Toggles(c))
            && (outcome == DidSkip ==> s' == s)
            && (outcome == DidLock ==> s'.claims == s.claims[id := Flipped(c, env.now)])
  {
    hide Climb, Compound, Decay, LinkCounterparts, ProposeGist, Revise, Activate, Classify;
    var c := s.claims[id];
    ClimbTo(env, s, id, c, family, LADDER, 5);
    assert LADDER[5] == DidLock;
  }

  /** Climbing past a rung means it did not apply. */
  lemma {:induction false} ClimbTo(env: Env, s: Store, id: ClaimId, c: Claim, family: set<ClaimId>, rungs: seq<Outcome>,
                                   k: nat)
    requires id < |s.claims| && k < |rungs| && forall j :: 0 <= j < k ==> Busy(rungs[j])
    requires !Busy(Climb(env, s, id, c, family, rungs).1)
    ensures Rung(env, s, id, c, family, rungs[k]).Some? ==>
              Climb(env, s, id, c, family, rungs) == (Rung(env, s, id, c, family, rungs[k]).value, rungs[k])
    decreases k
  {
    hide Rung;
    if k > 0 {
      ClimbTo(env, s, id, c, family, rungs[1..], k - 1);
    }
  }

  /** A listing worked through without a busy visit: every toggling claim flips its lock, nothing else changes. */
  lemma {:induction false} IdleEach(env: Env, snapshot: seq<Claim>, s: Store, ids: seq<ClaimId>)
    requires InTable(snapshot, ids) && Distinct(ids) && |s.claims| == |snapshot|
    requires forall k :: 0 <= k < |ids| ==> s.claims[ids[k]] == snapshot[ids[k]]
    requires NoneBusy(MaintainEach(env, snapshot, s, ids).1)
    ensures var (s', outcomes) := MaintainEach(env, snapshot, s, ids);
            && (forall k :: 0 <= k < |ids| ==> (outcomes[k] == DidLock <==> Toggles(snapshot[ids[k]])))
            && |s'.claims| == |s.claims|
            && (forall i :: 0 <= i < |s.claims| ==>
                  s'.claims[i] == if i in ids && Toggles(snapshot[i])
                                  then Flipped(snapshot[i], env.now) else s.claims[i])
    decreases ids
  {
    hide MaintainOne, Family, Toggles, NextLock, Busy;
    if ids != [] {
      var id := ids[0];
      var family := Family(snapshot, snapshot[id]);
      var (s1, outcome) := MaintainOne(env, s, id, snapshot[id], family);
      var (s', outcomes) := MaintainEach(env, snapshot, s1, ids[1..]);
      var full := MaintainEach(env, snapshot, s, ids).1;
      assert full == [outcome] + outcomes;
      assert full[0] == outcome && forall k :: 0 <= k < |outcomes| ==> outcomes[k] == full[k + 1];
      IdleVisit(env, s, id, family);
      IdleOutcome(env, s, id, family);
      assert s1.claims == if Toggles(snapshot[id]) then s.claims[id := Flipped(snapshot[id], env.now)] else s.claims;
      assert forall k :: 0 <= k < |ids[1..]| ==> ids[1..][k] == ids[k + 1];
      IdleEach(env, snapshot, s1, ids[1..]);
      assert forall i :: i in ids <==> i == id || i in ids[1..];
      assert id !in ids[1..];
    }
  }

  function Flipped(c: Claim, now: Time): Claim {
    c.(locked := NextLock(c), updatedAt := now)
  }

  lemma IdleOutcome(env: Env, s: Store, id: ClaimId, family: set<ClaimId>)
    requires id < |s.claims| && !Busy(MaintainOne(env, s, id, s.claims[id], family).1)
    ensures MaintainOne(env, s, id, s.claims[id], family).1 in {DidLock, DidSkip}
  {
    hide MaintainOne;
  }

  /** What an idle pass does to the claims. */
  lemma IdlePass(env: Env, s: Store)
    requires !Acts(RunPass(env, s))
    ensures var p := RunPass(env, s);
            var ids := Listed(s.claims);
            && |p.store.claims| == |s.claims| && |p.outcomes| == |ids|
            && (forall k :: 0 <= k < |ids| ==> (p.outcomes[k] == DidLock <==> Toggles(s.claims[ids[k]])))
            && (Quiet(p) <==> forall k :: 0 <= k < |ids| ==> !Toggles(s.claims[ids[k]]))
            && (forall i :: 0 <= i < |s.claims| ==>
                  p.store.claims[i] == if i in ids && Toggles(s.claims[i])
                                       then Flipped(s.claims[i], env.now) else s.claims[i])
  {
    var p := RunPass(env, s);
    assert SuppressFromTraces(env, s, env.traces) == s;
    assert NoneBusy(p.outcomes);
    IdleEach(env, s.claims, s, Listed(s.claims));
  }

  /** Some listed claim is a strong loser. */
  ghost predicate HasStrongLoser(s: Store) {
    exists k :: 0 <= k < |Listed(s.claims)| && StrongLoser(s.claims[Listed(s.claims)[k]])
  }

  lemma IdleKeepsLosers(env: Env, s: Store)
    requires !Acts(RunPass(env, s))
    ensures HasStrongLoser(RunPass(env, s).store) <==> HasStrongLoser(s)
  {
    hide RunPass, Toggles, NextLock, Acts, Quiet;
    IdlePass(env, s);
    var after := RunPass(env, s).store;
    assert Listed(after.claims) == Listed(s.claims);
    assert forall i :: 0 <= i < |s.claims| ==> (StrongLoser(after.claims[i]) <==> StrongLoser(s.claims[i]));
  }

  lemma {:induction false} StrongLoserStays(env: Env, s: Store, n: nat)
    requires OnlyLocks(env, s)
    ensures HasStrongLoser(Passes(env, s, n)) <==> HasStrongLoser(s)
  {
    hide RunPass, HasStrongLoser, Acts;
    if n > 0 {
      StrongLoserStays(env, s, n - 1);
      IdleKeepsLosers(env, Passes(env, s, n - 1));
    }
  }

  /** Passes reach one that does nothing at all. */
  ghost predicate Quiesces(env: Env, s: Store) {
    exists n: nat :: Quiet(RunPass(env, Passes(env, s, n)))
  }

  /** Once only locks move, passes come to rest exactly when no listed claim is a strong loser. */
  lemma LocksSettle(env: Env, s: Store)
    requires OnlyLocks(env, s)
    ensures Quiesces(env, s) <==> !HasStrongLoser(s)
  {
    if HasStrongLoser(s) {
      forall n: nat
        ensures !Quiet(RunPass(env, Passes(env, s, n)))
      {
        StrongLoserStays(env, s, n);
        LoserToggles(env, Passes(env, s, n));
      }
    } else {
      assert Passes(env, s, 0) == s;
      IdlePass(env, s);
      var next := Passes(env, s, 1);
      assert next == RunPass(env, s).store;
      IdlePass(env, next);
      assert Listed(next.claims) == Listed(s.claims);
      forall k | 0 <= k < |Listed(s.claims)|
        ensures !Toggles(next.claims[Listed(s.claims)[k]])
      {
        assert !StrongLoser(s.claims[Listed(s.claims)[k]]);
      }
      assert Quiet(RunPass(env, Passes(env, s, 1)));
    }
  }

  lemma LoserToggles(env: Env, s: Store)
    requires !Acts(RunPass(env, s)) && HasStrongLoser(s)
    ensures !Quiet(RunPass(env, s))
  {
    IdlePass(env, s);
    var k :| 0 <= k < |Listed(s.claims)| && StrongLoser(s.claims[Listed(s.claims)[k]]);
    assert Toggles(s.claims[Listed(s.claims)[k]]);
  }

  /**
   * A boost answers the access that caused it exactly when no recorded access is later; otherwise
   * the claim counts as touched again on the next pass.
   */
  lemma BoostAnswersAccess(env: Env, s: Store, id: ClaimId)
    requires id < |s.claims| && AccessUnanswered(s, id, s.claims[id])
    ensures var c := s.claims[id];
            var s1 := Log(SetActivation(s, id, ActivationBoost(c.activation), env.now), id, Activated(c.lastAccessedAt),
                          env.now);
            !AccessUnanswered(s1, id, c) <==>
            LastBoostAccess(s.history, id).None? || LastBoostAccess(s.history, id).value <= c.lastAccessedAt.value
  {
    LastBoostAfter(s.history, Row(id, Activated(s.claims[id].lastAccessedAt), env.now), id);
  }
}
