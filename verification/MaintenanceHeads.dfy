/** Revision leaves one active head, the same from every side. */
module MaintenanceHeads {
  import opened C = ClaimStore
  import opened MaintenanceRevision
  import opened Maintenance
  import opened MaintenanceConvergence
  import PI = PromotionInvariant

  /** No two rows say the same thing with the same marker. */
  ghost predicate SaysOnce(claims: seq<Claim>) {
    forall i, j :: 0 <= i < |claims| && 0 <= j < |claims| && i != j ==> !Same(claims[i], claims[j])
  }

  predicate Same(a: Claim, b: Claim) {
    a.norm.subj == b.norm.subj && a.norm.pred == b.norm.pred && a.norm.obj == b.norm.obj && a.negated == b.negated
  }

  /** Unique keys give exactly this, when every key is computed from the row's own normalized fields. */
  lemma KeysSayOnce(claims: seq<Claim>)
    requires PI.UniqueKeys(claims)
    requires forall i, j :: 0 <= i < |claims| && 0 <= j < |claims| && Same(claims[i], claims[j]) ==>
               claims[i].norm.key == claims[j].norm.key
    ensures SaysOnce(claims)
  {
    forall i, j | 0 <= i < |claims| && 0 <= j < |claims| && i != j
      ensures !Same(claims[i], claims[j])
    {
      assert !claims[i].Is(claims[j].norm.key, claims[j].negated);
    }
  }

  /** The contenders of a revision are all active claims about the same thing. */
  lemma ContendersAreAll(s: Store, id: ClaimId, i: ClaimId)
    requires SaysOnce(s.claims) && id < |s.claims| && s.claims[id].status == Active
    ensures i in [id] + ActiveRivals(s.claims, id) <==>
            i < |s.claims| && s.claims[i].status == Active
                && s.claims[i].About(s.claims[id].norm.subj, s.claims[id].norm.pred)
  {
    var c := s.claims[id];
    var rivals := ActiveRivals(s.claims, id);
    var keep := (x: Claim) => x.About(c.norm.subj, c.norm.pred) && x.status == Active
                && (x.norm.obj != c.norm.obj || x.negated != c.negated);
    assert rivals == Select(s.claims, keep);
    if i in rivals {
      var k :| 0 <= k < |rivals| && rivals[k] == i;
      assert keep(s.claims[i]);
    }
    if i < |s.claims| && i != id && s.claims[i].status == Active && s.claims[i].About(c.norm.subj, c.norm.pred) {
      assert !Same(s.claims[i], c);
      assert keep(s.claims[i]);
    }
  }

  /** Revising from any of several rivals contradicts the same losers in favour of the same winner. */
  lemma SameWinnerFromEverySide(s: Store, id: ClaimId, id': ClaimId)
    requires SaysOnce(s.claims) && id < |s.claims| && id' < |s.claims|
    requires s.claims[id].status == Active && s.claims[id'].status == Active
    requires s.claims[id'].About(s.claims[id].norm.subj, s.claims[id].norm.pred)
    ensures PickRevisionWinner(s.claims, [id] + ActiveRivals(s.claims, id)) ==
            PickRevisionWinner(s.claims, [id'] + ActiveRivals(s.claims, id'))
  {
    forall i: ClaimId
      ensures i in [id] + ActiveRivals(s.claims, id) <==> i in [id'] + ActiveRivals(s.claims, id')
    {
      ContendersAreAll(s, id, i);
      ContendersAreAll(s, id', i);
    }
    WinnerIgnoresOrder(s.claims, [id] + ActiveRivals(s.claims, id), [id'] + ActiveRivals(s.claims, id'));
  }

  predicate RivalOf(claims: seq<Claim>, id: ClaimId, i: ClaimId)
    requires id < |claims| && i < |claims|
  {
    claims[i].status == Active && claims[i].About(claims[id].norm.subj, claims[id].norm.pred)
  }

  /** There is somebody to settle with exactly when another active claim is about the same thing. */
  lemma SomeoneToSettle(s: Store, id: ClaimId, w: ClaimId)
    requires SaysOnce(s.claims) && id < |s.claims| && s.claims[id].status == Active
    ensures var contenders := [id] + ActiveRivals(s.claims, id);
            && (ActiveRivals(s.claims, id) != [] <==>
                exists i :: 0 <= i < |s.claims| && i != id && RivalOf(s.claims, id, i))
            && (ActiveRivals(s.claims, id) != [] ==> exists k :: 0 <= k < |contenders| && contenders[k] != w)
  {
    hide ActiveRivals;
    var rivals := ActiveRivals(s.claims, id);
    var contenders := [id] + rivals;
    if rivals != [] {
      assert contenders[0] == id && contenders[1] == rivals[0] && rivals[0] in contenders;
      ContendersAreAll(s, id, rivals[0]);
      assert RivalOf(s.claims, id, rivals[0]);
      assert contenders[0] != w || contenders[1] != w;
    }
    forall i | 0 <= i < |s.claims| && i != id && RivalOf(s.claims, id, i)
      ensures rivals != []
    {
      ContendersAreAll(s, id, i);
    }
  }

  /** A revision applies exactly when there is a rival, and leaves the winner as the one active head. */
  lemma ReviseLeavesOneHead(env: Env, s: Store, id: ClaimId)
    requires SaysOnce(s.claims) && id < |s.claims| && s.claims[id].status == Active
    ensures Revise(env, s, id).Some? <==> exists i :: 0 <= i < |s.claims| && i != id && RivalOf(s.claims, id, i)
    ensures Revise(env, s, id).Some? ==>
              var s' := Revise(env, s, id).value;
              var w := PickRevisionWinner(s.claims, [id] + ActiveRivals(s.claims, id));
              && |s'.claims| == |s.claims| && w < |s.claims| && RivalOf(s.claims, id, w)
              && forall i :: 0 <= i < |s.claims| ==>
                               s'.claims[i].status ==
                                   if RivalOf(s.claims, id, i) && i != w then Contradicted else s.claims[i].status
  {
    hide SettleContenders, SessionMates, Related, ActiveRivals, RivalOf;
    var contenders := [id] + ActiveRivals(s.claims, id);
    var w := PickRevisionWinner(s.claims, contenders);
    ContendersActive(s, id);
    SomeoneToSettle(s, id, w);
    SettleStatuses(env, s, contenders, w);
    forall i: ClaimId | i < |s.claims|
      ensures i in contenders <==> RivalOf(s.claims, id, i)
    {
      RivalsAreContenders(s, id, i);
    }
    var s1 := SettleContenders(env, s, contenders, w).0;
    RelatedKeepsStatuses(s1, w, SessionMates(env, s.claims, contenders, Listed(s.claims), 5), env.now);
  }

  lemma RivalsAreContenders(s: Store, id: ClaimId, i: ClaimId)
    requires SaysOnce(s.claims) && id < |s.claims| && s.claims[id].status == Active && i < |s.claims|
    ensures i in [id] + ActiveRivals(s.claims, id) <==> RivalOf(s.claims, id, i)
  {
    ContendersAreAll(s, id, i);
  }
}
