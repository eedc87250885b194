/** Which of several active rivals wins a revision. */
module MaintenanceRevision {
  import opened C = ClaimStore

  /** Approval first, then corroboration, then the freshest touch, then the smaller id. */
  predicate Beats(claims: seq<Claim>, a: ClaimId, b: ClaimId)
    requires a < |claims| && b < |claims|
  {
    var x, y := claims[a], claims[b];
    if x.promotion.ApprovedBy? != y.promotion.ApprovedBy? then x.promotion.ApprovedBy?
    else if x.timesObserved != y.timesObserved then x.timesObserved > y.timesObserved
    else if x.updatedAt != y.updatedAt then x.updatedAt > y.updatedAt
    else a < b
  }

  predicate InTable(claims: seq<Claim>, ids: seq<ClaimId>) {
    forall k :: 0 <= k < |ids| ==> ids[k] < |claims|
  }

  ghost predicate IsWinner(claims: seq<Claim>, ids: seq<ClaimId>, w: ClaimId)
    requires InTable(claims, ids)
  {
    w in ids && forall k :: 0 <= k < |ids| && ids[k] != w ==> Beats(claims, w, ids[k])
  }

  /** The first rival of the sorted list. */
  function PickRevisionWinner(claims: seq<Claim>, ids: seq<ClaimId>): (w: ClaimId)
    requires ids != [] && InTable(claims, ids)
    ensures IsWinner(claims, ids, w)
  {
    if |ids| == 1 then ids[0]
    else
      var rest := PickRevisionWinner(claims, ids[1..]);
      var w := if rest == ids[0] || Beats(claims, rest, ids[0]) then rest else ids[0];
      assert forall k :: 1 <= k < |ids| ==> ids[k] == ids[1..][k - 1];
      w
  }

  /** The order in which the rivals are listed (or repeated) does not matter. */
  lemma WinnerIgnoresOrder(claims: seq<Claim>, ids: seq<ClaimId>, ids': seq<ClaimId>)
    requires ids != [] && InTable(claims, ids) && InTable(claims, ids')
    requires forall x :: x in ids <==> x in ids'
    ensures ids' != [] && PickRevisionWinner(claims, ids) == PickRevisionWinner(claims, ids')
  {
    assert ids[0] in ids';
    var w, w' := PickRevisionWinner(claims, ids), PickRevisionWinner(claims, ids');
    var k :| 0 <= k < |ids'| && ids'[k] == w;
    var k' :| 0 <= k' < |ids| && ids[k'] == w';
  }

  /**
   * An approved rival wins over any that is not; of equal standing, the one observed more often; then the one written
   * last; then the older row.
   */
  lemma WinnerByField(claims: seq<Claim>, ids: seq<ClaimId>, k: nat)
    requires ids != [] && InTable(claims, ids) && k < |ids|
    ensures var w := PickRevisionWinner(claims, ids);
            && w < |claims| && w in ids
            && var x, y := claims[w], claims[ids[k]];
               && (y.promotion != Automatic ==> x.promotion != Automatic)
               && ((x.promotion == Automatic) == (y.promotion == Automatic) ==>
                     && y.timesObserved <= x.timesObserved
                     && (y.timesObserved == x.timesObserved ==>
                           && y.updatedAt <= x.updatedAt
                           && (y.updatedAt == x.updatedAt ==> w <= ids[k])))
  {
    var w := PickRevisionWinner(claims, ids);
    assert w == ids[k] || Beats(claims, w, ids[k]);
  }
}
