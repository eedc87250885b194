/** Activation is bounded and conserved: an access lights a claim and its neighbours, and fades in small steps. */
module MaintenanceGlow {
  import opened Wrappers
  import opened C = ClaimStore
  import opened P = MaintenancePolicy
  import opened Maintenance

  function Light(c: Claim): real {
    if c.activation.Some? then c.activation.value else 0.0
  }

  function Glow(claims: seq<Claim>): real {
    if claims == [] then 0.0 else Glow(claims[..|claims| - 1]) + Light(claims[|claims| - 1])
  }

  /** No activation is negative or above one. */
  ghost predicate Lit(claims: seq<Claim>) {
    forall i :: 0 <= i < |claims| ==> 0.0 <= Light(claims[i]) <= 1.0
  }

  lemma {:induction false} GlowPut(claims: seq<Claim>, i: ClaimId, c: Claim)
    requires i < |claims|
    ensures Glow(claims[i := c]) == Glow(claims) - Light(claims[i]) + Light(c)
  {
    var n := |claims| - 1;
    if i == n {
      assert claims[i := c][..n] == claims[..n];
    } else {
      GlowPut(claims[..n], i, c);
      assert claims[i := c][..n] == claims[..n][i := c];
    }
  }

  /** `n` equal shares. */
  function Shares(n: nat, share: real): real {
    if n == 0 then 0.0 else share + Shares(n - 1, share)
  }

  lemma {:induction false} SharesNonNegative(n: nat, share: real)
    requires share >= 0.0
    ensures Shares(n, share) >= 0.0
  {
    if n > 0 {
      SharesNonNegative(n - 1, share);
    }
  }

  /** Every claim could take so much more. */
  ghost predicate RoomFor(claims: seq<Claim>, more: real) {
    forall i :: 0 <= i < |claims| ==> Light(claims[i]) + more <= 1.0
  }

  /** The claims with one of them brought to some light. */
  ghost predicate Brightened(claims: seq<Claim>, claims': seq<Claim>, share: real) {
    && |claims'| == |claims| && Lit(claims')
    && 0.0 <= Glow(claims') - Glow(claims) <= share
    && forall i :: 0 <= i < |claims| ==> Light(claims[i]) <= Light(claims'[i]) <= Light(claims[i]) + share
  }

  lemma Brighten(s: Store, n: ClaimId, share: real, now: Time)
    requires n < |s.claims| && Lit(s.claims) && share >= 0.0
    ensures var s' := SetActivation(s, n, Min(1.0, Light(s.claims[n]) + share), now);
            && Brightened(s.claims, s'.claims, share)
            && (RoomFor(s.claims, share) ==> Glow(s'.claims) - Glow(s.claims) == share)
  {
    hide Glow;
    GlowPut(s.claims, n, SetActivation(s, n, Min(1.0, Light(s.claims[n]) + share), now).claims[n]);
  }

  lemma RoomLeft(claims: seq<Claim>, claims': seq<Claim>, share: real, more: real)
    requires Brightened(claims, claims', share) && RoomFor(claims, share + more) && more >= 0.0
    ensures RoomFor(claims, share) && RoomFor(claims', more)
  {
    hide Glow;
  }

  lemma {:induction false} SpreadGlows(env: Env, s: Store, neighbors: seq<ClaimId>, share: real)
    requires Lit(s.claims) && share >= 0.0
    ensures var s', all := Spread(env, s, neighbors, share), Shares(|neighbors|, share);
            && Brightened(s.claims, s'.claims, all)
            && (RoomFor(s.claims, all) && (forall n <- neighbors :: n < |s.claims|) ==>
                  Glow(s'.claims) - Glow(s.claims) == all)
    decreases neighbors
  {
    hide Glow, RoomFor, Brightened, SetActivation, Lit;
    if neighbors == [] {
      Unlit(s.claims);
    } else {
      var n, rest := neighbors[0], Shares(|neighbors| - 1, share);
      SharesNonNegative(|neighbors| - 1, share);
      assert n in neighbors && forall x <- neighbors[1..] :: x in neighbors;
      if n >= |s.claims| {
        SpreadGlows(env, s, neighbors[1..], share);
        Unlit(s.claims);
        Widened(s.claims, share);
        BrighterStill(s.claims, s.claims, Spread(env, s, neighbors[1..], share).claims, share, rest);
      } else {
        var s1 := Log(SetActivation(s, n, Min(1.0, Light(s.claims[n]) + share), env.now), n, Activated(None), env.now);
        Brighten(s, n, share, env.now);
        StaysLit(s.claims, s1.claims, share);
        SpreadGlows(env, s1, neighbors[1..], share);
        BrighterStill(s.claims, s1.claims, Spread(env, s1, neighbors[1..], share).claims, share, rest);
        if RoomFor(s.claims, share + rest) {
          RoomLeft(s.claims, s1.claims, share, rest);
        }
      }
    }
  }

  lemma Unlit(claims: seq<Claim>)
    requires Lit(claims)
    ensures Brightened(claims, claims, 0.0)
  {
    hide Glow;
  }

  lemma Widened(claims: seq<Claim>, share: real)
    requires Lit(claims) && share >= 0.0
    ensures Brightened(claims, claims, share)
  {
    hide Glow;
  }

  lemma StaysLit(claims: seq<Claim>, claims': seq<Claim>, share: real)
    requires Brightened(claims, claims', share)
    ensures Lit(claims') && |claims'| == |claims|
  {
    hide Glow;
  }

  lemma BrighterStill(a: seq<Claim>, b: seq<Claim>, c: seq<Claim>, x: real, y: real)
    requires Brightened(a, b, x) && Brightened(b, c, y)
    ensures Brightened(a, c, x + y)
  {
    hide Glow;
    forall i | 0 <= i < |a|
      ensures Light(a[i]) <= Light(c[i]) <= Light(a[i]) + (x + y)
    {
      assert Light(b[i]) <= Light(c[i]) <= Light(b[i]) + y;
    }
  }

  /** What is shared out is three tenths in all, by at most five neighbours. */
  lemma SharedOut(c: Claim)
    ensures var n := |Neighbors(c)|;
            && n == (if |c.related| < 5 then |c.related| else 5)
            && (n == 0 ==> Shares(n, SpreadShare(|c.related|)) == 0.0)
            && (n > 0 ==> Shares(n, SpreadShare(|c.related|)) == 0.3)
            && SpreadShare(|c.related|) >= 0.0
  {
    var n, share := |Neighbors(c)|, SpreadShare(|c.related|);
    assert n > 0 ==> share == 0.3 / n as real;
    assert Shares(1, share) == share;
    assert Shares(2, share) == share + share;
    assert Shares(3, share) == share + share + share;
    assert Shares(4, share) == share + Shares(3, share);
    assert Shares(5, share) == share + Shares(4, share);
  }

  /** An access not answered yet. */
  predicate Unanswered(s: Store, id: ClaimId)
    requires id < |s.claims|
  {
    s.claims[id].lastAccessedAt.Some? && s.claims[id].lastAccessedAt != LastBoostAccess(s.history, id)
  }

  function Lesser(x: real, y: real): real { if x <= y then x else y }

  /**
   * An unanswered access lifts the claim by three tenths and its first five related claims by three tenths together;
   * no activation leaves [0, 1], and nothing is lost on the way unless a claim is full or missing.
   */
  lemma AccessGlows(env: Env, s: Store, id: ClaimId)
    requires id < |s.claims| && Lit(s.claims) && Unanswered(s, id)
    ensures Activate(env, s, id, s.claims[id]).Some?
    ensures var c, s' := s.claims[id], Activate(env, s, id, s.claims[id]).value;
            var shared := if c.related == [] then 0.0 else 0.3;
            && |s'.claims| == |s.claims| && Lit(s'.claims)
            && 0.0 <= Glow(s'.claims) - Glow(s.claims) <= 0.3 + shared
            && (RoomFor(s.claims, 0.6) && (forall n <- c.related :: n < |s.claims|) ==>
                  Glow(s'.claims) - Glow(s.claims) == 0.3 + shared)
            && Light(s'.claims[id]) >= Lesser(1.0, Light(c) + 0.3)
            && (c.related == [] ==> Light(s'.claims[id]) == Lesser(1.0, Light(c) + 0.3))
  {
    hide Glow, Spread, SpreadShare, LastBoostAccess, ActivationDue, RoomFor, Shares;
    var c := s.claims[id];
    var s1 := Log(SetActivation(s, id, ActivationBoost(c.activation), env.now), id, Activated(c.lastAccessedAt),
                  env.now);
    Brighten(s, id, 0.3, env.now);
    assert SetActivation(s, id, ActivationBoost(c.activation), env.now) ==
           SetActivation(s, id, Min(1.0, Light(c) + 0.3), env.now);
    SharedOut(c);
    SpreadGlows(env, s1, Neighbors(c), SpreadShare(|c.related|));
    assert forall n <- Neighbors(c) :: n in c.related;
    if RoomFor(s.claims, 0.6) {
      RoomLeft(s.claims, s1.claims, 0.3, 0.3);
      LessRoom(s1.claims, 0.3, 0.0);
    }
  }

  lemma LessRoom(claims: seq<Claim>, more: real, less: real)
    requires RoomFor(claims, more) && less <= more
    ensures RoomFor(claims, less)
  {
  }

  /** Without one the claim fades by a twentieth, once an hour at most, and nothing else changes. */
  lemma Fades(env: Env, s: Store, id: ClaimId)
    requires id < |s.claims| && !Unanswered(s, id)
    ensures var c, r := s.claims[id], Activate(env, s, id, s.claims[id]);
            var latest := Latest(s.history, id, IsActivate);
            && (r.Some? <==> Light(c) > 0.0 && (latest.None? || env.now >= latest.value.at + 3_600_000))
            && (r.Some? ==>
                  && r.value.claims ==
                     s.claims[id := c.(activation := Some(if Light(c) < 0.05 then 0.0 else Light(c) - 0.05),
                                       updatedAt := env.now)]
                  && r.value.history == s.history + [Row(id, Activated(None), env.now)])
  {
    hide Latest, LastBoostAccess;
  }
}
