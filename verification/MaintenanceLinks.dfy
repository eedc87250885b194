/** Who is linked with whom: contest counterparts, session mates, and the families a gist is proposed for. */
module MaintenanceLinks {
  import opened Wrappers
  import opened C = ClaimStore
  import opened MaintenanceRevision
  import opened Maintenance
  import opened MaintenanceConvergence
  import opened MaintenanceTouches
  import J = PromotionJournal

  // ---------- Counterparts ----------

  /** A committed contest between the two. */
  predicate Contest(row: J.Entry, winner: ClaimId, loser: ClaimId) {
    && row.state == J.Committed && row.operation == J.Contradict
    && row.detail == J.Contradicts(loser) && row.claimId == Some(winner)
  }

  ghost predicate Contested(journal: seq<J.Entry>, a: ClaimId, b: ClaimId) {
    exists k :: 0 <= k < |journal| && (Contest(journal[k], a, b) || Contest(journal[k], b, a))
  }

  /** The counterparts of a claim are those it beat and those that beat it. */
  lemma {:induction false} CounterpartsExactly(journal: seq<J.Entry>, id: ClaimId)
    ensures forall x :: x in Counterparts(journal, id) <==> Contested(journal, id, x)
  {
    if journal != [] {
      var n := |journal| - 1;
      CounterpartsExactly(journal[..n], id);
      forall x
        ensures x in Counterparts(journal, id) <==> Contested(journal, id, x)
      {
        OneMoreRow(journal, id, x);
      }
    }
  }

  lemma OneMoreRow(journal: seq<J.Entry>, a: ClaimId, b: ClaimId)
    requires journal != []
    ensures var n := |journal| - 1;
            Contested(journal, a, b) <==>
            Contested(journal[..n], a, b) || Contest(journal[n], a, b) || Contest(journal[n], b, a)
  {
    var n := |journal| - 1;
    if Contested(journal[..n], a, b) {
      var k :| 0 <= k < n && (Contest(journal[..n][k], a, b) || Contest(journal[..n][k], b, a));
      assert journal[k] == journal[..n][k];
    }
    if Contested(journal, a, b) {
      var k :| 0 <= k < |journal| && (Contest(journal[k], a, b) || Contest(journal[k], b, a));
      assert k < n ==> journal[..n][k] == journal[k];
    }
  }

  /** Relating adds the ids that are missing, except the claim's own. */
  lemma RelatedAdds(s: Store, id: ClaimId, more: seq<ClaimId>, now: Time)
    requires id < |s.claims|
    ensures var s' := Related(s, id, more, now);
            && |s'.claims| == |s.claims| && s.claims[id].related <= s'.claims[id].related
            && forall x :: x in s'.claims[id].related <==> x in s.claims[id].related || (x in more && x != id)
  {
    var merged := MergeRelated(id, s.claims[id].related, more);
    assert |merged| == |s.claims[id].related| ==> merged == s.claims[id].related;
  }

  /** Linking applies while a contest is unlinked, and then links the claim with every other side of its contests. */
  lemma LinksEveryContest(env: Env, s: Store, id: ClaimId)
    requires id < |s.claims|
    ensures var c, r := s.claims[id], LinkCounterparts(env, s, id, s.claims[id]);
            && (r.Some? <==> exists x :: Contested(env.journal, id, x) && x !in c.related)
            && (r.Some? ==>
                  && |r.value.claims| == |s.claims| && c.related <= r.value.claims[id].related
                  && forall x :: x in r.value.claims[id].related <==>
                       x in c.related || (Contested(env.journal, id, x) && x != id))
  {
    hide Contested, Counterparts, Without, Related;
    CounterpartsExactly(env.journal, id);
    var c := s.claims[id];
    var unlinked := Without(Counterparts(env.journal, id), c.related);
    RelatedAdds(s, id, unlinked, env.now);
    if unlinked != [] {
      assert unlinked[0] in unlinked;
    }
  }

  // ---------- Session mates ----------

  /** The claim is no contender, and was observed in a session that also observed one of them. */
  ghost predicate Mate(env: Env, claims: seq<Claim>, contenders: seq<ClaimId>, x: ClaimId)
    requires InTable(claims, contenders) && x < |claims|
  {
    x !in contenders
    && exists k :: 0 <= k < |contenders| && SameSession(env, claims[x], claims[contenders[k]])
  }

  ghost predicate SameSession(env: Env, a: Claim, b: Claim) {
    exists e <- a.evidence, f <- b.evidence ::
      && e.candidateId in env.sessions && f.candidateId in env.sessions
      && env.sessions[e.candidateId] == env.sessions[f.candidateId]
  }

  lemma SharedIsSame(env: Env, a: Claim, b: Claim)
    ensures ShareSession(env, a, b) <==> SameSession(env, a, b)
  {
    if ShareSession(env, a, b) {
      var i, j :| 0 <= i < |a.evidence| && 0 <= j < |b.evidence|
                  && a.evidence[i].candidateId in env.sessions && b.evidence[j].candidateId in env.sessions
                  && env.sessions[a.evidence[i].candidateId] == env.sessions[b.evidence[j].candidateId];
      assert a.evidence[i] in a.evidence && b.evidence[j] in b.evidence;
    }
  }

  /** The first five mates of the listing, in its order: no more, no others, and all of them when there is room. */
  lemma {:induction false} MatesExactly(env: Env, claims: seq<Claim>, contenders: seq<ClaimId>, from: seq<ClaimId>,
                                        room: nat)
    requires InTable(claims, from) && InTable(claims, contenders)
    ensures var mates := SessionMates(env, claims, contenders, from, room);
            && |mates| <= room
            && (forall x <- mates :: x in from && x < |claims| && Mate(env, claims, contenders, x))
            && (|mates| < room ==> forall x <- from :: Mate(env, claims, contenders, x) ==> x in mates)
            && (forall k :: 0 <= k < |from| && Mate(env, claims, contenders, from[k]) && from[k] !in mates ==>
                  forall x <- mates :: x in from[..k])
    decreases from
  {
    hide Mate, ShareSession;
    if from != [] && room > 0 {
      var x, rest := from[0], from[1..];
      var takes := IsMate(env, claims, contenders, x);
      var more := SessionMates(env, claims, contenders, rest, if takes then room - 1 else room);
      var mates := SessionMates(env, claims, contenders, from, room);
      MatesExactly(env, claims, contenders, rest, if takes then room - 1 else room);
      HeadMate(env, claims, contenders, from, room);
      assert mates == if takes then [x] + more else more;
      assert takes ==> mates[0] == x;
      assert Mate(env, claims, contenders, x) ==> x in mates;
      assert forall y <- from :: y == x || y in rest;
      forall k, y | 0 <= k < |from| && Mate(env, claims, contenders, from[k]) && from[k] !in mates && y in mates
        ensures y in from[..k]
      {
        assert from[0] == x && k != 0;
        assert from[k] == rest[k - 1];
        assert y == x || y in rest[..k - 1];
        assert from[..k] == [x] + rest[..k - 1];
      }
    }
  }

  /** What the listing asks of each claim. */
  predicate IsMate(env: Env, claims: seq<Claim>, contenders: seq<ClaimId>, x: ClaimId)
    requires InTable(claims, contenders) && x < |claims|
    ensures IsMate(env, claims, contenders, x) <==> Mate(env, claims, contenders, x)
  {
    assert forall a, b :: ShareSession(env, a, b) <==> SameSession(env, a, b) by {
      forall a, b
        ensures ShareSession(env, a, b) <==> SameSession(env, a, b)
      {
        SharedIsSame(env, a, b);
      }
    }
    x !in contenders && exists k :: 0 <= k < |contenders| && ShareSession(env, claims[x], claims[contenders[k]])
  }

  lemma HeadMate(env: Env, claims: seq<Claim>, contenders: seq<ClaimId>, from: seq<ClaimId>, room: nat)
    requires InTable(claims, from) && InTable(claims, contenders) && from != [] && room > 0
    ensures SessionMates(env, claims, contenders, from, room) ==
            if IsMate(env, claims, contenders, from[0])
            then [from[0]] + SessionMates(env, claims, contenders, from[1..], room - 1)
            else SessionMates(env, claims, contenders, from[1..], room)
  {
    hide ShareSession;
  }

  // ---------- What a revision links ----------

  /** Still to be settled, or settled already. */
  ghost predicate Contending(s: Store, contenders: seq<ClaimId>) {
    forall k :: 0 <= k < |contenders| ==>
                  contenders[k] < |s.claims| && s.claims[contenders[k]].status in {Active, Contradicted}
  }

  ghost predicate Paired(s: Store, a: ClaimId, b: ClaimId) {
    && a < |s.claims| && b < |s.claims| && b in s.claims[a].related && a in s.claims[b].related
  }

  lemma TouchKeepsLinks(s: Store, s': Store, a: ClaimId, b: ClaimId)
    requires AllTouched(DidRevise, s, s') && Paired(s, a, b)
    ensures Paired(s', a, b)
  {
  }

  lemma TouchKeepsContending(s: Store, s': Store, contenders: seq<ClaimId>)
    requires AllTouched(DidRevise, s, s') && Contending(s, contenders)
    ensures Contending(s', contenders)
  {
  }

  lemma {:induction false} SettleLinks(env: Env, s: Store, contenders: seq<ClaimId>, w: ClaimId)
    requires Contending(s, contenders) && w < |s.claims|
    ensures var s' := SettleContenders(env, s, contenders, w).0;
            forall x <- contenders :: x != w ==> Paired(s', x, w)
    decreases contenders
  {
    hide Related, AllTouched, Paired;
    if contenders != [] {
      var x := contenders[0];
      assert forall y <- contenders :: y == x || y in contenders[1..];
      if x == w {
        SettleLinks(env, Log(s, w, Affirmed, env.now), contenders[1..], w);
      } else {
        var s1 := Log(s.(claims := SetStatus(s.claims, x, Contradicted, env.now).value), x, Superseded(w), env.now);
        var s2 := Related(s1, x, [w], env.now);
        var s3 := Related(s2, w, [x], env.now);
        DemoteTouches(env, s, x, w);
        RelatedTouches(s1, x, [w], env.now);
        RelatedTouches(s2, w, [x], env.now);
        TouchedTwice(DidRevise, s, s1, s2);
        TouchedTwice(DidRevise, s, s2, s3);
        TouchKeepsContending(s, s3, contenders[1..]);
        RelatedAdds(s1, x, [w], env.now);
        RelatedAdds(s2, w, [x], env.now);
        NowLinked(s2, s3, x, w);
        SettleLinks(env, s3, contenders[1..], w);
        SettleTouches(env, s3, contenders[1..], w);
        TouchKeepsLinks(s3, SettleContenders(env, s3, contenders[1..], w).0, x, w);
      }
    }
  }

  lemma NowLinked(s2: Store, s3: Store, x: ClaimId, w: ClaimId)
    requires AllTouched(DidRevise, s2, s3) && x < |s2.claims| && w < |s2.claims|
    requires w in s2.claims[x].related && x in s3.claims[w].related
    ensures Paired(s3, x, w)
  {
  }

  /** A revision links its winner with every rival it beat, both ways, and with the session mates. */
  lemma RevisionLinks(env: Env, s: Store, id: ClaimId)
    requires id < |s.claims| && Revise(env, s, id).Some?
    ensures var contenders := [id] + ActiveRivals(s.claims, id);
            var w, s' := PickRevisionWinner(s.claims, contenders), Revise(env, s, id).value;
            && (forall x <- contenders :: x != w ==> Paired(s', x, w))
            && w < |s'.claims|
            && forall x <- SessionMates(env, s.claims, contenders, Listed(s.claims), 5) :: x != w ==>
                 x in s'.claims[w].related
  {
    hide SettleContenders, Related, SessionMates, ActiveRivals, AllTouched, Paired, MergeRelated;
    var contenders := [id] + ActiveRivals(s.claims, id);
    ContendersActive(s, id);
    var w := PickRevisionWinner(s.claims, contenders);
    var mates := SessionMates(env, s.claims, contenders, Listed(s.claims), 5);
    var s1 := SettleContenders(env, s, contenders, w).0;
    SettleLinks(env, s, contenders, w);
    SettleTouches(env, s, contenders, w);
    SameSize(DidRevise, s, s1);
    RelatedAdds(s1, w, mates, env.now);
    RelatedTouches(s1, w, mates, env.now);
    forall x | x in contenders && x != w
      ensures Paired(Related(s1, w, mates, env.now), x, w)
    {
      TouchKeepsLinks(s1, Related(s1, w, mates, env.now), x, w);
    }
  }

  lemma SameSize(which: Outcome, s: Store, s': Store)
    requires AllTouched(which, s, s')
    ensures |s'.claims| == |s.claims|
  {
  }

  // ---------- Families ----------

  /** The pass lists the claim, and its subject and predicate joined by a bar are those of `c`. */
  predicate Kin(claims: seq<Claim>, c: Claim, i: ClaimId) {
    && i < |claims| && |claims| - i <= 200
    && claims[i].norm.subj + "|" + claims[i].norm.pred == c.norm.subj + "|" + c.norm.pred
  }

  lemma KinIsListed(claims: seq<Claim>, c: Claim, i: ClaimId)
    ensures Kin(claims, c, i) <==> i < |claims| && i in Listed(claims) && FamilyKey(claims[i]) == FamilyKey(c)
  {
    var ids := Listed(claims);
    if Kin(claims, c, i) {
      assert ids[|claims| - 1 - i] == i;
    }
  }

  lemma ThreeOf<T>(s: set<T>)
    ensures |s| >= 3 <==> exists a, b, c :: a in s && b in s && c in s && a != b && b != c && a != c
  {
    if |s| >= 3 {
      var a :| a in s;
      assert |s - {a}| == |s| - 1;
      var b :| b in s - {a};
      assert |s - {a} - {b}| == |s| - 2;
      var c :| c in s - {a} - {b};
    }
    if exists a, b, c :: a in s && b in s && c in s && a != b && b != c && a != c {
      var a, b, c :| a in s && b in s && c in s && a != b && b != c && a != c;
      assert |{a, b, c}| == 3 && {a, b, c} <= s;
      SubsetSize({a, b, c}, s);
    }
  }

  lemma SubsetSize<T>(a: set<T>, b: set<T>)
    requires a <= b
    ensures |a| <= |b|
  {
    assert b == a + (b - a);
  }

  /** Three claims of the listing with one key. */
  ghost predicate ThreeKin(claims: seq<Claim>, c: Claim) {
    exists i: ClaimId, j: ClaimId, k: ClaimId ::
      Kin(claims, c, i) && Kin(claims, c, j) && Kin(claims, c, k) && i != j && j != k && i != k
  }

  /** No two of them from the same observations. */
  ghost predicate Independent(claims: seq<Claim>, c: Claim) {
    forall i: ClaimId, j: ClaimId ::
      Kin(claims, c, i) && Kin(claims, c, j) && i != j ==> Sources(claims[i]) != Sources(claims[j])
  }

  /** All listed claims with the key of `c`. */
  function Group(claims: seq<Claim>, c: Claim): set<ClaimId> {
    var ids := Listed(claims);
    set i | 0 <= i < |claims| && i in ids && FamilyKey(claims[i]) == FamilyKey(c)
  }

  lemma GroupIsKin(claims: seq<Claim>, c: Claim)
    ensures forall i: ClaimId :: i in Group(claims, c) <==> Kin(claims, c, i)
    ensures |Group(claims, c)| >= 3 <==> ThreeKin(claims, c)
  {
    forall i: ClaimId
      ensures i in Group(claims, c) <==> Kin(claims, c, i)
    {
      KinIsListed(claims, c, i);
    }
    hide Kin;
    ThreeOf(Group(claims, c));
  }

  /** A family is all listed claims of the key, or none if there are not three, or two share their observations. */
  lemma FamilyExactly(claims: seq<Claim>, c: Claim)
    ensures forall i: ClaimId ::
              i in Family(claims, c) <==> Kin(claims, c, i) && ThreeKin(claims, c) && Independent(claims, c)
  {
    var group := Group(claims, c);
    assert Family(claims, c) ==
           if |group| < 3 then {}
           else if exists i, j :: i in group && j in group && i != j && Sources(claims[i]) == Sources(claims[j]) then {}
           else group;
    hide Sources, Group, Family, Kin;
    GroupIsKin(claims, c);
    hide ThreeKin;
  }

  /** A gist is proposed for a family until one was proposed for exactly its present members. */
  lemma GistExactly(env: Env, s: Store, id: ClaimId, c: Claim)
    requires id < |s.claims|
    ensures var r, latest := ProposeGist(env, s, id, Family(s.claims, c)), Latest(s.history, id, IsGist);
            && (r.Some? <==>
                  && ThreeKin(s.claims, c) && Independent(s.claims, c)
                  && (latest.None? || latest.value.step.family != set i | i in Family(s.claims, c) && i != id))
            && (r.Some? ==> r.value.claims == s.claims)
  {
    hide Latest, Family, ThreeKin, Independent, Kin;
    FamilyExactly(s.claims, c);
    SomeKin(s.claims, c);
    var family := Family(s.claims, c);
    assert family - {id} == set i | i in family && i != id;
    if family != {} {
      var i :| i in family;
    }
  }

  lemma SomeKin(claims: seq<Claim>, c: Claim)
    ensures ThreeKin(claims, c) ==> exists i: ClaimId :: Kin(claims, c, i)
  {
  }

  /** Claims of one family agree on subject and predicate, unless one of these holds a bar. */
  lemma KinAgree(claims: seq<Claim>, c: Claim, i: ClaimId)
    requires Kin(claims, c, i)
    ensures '|' !in c.norm.subj && '|' !in claims[i].norm.subj ==>
              claims[i].norm.subj == c.norm.subj && claims[i].norm.pred == c.norm.pred
    ensures '|' !in c.norm.pred && '|' !in claims[i].norm.pred ==>
              claims[i].norm.subj == c.norm.subj && claims[i].norm.pred == c.norm.pred
  {
    var a, b, s, p := claims[i].norm.subj, claims[i].norm.pred, c.norm.subj, c.norm.pred;
    var x, y := a + "|" + b, s + "|" + p;
    assert x[|a|] == '|' && y[|s|] == '|';
    assert x[..|a|] == a && y[..|s|] == s && x[|a| + 1..] == b && y[|s| + 1..] == p;
    assert |a| < |s| ==> s[|a|] == '|' && b[|s| - |a| - 1] == '|';
    assert |s| < |a| ==> a[|s|] == '|' && p[|a| - |s| - 1] == '|';
  }
}
