/** What every database on disk satisfies, whatever runs, and wherever it crashes. */
module PromotionInvariant {
  import opened C = ClaimStore
  import opened Promotion
  import J = PromotionJournal
  import A = Approvals

  // ---------- The invariant ----------

  /** No two rows share identity key and marker. */
  ghost predicate UniqueKeys(claims: seq<Claim>) {
    forall i, j :: 0 <= i < |claims| && 0 <= j < |claims| && i != j ==>
                     !claims[i].Is(claims[j].norm.key, claims[j].negated)
  }

  /** No two live claims share normalized subject and predicate. */
  ghost predicate OneLive(claims: seq<Claim>) {
    forall i, j :: 0 <= i < |claims| && 0 <= j < |claims| && i != j && claims[i].Live() && claims[j].Live() ==>
                     !claims[i].About(claims[j].norm.subj, claims[j].norm.pred)
  }

  predicate Carries(c: Claim, id: CandidateId) {
    Supports(c.evidence, id)
  }

  ghost predicate Once(c: Claim) {
    forall j, k :: 0 <= j < k < |c.evidence| ==> c.evidence[j].candidateId != c.evidence[k].candidateId
  }

  /** Evidence only sits in the claim whose identity is the candidate's own, once. */
  ghost predicate EvidenceAtHome(claims: seq<Claim>, ledger: Ledger) {
    && (forall i :: 0 <= i < |claims| ==> Once(claims[i]))
    && forall i, id :: 0 <= i < |claims| && Carries(claims[i], id) ==>
                         id in ledger && claims[i].Is(ledger[id].norm.key, ledger[id].negated)
  }

  predicate Authorized(row: J.Entry, t: A.Table) {
    row.approvalId.Some? ==>
      row.approvalId.value < |t.rows| && t.rows[row.approvalId.value].status == A.Approved
  }

  predicate Refused(row: J.Entry, t: A.Table) {
    && row.approvalId.Some? && row.approvalId.value < |t.rows|
    && t.rows[row.approvalId.value].status !in {A.Pending, A.Approved}
  }

  ghost predicate OneRowEach(rows: seq<J.Entry>) {
    forall i, j :: 0 <= i < j < |rows| ==> rows[i].candidateId != rows[j].candidateId
  }

  /** The candidate has a journal row that lets it into the claims. */
  predicate Admitted(journal: seq<J.Entry>, t: A.Table, id: CandidateId) {
    exists r :: 0 <= r < |journal| && journal[r].candidateId == id && Authorized(journal[r], t)
  }

  /** Whatever reached a claim was journalled, and its approval (if any) is granted. */
  ghost predicate EvidenceAuthorized(db: Db) {
    forall i, id :: 0 <= i < |db.claims| && Carries(db.claims[i], id) ==>
                      Admitted(db.journal, db.approvals, id)
  }

  ghost predicate SettledRows(db: Db) {
    forall r :: 0 <= r < |db.journal| ==>
                  && (db.journal[r].state == J.Committed ==>
                        && Authorized(db.journal[r], db.approvals)
                        && db.journal[r].claimId.Some? && db.journal[r].claimId.value < |db.claims|
                        && Carries(db.claims[db.journal[r].claimId.value], db.journal[r].candidateId))
                  && (db.journal[r].state == J.Denied ==> Refused(db.journal[r], db.approvals))
  }

  /** A row that names a loser is committed, and its own claim is a newer one. */
  ghost predicate ContestsDiffer(rows: seq<J.Entry>) {
    forall r :: 0 <= r < |rows| && rows[r].detail.Contradicts? ==>
                  rows[r].state == J.Committed && rows[r].claimId.Some? && rows[r].detail.loser < rows[r].claimId.value
  }

  ghost predicate Inv(db: Db, ledger: Ledger) {
    && UniqueKeys(db.claims)
    && OneLive(db.claims)
    && EvidenceAtHome(db.claims, ledger)
    && OneRowEach(db.journal)
    && EvidenceAuthorized(db)
    && SettledRows(db)
    && ContestsDiffer(db.journal)
  }

  ghost predicate AllInv(trace: seq<Db>, ledger: Ledger) {
    forall k :: 0 <= k < |trace| ==> Inv(trace[k], ledger)
  }

  // ---------- One write at a time ----------

  /** Rows keep their identity, and none comes back to life. */
  ghost predicate KeepsIdentity(claims: seq<Claim>, claims': seq<Claim>) {
    && |claims'| == |claims|
    && forall i :: 0 <= i < |claims| ==>
                     && claims'[i].Is(claims[i].norm.key, claims[i].negated)
                     && claims'[i].About(claims[i].norm.subj, claims[i].norm.pred)
                     && (claims'[i].Live() ==> claims[i].Live())
  }

  ghost predicate Fades(claims: seq<Claim>, claims': seq<Claim>) {
    KeepsIdentity(claims, claims') && forall i :: 0 <= i < |claims| ==> claims'[i].evidence == claims[i].evidence
  }

  lemma IdentityKept(claims: seq<Claim>, claims': seq<Claim>)
    requires UniqueKeys(claims) && OneLive(claims) && KeepsIdentity(claims, claims')
    ensures UniqueKeys(claims') && OneLive(claims')
  {
  }

  lemma FadeKeepsInv(db: Db, db': Db, ledger: Ledger)
    requires Inv(db, ledger) && db' == db.(claims := db'.claims) && Fades(db.claims, db'.claims)
    ensures Inv(db', ledger)
  {
    IdentityKept(db.claims, db'.claims);
    forall i, id | 0 <= i < |db'.claims| && Carries(db'.claims[i], id)
      ensures Carries(db.claims[i], id)
    {
    }
    forall i | 0 <= i < |db'.claims|
      ensures Once(db'.claims[i])
    {
      assert Once(db.claims[i]);
    }
    forall r | 0 <= r < |db'.journal| && db'.journal[r].state == J.Committed
      ensures Carries(db'.claims[db'.journal[r].claimId.value], db'.journal[r].candidateId)
    {
      assert Carries(db.claims[db.journal[r].claimId.value], db.journal[r].candidateId);
    }
  }

  lemma MoveFades(claims: seq<Claim>, id: ClaimId, status: Status, now: Time)
    ensures Fades(claims, Move(claims, id, status, now))
  {
  }

  lemma ApprovalsKeepInv(db: Db, t: A.Table, ledger: Ledger)
    requires Inv(db, ledger) && A.Settles(db.approvals, t)
    ensures Inv(db.(approvals := t), ledger)
  {
    var db' := db.(approvals := t);
    forall i, cid | 0 <= i < |db'.claims| && Carries(db'.claims[i], cid)
      ensures Admitted(db'.journal, db'.approvals, cid)
    {
      assert Admitted(db.journal, db.approvals, cid);
      var r :| 0 <= r < |db.journal| && db.journal[r].candidateId == cid && Authorized(db.journal[r], db.approvals);
      assert db'.journal[r].candidateId == cid;
    }
    assert forall r :: 0 <= r < |db.journal| && Authorized(db.journal[r], db.approvals) ==>
             Authorized(db'.journal[r], t);
    assert forall r :: 0 <= r < |db.journal| && Refused(db.journal[r], db.approvals) ==> Refused(db'.journal[r], t);
  }

  /** A journal update is safe when a commit names a claim that carries the candidate, and a denial has its refusal. */
  lemma JournalKeepsInv(db: Db, id: J.EntryId, state: J.State, u: J.Update, ledger: Ledger)
    requires Inv(db, ledger) && id < |db.journal|
    requires state == J.Committed ==>
               && Authorized(db.journal[id], db.approvals)
               && u.claimId.Some? && u.claimId.value < |db.claims|
               && Carries(db.claims[u.claimId.value], db.journal[id].candidateId)
    requires state == J.Denied ==> Refused(db.journal[id], db.approvals)
    requires u.detail.Some? && u.detail.value.Contradicts? ==>
               state == J.Committed && u.claimId.Some? && u.detail.value.loser < u.claimId.value
    ensures Inv(Journal(db, id, state, u), ledger)
  {
    var db' := Journal(db, id, state, u);
    assert |db'.journal| == |db.journal|;
    assert forall r :: 0 <= r < |db.journal| ==>
                         db'.journal[r].candidateId == db.journal[r].candidateId
                             && db'.journal[r].approvalId == db.journal[r].approvalId;
    forall i, cid | 0 <= i < |db'.claims| && Carries(db'.claims[i], cid)
      ensures Admitted(db'.journal, db'.approvals, cid)
    {
      assert Admitted(db.journal, db.approvals, cid);
      var r :| 0 <= r < |db.journal| && db.journal[r].candidateId == cid && Authorized(db.journal[r], db.approvals);
      assert db'.journal[r].candidateId == cid;
    }
  }

  lemma ProposalKeepsInv(db: Db, row: J.Entry, ledger: Ledger)
    requires Inv(db, ledger) && !row.detail.Contradicts?
    ensures Inv(db.(journal := J.RecordProposal(db.journal, row).0), ledger)
  {
    var db' := db.(journal := J.RecordProposal(db.journal, row).0);
    assert db.journal <= db'.journal;
    forall i, cid | 0 <= i < |db'.claims| && Carries(db'.claims[i], cid)
      ensures Admitted(db'.journal, db'.approvals, cid)
    {
      assert Admitted(db.journal, db.approvals, cid);
      var r :| 0 <= r < |db.journal| && db.journal[r].candidateId == cid && Authorized(db.journal[r], db.approvals);
      assert db'.journal[r] == db.journal[r];
    }
  }

  /** A row may act for its candidate: it is the candidate's own, and its approval is granted. */
  ghost predicate Acting(db: Db, ledger: Ledger, id: J.EntryId) {
    && id < |db.journal|
    && db.journal[id].candidateId in ledger
    && Authorized(db.journal[id], db.approvals)
  }

  lemma CreateKeepsIdentity(claims: seq<Claim>, claim: Claim)
    requires UniqueKeys(claims) && OneLive(claims)
    requires FindByTriple(claims, claim.norm.key, claim.negated).None?
    requires forall i :: 0 <= i < |claims| && claims[i].Live() ==> !claims[i].About(claim.norm.subj, claim.norm.pred)
    ensures UniqueKeys(claims + [claim]) && OneLive(claims + [claim])
  {
  }

  /** Evidence after a write is the evidence before plus one candidate in one claim. */
  ghost predicate GainsOne(claims: seq<Claim>, claims': seq<Claim>, at: ClaimId, id: CandidateId) {
    && |claims| <= |claims'| && at < |claims'|
    && (forall i :: 0 <= i < |claims'| ==> Once(claims'[i]))
    && (forall i, x :: 0 <= i < |claims'| && Carries(claims'[i], x) ==>
                         (i == at && x == id) || (i < |claims| && Carries(claims[i], x)))
    && (forall i, x :: 0 <= i < |claims| && Carries(claims[i], x) ==> Carries(claims'[i], x))
    && (forall i :: 0 <= i < |claims| ==> claims'[i].Is(claims[i].norm.key, claims[i].negated))
  }

  lemma GainKeepsJournal(db: Db, claims': seq<Claim>, at: ClaimId, id: CandidateId)
    requires EvidenceAuthorized(db) && SettledRows(db)
    requires GainsOne(db.claims, claims', at, id) && Admitted(db.journal, db.approvals, id)
    ensures EvidenceAuthorized(db.(claims := claims')) && SettledRows(db.(claims := claims'))
  {
    var db' := db.(claims := claims');
    forall i, x | 0 <= i < |claims'| && Carries(claims'[i], x)
      ensures Admitted(db'.journal, db'.approvals, x)
    {
      assert x == id || Carries(db.claims[i], x);
    }
  }

  lemma GainKeepsHome(claims: seq<Claim>, claims': seq<Claim>, at: ClaimId, id: CandidateId, ledger: Ledger,
                      key: string, negated: bool)
    requires EvidenceAtHome(claims, ledger) && GainsOne(claims, claims', at, id)
    requires id in ledger && key == ledger[id].norm.key && negated == ledger[id].negated && claims'[at].Is(key, negated)
    ensures EvidenceAtHome(claims', ledger)
  {
  }

  lemma GainKeepsInv(db: Db, claims': seq<Claim>, at: ClaimId, id: J.EntryId, ledger: Ledger)
    requires Inv(db, ledger) && Acting(db, ledger, id)
    requires UniqueKeys(claims') && OneLive(claims')
    requires var cid := db.journal[id].candidateId;
             GainsOne(db.claims, claims', at, cid) && claims'[at].Is(ledger[cid].norm.key, ledger[cid].negated)
    ensures Inv(db.(claims := claims'), ledger)
  {
    var cid := db.journal[id].candidateId;
    GainKeepsHome(db.claims, claims', at, cid, ledger, claims'[at].norm.key, claims'[at].negated);
    GainKeepsJournal(db, claims', at, cid);
  }

  lemma CreateGains(claims: seq<Claim>, claim: Claim, id: CandidateId, role: Role)
    requires claim.evidence == [Evidence(id, role)] && (forall i :: 0 <= i < |claims| ==> Once(claims[i]))
    ensures GainsOne(claims, claims + [claim], |claims|, id) && Carries(claim, id)
  {
    assert claim.evidence[0].candidateId == id;
  }

  lemma CreateKeepsInv(db: Db, ledger: Ledger, id: J.EntryId, claim: Claim)
    requires Inv(db, ledger) && Acting(db, ledger, id)
    requires var cid := db.journal[id].candidateId;
             claim.evidence == [Evidence(cid, ledger[cid].role)] && claim.Is(ledger[cid].norm.key, ledger[cid].negated)
    requires FindByTriple(db.claims, claim.norm.key, claim.negated).None?
    requires forall i :: 0 <= i < |db.claims| && db.claims[i].Live() ==>
               !db.claims[i].About(claim.norm.subj, claim.norm.pred)
    ensures Inv(db.(claims := db.claims + [claim]), ledger) && Carries(claim, db.journal[id].candidateId)
  {
    var cid := db.journal[id].candidateId;
    CreateKeepsIdentity(db.claims, claim);
    CreateGains(db.claims, claim, cid, ledger[cid].role);
    GainKeepsInv(db, db.claims + [claim], |db.claims|, id, ledger);
  }

  /** Appending one evidence item adds that candidate and no other, and never twice. */
  lemma MergeOne(c: Claim, c': Claim, id: CandidateId, role: Role)
    requires Once(c) && c'.evidence == MergeEvidence(c.evidence, [Evidence(id, role)])
    ensures Once(c') && Carries(c', id)
    ensures forall x :: Carries(c', x) <==> x == id || Carries(c, x)
    ensures Carries(c, id) ==> c'.evidence == c.evidence
    ensures c.evidence <= c'.evidence
  {
    var more := [Evidence(id, role)];
    assert more[1..] == [];
    assert Unseen(c.evidence, more) == if Supports(c.evidence, id) then [] else more;
    if Carries(c, id) {
      assert c'.evidence == c.evidence;
    } else {
      assert c'.evidence == c.evidence + more;
      assert c'.evidence[|c.evidence|].candidateId == id;
      forall x | Carries(c, x)
        ensures Carries(c', x)
      {
        var k :| 0 <= k < |c.evidence| && c.evidence[k].candidateId == x;
        assert c'.evidence[k].candidateId == x;
      }
    }
  }

  lemma ReplaceGains(claims: seq<Claim>, i: ClaimId, c': Claim, id: CandidateId)
    requires i < |claims| && (forall j :: 0 <= j < |claims| ==> Once(claims[j]))
    requires Once(c') && c'.Is(claims[i].norm.key, claims[i].negated)
    requires forall x :: Carries(c', x) <==> x == id || Carries(claims[i], x)
    ensures GainsOne(claims, claims[i := c'], i, id)
  {
  }

  /** The one row a reinforcement rewrites. */
  lemma ReinforcedRow(claims: seq<Claim>, i: ClaimId, id: CandidateId, role: Role, now: Time)
    requires i < |claims|
    ensures var c := claims[i];
            Reinforced(claims, i, id, role, now) ==
            claims[i := c.(evidence := MergeEvidence(c.evidence, [Evidence(id, role)]), lastSurfacedAt := id,
                           confidence := Capped(c.confidence + REINFORCE_STEP),
                           timesObserved := c.timesObserved + 1, updatedAt := now)]
  {
  }

  lemma ReinforceGains(claims: seq<Claim>, i: ClaimId, id: CandidateId, role: Role, now: Time)
    requires i < |claims| && (forall j :: 0 <= j < |claims| ==> Once(claims[j]))
    ensures var claims' := Reinforced(claims, i, id, role, now);
            GainsOne(claims, claims', i, id) && KeepsIdentity(claims, claims') && Carries(claims'[i], id)
  {
    ReinforcedRow(claims, i, id, role, now);
    var c' := Reinforced(claims, i, id, role, now)[i];
    MergeOne(claims[i], c', id, role);
    ReplaceGains(claims, i, c', id);
  }

  lemma ReinforceKeepsInv(db: Db, ledger: Ledger, id: J.EntryId, i: ClaimId, now: Time)
    requires Inv(db, ledger) && Acting(db, ledger, id) && i < |db.claims|
    requires var c := ledger[db.journal[id].candidateId]; db.claims[i].Is(c.norm.key, c.negated)
    ensures var cid := db.journal[id].candidateId;
            var claims' := Reinforced(db.claims, i, cid, ledger[cid].role, now);
            Inv(db.(claims := claims'), ledger) && |claims'| == |db.claims| && Carries(claims'[i], cid)
  {
    var cid := db.journal[id].candidateId;
    var claims' := Reinforced(db.claims, i, cid, ledger[cid].role, now);
    ReinforceGains(db.claims, i, cid, ledger[cid].role, now);
    IdentityKept(db.claims, claims');
    GainKeepsInv(db, claims', i, id, ledger);
  }
}
