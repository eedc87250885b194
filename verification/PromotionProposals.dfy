/** Who may skip the human: what a proposal does, and what a granted one does to the claims. */
module PromotionProposals {
  import opened Wrappers
  import opened C = ClaimStore
  import opened Promotion
  import opened PromotionInvariant
  import opened PromotionRuns
  import opened PromotionReplay
  import J = PromotionJournal
  import A = Approvals

  // ---------- The candidate and the claims ----------

  /** Some claim, in whatever status, says the same. */
  ghost predicate SaidBefore(claims: seq<Claim>, c: Candidate) {
    exists i :: 0 <= i < |claims| && claims[i].norm.key == c.norm.key && claims[i].negated == c.negated
  }

  predicate Rivals(x: Claim, c: Candidate) {
    (x.status == Proposed || x.status == Active) && x.norm.subj == c.norm.subj && x.norm.pred == c.norm.pred
  }

  /** Some proposed or active claim is about the same subject and predicate. */
  ghost predicate Disputed(claims: seq<Claim>, c: Candidate) {
    exists i :: 0 <= i < |claims| && Rivals(claims[i], c)
  }

  /** The automatic path is open to new beliefs of admitted kinds and known speakers, and to nothing else. */
  ghost predicate Unattended(claims: seq<Claim>, c: Candidate, auto: bool) {
    auto && c.autoKind && c.role != UnknownRole && !SaidBefore(claims, c) && !Disputed(claims, c)
  }

  /** The active claim a candidate becomes. */
  ghost predicate Voices(x: Claim, c: Candidate, id: CandidateId, authority: Authority, now: Time) {
    && x.triple == c.triple && x.norm == c.norm && x.negated == c.negated && x.category == c.category
    && x.status == Active && x.confidence == c.confidence && x.extractorConfidence == c.confidence
    && x.evidence == [Evidence(id, c.role)] && x.firstAssertedAt == id && x.lastSurfacedAt == id
    && x.promotion == authority && x.timesObserved == 1 && x.related == [] && !x.locked && x.activation.None?
    && x.origin == (if c.role == UserRole then UserOrigin else AgentOrigin)
    && x.createdAt == now && x.updatedAt == now
  }

  lemma IntentSees(claims: seq<Claim>, c: Candidate)
    ensures DeriveIntent(claims, c) == J.Reinforce <==> SaidBefore(claims, c)
    ensures DeriveIntent(claims, c) == J.Contradict <==> !SaidBefore(claims, c) && Disputed(claims, c)
    ensures SaidBefore(claims, c) <==> FindByTriple(claims, c.norm.key, c.negated).Some?
    ensures Disputed(claims, c) <==> Contestable(claims, c) != []
  {
    var found := FindByTriple(claims, c.norm.key, c.negated);
    if found.Some? {
      assert claims[found.value].Is(c.norm.key, c.negated);
    } else {
      assert forall i :: 0 <= i < |claims| ==> !claims[i].Is(c.norm.key, c.negated);
    }
    if Contestable(claims, c) == [] {
      NoneContested(claims, c);
      assert forall i :: 0 <= i < |claims| && claims[i].Live() ==> !claims[i].About(c.norm.subj, c.norm.pred);
    } else {
      ContestedIsThere(claims, c, Contestable(claims, c)[0]);
      assert Rivals(claims[Contestable(claims, c)[0]], c);
    }
  }

  // ---------- Proposals ----------

  /** The journal ends in one new row, of this candidate, whose operation says what the claims say. */
  ghost predicate Journalled(db: Db, db': Db, id: CandidateId, c: Candidate) {
    && |db'.journal| == |db.journal| + 1 && db.journal == db'.journal[..|db.journal|]
    && var row := db'.journal[|db.journal|];
       && row.candidateId == id
       && (row.operation == J.Reinforce <==> SaidBefore(db.claims, c))
       && (row.operation == J.Contradict <==> !SaidBefore(db.claims, c) && Disputed(db.claims, c))
       && (row.operation == J.New <==> !SaidBefore(db.claims, c) && !Disputed(db.claims, c))
  }

  /** Recorded with no approval, executed at once: one new active claim, and a committed row that names it. */
  ghost predicate PromotedAtOnce(db: Db, trace: seq<Db>, id: CandidateId, c: Candidate, now: Time) {
    && (forall d <- trace :: d.approvals == db.approvals && Journalled(db, d, id, c)
                             && d.journal[|db.journal|].approvalId.None?)
    && var last := Last(db, trace);
       && |last.claims| == |db.claims| + 1 && db.claims == last.claims[..|db.claims|]
       && Voices(last.claims[|db.claims|], c, id, Automatic, now)
       && |last.journal| > |db.journal|
       && last.journal[|db.journal|].state == J.Committed
       && last.journal[|db.journal|].claimId == Some(|db.claims|)
  }

  /** A pending request first, then a queued row that waits on it; no claim moves. */
  ghost predicate LeftToApproval(db: Db, trace: seq<Db>, id: CandidateId, c: Candidate, expiresAt: Option<Time>) {
    && |trace| == 2
    && (forall d <- trace :: d.claims == db.claims
                             && d.approvals.rows == db.approvals.rows + [A.Approval(A.Pending, expiresAt)])
    && trace[0].journal == db.journal && Journalled(db, trace[1], id, c)
    && var row := trace[1].journal[|db.journal|];
       row.state == J.Queued && row.approvalId == Some(|db.approvals.rows|) && row.claimId.None?
  }

  ghost predicate Known(db: Db, id: CandidateId) {
    exists r :: 0 <= r < |db.journal| && db.journal[r].candidateId == id
  }

  /**
   * A candidate already journalled is left alone. Any other is promoted at once if and only if the automatic path is
   * open to it, and is left to a human's approval otherwise.
   */
  lemma ProposalOutcome(db: Db, ledger: Ledger, id: CandidateId, auto: bool, expiresAt: Option<Time>, now: Time)
    requires id in ledger
    ensures var trace := ProposeTrace(db, ledger, id, auto, expiresAt, now);
            if Known(db, id) then trace == []
            else if Unattended(db.claims, ledger[id], auto) then PromotedAtOnce(db, trace, id, ledger[id], now)
            else LeftToApproval(db, trace, id, ledger[id], expiresAt)
  {
    hide DeriveIntent, Contestable, LeftToApproval, PromotedAtOnce, Unattended, Execute;
    var c := ledger[id];
    if !Known(db, id) {
      assert J.FindCandidate(db.journal, id).None?;
      if Unattended(db.claims, c, auto) {
        AtOnce(db, ledger, id, auto, expiresAt, now);
      } else {
        Asks(db, ledger, id, auto, expiresAt, now);
      }
    } else {
      assert J.FindCandidate(db.journal, id).Some?;
    }
  }

  lemma Asks(db: Db, ledger: Ledger, id: CandidateId, auto: bool, expiresAt: Option<Time>, now: Time)
    requires id in ledger && !Known(db, id) && !Unattended(db.claims, ledger[id], auto)
    ensures LeftToApproval(db, ProposeTrace(db, ledger, id, auto, expiresAt, now), id, ledger[id], expiresAt)
  {
    hide DeriveIntent, Contestable, Execute, SaidBefore, Disputed;
    IntentSees(db.claims, ledger[id]);
    assert J.FindCandidate(db.journal, id).None?;
  }

  /** The five databases of an automatic promotion. */
  function AtOnceTrace(db: Db, c: Candidate, id: CandidateId, now: Time): seq<Db> {
    var row := J.Entry(id, J.New, J.Queued, None, None, J.Automatically);
    var claim := NewClaim(c, id, row, now);
    var claimed := db.(journal := db.journal + [row.(state := J.Promoting)]);
    var added := db.claims + [claim.(status := Active)];
    [db.(journal := db.journal + [row]), claimed, claimed.(claims := db.claims + [claim]), claimed.(claims := added),
     db.(claims := added,
         journal := db.journal + [row.(state := J.Committed, claimId := Some(|db.claims|))])]
  }

  lemma AtOnceSteps(db: Db, ledger: Ledger, id: CandidateId, now: Time)
    requires id in ledger && ledger[id].role != UnknownRole
    requires !SaidBefore(db.claims, ledger[id]) && !Disputed(db.claims, ledger[id])
    ensures var row := J.Entry(id, J.New, J.Queued, None, None, J.Automatically);
            var recorded := db.(journal := db.journal + [row]);
            [recorded] + Execute(recorded, ledger, |db.journal|, now).trace == AtOnceTrace(db, ledger[id], id, now)
  {
    hide DeriveIntent, Contestable, Contested, FindByTriple;
    var c := ledger[id];
    IntentSees(db.claims, c);
    var row := J.Entry(id, J.New, J.Queued, None, None, J.Automatically);
    var recorded := db.(journal := db.journal + [row]);
    var entry := |db.journal|;
    var claimed := Journal(recorded, entry, J.Promoting, J.BARE);
    assert claimed == db.(journal := db.journal + [row.(state := J.Promoting)]);
    Uncontested(claimed, c, row, now);
    var a := Apply(claimed, c, row, now);
    CommitRow(Last(claimed, a.trace), entry, a);
    assert Commit(Last(claimed, a.trace), entry, a) == AtOnceTrace(db, c, id, now)[4];
  }

  lemma Uncontested(db: Db, c: Candidate, row: J.Entry, now: Time)
    requires !SaidBefore(db.claims, c) && !Disputed(db.claims, c)
    ensures var claim := NewClaim(c, row.candidateId, row, now);
            Apply(db, c, row, now) ==
            Applied([db.(claims := db.claims + [claim]), db.(claims := db.claims + [claim.(status := Active)])], J.New,
                    |db.claims|, Note(row, J.New))
  {
    hide Contestable, FindByTriple, Move;
    IntentSees(db.claims, c);
    FreshTable(db.claims, c, row.candidateId, row, now);
  }

  lemma AtOnce(db: Db, ledger: Ledger, id: CandidateId, auto: bool, expiresAt: Option<Time>, now: Time)
    requires id in ledger && !Known(db, id) && Unattended(db.claims, ledger[id], auto)
    ensures PromotedAtOnce(db, ProposeTrace(db, ledger, id, auto, expiresAt, now), id, ledger[id], now)
  {
    hide DeriveIntent, Execute, SaidBefore, Disputed, Contestable, FindByTriple;
    var c := ledger[id];
    IntentSees(db.claims, c);
    assert J.FindCandidate(db.journal, id).None?;
    AtOnceSteps(db, ledger, id, now);
    assert ProposeTrace(db, ledger, id, auto, expiresAt, now) == AtOnceTrace(db, c, id, now);
    AtOnceListed(db, c, id, now);
  }

  lemma NewVoice(c: Candidate, id: CandidateId, row: J.Entry, now: Time)
    ensures Voices(NewClaim(c, id, row, now).(status := Active), c, id, AuthorityOf(row), now)
  {
  }

  lemma AtOnceListed(db: Db, c: Candidate, id: CandidateId, now: Time)
    requires !SaidBefore(db.claims, c) && !Disputed(db.claims, c)
    ensures PromotedAtOnce(db, AtOnceTrace(db, c, id, now), id, c, now)
  {
    hide SaidBefore, Disputed, NewClaim, Voices, Journalled;
    var trace := AtOnceTrace(db, c, id, now);
    var last := trace[4];
    assert last.claims[..|db.claims|] == db.claims;
    NewVoice(c, id, J.Entry(id, J.New, J.Queued, None, None, J.Automatically), now);
    forall d | d in trace
      ensures d.approvals == db.approvals && Journalled(db, d, id, c)
      ensures d.journal[|db.journal|].approvalId.None?
    {
      OneJournalled(db, d, id, c);
    }
  }

  lemma OneJournalled(db: Db, db': Db, id: CandidateId, c: Candidate)
    requires !SaidBefore(db.claims, c) && !Disputed(db.claims, c)
    requires |db'.journal| == |db.journal| + 1 && db'.journal == db.journal + [db'.journal[|db.journal|]]
    requires db'.journal[|db.journal|].candidateId == id && db'.journal[|db.journal|].operation == J.New
    ensures Journalled(db, db', id, c)
  {
    hide SaidBefore, Disputed;
  }

  /** Claims move, or a row is journalled without an approval, exactly when the automatic path is open. */
  lemma AutomaticExactly(db: Db, ledger: Ledger, id: CandidateId, auto: bool, expiresAt: Option<Time>, now: Time)
    requires id in ledger && !Known(db, id)
    ensures var trace := ProposeTrace(db, ledger, id, auto, expiresAt, now);
            var open := Unattended(db.claims, ledger[id], auto);
            && ((exists d <- trace :: d.claims != db.claims) <==> open)
            && ((exists d <- trace :: SkipsApproval(db, d)) <==> open)
  {
    hide ProposeTrace, Unattended, Voices, SaidBefore, Disputed;
    var trace := ProposeTrace(db, ledger, id, auto, expiresAt, now);
    ProposalOutcome(db, ledger, id, auto, expiresAt, now);
    if Unattended(db.claims, ledger[id], auto) {
      var last := Last(db, trace);
      assert last in trace && last.claims != db.claims;
      assert SkipsApproval(db, last);
    } else {
      assert forall d <- trace :: d == trace[0] || d == trace[1];
    }
  }

  /** A row the proposal added waits on no approval. */
  ghost predicate SkipsApproval(db: Db, db': Db) {
    exists r :: |db.journal| <= r < |db'.journal| && db'.journal[r].approvalId.None?
  }

  // ---------- Promotions ----------

  /** An open row of a candidate with a known speaker, whose approval, if it has one, is granted. */
  predicate Granted(db: Db, ledger: Ledger, id: J.EntryId) {
    && id < |db.journal| && db.journal[id].state in {J.Queued, J.Promoting}
    && db.journal[id].candidateId in ledger && ledger[db.journal[id].candidateId].role != UnknownRole
    && var a := db.journal[id].approvalId;
       a.Some? ==> a.value < |db.approvals.rows| && db.approvals.rows[a.value].status == A.Approved
  }

  /** The row is committed for the claim, and no approval and no other row has changed. */
  ghost predicate CommittedFor(db: Db, db': Db, id: J.EntryId, claim: ClaimId, operation: J.Operation) {
    && db'.approvals == db.approvals && |db'.journal| == |db.journal|
    && (forall r :: 0 <= r < |db.journal| && r != id ==> db'.journal[r] == db.journal[r])
    && id < |db.journal| && db'.journal[id].state == J.Committed && db'.journal[id].claimId == Some(claim)
    && db'.journal[id].operation == operation
  }

  /** The row's detail says when it did something else than it was proposed for, and is kept otherwise. */
  predicate SaysChange(row: J.Entry, row': J.Entry) {
    row'.detail == if row'.operation == row.operation then row.detail else J.Rederived(row.operation, row'.operation)
  }

  /** The claim with one more observation behind it. */
  ghost predicate Strengthened(x: Claim, x': Claim, id: CandidateId, role: Role, now: Time) {
    && x' == x.(evidence := x'.evidence, lastSurfacedAt := id, confidence := x'.confidence,
                timesObserved := x.timesObserved + 1, status := x'.status, updatedAt := now)
    && x'.evidence == (if exists e <- x.evidence :: e.candidateId == id then x.evidence
                       else x.evidence + [Evidence(id, role)])
    && x'.confidence == (if x.confidence + 0.05 < 0.99 then x.confidence + 0.05 else 0.99)
    && x'.status == (if x.status == Proposed then Active else x.status)
  }

  function AuthorityOf(row: J.Entry): Authority {
    match row.approvalId
    case None => Automatic
    case Some(a) => ApprovedBy(a)
  }

  /** The oldest claim of the candidate's identity gains the observation, and no other claim changes. */
  lemma PromotionStrengthens(db: Db, ledger: Ledger, id: J.EntryId, now: Time, i: ClaimId)
    requires Inv(db, ledger) && Granted(db, ledger, id) && i < |db.claims|
    requires var c := ledger[db.journal[id].candidateId];
             db.claims[i].norm.key == c.norm.key && db.claims[i].negated == c.negated
    ensures var db', who := After(db, ledger, id, now), db.journal[id].candidateId;
            && CommittedFor(db, db', id, i, J.Reinforce) && SaysChange(db.journal[id], db'.journal[id])
            && |db'.claims| == |db.claims| && Strengthened(db.claims[i], db'.claims[i], who, ledger[who].role, now)
            && forall j :: 0 <= j < |db.claims| && j != i ==> db'.claims[j] == db.claims[j]
  {
    hide FindByTriple, Inv, Apply, After, Execute, Strengthened, Supported, Activated;
    var row := db.journal[id];
    var c, claimed := ledger[row.candidateId], Claimed(db, id);
    GrantedRun(db, ledger, id, now);
    FoundAt(db, ledger, c, i);
    ExactShape(claimed, c, row, i, now);
    ExactOperation(claimed, c, row, now);
    SupportedIsStrengthened(db.claims[i], row.candidateId, c.role, now);
    CommitRow(Last(claimed, Apply(claimed, c, row, now).trace), id, Apply(claimed, c, row, now));
  }

  lemma SupportedIsStrengthened(x: Claim, id: CandidateId, role: Role, now: Time)
    ensures Strengthened(x, Activated(Supported(x, id, role, now), now), id, role, now)
  {
    hide MergeEvidence;
    Merged(x.evidence, id, role);
  }

  lemma Merged(evidence: seq<Evidence>, id: CandidateId, role: Role)
    ensures MergeEvidence(evidence, [Evidence(id, role)]) ==
            if exists e <- evidence :: e.candidateId == id then evidence else evidence + [Evidence(id, role)]
  {
    var more := [Evidence(id, role)];
    assert more[1..] == [];
    assert Unseen(evidence, more) == if Supports(evidence, id) then [] else more;
    assert evidence + [] == evidence;
    assert (exists e <- evidence :: e.candidateId == id) <==> Supports(evidence, id) by {
      if Supports(evidence, id) {
        var k :| 0 <= k < |evidence| && evidence[k].candidateId == id;
        assert evidence[k] in evidence;
      }
    }
  }

  lemma FoundAt(db: Db, ledger: Ledger, c: Candidate, i: ClaimId)
    requires Inv(db, ledger) && i < |db.claims|
    requires db.claims[i].norm.key == c.norm.key && db.claims[i].negated == c.negated
    ensures FindByTriple(db.claims, c.norm.key, c.negated) == Some(i)
  {
    assert db.claims[i].Is(c.norm.key, c.negated);
    var found := FindByTriple(db.claims, c.norm.key, c.negated);
    assert found.Some? && db.claims[found.value].Is(c.norm.key, c.negated);
    assert forall j :: 0 <= j < |db.claims| && j != i ==> !db.claims[j].Is(db.claims[i].norm.key, db.claims[i].negated);
  }

  lemma ExactOperation(db: Db, c: Candidate, row: J.Entry, now: Time)
    requires FindByTriple(db.claims, c.norm.key, c.negated).Some?
    ensures Apply(db, c, row, now).operation == J.Reinforce
    ensures Apply(db, c, row, now).note ==
            if row.operation == J.Reinforce then None else Some(J.Rederived(row.operation, J.Reinforce))
  {
    hide Reinforced, Move, FindByTriple;
  }

  /** The row taken up. */
  function Claimed(db: Db, id: J.EntryId): Db
    requires id < |db.journal|
  {
    db.(journal := db.journal[id := db.journal[id].(state := J.Promoting)])
  }

  lemma TakesUp(db: Db, id: J.EntryId)
    requires id < |db.journal| && db.journal[id].state in {J.Queued, J.Promoting}
    ensures Journal(db, id, J.Promoting, J.BARE) == Claimed(db, id)
    ensures db.journal[id].state == J.Promoting ==> Claimed(db, id) == db
  {
    if db.journal[id].state == J.Promoting {
      assert db.journal[id := db.journal[id].(state := J.Promoting)] == db.journal;
    }
  }

  /** A granted row is applied to the claims as they are, and then committed. */
  lemma GrantedRun(db: Db, ledger: Ledger, id: J.EntryId, now: Time)
    requires Granted(db, ledger, id)
    ensures var row := db.journal[id];
            var a := Apply(Claimed(db, id), ledger[row.candidateId], row, now);
            After(db, ledger, id, now) == Commit(Last(Claimed(db, id), a.trace), id, a)
    ensures var row := db.journal[id];
            var a := Apply(Claimed(db, id), ledger[row.candidateId], row, now);
            Last(Claimed(db, id), a.trace) == Claimed(db, id).(claims := Last(Claimed(db, id), a.trace).claims)
  {
    hide Apply;
    var row := db.journal[id];
    TakesUp(db, id);
    ApplyLeavesRest(Claimed(db, id), ledger[row.candidateId], row, now);
    var a := Apply(Claimed(db, id), ledger[row.candidateId], row, now);
    var p := Promote(db, ledger[row.candidateId], id, now);
    assert p.trace[|p.trace| - 1] == Commit(Last(Claimed(db, id), a.trace), id, a);
    assert Execute(db, ledger, id, now).trace == p.trace;
  }

  /** The one live claim in the way is contradicted, or retired if nobody had confirmed it; the new one stands. */
  lemma PromotionContradicts(db: Db, ledger: Ledger, id: J.EntryId, now: Time, i: ClaimId)
    requires Inv(db, ledger) && Granted(db, ledger, id) && i < |db.claims|
    requires var c := ledger[db.journal[id].candidateId]; !SaidBefore(db.claims, c) && Rivals(db.claims[i], c)
    ensures var db', who, n := After(db, ledger, id, now), db.journal[id].candidateId, |db.claims|;
            && CommittedFor(db, db', id, n, J.Contradict) && db'.journal[id].detail == J.Contradicts(i)
            && |db'.claims| == n + 1 && Voices(db'.claims[n], ledger[who], who, AuthorityOf(db.journal[id]), now)
            && db'.claims[i] ==
               db.claims[i].(status := if db.claims[i].status == Active then Contradicted else Retired,
                             updatedAt := now)
            && forall j :: 0 <= j < n && j != i ==> db'.claims[j] == db.claims[j]
  {
    hide FindByTriple, Inv, Contested, Contestable, CreateActive, Move, After, SaidBefore, Apply;
    IntentSees(db.claims, ledger[db.journal[id].candidateId]);
    var row := db.journal[id];
    var c, claimed := ledger[row.candidateId], Claimed(db, id);
    GrantedRun(db, ledger, id, now);
    OnlyRival(db, ledger, c, i);
    ClaimedKeepsInv(db, ledger, id);
    BeatenFinal(claimed, ledger, c, row, i, now);
    ContestedShape(claimed, c, row, i, now);
    ContestNote(claimed, c, row, i, now);
    NewVoice(c, row.candidateId, row, now);
    CommitRow(Last(claimed, Apply(claimed, c, row, now).trace), id, Apply(claimed, c, row, now));
  }

  lemma ContestNote(db: Db, c: Candidate, row: J.Entry, i: ClaimId, now: Time)
    requires FindByTriple(db.claims, c.norm.key, c.negated).None? && Contested(db.claims, c) == Some(i)
    ensures var a := Apply(db, c, row, now); a.operation == J.Contradict && a.note == Some(J.Contradicts(i))
  {
    hide Contested, FindByTriple, Move, Contestable;
    if i >= |db.claims| {
      ContestedIsThere(db.claims, c, i);
      assert false;
    }
  }

  /** No two live claims share subject and predicate, so the rival is the one that is contested. */
  lemma OnlyRival(db: Db, ledger: Ledger, c: Candidate, i: ClaimId)
    requires Inv(db, ledger) && i < |db.claims| && Rivals(db.claims[i], c)
    ensures Contested(db.claims, c) == Some(i)
  {
    hide NegatedRival;
    IntentSees(db.claims, c);
    var k := Contested(db.claims, c).value;
    ContestedIsThere(db.claims, c, k);
    assert forall j :: 0 <= j < |db.claims| && j != i && db.claims[j].Live() ==>
                         !db.claims[j].About(db.claims[i].norm.subj, db.claims[i].norm.pred);
  }

  lemma ClaimedKeepsInv(db: Db, ledger: Ledger, id: J.EntryId)
    requires Inv(db, ledger) && Granted(db, ledger, id)
    ensures Inv(Claimed(db, id), ledger)
  {
    TakesUp(db, id);
    if db.journal[id].state == J.Queued {
      JournalKeepsInv(db, id, J.Promoting, J.BARE, ledger);
    }
  }

  /** With nothing said before and nothing in the way, one active claim joins the others. */
  lemma PromotionAdds(db: Db, ledger: Ledger, id: J.EntryId, now: Time)
    requires Granted(db, ledger, id)
    requires var c := ledger[db.journal[id].candidateId]; !SaidBefore(db.claims, c) && !Disputed(db.claims, c)
    ensures var db', who, n := After(db, ledger, id, now), db.journal[id].candidateId, |db.claims|;
            && CommittedFor(db, db', id, n, J.New) && SaysChange(db.journal[id], db'.journal[id])
            && |db'.claims| == n + 1 && Voices(db'.claims[n], ledger[who], who, AuthorityOf(db.journal[id]), now)
            && db.claims == db'.claims[..n]
  {
    hide FindByTriple, Contested, Contestable, Apply, After;
    var row := db.journal[id];
    var c, claimed := ledger[row.candidateId], Claimed(db, id);
    GrantedRun(db, ledger, id, now);
    Uncontested(claimed, c, row, now);
    NewVoice(c, row.candidateId, row, now);
    CommitRow(Last(claimed, Apply(claimed, c, row, now).trace), id, Apply(claimed, c, row, now));
  }

  // ---------- Rows that are not granted ----------

  predicate OpenRow(db: Db, id: J.EntryId) {
    id < |db.journal| && db.journal[id].state in {J.Queued, J.Promoting}
  }

  /** The request is still to be decided, and its time has not run out. */
  predicate Waiting(a: A.Approval, now: Time) {
    a.status == A.Pending && (a.expiresAt.None? || now < a.expiresAt.value)
  }

  /** Where a row that may not be promoted goes: it stays, fails for want of something, or is denied. */
  function Verdict(db: Db, ledger: Ledger, id: J.EntryId, now: Time): J.State
    requires OpenRow(db, id)
  {
    var row := db.journal[id];
    if row.candidateId !in ledger then J.Failed
    else if row.approvalId.None? then J.Failed
    else if row.approvalId.value >= |db.approvals.rows| then J.Failed
    else
      var a := db.approvals.rows[row.approvalId.value];
      if Waiting(a, now) then row.state else if a.status == A.Approved then J.Failed else J.Denied
  }

  /**
   * Executing a row that is not granted moves no claim and no other row. A settled one stays as it is; an open one
   * waits for its decision, fails for want of its candidate, its approval or a known speaker, or is denied, a request
   * whose time has run out being expired on the way.
   */
  lemma UngrantedEndsAs(db: Db, ledger: Ledger, id: J.EntryId, now: Time)
    requires !Granted(db, ledger, id)
    ensures var db' := After(db, ledger, id, now);
            && db'.claims == db.claims && |db'.journal| == |db.journal|
            && |db'.approvals.rows| == |db.approvals.rows|
            && (!OpenRow(db, id) ==> db' == db)
            && (OpenRow(db, id) ==>
                  && db'.journal[id] == db.journal[id].(state := Verdict(db, ledger, id, now),
                                                        detail := db'.journal[id].detail)
                  && (forall r :: 0 <= r < |db.journal| && r != id ==> db'.journal[r] == db.journal[r])
                  && forall a :: 0 <= a < |db.approvals.rows| ==>
                       db'.approvals.rows[a] ==
                       (if db.journal[id].candidateId in ledger && db.journal[id].approvalId == Some(a)
                           && db.approvals.rows[a].status == A.Pending && !Waiting(db.approvals.rows[a], now)
                        then db.approvals.rows[a].(status := A.Expired) else db.approvals.rows[a]))
  {
    hide Apply;
    if OpenRow(db, id) {
      assert !J.Terminal(db.journal[id].state);
    }
  }

  /** So executing a row moves claims exactly when it is granted. */
  lemma OnlyGrantedMoves(db: Db, ledger: Ledger, id: J.EntryId, now: Time)
    requires Inv(db, ledger)
    ensures After(db, ledger, id, now).claims != db.claims <==> Granted(db, ledger, id)
  {
    hide After, Inv, Strengthened;
    if !Granted(db, ledger, id) {
      UngrantedEndsAs(db, ledger, id, now);
    } else {
      var c := ledger[db.journal[id].candidateId];
      if SaidBefore(db.claims, c) {
        var i :| 0 <= i < |db.claims| && db.claims[i].norm.key == c.norm.key && db.claims[i].negated == c.negated;
        PromotionStrengthens(db, ledger, id, now, i);
        Differs(db.claims[i], After(db, ledger, id, now).claims[i], db.journal[id].candidateId, c.role, now);
      } else if Disputed(db.claims, c) {
        var i :| 0 <= i < |db.claims| && Rivals(db.claims[i], c);
        PromotionContradicts(db, ledger, id, now, i);
      } else {
        PromotionAdds(db, ledger, id, now);
      }
    }
  }

  lemma Differs(x: Claim, x': Claim, id: CandidateId, role: Role, now: Time)
    requires Strengthened(x, x', id, role, now)
    ensures x' != x
  {
    assert x'.timesObserved == x.timesObserved + 1;
  }
}
