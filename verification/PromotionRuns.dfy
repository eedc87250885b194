/** The invariant over whole runs: any mix of operations, each cut short by a crash anywhere. */
module PromotionRuns {
  import opened Wrappers
  import opened C = ClaimStore
  import opened Promotion
  import opened PromotionInvariant
  import J = PromotionJournal
  import A = Approvals

  // ---------- Each operation, write by write ----------

  lemma AllInvAppend(a: seq<Db>, b: seq<Db>, ledger: Ledger)
    requires AllInv(a, ledger) && AllInv(b, ledger)
    ensures AllInv(a + b, ledger)
  {
  }

  lemma LastKeepsInv(db: Db, trace: seq<Db>, ledger: Ledger)
    requires Inv(db, ledger) && AllInv(trace, ledger)
    ensures Inv(Last(db, trace), ledger)
  {
  }

  lemma MoveKeepsInv(db: Db, ledger: Ledger, id: ClaimId, status: Status, now: Time)
    requires Inv(db, ledger)
    ensures Inv(db.(claims := Move(db.claims, id, status, now)), ledger)
  {
    MoveFades(db.claims, id, status, now);
    FadeKeepsInv(db, db.(claims := Move(db.claims, id, status, now)), ledger);
  }

  /** Adding the belief is safe in both of its writes. */
  lemma CreateActiveKeepsInv(db: Db, ledger: Ledger, id: J.EntryId, row: J.Entry, now: Time)
    requires Inv(db, ledger) && Acting(db, ledger, id) && row.candidateId == db.journal[id].candidateId
    requires var c := ledger[row.candidateId];
             FindByTriple(db.claims, c.norm.key, c.negated).None?
             && forall i :: 0 <= i < |db.claims| && db.claims[i].Live() ==>
                   !db.claims[i].About(c.norm.subj, c.norm.pred)
    ensures var trace := CreateActive(db, NewClaim(ledger[row.candidateId], row.candidateId, row, now), now);
            && AllInv(trace, ledger)
            && |trace[1].claims| == |db.claims| + 1
            && Carries(trace[1].claims[|db.claims|], row.candidateId)
            && trace[1] == db.(claims := trace[1].claims)
  {
    var claim := NewClaim(ledger[row.candidateId], row.candidateId, row, now);
    CreateKeepsInv(db, ledger, id, claim);
    var created := db.(claims := db.claims + [claim]);
    MoveKeepsInv(created, ledger, |db.claims|, Active, now);
    MoveFades(created.claims, |db.claims|, Active, now);
  }

  /** With at most one live claim per subject and predicate, defeating it leaves none. */
  lemma DefeatLeavesNone(claims: seq<Claim>, c: Candidate, i: ClaimId, verdict: Status, now: Time)
    requires OneLive(claims) && i in Contestable(claims, c) && i < |claims|
    requires verdict == if claims[i].status == Proposed then Retired else Contradicted
    ensures var claims' := Move(claims, i, verdict, now);
            && claims' == claims[i := claims[i].(status := verdict, updatedAt := now)]
            && forall j :: 0 <= j < |claims'| && claims'[j].Live() ==> !claims'[j].About(c.norm.subj, c.norm.pred)
  {
    var s, p := c.norm.subj, c.norm.pred;
    var ids := Contestable(claims, c);
    var k :| 0 <= k < |ids| && ids[k] == i;
    assert claims[i].About(s, p) && claims[i].Live();
  }

  lemma NoneContested(claims: seq<Claim>, c: Candidate)
    requires Contestable(claims, c) == []
    ensures forall j :: 0 <= j < |claims| && claims[j].Live() ==> !claims[j].About(c.norm.subj, c.norm.pred)
  {
    var s, p := c.norm.subj, c.norm.pred;
    var keep := (x: Claim) => x.About(s, p) && x.Live();
    assert Contestable(claims, c) == Select(claims, keep);
    forall j | 0 <= j < |claims| && claims[j].Live()
      ensures !claims[j].About(s, p)
    {
      assert !keep(claims[j]);
    }
  }

  lemma ContestedIsThere(claims: seq<Claim>, c: Candidate, i: ClaimId)
    requires i in Contestable(claims, c)
    ensures i < |claims| && claims[i].Live() && claims[i].About(c.norm.subj, c.norm.pred)
  {
    var ids := Contestable(claims, c);
    var k :| 0 <= k < |ids| && ids[k] == i;
  }

  /** A defeated claim keeps its identity, so the search for the new triple still fails. */
  lemma StillUnmatched(claims: seq<Claim>, claims': seq<Claim>, key: string, negated: bool)
    requires KeepsIdentity(claims, claims') && FindByTriple(claims, key, negated).None?
    ensures FindByTriple(claims', key, negated).None?
  {
  }

  /** What applying a candidate leaves: the rest of the database, and a claim that carries it. */
  ghost predicate Landed(db: Db, a: Applied, id: CandidateId, ledger: Ledger) {
    var db' := Last(db, a.trace);
    && AllInv(a.trace, ledger) && Inv(db', ledger)
    && db' == db.(claims := db'.claims)
    && a.claim < |db'.claims| && Carries(db'.claims[a.claim], id)
    && (a.note.Some? && a.note.value.Contradicts? ==> a.note.value.loser < a.claim)
  }

  lemma ApplyExactKeepsInv(db: Db, ledger: Ledger, id: J.EntryId, row: J.Entry, now: Time)
    requires Inv(db, ledger) && Acting(db, ledger, id) && row.candidateId == db.journal[id].candidateId
    requires FindByTriple(db.claims, ledger[row.candidateId].norm.key, ledger[row.candidateId].negated).Some?
    ensures Landed(db, Apply(db, ledger[row.candidateId], row, now), row.candidateId, ledger)
  {
    var c := ledger[row.candidateId];
    var i := FindByTriple(db.claims, c.norm.key, c.negated).value;
    ReinforceKeepsInv(db, ledger, id, i, now);
    var grown := Reinforced(db.claims, i, row.candidateId, c.role, now);
    MoveKeepsInv(db.(claims := grown), ledger, i, Active, now);
    MoveFades(grown, i, Active, now);
    assert Move(grown, i, Active, now)[i].evidence == grown[i].evidence;
  }

  lemma ApplyFreshKeepsInv(db: Db, ledger: Ledger, id: J.EntryId, row: J.Entry, now: Time)
    requires Inv(db, ledger) && Acting(db, ledger, id) && row.candidateId == db.journal[id].candidateId
    requires FindByTriple(db.claims, ledger[row.candidateId].norm.key, ledger[row.candidateId].negated).None?
    ensures Landed(db, Apply(db, ledger[row.candidateId], row, now), row.candidateId, ledger)
  {
    hide Contested, NewClaim;
    var c := ledger[row.candidateId];
    match Contested(db.claims, c)
    case Some(i) =>
      ContestedIsThere(db.claims, c, i);
      var verdict := if db.claims[i].status == Proposed then Retired else Contradicted;
      DefeatLeavesNone(db.claims, c, i, verdict, now);
      var settled := db.(claims := Move(db.claims, i, verdict, now));
      MoveKeepsInv(db, ledger, i, verdict, now);
      MoveFades(db.claims, i, verdict, now);
      StillUnmatched(db.claims, settled.claims, c.norm.key, c.negated);
      CreateActiveKeepsInv(settled, ledger, id, row, now);
      AllInvAppend([settled], CreateActive(settled, NewClaim(c, row.candidateId, row, now), now), ledger);
    case None =>
      NoneContested(db.claims, c);
      CreateActiveKeepsInv(db, ledger, id, row, now);
  }

  lemma PromoteKeepsInv(db: Db, ledger: Ledger, id: J.EntryId, now: Time)
    requires Inv(db, ledger) && Acting(db, ledger, id) && !J.Terminal(db.journal[id].state)
    ensures AllInv(Promote(db, ledger[db.journal[id].candidateId], id, now).trace, ledger)
  {
    var row := db.journal[id];
    var c := ledger[row.candidateId];
    if c.role == UnknownRole {
      JournalKeepsInv(db, id, J.Failed, J.Update(None, None, Some(J.Because(J.UnknownOrigin))), ledger);
    } else {
      var claimed := Journal(db, id, J.Promoting, J.BARE);
      JournalKeepsInv(db, id, J.Promoting, J.BARE, ledger);
      assert claimed.journal[id].candidateId == row.candidateId && claimed.journal[id].approvalId == row.approvalId;
      if FindByTriple(claimed.claims, c.norm.key, c.negated).Some? {
        ApplyExactKeepsInv(claimed, ledger, id, row, now);
      } else {
        ApplyFreshKeepsInv(claimed, ledger, id, row, now);
      }
      var a := Apply(claimed, c, row, now);
      var landed := Last(claimed, a.trace);
      var u := J.Update(Some(a.operation), Some(a.claim), a.note);
      JournalKeepsInv(landed, id, J.Committed, u, ledger);
      var first := if row.state == J.Queued then [claimed] else [];
      AllInvAppend(first, a.trace, ledger);
      AllInvAppend(first + a.trace, [Journal(landed, id, J.Committed, u)], ledger);
    }
  }

  lemma ExecuteKeepsInv(db: Db, ledger: Ledger, id: J.EntryId, now: Time)
    requires Inv(db, ledger)
    ensures AllInv(Execute(db, ledger, id, now).trace, ledger)
  {
    if id < |db.journal| && !J.Terminal(db.journal[id].state) {
      var row := db.journal[id];
      if row.candidateId !in ledger {
        JournalKeepsInv(db, id, J.Failed, J.Update(None, None, Some(J.Because(J.MissingCandidate))), ledger);
      } else if row.approvalId.None? {
        PromoteKeepsInv(db, ledger, id, now);
      } else {
        var a := row.approvalId.value;
        if a >= |db.approvals.rows| {
          JournalKeepsInv(db, id, J.Failed, J.Update(None, None, Some(J.Because(J.MissingApproval))), ledger);
        } else {
          var read := db.(approvals := A.ExpireIfLapsed(db.approvals, a, now));
          ApprovalsKeepInv(db, read.approvals, ledger);
          var status := read.approvals.rows[a].status;
          if status == A.Approved {
            PromoteKeepsInv(read, ledger, id, now);
          } else if status != A.Pending {
            JournalKeepsInv(read, id, J.Denied, J.Update(None, None, Some(J.ApprovalWas(status))), ledger);
          }
        }
      }
    }
  }

  lemma {:induction false} RestartKeepsInv(db: Db, ledger: Ledger, ids: seq<J.EntryId>)
    requires Inv(db, ledger) && forall k :: 0 <= k < |ids| ==> ids[k] < |db.journal|
    ensures AllInv(RestartTrace(db, ids), ledger)
    decreases ids
  {
    if ids != [] {
      var u := J.Update(None, None, Some(J.RecoveryReplay));
      JournalKeepsInv(db, ids[0], J.Queued, u, ledger);
      var db' := Journal(db, ids[0], J.Queued, u);
      RestartKeepsInv(db', ledger, ids[1..]);
      AllInvAppend([db'], RestartTrace(db', ids[1..]), ledger);
    }
  }

  lemma {:induction false} SweepKeepsInv(db: Db, ledger: Ledger, ids: seq<J.EntryId>, now: Time)
    requires Inv(db, ledger)
    ensures AllInv(SweepTrace(db, ledger, ids, now), ledger)
    decreases ids
  {
    if ids != [] {
      var first := Execute(db, ledger, ids[0], now).trace;
      ExecuteKeepsInv(db, ledger, ids[0], now);
      LastKeepsInv(db, first, ledger);
      SweepKeepsInv(Last(db, first), ledger, ids[1..], now);
      AllInvAppend(first, SweepTrace(Last(db, first), ledger, ids[1..], now), ledger);
    }
  }

  lemma ProposeKeepsInv(db: Db, ledger: Ledger, id: CandidateId, auto: bool, expiresAt: Option<Time>, now: Time)
    requires Inv(db, ledger) && id in ledger
    ensures AllInv(ProposeTrace(db, ledger, id, auto, expiresAt, now), ledger)
  {
    if J.FindCandidate(db.journal, id).None? {
      var intent := DeriveIntent(db.claims, ledger[id]);
      if AutoEligible(auto, ledger[id], intent) {
        var row := J.Entry(id, intent, J.Queued, None, None, J.Automatically);
        ProposalKeepsInv(db, row, ledger);
        var (rows, entry) := J.RecordProposal(db.journal, row);
        var recorded := db.(journal := rows);
        ExecuteKeepsInv(recorded, ledger, entry, now);
        AllInvAppend([recorded], Execute(recorded, ledger, entry, now).trace, ledger);
      } else {
        var asked := db.(approvals := A.Create(db.approvals, expiresAt));
        ApprovalsKeepInv(db, asked.approvals, ledger);
        var detail := if intent == J.New then J.NoDetail else J.Intent(intent);
        ProposalKeepsInv(asked, J.Entry(id, intent, J.Queued, Some(|db.approvals.rows|), None, detail), ledger);
      }
    }
  }

  // ---------- Whole runs ----------

  /** A write of the maintenance pass or of retirement: status, links, or one of the adjustable columns. */
  datatype ClaimWrite =
    | ToStatus(status: Status)
    | Link(more: seq<ClaimId>)
    | SetColumns(confidence: real, locked: bool, activation: Option<real>, sourceType: Option<SourceType>,
                 lastAccessedAt: Option<Time>)

  datatype Event =
    | Proposes(id: CandidateId, auto: bool, expiresAt: Option<Time>, now: Time)
    | Executes(entry: J.EntryId, now: Time)
    | Sweeps(now: Time)
    | Restarts
    | Decides(approval: A.ApprovalId, verdict: A.Status, now: Time)
    | Reads(approval: A.ApprovalId, now: Time)
    | Writes(claim: ClaimId, write: ClaimWrite, now: Time)

  function Written(claims: seq<Claim>, id: ClaimId, w: ClaimWrite, now: Time): seq<Claim> {
    if id >= |claims| then claims
    else
      match w
      case ToStatus(status) => Move(claims, id, status, now)
      case Link(more) => Or(AddRelated(claims, id, more, now), claims)
      case SetColumns(confidence, locked, activation, sourceType, lastAccessedAt) =>
        claims[id := claims[id].(confidence := confidence, locked := locked, activation := activation,
                                 sourceType := sourceType, lastAccessedAt := lastAccessedAt, updatedAt := now)]
  }

  function EventTrace(db: Db, ledger: Ledger, e: Event): seq<Db> {
    match e
    case Proposes(id, auto, expiresAt, now) =>
        if id in ledger then ProposeTrace(db, ledger, id, auto, expiresAt, now) else []
    case Executes(entry, now) => Execute(db, ledger, entry, now).trace
    case Sweeps(now) => SweepTrace(db, ledger, J.ListByState(db.journal, J.Queued, J.Promoting), now)
    case Restarts => RestartTrace(db, J.ListByState(db.journal, J.Promoting, J.Promoting))
    case Decides(approval, verdict, now) =>
      if verdict == A.Pending then [] else [db.(approvals := A.Resolve(db.approvals, approval, verdict, now))]
    case Reads(approval, now) => [db.(approvals := A.ExpireIfLapsed(db.approvals, approval, now))]
    case Writes(claim, write, now) => [db.(claims := Written(db.claims, claim, write, now))]
  }

  /** An operation that dies after its first `writes` writes (all of them, if that is more than it makes). */
  datatype Step = Step(event: Event, writes: nat)

  function TakeStep(db: Db, ledger: Ledger, step: Step): Db {
    var trace := EventTrace(db, ledger, step.event);
    Last(db, if step.writes < |trace| then trace[..step.writes] else trace)
  }

  function RunSteps(db: Db, ledger: Ledger, steps: seq<Step>): Db
    decreases steps
  {
    if steps == [] then db else RunSteps(TakeStep(db, ledger, steps[0]), ledger, steps[1..])
  }

  const EMPTY := Db([], [], A.Table([], []))

  lemma WriteKeepsInv(db: Db, ledger: Ledger, id: ClaimId, w: ClaimWrite, now: Time)
    requires Inv(db, ledger)
    ensures Inv(db.(claims := Written(db.claims, id, w, now)), ledger)
  {
    assert Fades(db.claims, Written(db.claims, id, w, now));
    FadeKeepsInv(db, db.(claims := Written(db.claims, id, w, now)), ledger);
  }

  lemma EventKeepsInv(db: Db, ledger: Ledger, e: Event)
    requires Inv(db, ledger)
    ensures AllInv(EventTrace(db, ledger, e), ledger)
  {
    match e
    case Proposes(id, auto, expiresAt, now) =>
      if id in ledger {
        ProposeKeepsInv(db, ledger, id, auto, expiresAt, now);
      }
    case Executes(entry, now) =>
      ExecuteKeepsInv(db, ledger, entry, now);
    case Sweeps(now) =>
      SweepKeepsInv(db, ledger, J.ListByState(db.journal, J.Queued, J.Promoting), now);
    case Restarts =>
      RestartKeepsInv(db, ledger, J.ListByState(db.journal, J.Promoting, J.Promoting));
    case Decides(approval, verdict, now) =>
      if verdict != A.Pending {
        ApprovalsKeepInv(db, A.Resolve(db.approvals, approval, verdict, now), ledger);
      }
    case Reads(approval, now) =>
      ApprovalsKeepInv(db, A.ExpireIfLapsed(db.approvals, approval, now), ledger);
    case Writes(claim, write, now) =>
      WriteKeepsInv(db, ledger, claim, write, now);
  }

  /** Main safety result: every reachable database satisfies the invariant, crashes anywhere. */
  lemma {:induction false} RunKeepsInv(db: Db, ledger: Ledger, steps: seq<Step>)
    requires Inv(db, ledger)
    ensures Inv(RunSteps(db, ledger, steps), ledger)
    decreases steps
  {
    if steps != [] {
      var trace := EventTrace(db, ledger, steps[0].event);
      EventKeepsInv(db, ledger, steps[0].event);
      LastKeepsInv(db, trace, ledger);
      LastKeepsInv(db, if steps[0].writes < |trace| then trace[..steps[0].writes] else trace, ledger);
      RunKeepsInv(TakeStep(db, ledger, steps[0]), ledger, steps[1..]);
    }
  }

  /**
   * The same, read off for the reader, from the empty database: one row per identity and marker,
   * one live claim per subject and predicate, each candidate in one claim only, once; a committed
   * row's claim carries its candidate under a granted approval; a denied candidate is nowhere; no
   * row names its own claim as the loser.
   */
  lemma ReachableDatabases(ledger: Ledger, steps: seq<Step>)
    ensures var db := RunSteps(EMPTY, ledger, steps);
            && UniqueKeys(db.claims) && OneLive(db.claims)
            && (forall i, j, id ::
                  && 0 <= i < |db.claims| && 0 <= j < |db.claims|
                  && Carries(db.claims[i], id) && Carries(db.claims[j], id)
                  ==> i == j)
            && (forall i :: 0 <= i < |db.claims| ==> Once(db.claims[i]))
            && (forall r :: 0 <= r < |db.journal| && db.journal[r].state == J.Committed ==>
                  && Authorized(db.journal[r], db.approvals)
                  && db.journal[r].claimId.Some? && db.journal[r].claimId.value < |db.claims|
                  && Carries(db.claims[db.journal[r].claimId.value], db.journal[r].candidateId))
            && (forall r, i :: 0 <= r < |db.journal| && 0 <= i < |db.claims| && db.journal[r].state == J.Denied ==>
                  !Carries(db.claims[i], db.journal[r].candidateId))
            && ContestsDiffer(db.journal)
  {
    var db := RunSteps(EMPTY, ledger, steps);
    assert Inv(EMPTY, ledger);
    RunKeepsInv(EMPTY, ledger, steps);
    DeniedStaysOut(db, ledger);
    OneHome(db, ledger);
  }

  lemma DeniedStaysOut(db: Db, ledger: Ledger)
    requires Inv(db, ledger)
    ensures forall r, i :: 0 <= r < |db.journal| && 0 <= i < |db.claims| && db.journal[r].state == J.Denied ==>
                             !Carries(db.claims[i], db.journal[r].candidateId)
  {
    forall r, i | 0 <= r < |db.journal| && 0 <= i < |db.claims| && db.journal[r].state == J.Denied
      ensures !Carries(db.claims[i], db.journal[r].candidateId)
    {
      var id := db.journal[r].candidateId;
      assert forall q :: 0 <= q < |db.journal| && db.journal[q].candidateId == id ==> q == r;
      assert Refused(db.journal[r], db.approvals);
      assert !Admitted(db.journal, db.approvals, id);
    }
  }

  lemma OneHome(db: Db, ledger: Ledger)
    requires Inv(db, ledger)
    ensures forall i, j, id ::
              0 <= i < |db.claims| && 0 <= j < |db.claims| && Carries(db.claims[i], id) && Carries(db.claims[j], id) ==>
                    i == j
  {
    forall i, j, id | 0 <= i < |db.claims| && 0 <= j < |db.claims| && Carries(db.claims[i], id)
        && Carries(db.claims[j], id)
      ensures i == j
    {
      var c := ledger[id];
      assert db.claims[i].Is(c.norm.key, c.negated) && db.claims[j].Is(c.norm.key, c.negated);
    }
  }
}
