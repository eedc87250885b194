/** The service over the three stores, in the order of writes the specification lists. */
module PromotionServices {
  import opened Wrappers
  import opened C = ClaimStore
  import opened Promotion
  import J = PromotionJournal
  import A = Approvals

  class PromotionService {
    const claims: ClaimRepository
    const journal: J.JournalRepository
    const approvals: A.ApprovalRepository
    const ledger: Ledger
    const auto: bool

    /** Every database this service has left on disk, oldest first. */
    ghost var durable: seq<Db>

    constructor (claims: ClaimRepository, journal: J.JournalRepository, approvals: A.ApprovalRepository, ledger: Ledger,
                 auto: bool)
      ensures this.claims == claims && this.journal == journal && this.approvals == approvals
      ensures this.ledger == ledger && this.auto == auto && durable == []
    {
      this.claims, this.journal, this.approvals := claims, journal, approvals;
      this.ledger, this.auto := ledger, auto;
      this.durable := [];
    }

    /** The database as it is now. */
    ghost function Now(): Db
      reads claims, journal, approvals
    {
      Db(claims.rows, journal.rows, approvals.table)
    }

    // ---------- One durable write each ----------

    method SetJournal(id: J.EntryId, state: J.State, u: J.Update)
      modifies journal, this`durable
      ensures Now() == Journal(old(Now()), id, state, u)
      ensures durable == old(durable) + [Now()]
    {
      var _ := journal.MoveTo(id, state, u);
      durable := durable + [Now()];
    }

    method SetClaimStatus(id: ClaimId, status: Status, now: Time)
      modifies claims, this`durable
      ensures Now() == old(Now()).(claims := Move(old(claims.rows), id, status, now))
      ensures durable == old(durable) + [Now()]
    {
      var _ := claims.MoveTo(id, status, now);
      durable := durable + [Now()];
    }

    method SupportClaim(id: ClaimId, candidateId: CandidateId, role: Role, now: Time)
      requires id < |claims.rows|
      modifies claims, this`durable
      ensures Now() == old(Now()).(claims := Reinforced(old(claims.rows), id, candidateId, role, now))
      ensures durable == old(durable) + [Now()]
    {
      var confidence := Capped(claims.rows[id].confidence + REINFORCE_STEP);
      var _ := claims.Append(id, [Evidence(candidateId, role)], confidence, now);
      durable := durable + [Now()];
    }

    method InsertClaim(claim: Claim) returns (id: ClaimId)
      requires forall i :: 0 <= i < |claims.rows| ==> !claims.rows[i].Is(claim.norm.key, claim.negated)
      modifies claims, this`durable
      ensures id == |old(claims.rows)| && Now() == old(Now()).(claims := old(claims.rows) + [claim])
      ensures durable == old(durable) + [Now()]
    {
      var created := claims.Create(claim);
      id := created.value;
      durable := durable + [Now()];
    }

    // ---------- The operations ----------

    /** Requeue rows stranded mid-execution. */
    method OnModuleInit()
      modifies journal, this`durable
      ensures Leaves(old(Now()), old(durable), Now(), durable,
                     RestartTrace(old(Now()), J.ListByState(old(journal.rows), J.Promoting, J.Promoting)))
    {
      RequeueFrom(J.ListByState(journal.rows, J.Promoting, J.Promoting));
    }

    method RequeueFrom(stranded: seq<J.EntryId>)
      modifies journal, this`durable
      ensures Leaves(old(Now()), old(durable), Now(), durable, RestartTrace(old(Now()), stranded))
    {
      hide Journal;
      ghost var start, log := Now(), durable;
      ghost var written: seq<Db> := [];
      for k := 0 to |stranded|
        invariant Leaves(start, log, Now(), durable, written)
        invariant written + RestartTrace(Now(), stranded[k..]) == RestartTrace(start, stranded)
      {
        assert stranded[k..][1..] == stranded[k + 1..];
        SetJournal(stranded[k], J.Queued, J.Update(None, None, Some(J.RecoveryReplay)));
        written := written + [Now()];
      }
    }

    /** Read the row's approval; a lapsed one expires on the way, which is a write of its own. */
    method ReadApproval(id: A.ApprovalId, now: Time) returns (approval: Option<A.Approval>)
      modifies approvals, this`durable
      ensures Now() == old(Now()).(approvals := A.ExpireIfLapsed(old(approvals.table), id, now))
      ensures approval == if id < |approvals.table.rows| then Some(approvals.table.rows[id]) else None
      ensures durable == old(durable) +
                         if id < |old(approvals.table).rows| && A.Lapsed(old(approvals.table).rows[id], now)
                           then [Now()] else []
    {
      approval := approvals.Get(id, now);
      if id < |old(approvals.table).rows| && A.Lapsed(old(approvals.table).rows[id], now) {
        durable := durable + [Now()];
      }
    }

    /** Execute one journal row. */
    method ExecuteEntry(id: J.EntryId, now: Time) returns (outcome: Outcome)
      modifies claims, journal, approvals, this`durable
      ensures Finishes(old(Now()), old(durable), Now(), durable, Execute(old(Now()), ledger, id, now), outcome)
    {
      hide Promote;
      if id >= |journal.rows| || J.Terminal(journal.rows[id].state) {
        outcome := WasSkipped;
      } else if journal.rows[id].candidateId !in ledger {
        SetJournal(id, J.Failed, J.Update(None, None, Some(J.Because(J.MissingCandidate))));
        outcome := WasFailed;
      } else if journal.rows[id].approvalId.None? {
        outcome := PromoteRow(id, now);
      } else {
        outcome := ExecuteGated(id, now);
      }
    }

    /** The row waits on an approval: only a granted one lets it through. */
    method ExecuteGated(id: J.EntryId, now: Time) returns (outcome: Outcome)
      requires id < |journal.rows| && !J.Terminal(journal.rows[id].state) && journal.rows[id].candidateId in ledger
      requires journal.rows[id].approvalId.Some?
      modifies claims, journal, approvals, this`durable
      ensures Finishes(old(Now()), old(durable), Now(), durable, Execute(old(Now()), ledger, id, now), outcome)
    {
      hide Promote;
      var approval := ReadApproval(journal.rows[id].approvalId.value, now);
      if approval.None? {
        SetJournal(id, J.Failed, J.Update(None, None, Some(J.Because(J.MissingApproval))));
        outcome := WasFailed;
      } else if approval.value.status == A.Pending {
        outcome := WasSkipped;
      } else if approval.value.status != A.Approved {
        SetJournal(id, J.Denied, J.Update(None, None, Some(J.ApprovalWas(approval.value.status))));
        outcome := WasDenied;
      } else {
        outcome := PromoteRow(id, now);
      }
    }

    /** The part of an execution after the approval check. */
    method PromoteRow(id: J.EntryId, now: Time) returns (outcome: Outcome)
      requires id < |journal.rows| && !J.Terminal(journal.rows[id].state) && journal.rows[id].candidateId in ledger
      modifies claims, journal, this`durable
      ensures Finishes(old(Now()), old(durable), Now(), durable,
                       Promote(old(Now()), ledger[old(journal.rows)[id].candidateId], id, now), outcome)
    {
      hide Apply;
      var row := journal.rows[id];
      if ledger[row.candidateId].role == UnknownRole {
        SetJournal(id, J.Failed, J.Update(None, None, Some(J.Because(J.UnknownOrigin))));
        outcome := WasFailed;
      } else {
        if row.state == J.Queued {
          SetJournal(id, J.Promoting, J.BARE);
        }
        var operation, claim, note := ApplyCandidate(ledger[row.candidateId], row, now);
        SetJournal(id, J.Committed, J.Update(Some(operation), Some(claim), note));
        outcome := OutcomeOf(operation);
      }
    }

    /** Re-derive against the current claims and apply. */
    method ApplyCandidate(candidate: Candidate, row: J.Entry, now: Time)
      returns (operation: J.Operation, claim: ClaimId, note: Option<J.Detail>)
      modifies claims, this`durable
      ensures var a := Apply(old(Now()), candidate, row, now);
              (operation, claim, note) == (a.operation, a.claim, a.note)
                  && Leaves(old(Now()), old(durable), Now(), durable, a.trace)
    {
      hide Move, Reinforced, Contested, CreateActive, FindByTriple;
      var exact := FindByTriple(claims.rows, candidate.norm.key, candidate.negated);
      if exact.Some? {
        claim := exact.value;
        var status := claims.rows[claim].status;
        SupportClaim(claim, row.candidateId, candidate.role, now);
        if status == Proposed {
          SetClaimStatus(claim, Active, now);
        }
        return J.Reinforce, claim, Note(row, J.Reinforce);
      }
      var contradicted := Contested(claims.rows, candidate);
      if contradicted.None? {
        claim := CreateActiveClaim(candidate, row, now);
        return J.New, claim, Note(row, J.New);
      }
      var rival := contradicted.value;
      ContestedInRange(claims.rows, candidate);
      var verdict := if claims.rows[rival].status == Proposed then Retired else Contradicted;
      MoveKeepsSearch(claims.rows, rival, verdict, now, candidate.norm.key, candidate.negated);
      SetClaimStatus(rival, verdict, now);
      claim := CreateActiveClaim(candidate, row, now);
      return J.Contradict, claim, Some(J.Contradicts(rival));
    }

    method CreateActiveClaim(candidate: Candidate, row: J.Entry, now: Time) returns (claim: ClaimId)
      requires forall i :: 0 <= i < |claims.rows| ==> !claims.rows[i].Is(candidate.norm.key, candidate.negated)
      modifies claims, this`durable
      ensures claim == |old(claims.rows)|
      ensures Leaves(old(Now()), old(durable), Now(), durable,
                     CreateActive(old(Now()), NewClaim(candidate, row.candidateId, row, now), now))
    {
      claim := InsertClaim(NewClaim(candidate, row.candidateId, row, now));
      SetClaimStatus(claim, Active, now);
    }

    /** Execute every row that is not settled, oldest first, and count the outcomes. */
    method SweepAll(now: Time) returns (summary: multiset<Outcome>)
      modifies claims, journal, approvals, this`durable
      ensures Leaves(old(Now()), old(durable), Now(), durable,
                     SweepTrace(old(Now()), ledger, J.ListByState(old(journal.rows), J.Queued, J.Promoting), now))
      ensures summary == SweepOutcomes(old(Now()), ledger, J.ListByState(old(journal.rows), J.Queued, J.Promoting), now)
    {
      summary := SweepFrom(J.ListByState(journal.rows, J.Queued, J.Promoting), now);
    }

    method SweepFrom(rows: seq<J.EntryId>, now: Time) returns (summary: multiset<Outcome>)
      modifies claims, journal, approvals, this`durable
      ensures Leaves(old(Now()), old(durable), Now(), durable, SweepTrace(old(Now()), ledger, rows, now))
      ensures summary == SweepOutcomes(old(Now()), ledger, rows, now)
    {
      hide Execute;
      summary := multiset{};
      ghost var start, log := Now(), durable;
      ghost var written: seq<Db> := [];
      for k := 0 to |rows|
        invariant Leaves(start, log, Now(), durable, written)
        invariant written + SweepTrace(Now(), ledger, rows[k..], now) == SweepTrace(start, ledger, rows, now)
        invariant summary + SweepOutcomes(Now(), ledger, rows[k..], now) == SweepOutcomes(start, ledger, rows, now)
      {
        assert rows[k..][1..] == rows[k + 1..];
        ghost var trace := Execute(Now(), ledger, rows[k], now).trace;
        var outcome := ExecuteEntry(rows[k], now);
        written := written + trace;
        summary := summary + multiset{outcome};
      }
    }

    /** Journal a candidate, asking for approval unless it may be promoted at once. */
    method ProposeOne(id: CandidateId, expiresAt: Option<Time>, now: Time)
      requires id in ledger
      modifies claims, journal, approvals, this`durable
      ensures Leaves(old(Now()), old(durable), Now(), durable,
                     ProposeTrace(old(Now()), ledger, id, auto, expiresAt, now))
    {
      hide Execute, DeriveIntent, AutoEligible, J.FindCandidate;
      if J.FindCandidate(journal.rows, id).None? {
        var intent := DeriveIntent(claims.rows, ledger[id]);
        if AutoEligible(auto, ledger[id], intent) {
          var entry := RecordRow(J.Entry(id, intent, J.Queued, None, None, J.Automatically));
          var _ := ExecuteEntry(entry, now);
        } else {
          var approval := approvals.Request(expiresAt);
          durable := durable + [Now()];
          var detail := if intent == J.New then J.NoDetail else J.Intent(intent);
          var _ := RecordRow(J.Entry(id, intent, J.Queued, Some(approval), None, detail));
        }
      }
    }

    method RecordRow(row: J.Entry) returns (id: J.EntryId)
      modifies journal, this`durable
      ensures Now() == old(Now()).(journal := J.RecordProposal(old(journal.rows), row).0)
      ensures id == J.RecordProposal(old(journal.rows), row).1
      ensures durable == old(durable) + [Now()]
    {
      id := journal.Record(row);
      durable := durable + [Now()];
    }
  }

  /** From `db` with `log` behind it, exactly the writes of `trace` were made. */
  ghost predicate Leaves(db: Db, log: seq<Db>, db': Db, log': seq<Db>, trace: seq<Db>) {
    log' == log + trace && db' == Last(db, trace)
  }

  ghost predicate Finishes(db: Db, log: seq<Db>, db': Db, log': seq<Db>, run: Run, outcome: Outcome) {
    Leaves(db, log, db', log', run.trace) && outcome == run.outcome
  }

  lemma ContestedInRange(claims: seq<Claim>, c: Candidate)
    ensures Contested(claims, c).Some? ==>
              Contested(claims, c).value < |claims| && claims[Contested(claims, c).value].Live()
  {
    if Contested(claims, c).Some? {
      var ids := Contestable(claims, c);
      var k :| 0 <= k < |ids| && ids[k] == Contested(claims, c).value;
    }
  }

  /** Changing a status does not make an unmatched triple match. */
  lemma MoveKeepsSearch(claims: seq<Claim>, id: ClaimId, status: Status, now: Time, key: string, negated: bool)
    requires FindByTriple(claims, key, negated).None?
    ensures forall i :: 0 <= i < |claims| ==> !Move(claims, id, status, now)[i].Is(key, negated)
  {
  }
}
