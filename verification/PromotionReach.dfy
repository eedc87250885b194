/** What every reachable database owes to the identities its ledger rows were given, and to its approvals. */
module PromotionReach {
  import opened Wrappers
  import opened ClaimIdentity
  import opened C = ClaimStore
  import opened Promotion
  import opened PromotionInvariant
  import opened PromotionRuns
  import J = PromotionJournal
  import A = Approvals
  import H = MaintenanceHeads

  /** Every candidate is as the extractor leaves it. */
  ghost predicate Observed(ledger: Ledger) {
    forall id :: id in ledger ==>
      var c := ledger[id]; c == Observe(c.triple, c.negated, c.category, c.role, c.confidence, c.autoKind)
  }

  /** Every claim's normalized form is that of its own triple. */
  ghost predicate Normed(claims: seq<Claim>) {
    forall i :: 0 <= i < |claims| ==> claims[i].norm == NormOf(claims[i].triple)
  }

  ghost predicate Kept(db: Db) {
    Normed(db.claims) && A.LogMatches(db.approvals)
  }

  ghost predicate AllKept(trace: seq<Db>) {
    forall k :: 0 <= k < |trace| ==> Kept(trace[k])
  }

  lemma LastIsKept(db: Db, trace: seq<Db>)
    requires Kept(db) && AllKept(trace)
    ensures Kept(Last(db, trace))
  {
  }

  lemma MoveKeepsNorms(claims: seq<Claim>, id: ClaimId, status: Status, now: Time)
    requires Normed(claims)
    ensures Normed(Move(claims, id, status, now))
  {
    hide NormOf;
  }

  lemma ApplyKeeps(db: Db, c: Candidate, row: J.Entry, now: Time)
    requires Kept(db) && c.norm == NormOf(c.triple)
    ensures AllKept(Apply(db, c, row, now).trace)
  {
    hide NormOf, Contested, Move, A.LogMatches;
    match FindByTriple(db.claims, c.norm.key, c.negated)
    case Some(i) =>
      var grown := Reinforced(db.claims, i, row.candidateId, c.role, now);
      assert Normed(grown);
      MoveKeepsNorms(grown, i, Active, now);
    case None =>
      var claim := NewClaim(c, row.candidateId, row, now);
      CreateKeeps(db, claim, now);
      match Contested(db.claims, c)
      case None =>
      case Some(i) =>
        var verdict := if db.claims[i].status == Proposed then Retired else Contradicted;
        var settled := db.(claims := Move(db.claims, i, verdict, now));
        MoveKeepsNorms(db.claims, i, verdict, now);
        CreateKeeps(settled, claim, now);
  }

  lemma CreateKeeps(db: Db, claim: Claim, now: Time)
    requires Kept(db) && claim.norm == NormOf(claim.triple)
    ensures AllKept(CreateActive(db, claim, now))
  {
    hide NormOf, Move, A.LogMatches;
    MoveKeepsNorms(db.claims + [claim], |db.claims|, Active, now);
  }

  lemma PromoteKeeps(db: Db, c: Candidate, id: J.EntryId, now: Time)
    requires Kept(db) && c.norm == NormOf(c.triple) && id < |db.journal| && !J.Terminal(db.journal[id].state)
    ensures AllKept(Promote(db, c, id, now).trace)
  {
    hide NormOf, Apply, Normed, A.LogMatches;
    var claimed := Journal(db, id, J.Promoting, J.BARE);
    ApplyKeeps(claimed, c, db.journal[id], now);
    LastIsKept(claimed, Apply(claimed, c, db.journal[id], now).trace);
  }

  lemma ExecuteKeeps(db: Db, ledger: Ledger, id: J.EntryId, now: Time)
    requires Kept(db) && Observed(ledger)
    ensures AllKept(Execute(db, ledger, id, now).trace)
  {
    hide NormOf, Promote, Normed, A.LogMatches;
    if id < |db.journal| && !J.Terminal(db.journal[id].state) {
      var row := db.journal[id];
      if row.candidateId in ledger {
        if row.approvalId.None? {
          PromoteKeeps(db, ledger[row.candidateId], id, now);
        } else {
          var a := row.approvalId.value;
          A.ResolveKeepsLog(db.approvals, a, A.Expired, now);
          PromoteKeeps(db.(approvals := A.ExpireIfLapsed(db.approvals, a, now)), ledger[row.candidateId], id, now);
        }
      }
    }
  }

  lemma {:induction false} RestartKeeps(db: Db, ids: seq<J.EntryId>)
    requires Kept(db)
    ensures AllKept(RestartTrace(db, ids))
    decreases ids
  {
    hide Normed, A.LogMatches;
    if ids != [] {
      RestartKeeps(Journal(db, ids[0], J.Queued, J.Update(None, None, Some(J.RecoveryReplay))), ids[1..]);
    }
  }

  lemma {:induction false} SweepKeeps(db: Db, ledger: Ledger, ids: seq<J.EntryId>, now: Time)
    requires Kept(db) && Observed(ledger)
    ensures AllKept(SweepTrace(db, ledger, ids, now))
    decreases ids
  {
    hide Execute, Kept, Observed;
    if ids != [] {
      var first := Execute(db, ledger, ids[0], now).trace;
      ExecuteKeeps(db, ledger, ids[0], now);
      LastIsKept(db, first);
      SweepKeeps(Last(db, first), ledger, ids[1..], now);
    }
  }

  lemma ProposeKeeps(db: Db, ledger: Ledger, id: CandidateId, auto: bool, expiresAt: Option<Time>, now: Time)
    requires Kept(db) && Observed(ledger) && id in ledger
    ensures AllKept(ProposeTrace(db, ledger, id, auto, expiresAt, now))
  {
    hide Execute, Observed, Normed, A.LogMatches, DeriveIntent;
    A.CreateKeepsLog(db.approvals, expiresAt);
    if J.FindCandidate(db.journal, id).None? {
      var (rows, entry) := J.RecordProposal(
        db.journal, J.Entry(id, DeriveIntent(db.claims, ledger[id]), J.Queued, None, None, J.Automatically));
      ExecuteKeeps(db.(journal := rows), ledger, entry, now);
    }
  }

  lemma EventKeeps(db: Db, ledger: Ledger, e: Event)
    requires Kept(db) && Observed(ledger)
    ensures AllKept(EventTrace(db, ledger, e))
  {
    hide ProposeTrace, Execute, SweepTrace, RestartTrace, Observed, A.LogMatches, NormOf;
    match e
    case Proposes(id, auto, expiresAt, now) =>
      if id in ledger {
        ProposeKeeps(db, ledger, id, auto, expiresAt, now);
      }
    case Executes(entry, now) => ExecuteKeeps(db, ledger, entry, now);
    case Sweeps(now) => SweepKeeps(db, ledger, J.ListByState(db.journal, J.Queued, J.Promoting), now);
    case Restarts => RestartKeeps(db, J.ListByState(db.journal, J.Promoting, J.Promoting));
    case Decides(approval, verdict, now) =>
      if verdict != A.Pending {
        A.ResolveKeepsLog(db.approvals, approval, verdict, now);
      }
    case Reads(approval, now) => A.ResolveKeepsLog(db.approvals, approval, A.Expired, now);
    case Writes(claim, write, now) =>
  }

  lemma {:induction false} RunKeeps(db: Db, ledger: Ledger, steps: seq<Step>)
    requires Kept(db) && Observed(ledger)
    ensures Kept(RunSteps(db, ledger, steps))
    decreases steps
  {
    hide EventTrace, Kept, Observed;
    if steps != [] {
      var trace := EventTrace(db, ledger, steps[0].event);
      EventKeeps(db, ledger, steps[0].event);
      LastIsKept(db, if steps[0].writes < |trace| then trace[..steps[0].writes] else trace);
      RunKeeps(TakeStep(db, ledger, steps[0]), ledger, steps[1..]);
    }
  }

  /**
   * In every reachable database of an observed ledger no two claims say the same thing with the same marker, so that
   * revision is sound there, and every approval has its creation and its decision logged exactly once.
   */
  lemma ReachableSaysOnce(ledger: Ledger, steps: seq<Step>)
    requires Observed(ledger)
    ensures var db := RunSteps(EMPTY, ledger, steps);
            H.SaysOnce(db.claims) && A.LogMatches(db.approvals)
  {
    hide RunSteps, Inv, A.LogMatches, NormOf, Observed;
    var db := RunSteps(EMPTY, ledger, steps);
    EmptyIsKept(ledger);
    RunKeeps(EMPTY, ledger, steps);
    RunKeepsInv(EMPTY, ledger, steps);
    InvKeys(db, ledger);
    forall i, j | 0 <= i < |db.claims| && 0 <= j < |db.claims| && H.Same(db.claims[i], db.claims[j])
      ensures db.claims[i].norm.key == db.claims[j].norm.key
    {
      KeyOfFields(db.claims[i].triple);
      KeyOfFields(db.claims[j].triple);
    }
    H.KeysSayOnce(db.claims);
  }

  lemma KeyOfFields(t: Triple)
    ensures NormOf(t).key == JoinKey(NormOf(t).subj, NormOf(t).pred, NormOf(t).obj)
  {
    hide NormalizeTripleField;
  }

  lemma InvKeys(db: Db, ledger: Ledger)
    requires Inv(db, ledger)
    ensures UniqueKeys(db.claims)
  {
  }

  lemma EmptyIsKept(ledger: Ledger)
    ensures Kept(EMPTY) && Inv(EMPTY, ledger)
  {
  }
}
