/**
 * Candidates become beliefs. Every store write is one atomic step; a crash may fall between any
 * two, so execution is described by the list of databases it leaves on disk, one per write.
 */
module Promotion {
  import opened Wrappers
  import opened ClaimIdentity
  import opened C = ClaimStore
  import J = PromotionJournal
  import A = Approvals

  const REINFORCE_STEP: real := 0.05
  const CONFIDENCE_CAP: real := 0.99

  /** A row of the evidence ledger: an observation, never rewritten. */
  datatype Candidate = Candidate(
    triple: Triple, norm: Norm, negated: bool, category: Category, role: Role, confidence: real, autoKind: bool)

  /** A ledger row as the extractor leaves it, with the normalized form its lookups will use. */
  function Observe(triple: Triple, negated: bool, category: Category, role: Role, confidence: real,
                   autoKind: bool): Candidate {
    Candidate(triple, NormOf(triple), negated, category, role, confidence, autoKind)
  }

  type Ledger = map<CandidateId, Candidate>

  datatype Db = Db(claims: seq<Claim>, journal: seq<J.Entry>, approvals: A.Table)

  datatype Outcome = WasNew | WasReinforced | WasContradicted | WasDenied | WasFailed | WasSkipped

  /** The databases on disk after each write, oldest first, and what the caller is told. */
  datatype Run = Run(trace: seq<Db>, outcome: Outcome)

  datatype Applied = Applied(trace: seq<Db>, operation: J.Operation, claim: ClaimId, note: Option<J.Detail>)

  function Last(db: Db, trace: seq<Db>): Db {
    if trace == [] then db else trace[|trace| - 1]
  }

  function Capped(x: real): real {
    if x < CONFIDENCE_CAP then x else CONFIDENCE_CAP
  }

  // ---------- Deriving what a promotion means for the current claims ----------

  function Contestable(claims: seq<Claim>, c: Candidate): seq<ClaimId> {
    var s, p := c.norm.subj, c.norm.pred;
    Select(claims, (x: Claim) => x.About(s, p) && x.Live())
  }

  function FirstActive(claims: seq<Claim>, ids: seq<ClaimId>): (found: Option<ClaimId>)
    requires forall k :: 0 <= k < |ids| ==> ids[k] < |claims|
    ensures found.Some? ==> found.value in ids && found.value < |claims| && claims[found.value].status == Active
    ensures found.None? ==> forall k :: 0 <= k < |ids| ==> claims[ids[k]].status != Active
  {
    if ids == [] then None
    else if claims[ids[0]].status == Active then Some(ids[0])
    else FirstActive(claims, ids[1..])
  }

  /** The live claim with the same triple text and the opposite marker, an active one first. */
  function NegatedRival(claims: seq<Claim>, c: Candidate): (found: Option<ClaimId>)
    ensures found.Some? ==> found.value in Contestable(claims, c)
  {
    var s, p, o := c.norm.subj, c.norm.pred, c.norm.obj;
    var matches := Select(claims, (x: Claim) =>
      x.About(s, p) && x.Live() && x.norm.obj == o && x.negated != c.negated);
    match FirstActive(claims, matches)
    case Some(i) => Some(i)
    case None => if matches == [] then None else Some(matches[0])
  }

  /** The claim a promotion without an exact match has to defeat. */
  function Contested(claims: seq<Claim>, c: Candidate): (found: Option<ClaimId>)
    ensures found.Some? ==> found.value in Contestable(claims, c)
    ensures found.None? ==> Contestable(claims, c) == []
  {
    var conflicts := Contestable(claims, c);
    match NegatedRival(claims, c)
    case Some(i) => Some(i)
    case None => if conflicts == [] then None else Some(conflicts[0])
  }

  function DeriveIntent(claims: seq<Claim>, c: Candidate): J.Operation {
    if FindByTriple(claims, c.norm.key, c.negated).Some? then J.Reinforce
    else if NegatedRival(claims, c).Some? then J.Contradict
    else if Contestable(claims, c) != [] then J.Contradict
    else J.New
  }

  // ---------- Applying one candidate ----------

  function Authorization(row: J.Entry): Authority {
    if row.approvalId.Some? then ApprovedBy(row.approvalId.value) else Automatic
  }

  function NewClaim(c: Candidate, id: CandidateId, row: J.Entry, now: Time): Claim {
    Claim(c.triple, c.norm, c.negated,
          c.category, Proposed, c.confidence, c.confidence, id, id,
          if c.role == UserRole then UserOrigin else AgentOrigin,
          [Evidence(id, c.role)], Authorization(row), 1,
          [], false, None, None, None, now, now)
  }

  function Note(row: J.Entry, operation: J.Operation): Option<J.Detail> {
    if row.operation != operation then Some(J.Rederived(row.operation, operation)) else None
  }

  /** Bring a claim to a status; a forbidden step leaves the table alone. */
  function Move(claims: seq<Claim>, id: ClaimId, status: Status, now: Time): (claims': seq<Claim>)
    ensures |claims'| == |claims|
  {
    Or(SetStatus(claims, id, status, now), claims)
  }

  function Or<T>(given: Option<T>, otherwise: T): T {
    if given.Some? then given.value else otherwise
  }

  function Reinforced(claims: seq<Claim>, i: ClaimId, id: CandidateId, role: Role, now: Time): seq<Claim>
    requires i < |claims|
  {
    Or(AppendEvidence(claims, i, [Evidence(id, role)], Capped(claims[i].confidence + REINFORCE_STEP), now), claims)
  }

  /** The two writes that add a belief: insert as proposed, then activate. */
  function CreateActive(db: Db, claim: Claim, now: Time): seq<Db> {
    var created := db.claims + [claim];
    [db.(claims := created), db.(claims := Move(created, |db.claims|, Active, now))]
  }

  /** Re-derived against the current claims; the journalled intent is only advisory. */
  function Apply(db: Db, c: Candidate, row: J.Entry, now: Time): (r: Applied)
    ensures |r.trace| > 0
  {
    match FindByTriple(db.claims, c.norm.key, c.negated)
    case Some(i) =>
      var grown := Reinforced(db.claims, i, row.candidateId, c.role, now);
      var trace :=
        if db.claims[i].status == Proposed
        then [db.(claims := grown), db.(claims := Move(grown, i, Active, now))]
        else [db.(claims := grown)];
      Applied(trace, J.Reinforce, i, Note(row, J.Reinforce))
    case None =>
      var claim := NewClaim(c, row.candidateId, row, now);
      match Contested(db.claims, c)
      case Some(i) =>
        var verdict := if db.claims[i].status == Proposed then Retired else Contradicted;
        var settled := db.(claims := Move(db.claims, i, verdict, now));
        Applied([settled] + CreateActive(settled, claim, now), J.Contradict, |db.claims|, Some(J.Contradicts(i)))
      case None =>
        Applied(CreateActive(db, claim, now), J.New, |db.claims|, Note(row, J.New))
  }

  // ---------- Executing one journal row ----------

  function Journal(db: Db, id: J.EntryId, state: J.State, u: J.Update): Db {
    db.(journal := Or(J.SetState(db.journal, id, state, u), db.journal))
  }

  function Mark(db: Db, id: J.EntryId, state: J.State, detail: J.Detail): Db {
    Journal(db, id, state, J.Update(None, None, Some(detail)))
  }

  function OutcomeOf(operation: J.Operation): Outcome {
    match operation
    case New => WasNew
    case Reinforce => WasReinforced
    case Contradict => WasContradicted
  }

  /** The part of the execution after the approval has been checked. */
  function Promote(db: Db, c: Candidate, id: J.EntryId, now: Time): Run
    requires id < |db.journal| && !J.Terminal(db.journal[id].state)
  {
    var row := db.journal[id];
    if c.role == UnknownRole then
      Run([Mark(db, id, J.Failed, J.Because(J.UnknownOrigin))], WasFailed)
    else
      var claimed := Journal(db, id, J.Promoting, J.BARE);
      var first := if row.state == J.Queued then [claimed] else [];
      var a := Apply(claimed, c, row, now);
      var committed := Journal(Last(claimed, a.trace), id, J.Committed,
                               J.Update(Some(a.operation), Some(a.claim), a.note));
      Run(first + a.trace + [committed], OutcomeOf(a.operation))
  }

  function Execute(db: Db, ledger: Ledger, id: J.EntryId, now: Time): Run {
    if id >= |db.journal| || J.Terminal(db.journal[id].state) then Run([], WasSkipped)
    else
      var row := db.journal[id];
      if row.candidateId !in ledger then
        Run([Mark(db, id, J.Failed, J.Because(J.MissingCandidate))], WasFailed)
      else if row.approvalId.None? then
        Promote(db, ledger[row.candidateId], id, now)
      else
        var a := row.approvalId.value;
        if a >= |db.approvals.rows| then
          Run([Mark(db, id, J.Failed, J.Because(J.MissingApproval))], WasFailed)
        else
          var read := db.(approvals := A.ExpireIfLapsed(db.approvals, a, now));
          var first := if A.Lapsed(db.approvals.rows[a], now) then [read] else [];
          match read.approvals.rows[a].status
          case Pending => Run(first, WasSkipped)
          case Approved =>
            var rest := Promote(read, ledger[row.candidateId], id, now);
            Run(first + rest.trace, rest.outcome)
          case other => Run(first + [Mark(read, id, J.Denied, J.ApprovalWas(other))], WasDenied)
  }

  function After(db: Db, ledger: Ledger, id: J.EntryId, now: Time): Db {
    Last(db, Execute(db, ledger, id, now).trace)
  }

  // ---------- Restart, sweep, proposal ----------

  /** Requeues rows stranded in `promoting`, one write each. */
  function RestartTrace(db: Db, ids: seq<J.EntryId>): seq<Db>
    decreases ids
  {
    if ids == [] then []
    else
      var db' := Journal(db, ids[0], J.Queued, J.Update(None, None, Some(J.RecoveryReplay)));
      [db'] + RestartTrace(db', ids[1..])
  }

  function Restart(db: Db): Db {
    Last(db, RestartTrace(db, J.ListByState(db.journal, J.Promoting, J.Promoting)))
  }

  function SweepTrace(db: Db, ledger: Ledger, ids: seq<J.EntryId>, now: Time): seq<Db>
    decreases ids
  {
    if ids == [] then []
    else
      var first := Execute(db, ledger, ids[0], now).trace;
      first + SweepTrace(Last(db, first), ledger, ids[1..], now)
  }

  /** What a sweep reports: the outcome of every row in the list, counted. */
  function SweepOutcomes(db: Db, ledger: Ledger, ids: seq<J.EntryId>, now: Time): multiset<Outcome>
    decreases ids
  {
    if ids == [] then multiset{}
    else
      var run := Execute(db, ledger, ids[0], now);
      multiset{run.outcome} + SweepOutcomes(Last(db, run.trace), ledger, ids[1..], now)
  }

  function Sweep(db: Db, ledger: Ledger, now: Time): Db {
    Last(db, SweepTrace(db, ledger, J.ListByState(db.journal, J.Queued, J.Promoting), now))
  }

  predicate AutoEligible(auto: bool, c: Candidate, intent: J.Operation) {
    auto && intent == J.New && c.role != UnknownRole && c.autoKind
  }

  /** Records a proposal for a ledger candidate; an eligible one is executed at once. */
  function ProposeTrace(db: Db, ledger: Ledger, id: CandidateId, auto: bool, expiresAt: Option<Time>,
                        now: Time): seq<Db>
    requires id in ledger
  {
    if J.FindCandidate(db.journal, id).Some? then []
    else
      var intent := DeriveIntent(db.claims, ledger[id]);
      if AutoEligible(auto, ledger[id], intent) then
        var (rows, entry) := J.RecordProposal(db.journal, J.Entry(id, intent, J.Queued, None, None, J.Automatically));
        var recorded := db.(journal := rows);
        [recorded] + Execute(recorded, ledger, entry, now).trace
      else
        var asked := db.(approvals := A.Create(db.approvals, expiresAt));
        var detail := if intent == J.New then J.NoDetail else J.Intent(intent);
        var (rows, _) := J.RecordProposal(
          db.journal, J.Entry(id, intent, J.Queued, Some(|db.approvals.rows|), None, detail));
        [asked, asked.(journal := rows)]
  }
}
