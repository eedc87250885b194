/** The `promotion_journal` table: one row per candidate, guarded by a transition table. */
module PromotionJournal {
  import opened Wrappers
  import opened ClaimStore
  import A = Approvals

  type EntryId = nat

  datatype Operation = New | Reinforce | Contradict
  datatype State = Queued | Promoting | Committed | Denied | Failed
  datatype Reason = MissingCandidate | MissingApproval | UnknownOrigin

  /** The free-text detail column, one constructor per text the program writes. */
  datatype Detail =
    | NoDetail | Automatically | Intent(operation: Operation) | RecoveryReplay
    | Rederived(from: Operation, to: Operation) | Contradicts(loser: ClaimId)
    | ApprovalWas(status: A.Status) | Because(reason: Reason)

  datatype Entry = Entry(
    candidateId: CandidateId, operation: Operation, state: State,
    approvalId: Option<nat>, claimId: Option<ClaimId>, detail: Detail)

  /** What a state change may carry; None leaves the column alone. */
  datatype Update = Update(operation: Option<Operation>, claimId: Option<ClaimId>, detail: Option<Detail>)

  const BARE := Update(None, None, None)

  predicate Terminal(s: State) {
    s == Committed || s == Denied || s == Failed
  }

  predicate MayMove(from: State, to: State) {
    match from
    case Queued => to != Queued
    case Promoting => to != Promoting
    case _ => false
  }

  function Or<T>(given: Option<T>, current: T): T {
    if given.Some? then given.value else current
  }

  /** The earliest row of a candidate. */
  function FindCandidate(rows: seq<Entry>, candidateId: CandidateId): (found: Option<EntryId>)
    ensures found.Some? ==> found.value < |rows| && rows[found.value].candidateId == candidateId
    ensures found.None? ==> forall i :: 0 <= i < |rows| ==> rows[i].candidateId != candidateId
  {
    if rows == [] then None
    else
      var n := |rows| - 1;
      match FindCandidate(rows[..n], candidateId)
      case Some(i) => Some(i)
      case None => if rows[n].candidateId == candidateId then Some(n) else None
  }

  function RecordProposal(rows: seq<Entry>, entry: Entry): (seq<Entry>, EntryId) {
    match FindCandidate(rows, entry.candidateId)
    case Some(i) => (rows, i)
    case None => (rows + [entry.(state := Queued, claimId := None)], |rows|)
  }

  function SetState(rows: seq<Entry>, id: EntryId, state: State, u: Update): Option<seq<Entry>> {
    if id >= |rows| then None
    else
      var row := rows[id];
      if row.state == state && u.operation.None? && u.claimId.None? then Some(rows)
      else if Terminal(row.state) || !MayMove(row.state, state) then None
      else
        Some(rows[id := row.(state := state, operation := Or(u.operation, row.operation),
                             claimId := if u.claimId.Some? then u.claimId else row.claimId,
                             detail := Or(u.detail, row.detail))])
  }

  /** The ids in one of two states, oldest first. */
  function ListByState(rows: seq<Entry>, a: State, b: State): (ids: seq<EntryId>)
    ensures forall k :: 0 <= k < |ids| ==> ids[k] < |rows| && rows[ids[k]].state in {a, b}
    ensures forall i :: 0 <= i < |rows| && rows[i].state in {a, b} ==> i in ids
    ensures forall j, k :: 0 <= j < k < |ids| ==> ids[j] < ids[k]
  {
    if rows == [] then []
    else
      var n := |rows| - 1;
      var older := ListByState(rows[..n], a, b);
      if rows[n].state in {a, b} then older + [n] else older
  }

  class JournalRepository {
    var rows: seq<Entry>

    constructor ()
      ensures rows == []
    {
      rows := [];
    }

    method Record(entry: Entry) returns (id: EntryId)
      modifies this
      ensures (rows, id) == RecordProposal(old(rows), entry)
      ensures id < |rows| && rows[id].candidateId == entry.candidateId
    {
      match FindCandidate(rows, entry.candidateId)
      case Some(i) =>
        return i;
      case None =>
        rows := rows + [entry.(state := Queued, claimId := None)];
        return |rows| - 1;
    }

    method MoveTo(id: EntryId, state: State, u: Update) returns (updated: Option<Entry>)
      modifies this
      ensures match SetState(old(rows), id, state, u)
              case None => rows == old(rows) && updated == None
              case Some(rows') => rows == rows' && id < |rows| && updated == Some(rows[id])
    {
      if id >= |rows| {
        return None;
      }
      var current := rows[id];
      if current.state == state && u.operation.None? && u.claimId.None? {
        return Some(current);
      }
      if Terminal(current.state) || !MayMove(current.state, state) {
        return None;
      }
      rows := rows[id := current.(state := state, operation := Or(u.operation, current.operation),
                                  claimId := if u.claimId.Some? then u.claimId else current.claimId,
                                  detail := Or(u.detail, current.detail))];
      return Some(rows[id]);
    }
  }

  /** A terminal row never changes again, whatever is asked of the journal. */
  lemma TerminalIsFinal(rows: seq<Entry>, id: EntryId, target: EntryId, state: State, u: Update)
    requires id < |rows| && Terminal(rows[id].state)
    ensures match SetState(rows, target, state, u)
            case None => true
            case Some(rows') => |rows'| == |rows| && rows'[id] == rows[id]
  {
    if target == id {
      assert !MayMove(rows[id].state, state);
    }
  }
}
