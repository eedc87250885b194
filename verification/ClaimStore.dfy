/** The `claims` table: rows in rowid order, identified by their position. */
module ClaimStore {
  import opened Wrappers
  import opened ClaimIdentity

  type CandidateId = string
  type ClaimId = nat
  type Time = nat

  datatype Status = Proposed | Active | Contradicted | Retired
  datatype Category = Fact | Preference | Relationship | Procedure
  datatype Role = UserRole | AssistantRole | UnknownRole
  datatype Origin = UserOrigin | AgentOrigin
  datatype Evidence = Evidence(candidateId: CandidateId, role: Role)
  datatype Authority = Automatic | ApprovedBy(approvalId: nat)
  datatype SourceType = DirectStatement | Inference | Speculation

  /** A belief. `norm` is the normalized form of `triple` that the lookups use. */
  datatype Claim = Claim(
    triple: Triple, norm: Norm, negated: bool,
    category: Category, status: Status, extractorConfidence: real, confidence: real,
    firstAssertedAt: CandidateId, lastSurfacedAt: CandidateId, origin: Origin,
    evidence: seq<Evidence>, promotion: Authority, timesObserved: nat,
    related: seq<ClaimId>, locked: bool, activation: Option<real>, sourceType: Option<SourceType>,
    lastAccessedAt: Option<Time>, createdAt: Time, updatedAt: Time)
  {
    /** Still in play for its subject and predicate. */
    predicate Live() { status == Proposed || status == Active }

    predicate About(s: string, p: string) { norm.subj == s && norm.pred == p }

    predicate Is(k: string, n: bool) { norm.key == k && negated == n }
  }

  /** The lifecycle table of the repository. */
  predicate Allowed(from: Status, to: Status) {
    match from
    case Proposed => to == Active || to == Retired
    case Active => to == Contradicted || to == Retired
    case Contradicted => to == Retired
    case Retired => false
  }

  // ---------- Lookups ----------

  /** The oldest row with this identity and marker. */
  function FindByTriple(rows: seq<Claim>, key: string, negated: bool): (found: Option<ClaimId>)
    ensures found.Some? ==> found.value < |rows| && rows[found.value].Is(key, negated)
    ensures found.Some? ==> forall i :: 0 <= i < found.value ==> !rows[i].Is(key, negated)
    ensures found.None? ==> forall i :: 0 <= i < |rows| ==> !rows[i].Is(key, negated)
  {
    if rows == [] then None
    else
      var n := |rows| - 1;
      match FindByTriple(rows[..n], key, negated)
      case Some(i) => Some(i)
      case None => if rows[n].Is(key, negated) then Some(n) else None
  }

  /** Every row the condition keeps, newest first. */
  function Select(rows: seq<Claim>, keep: Claim -> bool): (ids: seq<ClaimId>)
    ensures forall k :: 0 <= k < |ids| ==> ids[k] < |rows| && keep(rows[ids[k]])
    ensures forall i :: 0 <= i < |rows| && keep(rows[i]) ==> i in ids
    ensures forall j, k :: 0 <= j < k < |ids| ==> ids[j] > ids[k]
  {
    if rows == [] then []
    else
      var n := |rows| - 1;
      var older := Select(rows[..n], keep);
      if keep(rows[n]) then [n] + older else older
  }

  // ---------- Writes ----------

  function CreateClaim(rows: seq<Claim>, claim: Claim): (r: Result<seq<Claim>, ClaimId>)
    ensures r.Ok? <==> forall i :: 0 <= i < |rows| ==> !rows[i].Is(claim.norm.key, claim.negated)
  {
    match FindByTriple(rows, claim.norm.key, claim.negated)
    case Some(existing) => Fail(existing)
    case None => Ok(rows + [claim])
  }

  /** Appends the evidence items whose candidate is not there yet, in order. */
  function MergeEvidence(current: seq<Evidence>, more: seq<Evidence>): seq<Evidence> {
    current + Unseen(current, more)
  }

  function Unseen(current: seq<Evidence>, more: seq<Evidence>): seq<Evidence> {
    if more == [] then []
    else
      var rest := Unseen(current, more[1..]);
      if Supports(current, more[0].candidateId) then rest else [more[0]] + rest
  }

  predicate Supports(evidence: seq<Evidence>, id: CandidateId) {
    exists k :: 0 <= k < |evidence| && evidence[k].candidateId == id
  }

  function AppendEvidence(rows: seq<Claim>, id: ClaimId, evidence: seq<Evidence>, confidence: real, now: Time)
    : Option<seq<Claim>>
  {
    if id >= |rows| then None
    else
      var c := rows[id];
      Some(rows[id := c.(evidence := MergeEvidence(c.evidence, evidence),
                         lastSurfacedAt :=
                             if evidence == [] then c.lastSurfacedAt else evidence[|evidence| - 1].candidateId,
                         confidence := confidence, timesObserved := c.timesObserved + 1, updatedAt := now)])
  }

  /** None when the row is missing or the lifecycle table forbids the step; the same status is a no-op. */
  function SetStatus(rows: seq<Claim>, id: ClaimId, status: Status, now: Time): Option<seq<Claim>> {
    if id >= |rows| then None
    else if rows[id].status == status then Some(rows)
    else if !Allowed(rows[id].status, status) then None
    else Some(rows[id := rows[id].(status := status, updatedAt := now)])
  }

  /** Grows the list by the ids that are neither the claim itself nor already linked. */
  function MergeRelated(id: ClaimId, related: seq<ClaimId>, more: seq<ClaimId>): (merged: seq<ClaimId>)
    ensures related <= merged
    ensures forall r <- more :: r != id ==> r in merged
    ensures forall r <- merged :: r in related || (r in more && r != id)
    decreases more
  {
    if more == [] then related
    else
      var related' := if more[0] == id || more[0] in related then related else related + [more[0]];
      var merged := MergeRelated(id, related', more[1..]);
      assert forall r <- related' :: r in merged;
      assert forall r <- more :: r == more[0] || r in more[1..];
      merged
  }

  function AddRelated(rows: seq<Claim>, id: ClaimId, more: seq<ClaimId>, now: Time): Option<seq<Claim>> {
    if id >= |rows| then None
    else
      var merged := MergeRelated(id, rows[id].related, more);
      if |merged| == |rows[id].related| then Some(rows)
      else Some(rows[id := rows[id].(related := merged, updatedAt := now)])
  }

  // ---------- The repository ----------

  class ClaimRepository {
    var rows: seq<Claim>

    constructor ()
      ensures rows == []
    {
      rows := [];
    }

    method Create(claim: Claim) returns (r: Result<ClaimId, ClaimId>)
      modifies this
      ensures r.Ok? <==> forall i :: 0 <= i < |old(rows)| ==> !old(rows)[i].Is(claim.norm.key, claim.negated)
      ensures r.Ok? ==> r.value == |old(rows)| && rows == old(rows) + [claim]
      ensures r.Fail? ==> rows == old(rows) && r.error < |rows| && rows[r.error].Is(claim.norm.key, claim.negated)
    {
      match FindByTriple(rows, claim.norm.key, claim.negated)
      case Some(existing) =>
        return Fail(existing);
      case None =>
        rows := rows + [claim];
        return Ok(|rows| - 1);
    }

    method Append(id: ClaimId, evidence: seq<Evidence>, confidence: real, now: Time) returns (updated: Option<Claim>)
      modifies this
      ensures match AppendEvidence(old(rows), id, evidence, confidence, now)
              case None => rows == old(rows) && updated == None
              case Some(rows') => rows == rows' && id < |rows| && updated == Some(rows[id])
    {
      match AppendEvidence(rows, id, evidence, confidence, now)
      case None =>
        return None;
      case Some(rows') =>
        rows := rows';
        return Some(rows[id]);
    }

    method MoveTo(id: ClaimId, status: Status, now: Time) returns (updated: Option<Claim>)
      modifies this
      ensures match SetStatus(old(rows), id, status, now)
              case None => rows == old(rows) && updated == None
              case Some(rows') => rows == rows' && id < |rows| && updated == Some(rows[id])
    {
      if id >= |rows| {
        return None;
      }
      var current := rows[id];
      if current.status == status {
        return Some(current);
      }
      if !Allowed(current.status, status) {
        return None;
      }
      rows := rows[id := current.(status := status, updatedAt := now)];
      return Some(rows[id]);
    }

    method Relate(id: ClaimId, more: seq<ClaimId>, now: Time) returns (updated: Option<Claim>)
      modifies this
      ensures match AddRelated(old(rows), id, more, now)
              case None => rows == old(rows) && updated == None
              case Some(rows') => rows == rows' && id < |rows| && updated == Some(rows[id])
    {
      if id >= |rows| {
        return None;
      }
      var current := rows[id];
      var merged := current.related;
      for k := 0 to |more|
        invariant MergeRelated(id, merged, more[k..]) == MergeRelated(id, current.related, more)
      {
        assert more[k..][1..] == more[k + 1..];
        if more[k] != id && more[k] !in merged {
          merged := merged + [more[k]];
        }
      }
      if |merged| == |current.related| {
        return Some(current);
      }
      rows := rows[id := current.(related := merged, updatedAt := now)];
      return Some(rows[id]);
    }

    /** The single-field writers of the maintenance pass. */
    method Adjust(id: ClaimId, claim: Claim, now: Time) returns (updated: Option<Claim>)
      requires id < |rows| ==>
                 claim == rows[id].(confidence := claim.confidence, locked := claim.locked,
                                    activation := claim.activation, sourceType := claim.sourceType)
      modifies this
      ensures id < |old(rows)| ==> rows == old(rows)[id := claim.(updatedAt := now)] && updated == Some(rows[id])
      ensures id >= |old(rows)| ==> rows == old(rows) && updated == None
    {
      if id >= |rows| {
        return None;
      }
      rows := rows[id := claim.(updatedAt := now)];
      return Some(rows[id]);
    }
  }
}
