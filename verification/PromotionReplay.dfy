/** Crash, restart, re-execute: the row ends where the uninterrupted execution would have put it. */
module PromotionReplay {
  import opened Wrappers
  import opened C = ClaimStore
  import opened Promotion
  import opened PromotionInvariant
  import opened PromotionRuns
  import J = PromotionJournal
  import A = Approvals

  /** A claim without what a replay may count twice or stamp later. */
  function Belief(c: Claim): Claim {
    c.(confidence := 0.0, timesObserved := 0, createdAt := 0, updatedAt := 0)
  }

  ghost predicate SameBeliefs(a: seq<Claim>, b: seq<Claim>) {
    |a| == |b| && forall i :: 0 <= i < |a| ==> Belief(a[i]) == Belief(b[i])
  }

  /** Journals agree on every row but `id`, and on everything but operation and notes there. */
  ghost predicate SameJournal(a: seq<J.Entry>, b: seq<J.Entry>, id: J.EntryId) {
    && |a| == |b|
    && (forall r :: 0 <= r < |a| && r != id ==> a[r] == b[r])
    && (id < |a| ==> a[id] == b[id].(operation := a[id].operation, detail := a[id].detail))
  }

  // ---------- What restart does ----------

  function Requeued(row: J.Entry): J.Entry {
    if row.state == J.Promoting then row.(state := J.Queued, detail := J.RecoveryReplay) else row
  }

  lemma {:induction false} RestartTraceEffect(db: Db, ids: seq<J.EntryId>)
    requires forall k :: 0 <= k < |ids| ==> ids[k] < |db.journal| && db.journal[ids[k]].state == J.Promoting
    requires forall j, k :: 0 <= j < k < |ids| ==> ids[j] < ids[k]
    ensures var db' := Last(db, RestartTrace(db, ids));
            && db' == db.(journal := db'.journal) && |db'.journal| == |db.journal|
            && forall r :: 0 <= r < |db.journal| ==>
                             db'.journal[r] == if r in ids then Requeued(db.journal[r]) else db.journal[r]
    decreases ids
  {
    if ids != [] {
      var db1 := Journal(db, ids[0], J.Queued, J.Update(None, None, Some(J.RecoveryReplay)));
      assert db1.journal == db.journal[ids[0] := Requeued(db.journal[ids[0]])];
      RestartTraceEffect(db1, ids[1..]);
      assert ids == [ids[0]] + ids[1..];
      assert Last(db, RestartTrace(db, ids)) == Last(db1, RestartTrace(db1, ids[1..]));
    }
  }

  /** Restart requeues exactly the stranded rows and touches nothing else. */
  lemma RestartEffect(db: Db)
    ensures Restart(db) == db.(journal := Restart(db).journal) && |Restart(db).journal| == |db.journal|
    ensures forall r :: 0 <= r < |db.journal| ==> Restart(db).journal[r] == Requeued(db.journal[r])
  {
    RestartTraceEffect(db, J.ListByState(db.journal, J.Promoting, J.Promoting));
  }

  // ---------- Re-applying over a half-applied table ----------

  lemma {:induction false} SameFind(claims: seq<Claim>, claims': seq<Claim>, key: string, negated: bool)
    requires |claims| == |claims'|
    requires forall i :: 0 <= i < |claims| ==>
               claims'[i].norm.key == claims[i].norm.key && claims'[i].negated == claims[i].negated
    ensures FindByTriple(claims', key, negated) == FindByTriple(claims, key, negated)
  {
    if claims != [] {
      SameFind(claims[..|claims| - 1], claims'[..|claims| - 1], key, negated);
    }
  }

  /** Rows that agree on the candidate and the approval lead to the same claims. */
  ghost predicate SameAuthority(row: J.Entry, row': J.Entry) {
    row.candidateId == row'.candidateId && row.approvalId == row'.approvalId
  }

  lemma FindsNew(claims: seq<Claim>, claim: Claim)
    requires FindByTriple(claims, claim.norm.key, claim.negated).None?
    ensures FindByTriple(claims + [claim], claim.norm.key, claim.negated) == Some(|claims|)
  {
    assert (claims + [claim])[..|claims|] == claims;
  }

  lemma ActivatesNew(claims: seq<Claim>, claim: Claim, now: Time)
    requires claim.status == Proposed
    ensures Move(claims + [claim], |claims|, Active, now) == claims + [claim.(status := Active, updatedAt := now)]
  {
    var created := claims + [claim];
    assert created[|claims|] == claim;
    assert SetStatus(created, |claims|, Active, now) ==
           Some(created[|claims| := claim.(status := Active, updatedAt := now)]);
  }

  lemma FreshTable(claims: seq<Claim>, c: Candidate, id: CandidateId, row: J.Entry, now: Time)
    requires FindByTriple(claims, c.norm.key, c.negated).None?
    ensures var claim := NewClaim(c, id, row, now);
            && FindByTriple(claims + [claim], c.norm.key, c.negated) == Some(|claims|)
            && Once(claim) && Carries(claim, id)
            && Move(claims + [claim], |claims|, Active, now) == claims + [claim.(status := Active)]
  {
    var claim := NewClaim(c, id, row, now);
    assert claim.evidence[0].candidateId == id;
    FindsNew(claims, claim);
    ActivatesNew(claims, claim, now);
  }

  /** The table with nothing in the way of the candidate: applying it adds one active belief. */
  lemma ApplyUncontested(db: Db, ledger: Ledger, row: J.Entry, now: Time)
    requires row.candidateId in ledger
    requires FindByTriple(db.claims, ledger[row.candidateId].norm.key, ledger[row.candidateId].negated).None?
    requires forall i :: 0 <= i < |db.claims| && db.claims[i].Live() ==>
                           !db.claims[i].About(ledger[row.candidateId].norm.subj, ledger[row.candidateId].norm.pred)
    ensures var c := ledger[row.candidateId];
            var a := Apply(db, c, row, now);
            a.trace == CreateActive(db, NewClaim(c, row.candidateId, row, now), now) && a.claim == |db.claims|
  {
    var c := ledger[row.candidateId];
    match Contested(db.claims, c)
    case Some(i) =>
      ContestedIsThere(db.claims, c, i);
      assert false;
    case None =>
  }

  lemma SameNewClaims(a: Db, b: Db, c: Candidate, row: J.Entry, row': J.Entry, now: Time, later: Time)
    requires a.claims == b.claims && SameAuthority(row, row')
    requires FindByTriple(a.claims, c.norm.key, c.negated).None?
    ensures SameBeliefs(CreateActive(b, NewClaim(c, row'.candidateId, row', later), later)[1].claims,
                        CreateActive(a, NewClaim(c, row.candidateId, row, now), now)[1].claims)
  {
    FreshTable(a.claims, c, row.candidateId, row, now);
    FreshTable(b.claims, c, row'.candidateId, row', later);
  }

  /** Where applying the candidate ends, when re-applied over any of its own intermediate tables. */
  ghost predicate Converges(db: Db, crashed: Db, c: Candidate, row: J.Entry, row': J.Entry, now: Time, later: Time) {
    var a := Apply(db, c, row, now);
    var b := Apply(crashed, c, row', later);
    && a.claim == b.claim
    && SameBeliefs(Last(crashed, b.trace).claims, Last(db, a.trace).claims)
    && Last(crashed, b.trace) == crashed.(claims := Last(crashed, b.trace).claims)
    && Last(db, a.trace) == db.(claims := Last(db, a.trace).claims)
  }

  /** A claim as a reinforcement leaves it, before the activation a proposed one still needs. */
  function Supported(c: Claim, id: CandidateId, role: Role, now: Time): Claim {
    c.(evidence := MergeEvidence(c.evidence, [Evidence(id, role)]), lastSurfacedAt := id,
       confidence := Capped(c.confidence + REINFORCE_STEP), timesObserved := c.timesObserved + 1, updatedAt := now)
  }

  function Activated(c: Claim, now: Time): Claim {
    if c.status == Proposed then c.(status := Active, updatedAt := now) else c
  }

  /** The tables an exact match goes through: one row changes, in one or two writes. */
  lemma ExactShape(db: Db, c: Candidate, row: J.Entry, i: ClaimId, now: Time)
    requires FindByTriple(db.claims, c.norm.key, c.negated) == Some(i)
    ensures var a := Apply(db, c, row, now);
            var g := Supported(db.claims[i], row.candidateId, c.role, now);
            && a.claim == i
            && Last(db, a.trace) == db.(claims := db.claims[i := Activated(g, now)])
            && forall k :: 0 <= k < |a.trace| ==>
                             || a.trace[k] == db.(claims := db.claims[i := g])
                             || a.trace[k] == db.(claims := db.claims[i := Activated(g, now)])
  {
    ReinforcedRow(db.claims, i, row.candidateId, c.role, now);
    var g := Supported(db.claims[i], row.candidateId, c.role, now);
    assert Reinforced(db.claims, i, row.candidateId, c.role, now) == db.claims[i := g];
    if g.status == Proposed {
      assert Move(db.claims[i := g], i, Active, now) == db.claims[i := Activated(g, now)];
    }
  }

  /** Supporting twice, with any activation in between, is the same belief as supporting once. */
  lemma SupportedTwice(c: Claim, id: CandidateId, role: Role, now: Time, later: Time, mid: Claim)
    requires Once(c)
    requires mid == Supported(c, id, role, now) || mid == Activated(Supported(c, id, role, now), now)
    ensures Belief(Activated(Supported(mid, id, role, later), later)) ==
            Belief(Activated(Supported(c, id, role, now), now))
  {
    MergeOne(c, mid, id, role);
    MergeOne(mid, Supported(mid, id, role, later), id, role);
  }

  lemma ReplayExact(db: Db, crashed: Db, ledger: Ledger, row: J.Entry, row': J.Entry, k: nat, now: Time, later: Time)
    requires Inv(db, ledger) && row.candidateId in ledger && SameAuthority(row, row')
    requires FindByTriple(db.claims, ledger[row.candidateId].norm.key, ledger[row.candidateId].negated).Some?
    requires k < |Apply(db, ledger[row.candidateId], row, now).trace|
    requires crashed.claims == Apply(db, ledger[row.candidateId], row, now).trace[k].claims
    ensures Converges(db, crashed, ledger[row.candidateId], row, row', now, later)
  {
    var c, id := ledger[row.candidateId], row.candidateId;
    var i := FindByTriple(db.claims, c.norm.key, c.negated).value;
    assert Once(db.claims[i]);
    ExactShape(db, c, row, i, now);
    SameFind(db.claims, crashed.claims, c.norm.key, c.negated);
    ExactShape(crashed, c, row', i, later);
    SupportedTwice(db.claims[i], id, c.role, now, later, crashed.claims[i]);
  }

  /** A crash inside the two creating writes: the replay finds the row it left and finishes it. */
  lemma ReplayCreate(base: Db, crashed: Db, ledger: Ledger, row: J.Entry, row': J.Entry, k: nat, now: Time, later: Time)
    requires row.candidateId in ledger && SameAuthority(row, row') && k < 2
    requires FindByTriple(base.claims, ledger[row.candidateId].norm.key, ledger[row.candidateId].negated).None?
    requires crashed.claims ==
             CreateActive(base, NewClaim(ledger[row.candidateId], row.candidateId, row, now), now)[k].claims
    ensures var a := Apply(crashed, ledger[row.candidateId], row', later);
            a.claim == |base.claims|
            && Last(crashed, a.trace) == crashed.(claims := Last(crashed, a.trace).claims)
            && SameBeliefs(Last(crashed, a.trace).claims,
                           CreateActive(base, NewClaim(ledger[row.candidateId], row.candidateId, row, now),
                                        now)[1].claims)
  {
    var c, id, i := ledger[row.candidateId], row.candidateId, |base.claims|;
    FreshTable(base.claims, c, id, row, now);
    var claim := NewClaim(c, id, row, now);
    SameFind(base.claims + [claim], crashed.claims, c.norm.key, c.negated);
    ExactShape(crashed, c, row', i, later);
    var left := crashed.claims[i];
    assert left == claim || left == claim.(status := Active);
    MergeOne(left, Supported(left, id, c.role, later), id, c.role);
    assert Belief(Activated(Supported(left, id, c.role, later), later)) == Belief(claim.(status := Active));
  }

  function Beaten(db: Db, i: ClaimId, now: Time): Db
    requires i < |db.claims|
  {
    db.(claims := Move(db.claims, i, if db.claims[i].status == Proposed then Retired else Contradicted, now))
  }

  /** Defeating the contested claim frees its subject and predicate and changes nobody's identity. */
  lemma BeatenFrees(db: Db, ledger: Ledger, c: Candidate, i: ClaimId, now: Time)
    requires Inv(db, ledger) && Contested(db.claims, c) == Some(i)
             && FindByTriple(db.claims, c.norm.key, c.negated).None?
    ensures i < |db.claims|
    ensures var db' := Beaten(db, i, now);
            && |db'.claims| == |db.claims|
            && FindByTriple(db'.claims, c.norm.key, c.negated).None?
            && forall j :: 0 <= j < |db'.claims| && db'.claims[j].Live() ==>
                  !db'.claims[j].About(c.norm.subj, c.norm.pred)
  {
    ContestedIsThere(db.claims, c, i);
    var verdict := if db.claims[i].status == Proposed then Retired else Contradicted;
    DefeatLeavesNone(db.claims, c, i, verdict, now);
    MoveFades(db.claims, i, verdict, now);
    StillUnmatched(db.claims, Beaten(db, i, now).claims, c.norm.key, c.negated);
  }

  /** The tables a contested candidate goes through: demote, insert, activate. */
  lemma ContestedShape(db: Db, c: Candidate, row: J.Entry, i: ClaimId, now: Time)
    requires FindByTriple(db.claims, c.norm.key, c.negated).None? && Contested(db.claims, c) == Some(i)
             && i < |db.claims|
    ensures var a := Apply(db, c, row, now);
            var tail := CreateActive(Beaten(db, i, now), NewClaim(c, row.candidateId, row, now), now);
            a.claim == |db.claims| && a.trace == [Beaten(db, i, now)] + tail && Last(db, a.trace) == tail[1]
  {
  }

  lemma ReplayContested(db: Db, crashed: Db, ledger: Ledger, row: J.Entry, row': J.Entry, i: ClaimId, k: nat, now: Time,
                        later: Time)
    requires Inv(db, ledger) && row.candidateId in ledger && SameAuthority(row, row')
    requires FindByTriple(db.claims, ledger[row.candidateId].norm.key, ledger[row.candidateId].negated).None?
    requires Contested(db.claims, ledger[row.candidateId]) == Some(i)
    requires k < |Apply(db, ledger[row.candidateId], row, now).trace|
    requires crashed.claims == Apply(db, ledger[row.candidateId], row, now).trace[k].claims
    ensures Converges(db, crashed, ledger[row.candidateId], row, row', now, later)
  {
    var c := ledger[row.candidateId];
    BeatenFrees(db, ledger, c, i, now);
    ContestedShape(db, c, row, i, now);
    var settled := Beaten(db, i, now);
    if k == 0 {
      ApplyUncontested(crashed, ledger, row', later);
      SameNewClaims(settled, crashed, c, row, row', now, later);
    } else {
      ReplayCreate(settled, crashed, ledger, row, row', k - 1, now, later);
    }
  }

  lemma ReplayNew(db: Db, crashed: Db, ledger: Ledger, row: J.Entry, row': J.Entry, k: nat, now: Time, later: Time)
    requires row.candidateId in ledger && SameAuthority(row, row')
    requires FindByTriple(db.claims, ledger[row.candidateId].norm.key, ledger[row.candidateId].negated).None?
    requires Contested(db.claims, ledger[row.candidateId]).None?
    requires k < |Apply(db, ledger[row.candidateId], row, now).trace|
    requires crashed.claims == Apply(db, ledger[row.candidateId], row, now).trace[k].claims
    ensures Converges(db, crashed, ledger[row.candidateId], row, row', now, later)
  {
    ReplayCreate(db, crashed, ledger, row, row', k, now, later);
  }

  /** Re-applied over a table that shows no write yet, the clock is the only difference. */
  lemma ReplayUntouched(db: Db, crashed: Db, ledger: Ledger, row: J.Entry, row': J.Entry, now: Time, later: Time)
    requires Inv(db, ledger) && row.candidateId in ledger && SameAuthority(row, row')
    requires crashed.claims == db.claims
    ensures Converges(db, crashed, ledger[row.candidateId], row, row', now, later)
  {
    hide Inv, Move, MergeEvidence, Contested;
    var c := ledger[row.candidateId];
    match FindByTriple(db.claims, c.norm.key, c.negated)
    case Some(i) =>
      ExactShape(db, c, row, i, now);
      ExactShape(crashed, c, row', i, later);
    case None =>
      match Contested(db.claims, c) {
      case Some(i) =>
        ReplayContestedUntouched(db, crashed, ledger, row, row', i, now, later);
      case None =>
        FreshTable(db.claims, c, row.candidateId, row, now);
        FreshTable(db.claims, c, row.candidateId, row', later);
      }
  }

  lemma ReplayContestedUntouched(db: Db, crashed: Db, ledger: Ledger, row: J.Entry, row': J.Entry, i: ClaimId,
                                 now: Time, later: Time)
    requires Inv(db, ledger) && row.candidateId in ledger && SameAuthority(row, row') && crashed.claims == db.claims
    requires FindByTriple(db.claims, ledger[row.candidateId].norm.key, ledger[row.candidateId].negated).None?
    requires Contested(db.claims, ledger[row.candidateId]) == Some(i)
    ensures Converges(db, crashed, ledger[row.candidateId], row, row', now, later)
  {
    hide Contested, Apply, FindByTriple, Inv, Move;
    var c, id := ledger[row.candidateId], row.candidateId;
    BeatenFinal(db, ledger, c, row, i, now);
    BeatenFinal(crashed.(journal := db.journal, approvals := db.approvals), ledger, c, row', i, later);
    ContestedShape(db, c, row, i, now);
    ContestedShape(crashed, c, row', i, later);
  }

  /** The last table of a contested promotion, spelled out. */
  lemma BeatenFinal(db: Db, ledger: Ledger, c: Candidate, row: J.Entry, i: ClaimId, now: Time)
    requires Inv(db, ledger) && Contested(db.claims, c) == Some(i)
             && FindByTriple(db.claims, c.norm.key, c.negated).None?
    ensures i < |db.claims|
    ensures var verdict := if db.claims[i].status == Proposed then Retired else Contradicted;
            CreateActive(Beaten(db, i, now), NewClaim(c, row.candidateId, row, now), now)[1].claims ==
            db.claims[i := db.claims[i].(status := verdict, updatedAt := now)]
            + [NewClaim(c, row.candidateId, row, now).(status := Active)]
  {
    BeatenFrees(db, ledger, c, i, now);
    ContestedIsThere(db.claims, c, i);
    DefeatLeavesNone(db.claims, c, i, if db.claims[i].status == Proposed then Retired else Contradicted, now);
    FreshTable(Beaten(db, i, now).claims, c, row.candidateId, row, now);
  }

  /** Re-applying over any intermediate table, or over the untouched one, converges. */
  lemma ReplayApply(db: Db, crashed: Db, ledger: Ledger, row: J.Entry, row': J.Entry, k: nat, now: Time, later: Time)
    requires Inv(db, ledger) && row.candidateId in ledger && SameAuthority(row, row')
    requires k <= |Apply(db, ledger[row.candidateId], row, now).trace|
    requires crashed.claims ==
             if k == 0 then db.claims else Apply(db, ledger[row.candidateId], row, now).trace[k - 1].claims
    ensures Converges(db, crashed, ledger[row.candidateId], row, row', now, later)
  {
    var c := ledger[row.candidateId];
    if k == 0 {
      ReplayUntouched(db, crashed, ledger, row, row', now, later);
    } else if FindByTriple(db.claims, c.norm.key, c.negated).Some? {
      ReplayExact(db, crashed, ledger, row, row', k - 1, now, later);
    } else {
      match Contested(db.claims, c)
      case Some(i) => ReplayContested(db, crashed, ledger, row, row', i, k - 1, now, later);
      case None => ReplayNew(db, crashed, ledger, row, row', k - 1, now, later);
    }
  }

  // ---------- Crash, restart, re-execute ----------

  /** What the theorem promises of the two final databases. */
  ghost predicate Refines(replayed: Db, straight: Db, id: J.EntryId) {
    && SameBeliefs(replayed.claims, straight.claims)
    && SameJournal(replayed.journal, Restart(straight).journal, id)
    && replayed.approvals == straight.approvals
  }

  /** Once the row is settled, restarting and executing it again only requeues other rows. */
  lemma ReplaySettled(db: Db, ledger: Ledger, id: J.EntryId, later: Time)
    requires id < |db.journal| && J.Terminal(db.journal[id].state)
    ensures Refines(After(Restart(db), ledger, id, later), db, id)
  {
    RestartEffect(db);
  }

  lemma ApplyLeavesRest(db: Db, c: Candidate, row: J.Entry, now: Time)
    ensures forall k :: 0 <= k < |Apply(db, c, row, now).trace| ==>
                          Apply(db, c, row, now).trace[k] == db.(claims := Apply(db, c, row, now).trace[k].claims)
  {
  }

  /** Executing a requeued row whose approval is granted goes straight to the promotion. */
  lemma ReexecuteRequeued(db: Db, ledger: Ledger, id: J.EntryId, now: Time)
    requires Acting(db, ledger, id) && db.journal[id].state == J.Queued
    requires ledger[db.journal[id].candidateId].role != UnknownRole
    ensures var c := ledger[db.journal[id].candidateId];
            var claimed := Journal(db, id, J.Promoting, J.BARE);
            var a := Apply(claimed, c, db.journal[id], now);
            After(db, ledger, id, now) == Commit(Last(claimed, a.trace), id, a)
  {
  }

  function Commit(db: Db, id: J.EntryId, a: Applied): Db {
    Journal(db, id, J.Committed, J.Update(Some(a.operation), Some(a.claim), a.note))
  }

  lemma CommitRow(db: Db, id: J.EntryId, a: Applied)
    requires id < |db.journal| && db.journal[id].state == J.Promoting
    ensures Commit(db, id, a) ==
            db.(journal :=
                db.journal[id :=
                           db.journal[id].(state := J.Committed, operation := a.operation, claimId := Some(a.claim),
                                                            detail := J.Or(a.note, db.journal[id].detail))])
  {
  }

  /** The crash fell while the row was claimed: `crashed` differs from `claimed` in its claims only. */
  lemma ReplayClaimed(claimed: Db, crashed: Db, ledger: Ledger, id: J.EntryId, row: J.Entry, k: nat, now: Time,
                      later: Time)
    requires Inv(claimed, ledger) && Acting(claimed, ledger, id) && claimed.journal[id].state == J.Promoting
    requires SameAuthority(row, claimed.journal[id]) && ledger[row.candidateId].role != UnknownRole
    requires var a := Apply(claimed, ledger[row.candidateId], row, now);
             k <= |a.trace| && crashed == claimed.(claims := if k == 0 then claimed.claims else a.trace[k - 1].claims)
    ensures var a := Apply(claimed, ledger[row.candidateId], row, now);
            Refines(After(Restart(crashed), ledger, id, later), Commit(Last(claimed, a.trace), id, a), id)
  {
    hide Apply, Inv;
    var c := ledger[row.candidateId];
    var a := Apply(claimed, c, row, now);
    var straight := Commit(Last(claimed, a.trace), id, a);
    ApplyLeavesRest(claimed, c, row, now);
    CommitRow(Last(claimed, a.trace), id, a);
    RestartEffect(crashed);
    var back := Restart(crashed);
    var reclaimed := Journal(back, id, J.Promoting, J.BARE);
    assert back.claims == crashed.claims && back.journal[id] == Requeued(claimed.journal[id]);
    assert reclaimed == back.(journal := back.journal[id := back.journal[id].(state := J.Promoting)]);
    var b := Apply(reclaimed, c, back.journal[id], later);
    ReplayApply(claimed, reclaimed, ledger, row, back.journal[id], k, now, later);
    ReexecuteRequeued(back, ledger, id, later);
    var replayed := Last(reclaimed, b.trace);
    CommitRow(replayed, id, b);
    CommittedJournals(claimed, reclaimed, straight, Commit(replayed, id, b), id, a, b);
  }

  /** Two commits of the same row, one of them over a restarted journal, agree after a restart. */
  lemma CommittedJournals(claimed: Db, reclaimed: Db, straight: Db, replayed: Db, id: J.EntryId, a: Applied, b: Applied)
    requires id < |claimed.journal| && |reclaimed.journal| == |claimed.journal|
    requires claimed.journal[id].state == J.Promoting && a.claim == b.claim
    requires forall r :: 0 <= r < |claimed.journal| && r != id ==> reclaimed.journal[r] == Requeued(claimed.journal[r])
    requires reclaimed.journal[id] == claimed.journal[id].(detail := reclaimed.journal[id].detail)
    requires straight.journal == Commit(claimed, id, a).journal && replayed.journal == Commit(reclaimed, id, b).journal
    ensures SameJournal(replayed.journal, Restart(straight).journal, id)
  {
    CommitRow(claimed, id, a);
    CommitRow(reclaimed, id, b);
    RestartEffect(straight);
  }

  /** A row that may be promoted: approval granted, candidate's side known. */
  lemma ReplayPromotion(db: Db, ledger: Ledger, id: J.EntryId, k: nat, now: Time, later: Time)
    requires Inv(db, ledger) && Acting(db, ledger, id) && !J.Terminal(db.journal[id].state)
    requires 0 < k <= |Promote(db, ledger[db.journal[id].candidateId], id, now).trace|
    ensures var trace := Promote(db, ledger[db.journal[id].candidateId], id, now).trace;
            Refines(After(Restart(trace[k - 1]), ledger, id, later), Last(db, trace), id)
  {
    hide Apply, Refines, After, Restart, Inv;
    var row := db.journal[id];
    var c := ledger[row.candidateId];
    var trace := Promote(db, c, id, now).trace;
    if k == |trace| {
      PromotionSettles(db, c, id, now);
      ReplaySettled(Last(db, trace), ledger, id, later);
    } else {
      var claimed := Journal(db, id, J.Promoting, J.BARE);
      var first := if row.state == J.Queued then [claimed] else [];
      var a := Apply(claimed, c, row, now);
      JournalKeepsInv(db, id, J.Promoting, J.BARE, ledger);
      ApplyLeavesRest(claimed, c, row, now);
      assert trace == first + a.trace + [Commit(Last(claimed, a.trace), id, a)];
      ReplayClaimed(claimed, trace[k - 1], ledger, id, row, k - |first|, now, later);
    }
  }

  /** A promotion ends with its row settled. */
  lemma PromotionSettles(db: Db, c: Candidate, id: J.EntryId, now: Time)
    requires id < |db.journal| && !J.Terminal(db.journal[id].state)
    ensures var db' := Last(db, Promote(db, c, id, now).trace);
            id < |db'.journal| && J.Terminal(db'.journal[id].state)
  {
    if c.role != UnknownRole {
      var claimed := Journal(db, id, J.Promoting, J.BARE);
      ApplyLeavesRest(claimed, c, db.journal[id], now);
    }
  }

  /**
   * Main crash theorem. Stop the execution of a row after any of its writes, restart, and execute
   * that row again before any other: the beliefs, the row's outcome and the approvals are those of
   * the uninterrupted execution.
   */
  lemma CrashReplay(db: Db, ledger: Ledger, id: J.EntryId, k: nat, now: Time, later: Time)
    requires Inv(db, ledger)
    requires 0 < k <= |Execute(db, ledger, id, now).trace|
    ensures var trace := Execute(db, ledger, id, now).trace;
            Refines(After(Restart(trace[k - 1]), ledger, id, later), After(db, ledger, id, now), id)
  {
    hide Inv, Refines, Restart, Promote;
    var row := db.journal[id];
    var trace := Execute(db, ledger, id, now).trace;
    if row.candidateId !in ledger {
      ReplaySettled(trace[0], ledger, id, later);
    } else if row.approvalId.None? {
      ReplayPromotion(db, ledger, id, k, now, later);
    } else {
      var a := row.approvalId.value;
      if a >= |db.approvals.rows| {
        ReplaySettled(trace[0], ledger, id, later);
      } else {
        var read := db.(approvals := A.ExpireIfLapsed(db.approvals, a, now));
        ApprovalsKeepInv(db, read.approvals, ledger);
        var status := read.approvals.rows[a].status;
        if status == A.Approved {
          ReplayPromotion(db, ledger, id, k, now, later);
        } else {
          ReplayDenied(db, ledger, id, k, now, later);
        }
      }
    }
  }

  /** A refused or lapsed approval: the expiry and the denial are the only writes. */
  lemma ReplayDenied(db: Db, ledger: Ledger, id: J.EntryId, k: nat, now: Time, later: Time)
    requires id < |db.journal| && !J.Terminal(db.journal[id].state) && db.journal[id].candidateId in ledger
    requires db.journal[id].approvalId.Some? && db.journal[id].approvalId.value < |db.approvals.rows|
    requires A.ExpireIfLapsed(db.approvals, db.journal[id].approvalId.value,
                              now).rows[db.journal[id].approvalId.value].status
             !in {A.Pending, A.Approved}
    requires 0 < k <= |Execute(db, ledger, id, now).trace|
    ensures var trace := Execute(db, ledger, id, now).trace;
            Refines(After(Restart(trace[k - 1]), ledger, id, later), After(db, ledger, id, now), id)
  {
    var a := db.journal[id].approvalId.value;
    var trace := Execute(db, ledger, id, now).trace;
    var read := db.(approvals := A.ExpireIfLapsed(db.approvals, a, now));
    var denied := Refusal(read, id, a);
    DenialRow(read, id, a);
    assert Last(db, trace) == denied;
    if k == |trace| {
      ReplaySettled(denied, ledger, id, later);
    } else {
      assert trace[k - 1] == read;
      RestartEffect(read);
      RestartEffect(denied);
      ExecuteRefused(Restart(read), ledger, id, a, later);
      DenialRow(Restart(read), id, a);
    }
  }

  function Refusal(db: Db, id: J.EntryId, a: A.ApprovalId): Db
    requires a < |db.approvals.rows|
  {
    Mark(db, id, J.Denied, J.ApprovalWas(db.approvals.rows[a].status))
  }

  lemma DenialRow(db: Db, id: J.EntryId, a: A.ApprovalId)
    requires id < |db.journal| && !J.Terminal(db.journal[id].state) && a < |db.approvals.rows|
    ensures Refusal(db, id, a) ==
            db.(journal :=
                db.journal[id :=
                           db.journal[id].(state := J.Denied, detail := J.ApprovalWas(db.approvals.rows[a].status))])
  {
  }

  lemma ExecuteRefused(db: Db, ledger: Ledger, id: J.EntryId, a: A.ApprovalId, now: Time)
    requires id < |db.journal| && !J.Terminal(db.journal[id].state) && db.journal[id].candidateId in ledger
    requires db.journal[id].approvalId == Some(a) && a < |db.approvals.rows|
             && db.approvals.rows[a].status !in {A.Pending, A.Approved}
    ensures After(db, ledger, id, now) == Refusal(db, id, a)
  {
  }
}
