/** Recovery as it happens: crash anywhere in a sweep, restart, sweep again, as often as it takes. */
module PromotionRecovery {
  import opened Wrappers
  import opened C = ClaimStore
  import opened Promotion
  import opened PromotionInvariant
  import opened PromotionRuns
  import opened PromotionReplay
  import opened PromotionSweep
  import J = PromotionJournal
  import A = Approvals

  /** A journal row without operation and notes; a claimed row counts as queued. */
  function Shape(row: J.Entry): J.Entry {
    row.(operation := J.New, detail := J.NoDetail, state := if row.state == J.Promoting then J.Queued else row.state)
  }

  /** The same beliefs, the same approvals, and journal rows of the same shape. */
  ghost predicate Alike(a: Db, b: Db) {
    && SameBeliefs(a.claims, b.claims)
    && |a.journal| == |b.journal| && (forall r :: 0 <= r < |a.journal| ==> Shape(a.journal[r]) == Shape(b.journal[r]))
    && a.approvals == b.approvals
  }

  lemma AlikeItself(a: Db)
    ensures Alike(a, a)
  {
  }

  lemma AlikeTransitive(a: Db, b: Db, c: Db)
    requires Alike(a, b) && Alike(b, c)
    ensures Alike(a, c)
  {
    hide Belief, Shape;
  }

  lemma RestartAlike(db: Db)
    ensures Alike(Restart(db), db)
  {
    hide Restart;
    RestartEffect(db);
  }

  /** What the replay of one row promises is a case of it. */
  lemma RefinesIsAlike(a: Db, b: Db, id: J.EntryId)
    requires Refines(a, b, id)
    ensures Alike(a, b)
  {
    hide Restart, Belief;
    RestartEffect(b);
  }

  // ---------- Executing a row reads nothing else ----------

  lemma {:induction false} SelectAgrees(rows: seq<Claim>, rows': seq<Claim>, keep: Claim -> bool)
    requires |rows| == |rows'| && forall i :: 0 <= i < |rows| ==> keep(rows[i]) == keep(rows'[i])
    ensures Select(rows, keep) == Select(rows', keep)
  {
    if rows != [] {
      SelectAgrees(rows[..|rows| - 1], rows'[..|rows| - 1], keep);
    }
  }

  lemma BeliefColumns(c: Claim, c': Claim)
    requires Belief(c) == Belief(c')
    ensures c.norm == c'.norm && c.negated == c'.negated && c.status == c'.status && c.evidence == c'.evidence
  {
  }

  lemma BeliefAt(a: seq<Claim>, b: seq<Claim>, i: ClaimId)
    requires SameBeliefs(a, b) && i < |a|
    ensures a[i].norm == b[i].norm && a[i].negated == b[i].negated && a[i].status == b[i].status
            && a[i].evidence == b[i].evidence
  {
    hide Belief;
    BeliefColumns(a[i], b[i]);
  }

  lemma ContestAgrees(a: seq<Claim>, b: seq<Claim>, c: Candidate)
    requires SameBeliefs(a, b)
    ensures FindByTriple(a, c.norm.key, c.negated) == FindByTriple(b, c.norm.key, c.negated)
    ensures Contested(a, c) == Contested(b, c)
  {
    hide SameBeliefs;
    BeliefsAgree(a, b);
    SameFind(b, a, c.norm.key, c.negated);
    var s, p, o := c.norm.subj, c.norm.pred, c.norm.obj;
    var live := (x: Claim) => x.About(s, p) && x.Live();
    var rival := (x: Claim) => x.About(s, p) && x.Live() && x.norm.obj == o && x.negated != c.negated;
    assert Contestable(a, c) == Select(a, live) && Contestable(b, c) == Select(b, live);
    SelectAgrees(a, b, live);
    SelectAgrees(a, b, rival);
    ActiveAgrees(a, b, Select(a, rival));
    hide FirstActive, Select;
    assert NegatedRival(a, c) == NegatedRival(b, c);
  }

  lemma BeliefsAgree(a: seq<Claim>, b: seq<Claim>)
    requires SameBeliefs(a, b)
    ensures |a| == |b|
    ensures forall i :: 0 <= i < |a| ==>
              a[i].norm == b[i].norm && a[i].negated == b[i].negated && a[i].status == b[i].status
                  && a[i].evidence == b[i].evidence
  {
    forall i | 0 <= i < |a|
      ensures a[i].norm == b[i].norm && a[i].negated == b[i].negated && a[i].status == b[i].status
              && a[i].evidence == b[i].evidence
    {
      BeliefAt(a, b, i);
    }
  }

  lemma {:induction false} ActiveAgrees(a: seq<Claim>, b: seq<Claim>, ids: seq<ClaimId>)
    requires forall k :: 0 <= k < |ids| ==> ids[k] < |a| == |b| && a[ids[k]].status == b[ids[k]].status
    ensures FirstActive(a, ids) == FirstActive(b, ids)
  {
    if ids != [] {
      ActiveAgrees(a, b, ids[1..]);
    }
  }

  lemma SameAt(a: seq<Claim>, b: seq<Claim>, i: ClaimId, x: Claim, y: Claim)
    requires SameBeliefs(a, b) && i < |a| && Belief(x) == Belief(y)
    ensures SameBeliefs(a[i := x], b[i := y])
  {
    hide Belief;
  }

  lemma SupportAgrees(x: Claim, y: Claim, id: CandidateId, role: Role, now: Time)
    requires Belief(x) == Belief(y)
    ensures Belief(Activated(Supported(x, id, role, now), now)) == Belief(Activated(Supported(y, id, role, now), now))
  {
    hide MergeEvidence;
    BeliefColumns(x, y);
  }

  lemma BeatenAgrees(a: Db, b: Db, i: ClaimId, now: Time)
    requires SameBeliefs(a.claims, b.claims) && i < |a.claims|
    ensures SameBeliefs(Beaten(a, i, now).claims, Beaten(b, i, now).claims)
    ensures |Beaten(a, i, now).claims| == |a.claims| && Beaten(a, i, now) == a.(claims := Beaten(a, i, now).claims)
  {
    BeliefAt(a.claims, b.claims, i);
    var to := if a.claims[i].status == Proposed then Retired else Contradicted;
    SameAt(a.claims, b.claims, i, a.claims[i].(status := to, updatedAt := now),
           b.claims[i].(status := to, updatedAt := now));
    hide Belief;
  }

  lemma CreateAgrees(a: Db, b: Db, c: Candidate, id: CandidateId, row: J.Entry, row': J.Entry, now: Time)
    requires SameBeliefs(a.claims, b.claims) && row.approvalId == row'.approvalId
    ensures SameBeliefs(CreateActive(a, NewClaim(c, id, row, now), now)[1].claims,
                        CreateActive(b, NewClaim(c, id, row', now), now)[1].claims)
  {
    var x, y := NewClaim(c, id, row, now), NewClaim(c, id, row', now);
    assert x == y;
    ActivatesNew(a.claims, x, now);
    ActivatesNew(b.claims, y, now);
    hide Belief;
  }

  /** Applying a candidate reads of the claims what the beliefs keep, and of its row what the shape keeps. */
  lemma ApplyAgrees(a: Db, b: Db, c: Candidate, row: J.Entry, row': J.Entry, now: Time)
    requires SameBeliefs(a.claims, b.claims) && SameAuthority(row, row')
    ensures var p, q := Apply(a, c, row, now), Apply(b, c, row', now);
            && p.claim == q.claim && p.operation == q.operation
            && SameBeliefs(Last(a, p.trace).claims, Last(b, q.trace).claims)
            && Last(a, p.trace) == a.(claims := Last(a, p.trace).claims)
                && Last(b, q.trace) == b.(claims := Last(b, q.trace).claims)
  {
    hide Move, MergeEvidence, SameBeliefs, Belief, Supported, Activated;
    ContestAgrees(a.claims, b.claims, c);
    BeliefsAgree(a.claims, b.claims);
    match FindByTriple(a.claims, c.norm.key, c.negated)
    case Some(i) =>
      hide Contested;
      ExactShape(a, c, row, i, now);
      ExactShape(b, c, row', i, now);
      BeliefsOf(a.claims, b.claims, i);
      SupportAgrees(a.claims[i], b.claims[i], row.candidateId, c.role, now);
      SameAt(a.claims, b.claims, i, Activated(Supported(a.claims[i], row.candidateId, c.role, now), now),
             Activated(Supported(b.claims[i], row.candidateId, c.role, now), now));
    case None =>
      match Contested(a.claims, c) {
      case Some(i) =>
        ContestedIsThere(a.claims, c, i);
        ContestedShape(a, c, row, i, now);
        ContestedShape(b, c, row', i, now);
        BeatenAgrees(a, b, i, now);
        BeliefsBack(a, b, i, now);
        CreateAgrees(Beaten(a, i, now), Beaten(b, i, now), c, row.candidateId, row, row', now);
      case None =>
        CreateAgrees(a, b, c, row.candidateId, row, row', now);
      }
  }

  lemma BeliefsOf(a: seq<Claim>, b: seq<Claim>, i: ClaimId)
    requires SameBeliefs(a, b) && i < |a|
    ensures Belief(a[i]) == Belief(b[i])
  {
    hide Belief;
  }

  lemma BeliefsBack(a: Db, b: Db, i: ClaimId, now: Time)
    requires SameBeliefs(a.claims, b.claims) && i < |a.claims|
    ensures Beaten(b, i, now) == b.(claims := Beaten(b, i, now).claims)
  {
    hide Belief;
  }

  // ---------- Executing alike databases ----------

  lemma ShapeColumns(a: Db, b: Db, id: J.EntryId)
    requires Alike(a, b) && id < |a.journal|
    ensures |a.journal| == |b.journal|
    ensures var x, y := a.journal[id], b.journal[id];
            && x.candidateId == y.candidateId && x.approvalId == y.approvalId && x.claimId == y.claimId
            && (J.Terminal(x.state) <==> J.Terminal(y.state))
  {
    assert Shape(a.journal[id]) == Shape(b.journal[id]);
  }

  /** One row set to the same state in both. */
  lemma MarkAlike(a: Db, b: Db, id: J.EntryId, state: J.State, u: J.Update, u': J.Update)
    requires Alike(a, b) && id < |a.journal| && !J.Terminal(a.journal[id].state) && J.Terminal(state)
             && u.claimId == u'.claimId
    ensures Alike(Journal(a, id, state, u), Journal(b, id, state, u'))
  {
    hide SameBeliefs;
    ShapeColumns(a, b, id);
    assert Shape(a.journal[id]) == Shape(b.journal[id]);
  }

  lemma ClaimAlike(a: Db, b: Db, id: J.EntryId)
    requires Alike(a, b) && id < |a.journal| && !J.Terminal(a.journal[id].state)
    ensures Alike(Journal(a, id, J.Promoting, J.BARE), Journal(b, id, J.Promoting, J.BARE))
    ensures var x, y := Journal(a, id, J.Promoting, J.BARE), Journal(b, id, J.Promoting, J.BARE);
            && |x.journal| == |y.journal| == |a.journal|
            && x.journal[id].state == y.journal[id].state == J.Promoting
  {
    hide SameBeliefs;
    ShapeColumns(a, b, id);
  }

  lemma PromoteAlike(a: Db, b: Db, c: Candidate, id: J.EntryId, now: Time)
    requires Alike(a, b) && id < |a.journal| && id < |b.journal| && !J.Terminal(a.journal[id].state)
             && !J.Terminal(b.journal[id].state)
    ensures Alike(Last(a, Promote(a, c, id, now).trace), Last(b, Promote(b, c, id, now).trace))
  {
    hide Apply, Alike, SameBeliefs, Journal;
    ShapeColumns(a, b, id);
    if c.role == UnknownRole {
      var u := J.Update(None, None, Some(J.Because(J.UnknownOrigin)));
      MarkAlike(a, b, id, J.Failed, u, u);
      assert Last(a, Promote(a, c, id, now).trace) == Journal(a, id, J.Failed, u);
      assert Last(b, Promote(b, c, id, now).trace) == Journal(b, id, J.Failed, u);
    } else {
      var x, y := Journal(a, id, J.Promoting, J.BARE), Journal(b, id, J.Promoting, J.BARE);
      ClaimAlike(a, b, id);
      SameClaims(x, y);
      ApplyAgrees(x, y, c, a.journal[id], b.journal[id], now);
      var p, q := Apply(x, c, a.journal[id], now), Apply(y, c, b.journal[id], now);
      ReclaimAlike(x, y, Last(x, p.trace).claims, Last(y, q.trace).claims);
      MarkAlike(Last(x, p.trace), Last(y, q.trace), id, J.Committed,
                J.Update(Some(p.operation), Some(p.claim), p.note), J.Update(Some(q.operation), Some(q.claim), q.note));
    }
  }

  lemma SameClaims(a: Db, b: Db)
    requires Alike(a, b)
    ensures SameBeliefs(a.claims, b.claims) && a.approvals == b.approvals
  {
    hide SameBeliefs;
  }

  lemma ReclaimAlike(a: Db, b: Db, claims: seq<Claim>, claims': seq<Claim>)
    requires Alike(a, b) && SameBeliefs(claims, claims')
    ensures Alike(a.(claims := claims), b.(claims := claims'))
  {
    hide SameBeliefs;
  }

  /** Executing the same row of alike databases leaves alike databases. */
  lemma ExecuteAlike(a: Db, b: Db, ledger: Ledger, id: J.EntryId, now: Time)
    requires Alike(a, b)
    ensures Alike(After(a, ledger, id, now), After(b, ledger, id, now))
  {
    hide Promote, SameBeliefs, Journal, Shape;
    if id < |a.journal| {
      ShapeColumns(a, b, id);
      if !J.Terminal(a.journal[id].state) {
        hide Alike;
        var row := a.journal[id];
        SameClaims(a, b);
        if row.candidateId !in ledger {
          var u := J.Update(None, None, Some(J.Because(J.MissingCandidate)));
          MarkAlike(a, b, id, J.Failed, u, u);
        } else if row.approvalId.None? {
          PromoteAlike(a, b, ledger[row.candidateId], id, now);
        } else {
          ApprovalAlike(a, b, ledger, id, now);
        }
      }
    }
  }

  lemma ReadAlike(a: Db, b: Db, t: A.Table)
    requires Alike(a, b)
    ensures Alike(a.(approvals := t), b.(approvals := t))
  {
    hide SameBeliefs, Shape;
  }

  lemma ApprovalAlike(a: Db, b: Db, ledger: Ledger, id: J.EntryId, now: Time)
    requires Alike(a, b) && id < |a.journal| == |b.journal| && !J.Terminal(a.journal[id].state)
    requires a.journal[id].candidateId in ledger && a.journal[id].approvalId.Some?
    ensures Alike(After(a, ledger, id, now), After(b, ledger, id, now))
  {
    hide Promote, SameBeliefs, Journal, Alike;
    ShapeColumns(a, b, id);
    SameClaims(a, b);
    var t := a.journal[id].approvalId.value;
    if t >= |a.approvals.rows| {
      var u := J.Update(None, None, Some(J.Because(J.MissingApproval)));
      MarkAlike(a, b, id, J.Failed, u, u);
    } else {
      var read := A.ExpireIfLapsed(a.approvals, t, now);
      var x, y := a.(approvals := read), b.(approvals := read);
      ReadAlike(a, b, read);
      ReadOnly(a, ledger, id, t, now);
      ReadOnly(b, ledger, id, t, now);
      var status := read.rows[t].status;
      if status == A.Approved {
        PromoteAlike(x, y, ledger[a.journal[id].candidateId], id, now);
      } else {
        var u := J.Update(None, None, Some(J.ApprovalWas(status)));
        MarkAlike(x, y, id, J.Denied, u, u);
      }
    }
  }

  /** With an approval to read, the execution ends as the approval says. */
  lemma ReadOnly(db: Db, ledger: Ledger, id: J.EntryId, t: A.ApprovalId, now: Time)
    requires id < |db.journal| && !J.Terminal(db.journal[id].state) && db.journal[id].candidateId in ledger
    requires db.journal[id].approvalId == Some(t) && t < |db.approvals.rows|
    ensures |A.ExpireIfLapsed(db.approvals, t, now).rows| == |db.approvals.rows|
    ensures var read := db.(approvals := A.ExpireIfLapsed(db.approvals, t, now));
            var status := read.approvals.rows[t].status;
            After(db, ledger, id, now) ==
            if status == A.Pending then read
            else if status == A.Approved
              then Last(read, Promote(read, ledger[db.journal[id].candidateId], id, now).trace)
            else Journal(read, id, J.Denied, J.Update(None, None, Some(J.ApprovalWas(status))))
  {
    hide Promote, Journal;
  }

  // ---------- One row, any number of crashes ----------

  /** An operation that dies after so many of its writes (all of them, if that is more than it makes). */
  function Stopped(db: Db, trace: seq<Db>, writes: nat): Db {
    Last(db, if writes < |trace| then trace[..writes] else trace)
  }

  /** An attempt at a row: when it starts, and after how many writes it dies. */
  datatype Attempt = Attempt(at: Time, writes: nat)

  function Attempted(db: Db, ledger: Ledger, id: J.EntryId, a: Attempt): Db {
    Restart(Stopped(db, Execute(db, ledger, id, a.at).trace, a.writes))
  }

  function AttemptedAll(db: Db, ledger: Ledger, id: J.EntryId, tries: seq<Attempt>): Db
    decreases tries
  {
    if tries == [] then db else AttemptedAll(Attempted(db, ledger, id, tries[0]), ledger, id, tries[1..])
  }

  /** Every attempt gets at least one write done before it dies. */
  predicate AllWrite(db: Db, ledger: Ledger, id: J.EntryId, tries: seq<Attempt>)
    decreases tries
  {
    tries == [] || (&& tries[0].writes > 0 && Execute(db, ledger, id, tries[0].at).trace != []
                    && AllWrite(Attempted(db, ledger, id, tries[0]), ledger, id, tries[1..]))
  }

  lemma StoppedKeepsInv(db: Db, ledger: Ledger, trace: seq<Db>, writes: nat)
    requires Inv(db, ledger) && AllInv(trace, ledger)
    ensures Inv(Restart(Stopped(db, trace, writes)), ledger)
  {
    hide Inv;
    var stopped := Stopped(db, trace, writes);
    LastKeepsInv(db, if writes < |trace| then trace[..writes] else trace, ledger);
    var ids := J.ListByState(stopped.journal, J.Promoting, J.Promoting);
    RestartKeepsInv(stopped, ledger, ids);
    LastKeepsInv(stopped, RestartTrace(stopped, ids), ledger);
  }

  /** A crash that left a write behind is made up for by the next attempt, whenever that comes. */
  lemma CrashIsAlike(db: Db, ledger: Ledger, id: J.EntryId, a: Attempt, later: Time)
    requires Inv(db, ledger) && a.writes > 0 && Execute(db, ledger, id, a.at).trace != []
    ensures Alike(After(Attempted(db, ledger, id, a), ledger, id, later), After(db, ledger, id, a.at))
  {
    hide Inv, Restart, Execute, Alike, Refines;
    var trace := Execute(db, ledger, id, a.at).trace;
    var k := if a.writes < |trace| then a.writes else |trace|;
    assert Stopped(db, trace, a.writes) == trace[k - 1];
    CrashReplay(db, ledger, id, k, a.at, later);
    RefinesIsAlike(After(Restart(trace[k - 1]), ledger, id, later), After(db, ledger, id, a.at), id);
  }

  /**
   * Any number of crashes of one row, each followed by a restart: the attempt that completes leaves what the first one
   * would have left, had it not died.
   */
  lemma {:induction false} CrashesReplay(db: Db, ledger: Ledger, id: J.EntryId, tries: seq<Attempt>, now: Time)
    requires Inv(db, ledger) && AllWrite(db, ledger, id, tries)
    ensures Alike(After(AttemptedAll(db, ledger, id, tries), ledger, id, now),
                  After(db, ledger, id, if tries == [] then now else tries[0].at))
    decreases tries
  {
    hide Inv, Execute, Alike, Restart, After;
    if tries == [] {
      AlikeItself(After(db, ledger, id, now));
    } else {
      var next := Attempted(db, ledger, id, tries[0]);
      var then_ := if |tries| == 1 then now else tries[1].at;
      ExecuteKeepsInv(db, ledger, id, tries[0].at);
      StoppedKeepsInv(db, ledger, Execute(db, ledger, id, tries[0].at).trace, tries[0].writes);
      CrashesReplay(next, ledger, id, tries[1..], now);
      CrashIsAlike(db, ledger, id, tries[0], then_);
      AlikeTransitive(After(AttemptedAll(next, ledger, id, tries[1..]), ledger, id, now),
                      After(next, ledger, id, then_),
                      After(db, ledger, id, tries[0].at));
    }
  }

  // ---------- Any sweep, any number of crashes ----------

  /** Where executing the rows of a list one after the other ends. */
  function EndOf(db: Db, ledger: Ledger, ids: seq<J.EntryId>, now: Time): Db {
    Last(db, SweepTrace(db, ledger, ids, now))
  }

  lemma EndUnrolls(db: Db, ledger: Ledger, ids: seq<J.EntryId>, now: Time)
    requires ids != []
    ensures EndOf(db, ledger, ids, now) == EndOf(After(db, ledger, ids[0], now), ledger, ids[1..], now)
  {
    hide Execute;
  }

  lemma {:induction false} SweepAlike(a: Db, b: Db, ledger: Ledger, ids: seq<J.EntryId>, now: Time)
    requires Alike(a, b)
    ensures Alike(EndOf(a, ledger, ids, now), EndOf(b, ledger, ids, now))
    decreases ids
  {
    hide Alike, After;
    if ids != [] {
      ExecuteAlike(a, b, ledger, ids[0], now);
      EndUnrolls(a, ledger, ids, now);
      EndUnrolls(b, ledger, ids, now);
      SweepAlike(After(a, ledger, ids[0], now), After(b, ledger, ids[0], now), ledger, ids[1..], now);
    }
  }

  /** Nothing an execution leaves on the way touches another row. */
  lemma PromotionStopTouches(db: Db, c: Candidate, id: J.EntryId, k: nat, now: Time)
    requires id < |db.journal| && !J.Terminal(db.journal[id].state) && k < |Promote(db, c, id, now).trace|
    ensures OnlyTouches(db, Promote(db, c, id, now).trace[k], id, now)
  {
    hide Apply;
    if c.role != UnknownRole {
      var claimed := Journal(db, id, J.Promoting, J.BARE);
      ApplyLeavesRest(claimed, c, db.journal[id], now);
    }
  }

  lemma StopTouches(db: Db, ledger: Ledger, id: J.EntryId, k: nat, now: Time)
    requires k < |Execute(db, ledger, id, now).trace|
    ensures OnlyTouches(db, Execute(db, ledger, id, now).trace[k], id, now)
    ensures id < |db.journal| && !J.Terminal(db.journal[id].state)
  {
    hide Promote;
    var row := db.journal[id];
    if row.candidateId in ledger {
      if row.approvalId.None? {
        PromotionStopTouches(db, ledger[row.candidateId], id, k, now);
      } else if row.approvalId.value < |db.approvals.rows| {
        var a := row.approvalId.value;
        var read := db.(approvals := A.ExpireIfLapsed(db.approvals, a, now));
        var first := if A.Lapsed(db.approvals.rows[a], now) then 1 else 0;
        if read.approvals.rows[a].status == A.Approved && k >= first {
          PromotionStopTouches(read, ledger[row.candidateId], id, k - first, now);
        }
      }
    }
  }

  /** Rows that are settled, and quiet rows other than the executed one, stay so wherever the execution stops. */
  ghost predicate Leaves(db: Db, db': Db, ledger: Ledger, other: J.EntryId, now: Time) {
    && |db'.journal| == |db.journal|
    && (Quiet(db, ledger, other, now) ==> Quiet(db', ledger, other, now))
    && (other < |db.journal| && J.Terminal(db.journal[other].state) ==> db'.journal[other] == db.journal[other])
  }

  lemma StopLeaves(db: Db, ledger: Ledger, id: J.EntryId, writes: nat, other: J.EntryId, now: Time)
    ensures other != id ==> Leaves(db, Stopped(db, Execute(db, ledger, id, now).trace, writes), ledger, other, now)
    ensures Quiet(db, ledger, other, now) ==>
              Leaves(db, Stopped(db, Execute(db, ledger, id, now).trace, writes), ledger, other, now)
    ensures other < |db.journal| && J.Terminal(db.journal[other].state) ==>
              Leaves(db, Stopped(db, Execute(db, ledger, id, now).trace, writes), ledger, other, now)
  {
    hide Execute;
    var trace := Execute(db, ledger, id, now).trace;
    var k := if writes < |trace| then writes else |trace|;
    if k > 0 {
      assert Stopped(db, trace, writes) == trace[k - 1];
      StopTouches(db, ledger, id, k - 1, now);
      if Quiet(db, ledger, other, now) {
        QuietRow(db, ledger, other, id, now);
      }
    }
  }

  /** A row that is executed with any effect was not quiet. */
  lemma QuietRow(db: Db, ledger: Ledger, other: J.EntryId, id: J.EntryId, now: Time)
    requires Quiet(db, ledger, other, now) && Execute(db, ledger, id, now).trace != []
    ensures other != id
  {
  }

  lemma {:induction false} SweepLeaves(db: Db, ledger: Ledger, ids: seq<J.EntryId>, writes: nat, other: J.EntryId,
                                       now: Time)
    requires Quiet(db, ledger, other, now) || (other < |db.journal| && J.Terminal(db.journal[other].state))
    ensures Leaves(db, Stopped(db, SweepTrace(db, ledger, ids, now), writes), ledger, other, now)
    decreases ids
  {
    hide Execute, Quiet;
    if ids != [] {
      var first := Execute(db, ledger, ids[0], now).trace;
      var next := Last(db, first);
      StopLeaves(db, ledger, ids[0], writes, other, now);
      StoppedIn(db, first, SweepTrace(next, ledger, ids[1..], now), writes);
      if writes > |first| {
        StopLeaves(db, ledger, ids[0], |first|, other, now);
        SweepLeaves(next, ledger, ids[1..], writes - |first|, other, now);
      }
    }
  }

  /** A crash of two stretches falls into one of them. */
  lemma StoppedIn(db: Db, a: seq<Db>, b: seq<Db>, writes: nat)
    ensures Stopped(db, a + b, writes) ==
            if writes <= |a| then Stopped(db, a, writes) else Stopped(Last(db, a), b, writes - |a|)
  {
    if writes <= |a| {
      assert (a + b)[..writes] == a[..writes];
    } else if writes < |a + b| {
      assert (a + b)[..writes] == a + b[..writes - |a|];
    }
  }

  lemma RestartQuiet(db: Db, ledger: Ledger, id: J.EntryId, now: Time)
    requires Quiet(db, ledger, id, now)
    ensures Quiet(Restart(db), ledger, id, now)
  {
    hide Restart;
    RestartEffect(db);
  }

  lemma CrashAt(db: Db, ledger: Ledger, ids: seq<J.EntryId>, writes: nat, now: Time)
    requires ids != []
    ensures var first := Execute(db, ledger, ids[0], now).trace;
            Stopped(db, SweepTrace(db, ledger, ids, now), writes) ==
            if writes <= |first| then Stopped(db, first, writes)
            else Stopped(Last(db, first), SweepTrace(Last(db, first), ledger, ids[1..], now), writes - |first|)
  {
    hide Execute;
    var first := Execute(db, ledger, ids[0], now).trace;
    StoppedIn(db, first, SweepTrace(Last(db, first), ledger, ids[1..], now), writes);
  }

  /** A row the crashed sweep had finished is passed over by the next one. */
  lemma DoneIsSkipped(db: Db, ledger: Ledger, ids: seq<J.EntryId>, writes: nat, now: Time)
    requires ids != [] && writes > |Execute(db, ledger, ids[0], now).trace|
    ensures var back := Restart(Stopped(db, SweepTrace(db, ledger, ids, now), writes));
            After(back, ledger, ids[0], now) == back
  {
    hide Execute, Restart, Quiet, SweepTrace, Stopped;
    var first := Execute(db, ledger, ids[0], now).trace;
    var next := Last(db, first);
    CrashAt(db, ledger, ids, writes, now);
    ExecuteQuiets(db, ledger, ids[0], now);
    SweepLeaves(next, ledger, ids[1..], writes - |first|, ids[0], now);
    var crashed := Stopped(db, SweepTrace(db, ledger, ids, now), writes);
    RestartQuiet(crashed, ledger, ids[0], now);
    QuietRuns(Restart(crashed), ledger, ids[0], now);
  }

  lemma EmptyList(db: Db, ledger: Ledger, writes: nat, now: Time)
    ensures Alike(EndOf(Restart(Stopped(db, SweepTrace(db, ledger, [], now), writes)), ledger, [], now),
                  EndOf(db, ledger, [], now))
  {
    hide Alike, Restart;
    RestartAlike(db);
  }

  lemma AfterKeepsInv(db: Db, ledger: Ledger, id: J.EntryId, now: Time)
    requires Inv(db, ledger)
    ensures Inv(After(db, ledger, id, now), ledger)
  {
    hide Inv, Execute;
    ExecuteKeepsInv(db, ledger, id, now);
    LastKeepsInv(db, Execute(db, ledger, id, now).trace, ledger);
  }

  /** The crash came while the first row was at work. */
  lemma CrashInFirst(db: Db, ledger: Ledger, ids: seq<J.EntryId>, writes: nat, now: Time)
    requires Inv(db, ledger) && ids != [] && writes <= |Execute(db, ledger, ids[0], now).trace|
    ensures Alike(EndOf(Restart(Stopped(db, SweepTrace(db, ledger, ids, now), writes)), ledger, ids, now),
                  EndOf(db, ledger, ids, now))
  {
    hide Inv, Execute, Alike, Restart, SweepTrace, Stopped, EndOf, After;
    CrashAt(db, ledger, ids, writes, now);
    var back := Restart(Stopped(db, SweepTrace(db, ledger, ids, now), writes));
    EndUnrolls(db, ledger, ids, now);
    EndUnrolls(back, ledger, ids, now);
    FirstRowAgain(db, ledger, ids[0], writes, now);
    SweepAlike(After(back, ledger, ids[0], now), After(db, ledger, ids[0], now), ledger, ids[1..], now);
  }

  /** Stop a sweep anywhere, restart, and work through the same list again. */
  lemma {:induction false} CrashThenSameList(db: Db, ledger: Ledger, ids: seq<J.EntryId>, writes: nat, now: Time)
    requires Inv(db, ledger)
    ensures Alike(EndOf(Restart(Stopped(db, SweepTrace(db, ledger, ids, now), writes)), ledger, ids, now),
                  EndOf(db, ledger, ids, now))
    decreases ids
  {
    hide Inv, Execute, Alike, Restart, SweepTrace, Stopped, EndOf;
    if ids == [] {
      EmptyList(db, ledger, writes, now);
    } else if writes <= |Execute(db, ledger, ids[0], now).trace| {
      CrashInFirst(db, ledger, ids, writes, now);
    } else {
      var first := Execute(db, ledger, ids[0], now).trace;
      var next := After(db, ledger, ids[0], now);
      var back := Restart(Stopped(db, SweepTrace(db, ledger, ids, now), writes));
      CrashAt(db, ledger, ids, writes, now);
      EndUnrolls(db, ledger, ids, now);
      EndUnrolls(back, ledger, ids, now);
      AfterKeepsInv(db, ledger, ids[0], now);
      CrashThenSameList(next, ledger, ids[1..], writes - |first|, now);
      DoneIsSkipped(db, ledger, ids, writes, now);
    }
  }

  lemma FirstRowAgain(db: Db, ledger: Ledger, id: J.EntryId, writes: nat, now: Time)
    requires Inv(db, ledger) && writes <= |Execute(db, ledger, id, now).trace|
    ensures Alike(After(Restart(Stopped(db, Execute(db, ledger, id, now).trace, writes)), ledger, id, now),
                  After(db, ledger, id, now))
  {
    hide Inv, Execute, Alike, Restart;
    if writes == 0 {
      assert Execute(db, ledger, id, now).trace[..0] == [];
      RestartAlike(db);
      ExecuteAlike(Restart(db), db, ledger, id, now);
    } else {
      CrashIsAlike(db, ledger, id, Attempt(now, writes), now);
    }
  }

  // ---------- The next sweep lists fewer rows ----------

  ghost predicate Rising(ids: seq<J.EntryId>) {
    forall j, k :: 0 <= j < k < |ids| ==> ids[j] < ids[k]
  }

  lemma RisingFrom(ids: seq<J.EntryId>, x: J.EntryId)
    requires Rising(ids) && x in ids
    ensures ids != [] && x >= ids[0] && (x != ids[0] <==> x in ids[1..])
  {
  }

  lemma SomeMember(ids: seq<J.EntryId>)
    ensures ids == [] || exists x :: x in ids
  {
    if ids != [] {
      assert ids[0] in ids;
    }
  }

  /** Settled rows in a list are passed over. */
  lemma {:induction false} SettledAreSkipped(db: Db, ledger: Ledger, ids: seq<J.EntryId>, unsettled: seq<J.EntryId>,
                                             now: Time)
    requires Rising(ids) && Rising(unsettled) && (forall id <- unsettled :: id in ids)
    requires forall id <- ids :: id in unsettled || (id < |db.journal| && J.Terminal(db.journal[id].state))
    ensures EndOf(db, ledger, ids, now) == EndOf(db, ledger, unsettled, now)
    decreases ids
  {
    hide Execute, SweepTrace;
    if ids == [] {
      SomeMember(unsettled);
      assert unsettled == ids;
    } else {
      hide EndOf;
      var id := ids[0];
      EndUnrolls(db, ledger, ids, now);
      if unsettled != [] && unsettled[0] == id {
        EndUnrolls(db, ledger, unsettled, now);
        StillSettled(db, ledger, ids, unsettled, now);
        SettledAreSkipped(After(db, ledger, id, now), ledger, ids[1..], unsettled[1..], now);
      } else {
        forall x | x in unsettled
          ensures x in ids[1..]
        {
          RisingFrom(unsettled, x);
          RisingFrom(ids, unsettled[0]);
          RisingFrom(ids, x);
        }
        forall x | x in ids[1..]
          ensures x in ids && x != id
        {
          RisingFrom(ids, x);
        }
        RisingFrom(ids, id);
        TerminalRuns(db, ledger, id, now);
        SettledAreSkipped(db, ledger, ids[1..], unsettled, now);
      }
    }
  }

  lemma StillSettled(db: Db, ledger: Ledger, ids: seq<J.EntryId>, unsettled: seq<J.EntryId>, now: Time)
    requires Rising(ids) && Rising(unsettled) && (forall id <- unsettled :: id in ids) && ids != [] && unsettled != []
             && unsettled[0] == ids[0]
    requires forall id <- ids :: id in unsettled || (id < |db.journal| && J.Terminal(db.journal[id].state))
    ensures forall x <- unsettled[1..] :: x in ids[1..]
    ensures var next := After(db, ledger, ids[0], now);
            forall x <- ids[1..] :: x in unsettled[1..] || (x < |next.journal| && J.Terminal(next.journal[x].state))
  {
    hide After, Rising;
    var next := After(db, ledger, ids[0], now);
    ExecuteQuiets(db, ledger, ids[0], now);
    forall x | x in unsettled[1..]
      ensures x in ids[1..]
    {
      RisingFrom(unsettled, x);
      RisingFrom(ids, x);
    }
    forall x | x in ids[1..]
      ensures x in unsettled[1..] || (x < |next.journal| && J.Terminal(next.journal[x].state))
    {
      RisingFrom(ids, x);
      if x in unsettled {
        RisingFrom(unsettled, x);
      }
    }
  }

  lemma TerminalRuns(db: Db, ledger: Ledger, id: J.EntryId, now: Time)
    requires id < |db.journal| && J.Terminal(db.journal[id].state)
    ensures After(db, ledger, id, now) == db
  {
  }

  function OpenRows(db: Db): seq<J.EntryId> {
    J.ListByState(db.journal, J.Queued, J.Promoting)
  }

  lemma OpenIsUnsettled(db: Db, id: J.EntryId)
    ensures id in OpenRows(db) <==> id < |db.journal| && !J.Terminal(db.journal[id].state)
  {
  }

  /** A crash anywhere in a sweep, a restart and a sweep at the same time do what the uninterrupted sweep does. */
  lemma SweepCrash(db: Db, ledger: Ledger, writes: nat, now: Time)
    requires Inv(db, ledger)
    ensures Alike(Sweep(Restart(Stopped(db, SweepTrace(db, ledger, OpenRows(db), now), writes)), ledger, now),
                  Sweep(db, ledger, now))
  {
    hide Inv, Alike, Restart, SweepTrace;
    var ids := OpenRows(db);
    var crashed := Stopped(db, SweepTrace(db, ledger, ids, now), writes);
    var back := Restart(crashed);
    CrashThenSameList(db, ledger, ids, writes, now);
    RestartEffect(crashed);
    SweepKeepsLength(db, ledger, ids, writes, now);
    forall id: J.EntryId
      ensures id in OpenRows(back) ==> id in ids
      ensures id in ids ==> id in OpenRows(back) || (id < |back.journal| && J.Terminal(back.journal[id].state))
    {
      OpenIsUnsettled(db, id);
      OpenIsUnsettled(back, id);
      if id < |db.journal| && J.Terminal(db.journal[id].state) {
        SweepLeaves(db, ledger, ids, writes, id, now);
      }
    }
    SettledAreSkipped(back, ledger, ids, OpenRows(back), now);
  }

  lemma SweepKeepsLength(db: Db, ledger: Ledger, ids: seq<J.EntryId>, writes: nat, now: Time)
    ensures |Stopped(db, SweepTrace(db, ledger, ids, now), writes).journal| == |db.journal|
  {
    hide SweepTrace;
    SweepLeaves(db, ledger, ids, writes, |db.journal|, now);
  }

  /** Sweeps that die, each followed by a restart. */
  function Recovered(db: Db, ledger: Ledger, stops: seq<nat>, now: Time): Db
    decreases stops
  {
    if stops == [] then db
    else Recovered(Restart(Stopped(db, SweepTrace(db, ledger, OpenRows(db), now), stops[0])), ledger, stops[1..], now)
  }

  /**
   * Recovery: however many sweeps die, after whichever of their writes, restarting each time, the sweep that completes
   * leaves the beliefs, approvals and settled rows of one that was never interrupted.
   */
  lemma {:induction false} RecoveryRefines(db: Db, ledger: Ledger, stops: seq<nat>, now: Time)
    requires Inv(db, ledger)
    ensures Alike(Sweep(Recovered(db, ledger, stops, now), ledger, now), Sweep(db, ledger, now))
    decreases stops
  {
    hide Inv, Alike, Restart, SweepTrace, Sweep, Stopped;
    if stops == [] {
      AlikeItself(Sweep(db, ledger, now));
    } else {
      var trace := SweepTrace(db, ledger, OpenRows(db), now);
      var next := Restart(Stopped(db, trace, stops[0]));
      SweepKeepsInv(db, ledger, OpenRows(db), now);
      StoppedKeepsInv(db, ledger, trace, stops[0]);
      RecoveryRefines(next, ledger, stops[1..], now);
      SweepCrash(db, ledger, stops[0], now);
      AlikeTransitive(Sweep(Recovered(next, ledger, stops[1..], now), ledger, now), Sweep(next, ledger, now),
                      Sweep(db, ledger, now));
    }
  }
}
