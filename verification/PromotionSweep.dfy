/** Sweeping settles every row it can, and sweeping again finds nothing to do. */
module PromotionSweep {
  import opened C = ClaimStore
  import opened Promotion
  import opened PromotionReplay
  import J = PromotionJournal
  import A = Approvals

  /** Settled for good, or waiting for a decision that has not lapsed. */
  predicate Quiet(db: Db, ledger: Ledger, id: J.EntryId, now: Time) {
    id < |db.journal| ==>
      || J.Terminal(db.journal[id].state)
      || (&& db.journal[id].candidateId in ledger && db.journal[id].approvalId.Some?
          && db.journal[id].approvalId.value < |db.approvals.rows|
          && db.approvals.rows[db.journal[id].approvalId.value].status == A.Pending
          && !A.Lapsed(db.approvals.rows[db.journal[id].approvalId.value], now))
  }

  lemma QuietRuns(db: Db, ledger: Ledger, id: J.EntryId, now: Time)
    requires Quiet(db, ledger, id, now)
    ensures Execute(db, ledger, id, now) == Run([], WasSkipped)
  {
  }

  /** Everything but the executed row's own journal line and its own approval is left alone. */
  ghost predicate OnlyTouches(db: Db, db': Db, id: J.EntryId, now: Time) {
    && |db'.journal| == |db.journal|
    && (forall r :: 0 <= r < |db.journal| && r != id ==> db'.journal[r] == db.journal[r])
    && |db'.approvals.rows| == |db.approvals.rows|
    && forall a :: 0 <= a < |db.approvals.rows| ==>
                     db'.approvals.rows[a] == db.approvals.rows[a] || A.Lapsed(db.approvals.rows[a], now)
  }

  lemma PromotionTouches(db: Db, c: Candidate, id: J.EntryId, now: Time)
    requires id < |db.journal| && !J.Terminal(db.journal[id].state)
    ensures OnlyTouches(db, Last(db, Promote(db, c, id, now).trace), id, now)
  {
    hide Apply;
    if c.role != UnknownRole {
      var claimed := Journal(db, id, J.Promoting, J.BARE);
      ApplyLeavesRest(claimed, c, db.journal[id], now);
    }
  }

  /** Executing a row quiets it. */
  lemma ExecuteQuiets(db: Db, ledger: Ledger, id: J.EntryId, now: Time)
    ensures Quiet(After(db, ledger, id, now), ledger, id, now)
    ensures OnlyTouches(db, After(db, ledger, id, now), id, now)
  {
    if id < |db.journal| && !J.Terminal(db.journal[id].state) && db.journal[id].candidateId in ledger {
      var row := db.journal[id];
      if row.approvalId.None? {
        PromotionSettles(db, ledger[row.candidateId], id, now);
        PromotionTouches(db, ledger[row.candidateId], id, now);
      } else if row.approvalId.value < |db.approvals.rows| {
        var a := row.approvalId.value;
        var read := db.(approvals := A.ExpireIfLapsed(db.approvals, a, now));
        var status := read.approvals.rows[a].status;
        if status == A.Approved {
          PromotionSettles(read, ledger[row.candidateId], id, now);
          PromotionTouches(read, ledger[row.candidateId], id, now);
        } else if status != A.Pending {
          DenialRow(read, id, a);
        }
      }
    }
  }

  /** One execution does not disturb a quiet row. */
  lemma QuietStays(db: Db, db': Db, ledger: Ledger, id: J.EntryId, other: J.EntryId, now: Time)
    requires OnlyTouches(db, db', id, now) && Quiet(db', ledger, id, now)
    requires Quiet(db, ledger, other, now)
    ensures Quiet(db', ledger, other, now)
  {
  }

  lemma {:induction false} SweepQuiets(db: Db, ledger: Ledger, ids: seq<J.EntryId>, now: Time)
    requires forall id :: 0 <= id < |db.journal| && !Quiet(db, ledger, id, now) ==> id in ids
    ensures var db' := Last(db, SweepTrace(db, ledger, ids, now));
            |db'.journal| == |db.journal| && forall id: nat :: Quiet(db', ledger, id, now)
    decreases ids
  {
    if ids != [] {
      var db1 := After(db, ledger, ids[0], now);
      ExecuteQuiets(db, ledger, ids[0], now);
      forall id | 0 <= id < |db1.journal| && !Quiet(db1, ledger, id, now)
        ensures id in ids[1..]
      {
        if Quiet(db, ledger, id, now) {
          QuietStays(db, db1, ledger, ids[0], id, now);
        }
      }
      SweepQuiets(db1, ledger, ids[1..], now);
      assert Last(db, SweepTrace(db, ledger, ids, now)) == Last(db1, SweepTrace(db1, ledger, ids[1..], now));
    }
  }

  lemma {:induction false} QuietSweepsNothing(db: Db, ledger: Ledger, ids: seq<J.EntryId>, now: Time)
    requires forall id: nat :: Quiet(db, ledger, id, now)
    ensures SweepTrace(db, ledger, ids, now) == []
    ensures forall o <- SweepOutcomes(db, ledger, ids, now) :: o == WasSkipped
    decreases ids
  {
    if ids != [] {
      QuietRuns(db, ledger, ids[0], now);
      QuietSweepsNothing(db, ledger, ids[1..], now);
    }
  }

  /**
   * After a sweep every row is settled or waits for a live decision, so a second sweep at the same
   * time writes nothing at all and skips every row it lists.
   */
  lemma SweepTwice(db: Db, ledger: Ledger, now: Time)
    ensures var swept := Sweep(db, ledger, now);
            && (forall id: nat :: Quiet(swept, ledger, id, now))
            && SweepTrace(swept, ledger, J.ListByState(swept.journal, J.Queued, J.Promoting), now) == []
            && forall o <- SweepOutcomes(swept, ledger, J.ListByState(swept.journal, J.Queued, J.Promoting), now) ::
                  o == WasSkipped
  {
    SweepQuiets(db, ledger, J.ListByState(db.journal, J.Queued, J.Promoting), now);
    var swept := Sweep(db, ledger, now);
    QuietSweepsNothing(swept, ledger, J.ListByState(swept.journal, J.Queued, J.Promoting), now);
  }
}
