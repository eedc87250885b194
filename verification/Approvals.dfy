/** The `approvals` table and its event log: guarded decisions and lazy expiry. */
module Approvals {
  import opened Wrappers
  import opened ClaimStore

  type ApprovalId = nat

  datatype Status = Pending | Approved | Rejected | Cancelled | Expired
  datatype EventKind = Created | Became(status: Status)
  datatype Event = Event(approvalId: ApprovalId, kind: EventKind)
  datatype Approval = Approval(status: Status, expiresAt: Option<Time>)
  datatype Table = Table(rows: seq<Approval>, events: seq<Event>)
  datatype Error = NotFound | InvalidTransition(from: Status, to: Status)

  predicate Lapsed(a: Approval, now: Time) {
    a.status == Pending && a.expiresAt.Some? && a.expiresAt.value <= now
  }

  function Create(t: Table, expiresAt: Option<Time>): Table {
    Table(t.rows + [Approval(Pending, expiresAt)], t.events + [Event(|t.rows|, Created)])
  }

  function Decide(t: Table, id: ApprovalId, to: Status): Table
    requires id < |t.rows|
  {
    Table(t.rows[id := t.rows[id].(status := to)], t.events + [Event(id, Became(to))])
  }

  /** Reading a lapsed request flips it to expired first. */
  function ExpireIfLapsed(t: Table, id: ApprovalId, now: Time): Table {
    if id < |t.rows| && Lapsed(t.rows[id], now) then Decide(t, id, Expired) else t
  }

  function Resolve(t: Table, id: ApprovalId, to: Status, now: Time): Table {
    var t' := ExpireIfLapsed(t, id, now);
    if id < |t'.rows| && t'.rows[id].status == Pending then Decide(t', id, to) else t'
  }

  /** Expires every lapsed request from position `from` on. */
  function ExpireAll(t: Table, from: nat, now: Time): Table
    decreases |t.rows| - from
  {
    if from >= |t.rows| then t else ExpireAll(ExpireIfLapsed(t, from, now), from + 1, now)
  }

  /** The event kinds logged for one request, in order. */
  function Log(events: seq<Event>, id: ApprovalId): seq<EventKind> {
    if events == [] then []
    else
      var n := |events| - 1;
      Log(events[..n], id) + (if events[n].approvalId == id then [events[n].kind] else [])
  }

  /** Each request has its creation logged once, then its decision at most once. */
  ghost predicate LogMatches(t: Table) {
    && (forall i :: 0 <= i < |t.rows| ==>
          Log(t.events, i) == [Created] + (if t.rows[i].status == Pending then [] else [Became(t.rows[i].status)]))
    && forall k :: 0 <= k < |t.events| ==> t.events[k].approvalId < |t.rows|
  }

  /** A later table keeps every request; one that left `pending` keeps its status for good. */
  ghost predicate Settles(t: Table, t': Table) {
    && |t.rows| <= |t'.rows|
    && forall i :: 0 <= i < |t.rows| && t.rows[i].status != Pending ==> t'.rows[i].status == t.rows[i].status
  }

  lemma {:induction false} LogOfStranger(events: seq<Event>, id: ApprovalId)
    requires forall k :: 0 <= k < |events| ==> events[k].approvalId != id
    ensures Log(events, id) == []
  {
    if events != [] {
      LogOfStranger(events[..|events| - 1], id);
    }
  }

  lemma LogGrows(events: seq<Event>, e: Event, id: ApprovalId)
    ensures Log(events + [e], id) == Log(events, id) + (if e.approvalId == id then [e.kind] else [])
  {
    assert (events + [e])[..|events|] == events;
  }

  lemma CreateKeepsLog(t: Table, expiresAt: Option<Time>)
    requires LogMatches(t)
    ensures LogMatches(Create(t, expiresAt)) && Settles(t, Create(t, expiresAt))
  {
    var t' := Create(t, expiresAt);
    forall i | 0 <= i < |t'.rows|
      ensures Log(t'.events, i) ==
              [Created] + (if t'.rows[i].status == Pending then [] else [Became(t'.rows[i].status)])
    {
      LogGrows(t.events, Event(|t.rows|, Created), i);
      if i == |t.rows| {
        LogOfStranger(t.events, i);
      }
    }
  }

  lemma DecideKeepsLog(t: Table, id: ApprovalId, to: Status)
    requires LogMatches(t) && id < |t.rows| && t.rows[id].status == Pending && to != Pending
    ensures LogMatches(Decide(t, id, to)) && Settles(t, Decide(t, id, to))
  {
    var t' := Decide(t, id, to);
    forall i | 0 <= i < |t'.rows|
      ensures Log(t'.events, i) ==
              [Created] + (if t'.rows[i].status == Pending then [] else [Became(t'.rows[i].status)])
    {
      LogGrows(t.events, Event(id, Became(to)), i);
    }
  }

  /** Deciding and reading keep one decision event per settled request, and settled requests stay settled. */
  lemma ResolveKeepsLog(t: Table, id: ApprovalId, to: Status, now: Time)
    requires LogMatches(t) && to != Pending
    ensures LogMatches(Resolve(t, id, to, now)) && Settles(t, Resolve(t, id, to, now))
    ensures LogMatches(ExpireIfLapsed(t, id, now)) && Settles(t, ExpireIfLapsed(t, id, now))
  {
    if id < |t.rows| && Lapsed(t.rows[id], now) {
      DecideKeepsLog(t, id, Expired);
    } else if id < |t.rows| && t.rows[id].status == Pending {
      DecideKeepsLog(t, id, to);
    }
  }

  /** The bulk expiry expires exactly the pending requests whose time has come, and the log still matches. */
  lemma {:induction false} ExpireAllKeepsLog(t: Table, from: nat, now: Time)
    requires LogMatches(t)
    ensures LogMatches(ExpireAll(t, from, now)) && Settles(t, ExpireAll(t, from, now))
    ensures |ExpireAll(t, from, now).rows| == |t.rows|
    ensures forall i :: 0 <= i < from && i < |t.rows| ==> ExpireAll(t, from, now).rows[i] == t.rows[i]
    ensures forall i :: from <= i < |t.rows| ==>
                          var a := t.rows[i];
                          var late := a.status == Pending && a.expiresAt.Some? && now >= a.expiresAt.value;
                          ExpireAll(t, from, now).rows[i] == if late then a.(status := Expired) else a
    decreases |t.rows| - from
  {
    hide LogMatches;
    if from < |t.rows| {
      ResolveKeepsLog(t, from, Expired, now);
      ExpireAllKeepsLog(ExpireIfLapsed(t, from, now), from + 1, now);
    }
  }

  class ApprovalRepository {
    var table: Table

    constructor ()
      ensures table == Table([], [])
    {
      table := Table([], []);
    }

    method Request(expiresAt: Option<Time>) returns (id: ApprovalId)
      modifies this
      ensures table == Create(old(table), expiresAt) && id == |old(table).rows|
    {
      id := |table.rows|;
      table := Table(table.rows + [Approval(Pending, expiresAt)], table.events + [Event(id, Created)]);
    }

    method Get(id: ApprovalId, now: Time) returns (found: Option<Approval>)
      modifies this
      ensures table == ExpireIfLapsed(old(table), id, now)
      ensures found == if id < |table.rows| then Some(table.rows[id]) else None
    {
      if id >= |table.rows| {
        return None;
      }
      if Lapsed(table.rows[id], now) {
        table := Decide(table, id, Expired);
      }
      return Some(table.rows[id]);
    }

    method ResolveApproval(id: ApprovalId, to: Status, now: Time) returns (r: Result<Approval, Error>)
      requires to != Pending && to != Expired
      modifies this
      ensures table == Resolve(old(table), id, to, now)
      ensures r.Ok? <==>
              && id < |old(table).rows| && old(table).rows[id].status == Pending
              && (old(table).rows[id].expiresAt.Some? ==> now < old(table).rows[id].expiresAt.value)
      ensures r.Ok? ==> id < |table.rows| && r.value == table.rows[id] && r.value.status == to
    {
      var current := Get(id, now);
      if current.None? {
        return Fail(NotFound);
      }
      if current.value.status != Pending {
        return Fail(InvalidTransition(current.value.status, to));
      }
      table := Decide(table, id, to);
      return Ok(table.rows[id]);
    }

    method ExpireLapsed(now: Time)
      modifies this
      ensures table == ExpireAll(old(table), 0, now)
    {
      for i := 0 to |table.rows|
        invariant |table.rows| == |old(table).rows|
        invariant ExpireAll(table, i, now) == ExpireAll(old(table), 0, now)
      {
        if Lapsed(table.rows[i], now) {
          table := Decide(table, i, Expired);
        }
      }
    }
  }
}
