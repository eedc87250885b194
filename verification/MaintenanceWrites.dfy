/** A maintenance pass is a sequence of the claim writes that runs of promotion allow at any time. */
module MaintenanceWrites {
  import opened Wrappers
  import opened C = ClaimStore
  import opened P = MaintenancePolicy
  import opened MaintenanceRevision
  import opened Maintenance
  import opened R = PromotionRuns
  import PI = PromotionInvariant
  import PR = Promotion

  /** One write of one claim. */
  datatype Write = Write(id: ClaimId, write: ClaimWrite)

  function WrittenAll(claims: seq<Claim>, ws: seq<Write>, now: Time): seq<Claim> {
    if ws == [] then claims
    else
      var n := |ws| - 1;
      Written(WrittenAll(claims, ws[..n], now), ws[n].id, ws[n].write, now)
  }

  /** Some sequence of writes turns one table into the other. */
  ghost predicate Leads(claims: seq<Claim>, claims': seq<Claim>, now: Time) {
    exists ws :: WrittenAll(claims, ws, now) == claims'
  }

  lemma LeadsNowhere(claims: seq<Claim>, now: Time)
    ensures Leads(claims, claims, now)
  {
    assert WrittenAll(claims, [], now) == claims;
  }

  lemma {:induction false} WritesAppend(claims: seq<Claim>, a: seq<Write>, b: seq<Write>, now: Time)
    ensures WrittenAll(claims, a + b, now) == WrittenAll(WrittenAll(claims, a, now), b, now)
  {
    hide Written;
    if b == [] {
      assert a + b == a;
    } else {
      var n := |b| - 1;
      WritesAppend(claims, a, b[..n], now);
      assert (a + b)[..|a + b| - 1] == a + b[..n];
    }
  }

  lemma LeadsOn(a: seq<Claim>, b: seq<Claim>, c: seq<Claim>, now: Time)
    requires Leads(a, b, now) && Leads(b, c, now)
    ensures Leads(a, c, now)
  {
    hide WrittenAll;
    var u :| WrittenAll(a, u, now) == b;
    var v :| WrittenAll(b, v, now) == c;
    WritesAppend(a, u, v, now);
  }

  lemma OneWrite(claims: seq<Claim>, id: ClaimId, w: ClaimWrite, now: Time)
    ensures Leads(claims, Written(claims, id, w, now), now)
  {
    hide Written;
    var ws := [Write(id, w)];
    assert ws[..0] == [];
    assert WrittenAll(claims, ws, now) == Written(claims, id, w, now);
  }

  // ---------- The writes of each rung ----------

  /** Setting the adjustable columns of one claim. */
  lemma ColumnWrite(claims: seq<Claim>, id: ClaimId, c: Claim, now: Time)
    requires id < |claims|
    requires c == claims[id].(confidence := c.confidence, locked := c.locked, activation := c.activation,
                              sourceType := c.sourceType, updatedAt := now)
    ensures Leads(claims, claims[id := c], now)
  {
    OneWrite(claims, id, SetColumns(c.confidence, c.locked, c.activation, c.sourceType, c.lastAccessedAt), now);
  }

  lemma LinkWrite(s: Store, id: ClaimId, more: seq<ClaimId>, now: Time)
    ensures Leads(s.claims, Related(s, id, more, now).claims, now)
  {
    OneWrite(s.claims, id, Link(more), now);
    assert id >= |s.claims| ==> AddRelated(s.claims, id, more, now).None?;
  }

  lemma StatusWrite(claims: seq<Claim>, id: ClaimId, status: Status, now: Time)
    requires SetStatus(claims, id, status, now).Some?
    ensures Leads(claims, SetStatus(claims, id, status, now).value, now)
  {
    OneWrite(claims, id, ToStatus(status), now);
  }

  lemma {:induction false} SettleWrites(env: Env, s: Store, contenders: seq<ClaimId>, w: ClaimId)
    ensures Leads(s.claims, SettleContenders(env, s, contenders, w).0.claims, env.now)
    decreases contenders
  {
    hide SetStatus, AddRelated, Related, Leads;
    if contenders == [] {
      LeadsNowhere(s.claims, env.now);
    } else if contenders[0] == w {
      SettleWrites(env, Log(s, w, Affirmed, env.now), contenders[1..], w);
    } else {
      var x := contenders[0];
      match SetStatus(s.claims, x, Contradicted, env.now)
      case None =>
        SettleWrites(env, s, contenders[1..], w);
      case Some(claims) =>
        var s1 := Log(s.(claims := claims), x, Superseded(w), env.now);
        var s2 := Related(s1, x, [w], env.now);
        var s3 := Related(s2, w, [x], env.now);
        StatusWrite(s.claims, x, Contradicted, env.now);
        LinkWrite(s1, x, [w], env.now);
        LinkWrite(s2, w, [x], env.now);
        SettleWrites(env, s3, contenders[1..], w);
        LeadsOn(s.claims, s1.claims, s2.claims, env.now);
        LeadsOn(s.claims, s2.claims, s3.claims, env.now);
        LeadsOn(s.claims, s3.claims, SettleContenders(env, s3, contenders[1..], w).0.claims, env.now);
    }
  }

  lemma {:induction false} SpreadWrites(env: Env, s: Store, neighbors: seq<ClaimId>, share: real)
    ensures Leads(s.claims, Spread(env, s, neighbors, share).claims, env.now)
    decreases neighbors
  {
    hide Leads;
    if neighbors == [] {
      LeadsNowhere(s.claims, env.now);
    } else if neighbors[0] >= |s.claims| {
      SpreadWrites(env, s, neighbors[1..], share);
    } else {
      var c := s.claims[neighbors[0]];
      var boosted := Min(1.0, (if c.activation.Some? then c.activation.value else 0.0) + share);
      var s1 := Log(SetActivation(s, neighbors[0], boosted, env.now), neighbors[0], Activated(None), env.now);
      ColumnWrite(s.claims, neighbors[0], c.(activation := Some(boosted), updatedAt := env.now), env.now);
      SpreadWrites(env, s1, neighbors[1..], share);
      LeadsOn(s.claims, s1.claims, Spread(env, s1, neighbors[1..], share).claims, env.now);
    }
  }

  lemma ReviseWrites(env: Env, s: Store, id: ClaimId)
    requires id < |s.claims| && Revise(env, s, id).Some?
    ensures Leads(s.claims, Revise(env, s, id).value.claims, env.now)
  {
    hide SettleContenders, Related, SessionMates, ActiveRivals, Leads;
    var contenders := [id] + ActiveRivals(s.claims, id);
    var w := PickRevisionWinner(s.claims, contenders);
    var s1 := SettleContenders(env, s, contenders, w).0;
    var mates := SessionMates(env, s.claims, contenders, Listed(s.claims), 5);
    SettleWrites(env, s, contenders, w);
    LinkWrite(s1, w, mates, env.now);
    LeadsOn(s.claims, s1.claims, Related(s1, w, mates, env.now).claims, env.now);
  }

  lemma ActivateWrites(env: Env, s: Store, id: ClaimId, c: Claim)
    requires id < |s.claims| && Activate(env, s, id, c).Some?
    ensures Leads(s.claims, Activate(env, s, id, c).value.claims, env.now)
  {
    hide Spread, Leads, LastBoostAccess;
    var was := s.claims[id];
    if c.lastAccessedAt.Some? && c.lastAccessedAt != LastBoostAccess(s.history, id) {
      var s1 := Log(SetActivation(s, id, ActivationBoost(c.activation), env.now), id, Activated(c.lastAccessedAt),
                    env.now);
      ColumnWrite(s.claims, id, was.(activation := Some(ActivationBoost(c.activation)), updatedAt := env.now), env.now);
      SpreadWrites(env, s1, Neighbors(c), SpreadShare(|c.related|));
      LeadsOn(s.claims, s1.claims, Spread(env, s1, Neighbors(c), SpreadShare(|c.related|)).claims, env.now);
    } else {
      var next := ActivationDecayStep(c.activation.value);
      ColumnWrite(s.claims, id, was.(activation := Some(next), updatedAt := env.now), env.now);
    }
  }

  lemma RungWrites(env: Env, s: Store, id: ClaimId, c: Claim, family: set<ClaimId>, which: Outcome)
    requires id < |s.claims| && Rung(env, s, id, c, family, which).Some?
    ensures Leads(s.claims, Rung(env, s, id, c, family, which).value.claims, env.now)
  {
    hide Leads, Latest, Revise, Activate, Related, DecayStep, CompoundConfidence;
    var was, s' := s.claims[id], Rung(env, s, id, c, family, which).value;
    match which
    case DidLink => LinkWrite(s, id, Without(Counterparts(env.journal, id), c.related), env.now);
    case DidProposeGist => LeadsNowhere(s.claims, env.now);
    case DidRevise => ReviseWrites(env, s, id);
    case DidActivate => ActivateWrites(env, s, id, c);
    case DidSkip =>
    case _ => ColumnWrite(s.claims, id, s'.claims[id], env.now);
  }

  lemma VisitWrites(env: Env, s: Store, id: ClaimId, c: Claim, family: set<ClaimId>)
    requires id < |s.claims|
    ensures Leads(s.claims, MaintainOne(env, s, id, c, family).0.claims, env.now)
  {
    hide Rung, Leads;
    LeadsNowhere(s.claims, env.now);
    var outcome := MaintainOne(env, s, id, c, family).1;
    if outcome != DidSkip {
      RungWrites(env, s, id, c, family, outcome);
    }
  }

  lemma {:induction false} EachWrites(env: Env, snapshot: seq<Claim>, s: Store, ids: seq<ClaimId>)
    requires InTable(snapshot, ids)
    ensures Leads(s.claims, MaintainEach(env, snapshot, s, ids).0.claims, env.now)
    decreases ids
  {
    hide MaintainOne, Family, Leads;
    if ids == [] {
      LeadsNowhere(s.claims, env.now);
    } else if ids[0] >= |s.claims| {
      EachWrites(env, snapshot, s, ids[1..]);
    } else {
      var family := Family(snapshot, snapshot[ids[0]]);
      var s1 := MaintainOne(env, s, ids[0], snapshot[ids[0]], family).0;
      VisitWrites(env, s, ids[0], snapshot[ids[0]], family);
      EachWrites(env, snapshot, s1, ids[1..]);
      LeadsOn(s.claims, s1.claims, MaintainEach(env, snapshot, s1, ids[1..]).0.claims, env.now);
    }
  }

  lemma SuppressOneWrites(env: Env, s: Store, id: ClaimId, at: Time)
    ensures Leads(s.claims, SuppressOne(env, s, id, at).claims, env.now)
  {
    hide Leads, Latest;
    LeadsNowhere(s.claims, env.now);
    if id < |s.claims| && s.claims[id].activation.Some? {
      var next := Max(0.0, s.claims[id].activation.value - SUPPRESS_STEP);
      ColumnWrite(s.claims, id, s.claims[id].(activation := Some(next), updatedAt := env.now), env.now);
    }
  }

  lemma {:induction false} SuppressRowsWrites(env: Env, s: Store, ids: seq<ClaimId>, at: Time)
    ensures Leads(s.claims, SuppressRows(env, s, ids, at).claims, env.now)
    decreases ids
  {
    hide Leads, SuppressOne;
    LeadsNowhere(s.claims, env.now);
    if ids != [] {
      var s1 := SuppressOne(env, s, ids[0], at);
      SuppressOneWrites(env, s, ids[0], at);
      SuppressRowsWrites(env, s1, ids[1..], at);
      LeadsOn(s.claims, s1.claims, SuppressRows(env, s1, ids[1..], at).claims, env.now);
    }
  }

  lemma {:induction false} SuppressWrites(env: Env, s: Store, traces: seq<Trace>)
    ensures Leads(s.claims, SuppressFromTraces(env, s, traces).claims, env.now)
    decreases traces
  {
    hide Leads, SuppressRows;
    LeadsNowhere(s.claims, env.now);
    if traces != [] {
      var s1 := SuppressRows(env, s, traces[0].familiar, traces[0].at);
      SuppressRowsWrites(env, s, traces[0].familiar, traces[0].at);
      SuppressWrites(env, s1, traces[1..]);
      LeadsOn(s.claims, s1.claims, SuppressFromTraces(env, s1, traces[1..]).claims, env.now);
    }
  }

  // ---------- A pass inside a run ----------

  /** What a pass does to the claims, some claim writes do. */
  lemma PassIsWrites(env: Env, s: Store)
    ensures Leads(s.claims, RunPass(env, s).store.claims, env.now)
  {
    hide Leads, SuppressFromTraces, MaintainEach;
    var s0 := SuppressFromTraces(env, s, env.traces);
    SuppressWrites(env, s, env.traces);
    EachWrites(env, s0.claims, s0, Listed(s0.claims));
    LeadsOn(s.claims, s0.claims, RunPass(env, s).store.claims, env.now);
  }

  function StepsOf(ws: seq<Write>, now: Time): seq<R.Step> {
    if ws == [] then []
    else StepsOf(ws[..|ws| - 1], now) + [R.Step(Writes(ws[|ws| - 1].id, ws[|ws| - 1].write, now), 1)]
  }

  lemma {:induction false} StepsAppend(db: PR.Db, ledger: PR.Ledger, a: seq<R.Step>, b: seq<R.Step>)
    ensures RunSteps(db, ledger, a + b) == RunSteps(RunSteps(db, ledger, a), ledger, b)
    decreases a
  {
    hide TakeStep;
    if a == [] {
      assert a + b == b;
    } else {
      assert (a + b)[1..] == a[1..] + b;
      StepsAppend(TakeStep(db, ledger, a[0]), ledger, a[1..], b);
    }
  }

  lemma {:induction false} StepsWrite(db: PR.Db, ledger: PR.Ledger, ws: seq<Write>, now: Time)
    ensures RunSteps(db, ledger, StepsOf(ws, now)) == db.(claims := WrittenAll(db.claims, ws, now))
  {
    hide Written;
    if ws != [] {
      var n := |ws| - 1;
      var step := R.Step(Writes(ws[n].id, ws[n].write, now), 1);
      StepsWrite(db, ledger, ws[..n], now);
      StepsAppend(db, ledger, StepsOf(ws[..n], now), [step]);
      assert [step][1..] == [];
    }
  }

  /** So a pass can stand anywhere in a run: some steps of a run do to the database exactly what the pass does. */
  lemma PassInRun(env: Env, history: seq<Row>, db: PR.Db, ledger: PR.Ledger) returns (steps: seq<R.Step>)
    ensures RunSteps(db, ledger, steps) == db.(claims := RunPass(env, Store(db.claims, history)).store.claims)
  {
    hide RunPass, RunSteps, WrittenAll;
    var s := Store(db.claims, history);
    PassIsWrites(env, s);
    var ws :| WrittenAll(s.claims, ws, env.now) == RunPass(env, s).store.claims;
    steps := StepsOf(ws, env.now);
    StepsWrite(db, ledger, ws, env.now);
  }

  /** And it keeps the promotion invariant. */
  lemma PassKeepsPromotionInv(env: Env, history: seq<Row>, db: PR.Db, ledger: PR.Ledger)
    requires PI.Inv(db, ledger)
    ensures PI.Inv(db.(claims := RunPass(env, Store(db.claims, history)).store.claims), ledger)
  {
    hide RunPass, RunSteps, PI.Inv;
    var steps := PassInRun(env, history, db, ledger);
    RunKeepsInv(db, ledger, steps);
  }

  lemma {:induction false} WritesKeepLength(claims: seq<Claim>, ws: seq<Write>, now: Time)
    ensures |WrittenAll(claims, ws, now)| == |claims|
  {
    if ws != [] {
      WritesKeepLength(claims, ws[..|ws| - 1], now);
    }
  }

  /** A pass adds and removes no claim. */
  lemma PassKeepsLength(env: Env, s: Store)
    ensures |RunPass(env, s).store.claims| == |s.claims|
  {
    hide RunPass, WrittenAll;
    PassIsWrites(env, s);
    var ws :| WrittenAll(s.claims, ws, env.now) == RunPass(env, s).store.claims;
    WritesKeepLength(s.claims, ws, env.now);
  }
}
