/** Whole passes: what each one pays, where repeated passes end, and when the lock rung keeps toggling. */
module MaintenancePasses {
  import opened C = ClaimStore
  import opened P = MaintenancePolicy
  import opened Maintenance
  import opened MaintenanceConvergence

  // ---------- One pass ----------

  lemma RungPays(env: Env, s0: Store, s: Store, id: ClaimId, c: Claim, family: set<ClaimId>, which: Outcome)
    requires Since(env, s0, s, id, c) && family == Family(s0.claims, c) && id < |s.claims|
    requires Rung(env, s, id, c, family, which).Some?
    ensures NoWorse(env, s, Rung(env, s, id, c, family, which).value)
    ensures which != DidLock ==> Pays(env, s0, Rung(env, s, id, c, family, which).value)
  {
    hide Compound, Decay, LinkCounterparts, ProposeGist, Revise, MaintainLock, Activate, Classify, Family, NoWorse,
         Pays;
    match which
    case DidCompound => CompoundPays(env, s0, s, id, c);
    case DidDecay => DecayPays(env, s0, s, id, c);
    case DidLink => LinkPays(env, s0, s, id, c);
    case DidProposeGist => GistPays(env, s0, s, id, c, family);
    case DidRevise => RevisePays(env, s0, s, id, c);
    case DidLock => LockNoWorse(env, s, id, c);
    case DidActivate => ActivatePays(env, s0, s, id, c);
    case DidClassify => ClassifyPays(env, s0, s, id, c);
    case DidSkip =>
  }

  /** The claims still to be visited look as they did in the listing. */
  ghost predicate Unvisited(s0: Store, s: Store, ids: seq<ClaimId>) {
    && Distinct(ids) && |s.claims| == |s0.claims|
    && forall k :: 0 <= k < |ids| ==> ids[k] < |s0.claims| && Snapshot(s0.claims[ids[k]], s.claims[ids[k]])
  }

  lemma StillUnvisited(s0: Store, s: Store, s': Store, ids: seq<ClaimId>)
    requires ids != [] && Unvisited(s0, s, ids) && Advances(s, s') && KeepsStamps(s, s', ids[0])
    ensures Unvisited(s0, s', ids[1..])
  {
    assert forall k :: 0 <= k < |ids[1..]| ==> ids[1..][k] == ids[k + 1] && ids[k + 1] != ids[0];
  }

  predicate Busy(outcome: Outcome) { outcome != DidSkip && outcome != DidLock }

  /** Visiting one claim: the rest stay unvisited, nothing gets worse, and a busy visit pays. */
  lemma VisitPays(env: Env, s0: Store, s: Store, ids: seq<ClaimId>)
    requires Sane(env, s0) && Sane(env, s) && NoWorse(env, s0, s) && Unvisited(s0, s, ids) && ids != []
    ensures var (s1, outcome) := MaintainOne(env, s, ids[0], s0.claims[ids[0]], Family(s0.claims, s0.claims[ids[0]]));
            && Unvisited(s0, s1, ids[1..]) && Sane(env, s1)
            && NoWorse(env, s, s1) && NoWorse(env, s0, s1)
            && (Busy(outcome) ==> Pays(env, s0, s1))
            && (outcome == DidSkip ==> s1 == s)
  {
    hide Rung, Family, Advances, KeepsStamps, DebtOf, Pays;
    var id, c := ids[0], s0.claims[ids[0]];
    var family := Family(s0.claims, c);
    var (s1, outcome) := MaintainOne(env, s, id, c, family);
    ColumnsNoWorseSelf(env, s);
    if outcome == DidSkip {
      StillUnvisited(s0, s, s1, ids);
    } else {
      RungAdvances(env, s, id, c, family, outcome);
      StillUnvisited(s0, s, s1, ids);
      RungPays(env, s0, s, id, c, family, outcome);
      NoWorseTransitive(env, s0, s, s1);
    }
  }

  lemma {:induction false} EachPays(env: Env, s0: Store, s: Store, ids: seq<ClaimId>)
    requires Sane(env, s0) && Sane(env, s) && NoWorse(env, s0, s) && Unvisited(s0, s, ids)
    ensures var (s', outcomes) := MaintainEach(env, s0.claims, s, ids);
            && NoWorse(env, s0, s') && NoWorse(env, s, s')
            && ((exists k :: 0 <= k < |outcomes| && Busy(outcomes[k])) ==> Pays(env, s0, s'))
            && ((forall k :: 0 <= k < |outcomes| ==> outcomes[k] == DidSkip) ==> s' == s)
    decreases ids
  {
    hide Pays, NoWorse, Sane, MaintainOne, Family;
    ColumnsNoWorseSelf(env, s);
    if ids != [] {
      var (s1, outcome) := MaintainOne(env, s, ids[0], s0.claims[ids[0]], Family(s0.claims, s0.claims[ids[0]]));
      var (s', outcomes) := MaintainEach(env, s0.claims, s1, ids[1..]);
      VisitPays(env, s0, s, ids);
      EachPays(env, s0, s1, ids[1..]);
      NoWorseTransitive(env, s, s1, s');
      NoWorseTransitive(env, s0, s1, s');
      var full := MaintainEach(env, s0.claims, s, ids).1;
      assert full == [outcome] + outcomes;
      assert forall k :: 0 <= k < |outcomes| ==> outcomes[k] == full[k + 1];
      assert full[0] == outcome;
    }
  }

  lemma ColumnsNoWorseSelf(env: Env, s: Store)
    requires Sane(env, s)
    ensures NoWorse(env, s, s) && Advances(s, s) && forall id :: KeepsStamps(s, s, id)
  {
    ColumnsNoWorse(env, s, s);
  }

  // ---------- Suppression ----------

  /** A claim that is suppressed owed it. */
  lemma SuppressOwed(env: Env, s: Store, id: ClaimId, at: Time)
    requires at <= env.now && SuppressOne(env, s, id, at) != s
    ensures id < |s.claims| && s.claims[id].activation.Some? && DebtOf(env, s, id).suppress == 1
    ensures SuppressOne(env, s, id, at) ==
            Log(SetActivation(s, id, Max(0.0, s.claims[id].activation.value - SUPPRESS_STEP), env.now), id, Suppressed,
                env.now)
  {
    hide Without, Family, Latest, LastBoostAccess, Counterparts;
  }

  lemma SuppressOnePays(env: Env, s: Store, id: ClaimId, at: Time)
    requires Sane(env, s) && at <= env.now
    ensures NoWorse(env, s, SuppressOne(env, s, id, at))
    ensures SuppressOne(env, s, id, at) != s ==> Pays(env, s, SuppressOne(env, s, id, at))
  {
    hide NoWorse, Sane, Advances, DebtOf, SuppressOne;
    ColumnsNoWorseSelf(env, s);
    var s' := SuppressOne(env, s, id, at);
    if s' != s {
      SuppressOwed(env, s, id, at);
      var next := Max(0.0, s.claims[id].activation.value - SUPPRESS_STEP);
      ActivationAdvances(s, id, next, env.now);
      WriteThenLog(env, s, SetActivation(s, id, next, env.now), id, Suppressed);
      OwesAtMost(env, s, s', id);
      SmallerSum(DebtOf(env, s, id), DebtOf(env, s', id));
      PaysSince(env, s, s, s', id);
    }
  }

  lemma {:induction false} SuppressRowsPays(env: Env, s: Store, ids: seq<ClaimId>, at: Time)
    requires Sane(env, s) && at <= env.now
    ensures NoWorse(env, s, SuppressRows(env, s, ids, at))
    ensures SuppressRows(env, s, ids, at) != s ==> Pays(env, s, SuppressRows(env, s, ids, at))
    decreases ids
  {
    hide Pays, Advances, DebtOf;
    ColumnsNoWorseSelf(env, s);
    if ids != [] {
      var s1 := SuppressOne(env, s, ids[0], at);
      SuppressOnePays(env, s, ids[0], at);
      SuppressRowsPays(env, s1, ids[1..], at);
      NoWorseTransitive(env, s, s1, SuppressRows(env, s1, ids[1..], at));
    }
  }

  lemma {:induction false} SuppressPays(env: Env, s: Store, traces: seq<Trace>)
    requires Sane(env, s) && forall k :: 0 <= k < |traces| ==> traces[k].at <= env.now
    ensures NoWorse(env, s, SuppressFromTraces(env, s, traces))
    ensures SuppressFromTraces(env, s, traces) != s ==> Pays(env, s, SuppressFromTraces(env, s, traces))
    decreases traces
  {
    hide Pays, Advances, DebtOf;
    ColumnsNoWorseSelf(env, s);
    if traces != [] {
      var s1 := SuppressRows(env, s, traces[0].familiar, traces[0].at);
      SuppressRowsPays(env, s, traces[0].familiar, traces[0].at);
      SuppressPays(env, s1, traces[1..]);
      NoWorseTransitive(env, s, s1, SuppressFromTraces(env, s1, traces[1..]));
    }
  }

  // ---------- The measure ----------

  function Total(env: Env, s: Store, n: nat): nat
    requires n <= |s.claims|
  {
    if n == 0 then 0 else Total(env, s, n - 1) + DebtOf(env, s, n - 1).Sum()
  }

  function Owed(env: Env, s: Store): nat {
    Total(env, s, |s.claims|)
  }

  lemma SumShrinks(env: Env, s: Store, s': Store, i: ClaimId)
    requires NoWorse(env, s, s') && i < |s.claims|
    ensures |s'.claims| == |s.claims| && DebtOf(env, s', i).Sum() <= DebtOf(env, s, i).Sum()
  {
    hide DebtOf;
    assert DebtOf(env, s', i).AtMost(DebtOf(env, s, i));
  }

  lemma {:induction false} TotalShrinks(env: Env, s: Store, s': Store, n: nat)
    requires NoWorse(env, s, s') && n <= |s.claims| && |s'.claims| == |s.claims|
    ensures Total(env, s', n) <= Total(env, s, n)
    ensures (exists i :: 0 <= i < n && DebtOf(env, s', i).Sum() < DebtOf(env, s, i).Sum()) ==>
              Total(env, s', n) < Total(env, s, n)
  {
    hide DebtOf, NoWorse;
    if n > 0 {
      SumShrinks(env, s, s', n - 1);
      TotalShrinks(env, s, s', n - 1);
    }
  }

  /** Something other than the lock rung did something. */
  predicate Acts(p: Pass) {
    p.suppressed || exists k :: 0 <= k < |p.outcomes| && Busy(p.outcomes[k])
  }

  /** Nothing at all was done. */
  predicate Quiet(p: Pass) {
    !p.suppressed && forall k :: 0 <= k < |p.outcomes| ==> p.outcomes[k] == DidSkip
  }

  /**
   * Every pass that does anything but toggle locks strictly lowers what is owed; a pass never raises
   * it; and a quiet pass changes nothing.
   */
  lemma PassPays(env: Env, s: Store)
    requires Sane(env, s)
    ensures var p := RunPass(env, s);
            && NoWorse(env, s, p.store)
            && Owed(env, p.store) <= Owed(env, s)
            && (Acts(p) ==> Owed(env, p.store) < Owed(env, s))
            && (Quiet(p) ==> p.store == s)
  {
    hide DebtOf, Advances, MaintainEach, SuppressFromTraces;
    var s0 := SuppressFromTraces(env, s, env.traces);
    SuppressPays(env, s, env.traces);
    ColumnsNoWorseSelf(env, s0);
    SelfSnapshots(s0);
    EachPays(env, s0, s0, Listed(s0.claims));
    var p := RunPass(env, s);
    NoWorseTransitive(env, s, s0, p.store);
    SameLength(env, s, p.store);
    TotalShrinks(env, s, p.store, |s.claims|);
  }

  lemma SameLength(env: Env, s: Store, s': Store)
    requires NoWorse(env, s, s')
    ensures |s'.claims| == |s.claims|
  {
  }

  lemma SelfSnapshots(s: Store)
    ensures Unvisited(s, s, Listed(s.claims))
  {
  }

  // ---------- Many passes ----------

  function Passes(env: Env, s: Store, n: nat): Store {
    if n == 0 then s else RunPass(env, Passes(env, s, n - 1)).store
  }

  function ActingPasses(env: Env, s: Store, n: nat): nat {
    if n == 0 then 0 else ActingPasses(env, s, n - 1) + One(Acts(RunPass(env, Passes(env, s, n - 1))))
  }

  lemma {:induction false} PassesStaySane(env: Env, s: Store, n: nat)
    requires Sane(env, s)
    ensures NoWorse(env, s, Passes(env, s, n)) && Sane(env, Passes(env, s, n))
  {
    hide RunPass, NoWorse, Sane, Advances;
    if n == 0 {
      ColumnsNoWorseSelf(env, s);
    } else {
      PassesStaySane(env, s, n - 1);
      NextPass(env, Passes(env, s, n - 1));
      NoWorseTransitive(env, s, Passes(env, s, n - 1), Passes(env, s, n));
    }
  }

  lemma NextPass(env: Env, s: Store)
    requires Sane(env, s)
    ensures NoWorse(env, s, RunPass(env, s).store) && Sane(env, RunPass(env, s).store)
    ensures Owed(env, RunPass(env, s).store) + One(Acts(RunPass(env, s))) <= Owed(env, s)
  {
    hide RunPass, Acts, Quiet, Owed, Advances, DebtOf;
    PassPays(env, s);
  }

  /** However many passes run, no more of them act than was owed at the start. */
  lemma {:induction false} FewPassesAct(env: Env, s: Store, n: nat)
    requires Sane(env, s)
    ensures ActingPasses(env, s, n) + Owed(env, Passes(env, s, n)) <= Owed(env, s)
  {
    hide RunPass, Acts, Owed, NoWorse, Sane;
    if n > 0 {
      FewPassesAct(env, s, n - 1);
      PassesStaySane(env, s, n - 1);
      NextPass(env, Passes(env, s, n - 1));
    }
  }

  lemma {:induction false} PassesCompose(env: Env, s: Store, m: nat, n: nat)
    ensures Passes(env, Passes(env, s, m), n) == Passes(env, s, m + n)
  {
    hide RunPass;
    if n > 0 {
      PassesCompose(env, s, m, n - 1);
    }
  }

  /** No pass from here on does anything but toggle locks. */
  ghost predicate OnlyLocks(env: Env, s: Store) {
    forall m: nat :: !Acts(RunPass(env, Passes(env, s, m)))
  }
}
