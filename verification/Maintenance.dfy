/** One maintenance pass: at most one rung per claim, each guarded by the append-only history. */
module Maintenance {
  import opened Wrappers
  import opened C = ClaimStore
  import opened P = MaintenancePolicy
  import opened MaintenanceRevision
  import J = PromotionJournal

  // ---------- History ----------

  datatype Step =
    | Compounded(timesObserved: nat) | DecayedBy | Linked(related: seq<ClaimId>) | GistProposed(family: set<ClaimId>)
    | Affirmed | Superseded(winner: ClaimId) | LockedUp | Unlocked
    | Activated(accessedAt: Option<Time>) | Classified | Suppressed

  datatype Row = Row(claimId: ClaimId, step: Step, at: Time)

  /** The newest row of the claim whose step the condition keeps. */
  function Latest(history: seq<Row>, id: ClaimId, keep: Step -> bool): (row: Option<Row>)
    ensures row.Some? ==> row.value in history && row.value.claimId == id && keep(row.value.step)
  {
    if history == [] then None
    else
      var last := history[|history| - 1];
      if last.claimId == id && keep(last.step) then Some(last) else Latest(history[..|history| - 1], id, keep)
  }

  predicate IsCompound(st: Step) { st.Compounded? }
  predicate IsDecay(st: Step) { st.DecayedBy? }
  predicate IsGist(st: Step) { st.GistProposed? }
  predicate IsActivate(st: Step) { st.Activated? }
  predicate IsSuppress(st: Step) { st.Suppressed? }

  /** The latest access a self-boost of the claim has answered. */
  function LastBoostAccess(history: seq<Row>, id: ClaimId): Option<Time> {
    if history == [] then None
    else
      var last := history[|history| - 1];
      var best := LastBoostAccess(history[..|history| - 1], id);
      if last.claimId == id && last.step.Activated? && last.step.accessedAt.Some?
         && (best.None? || last.step.accessedAt.value > best.value)
      then last.step.accessedAt else best
  }

  // ---------- What the pass reads and writes ----------

  datatype Trace = Trace(at: Time, familiar: seq<ClaimId>)

  /** Everything a pass reads and never writes. */
  datatype Env = Env(
    now: Time, dampening: real, half: real -> real, journal: seq<J.Entry>,
    traces: seq<Trace>, sessions: map<CandidateId, string>)

  datatype Store = Store(claims: seq<Claim>, history: seq<Row>)

  datatype Outcome =
    | DidCompound | DidDecay | DidLink | DidProposeGist | DidRevise | DidLock | DidActivate | DidClassify | DidSkip

  function Log(s: Store, id: ClaimId, step: Step, at: Time): Store {
    s.(history := s.history + [Row(id, step, at)])
  }

  function SetConfidence(s: Store, id: ClaimId, confidence: real, now: Time): Store
    requires id < |s.claims|
  {
    s.(claims := s.claims[id := s.claims[id].(confidence := confidence, updatedAt := now)])
  }

  function SetActivation(s: Store, id: ClaimId, activation: real, now: Time): Store
    requires id < |s.claims|
  {
    s.(claims := s.claims[id := s.claims[id].(activation := Some(activation), updatedAt := now)])
  }

  // ---------- The rungs; `c` is the claim as the pass first listed it ----------

  function Compound(env: Env, s: Store, id: ClaimId, c: Claim): Option<Store>
    requires id < |s.claims|
  {
    var latest := Latest(s.history, id, IsCompound);
    if c.timesObserved <= 1 || c.confidence >= COMPOUND_CEILING then None
    else if latest.Some? && latest.value.step.timesObserved >= c.timesObserved then None
    else
      var after := CompoundConfidence(c.confidence, c.timesObserved,
                                      if c.origin.AgentOrigin? then env.dampening else 1.0);
      if after <= c.confidence then None
      else Some(Log(SetConfidence(s, id, after, env.now), id, Compounded(c.timesObserved), env.now))
  }

  function LastDecay(s: Store, id: ClaimId): Option<Time> {
    var latest := Latest(s.history, id, IsDecay);
    if latest.Some? then Some(latest.value.at) else None
  }

  function Decay(env: Env, s: Store, id: ClaimId, c: Claim): Option<Store>
    requires id < |s.claims|
  {
    match DecayStep(c, env.now, LastDecay(s, id), env.half)
    case None => None
    case Some(next) => Some(Log(SetConfidence(s, id, next, env.now), id, DecayedBy, env.now))
  }

  /** The other side of every committed contest of the claim, each once, in journal order. */
  function Counterparts(journal: seq<J.Entry>, id: ClaimId): (ids: seq<ClaimId>)
    ensures forall j, k :: 0 <= j < k < |ids| ==> ids[j] != ids[k]
  {
    if journal == [] then []
    else
      var n := |journal| - 1;
      var row := journal[n];
      var earlier := Counterparts(journal[..n], id);
      if row.state == J.Committed && row.operation == J.Contradict && row.detail.Contradicts? && row.claimId.Some?
      then Join(Join(earlier, row.claimId.value == id, row.detail.loser), row.detail.loser == id, row.claimId.value)
      else earlier
  }

  function Join(ids: seq<ClaimId>, when: bool, id: ClaimId): (joined: seq<ClaimId>)
    requires forall j, k :: 0 <= j < k < |ids| ==> ids[j] != ids[k]
    ensures forall j, k :: 0 <= j < k < |joined| ==> joined[j] != joined[k]
    ensures forall x <- joined :: x in ids || (when && x == id)
  {
    if when && id !in ids then ids + [id] else ids
  }

  function Without(ids: seq<ClaimId>, linked: seq<ClaimId>): (rest: seq<ClaimId>)
    ensures forall x :: x in rest <==> x in ids && x !in linked
  {
    if ids == [] then []
    else if ids[0] in linked then Without(ids[1..], linked)
    else [ids[0]] + Without(ids[1..], linked)
  }

  function LinkCounterparts(env: Env, s: Store, id: ClaimId, c: Claim): Option<Store>
    requires id < |s.claims|
  {
    var unlinked := Without(Counterparts(env.journal, id), c.related);
    if unlinked == [] then None
    else Some(Log(Related(s, id, unlinked, env.now), id, Linked(unlinked), env.now))
  }

  function Related(s: Store, id: ClaimId, more: seq<ClaimId>, now: Time): Store {
    var r := AddRelated(s.claims, id, more, now);
    if r.Some? then s.(claims := r.value) else s
  }

  /** The listing a pass works through: the newest claims, as many as the repository hands out. */
  function Listed(claims: seq<Claim>): (ids: seq<ClaimId>)
    ensures |ids| == if |claims| < LISTED_CLAIMS then |claims| else LISTED_CLAIMS
    ensures forall k :: 0 <= k < |ids| ==> ids[k] < |claims| && ids[k] == |claims| - 1 - k
  {
    seq(if |claims| < LISTED_CLAIMS then |claims| else LISTED_CLAIMS, k requires 0 <= k < |claims| => |claims| - 1 - k)
  }

  function Sources(c: Claim): set<CandidateId> {
    set e <- c.evidence :: e.candidateId
  }

  /** What families are grouped by: subject and predicate joined, so a bar in either can run them together. */
  function FamilyKey(c: Claim): string {
    c.norm.subj + "|" + c.norm.pred
  }

  /** The listed claims of one key, provided there are enough and no two share their evidence. */
  function Family(claims: seq<Claim>, c: Claim): set<ClaimId> {
    var ids := Listed(claims);
    var group := set i | 0 <= i < |claims| && i in ids && FamilyKey(claims[i]) == FamilyKey(c);
    if |group| < GIST_FAMILY_SIZE then {}
    else if exists i, j :: i in group && j in group && i != j && Sources(claims[i]) == Sources(claims[j]) then {}
    else group
  }

  function ProposeGist(env: Env, s: Store, id: ClaimId, family: set<ClaimId>): Option<Store> {
    var latest := Latest(s.history, id, IsGist);
    if family == {} then None
    else if latest.Some? && latest.value.step.family == family - {id} then None
    else Some(Log(s, id, GistProposed(family - {id}), env.now))
  }

  /** Other active claims about the same thing that say something else. */
  function ActiveRivals(claims: seq<Claim>, id: ClaimId): (ids: seq<ClaimId>)
    requires id < |claims|
    ensures forall k :: 0 <= k < |ids| ==> ids[k] < |claims| && claims[ids[k]].status == Active && ids[k] != id
  {
    var c := claims[id];
    var found := Select(claims, (x: Claim) =>
      x.About(c.norm.subj, c.norm.pred) && x.status == Active && (x.norm.obj != c.norm.obj || x.negated != c.negated));
    found
  }

  /** Up to five listed claims mined from a session that also produced one of the contenders. */
  function SessionMates(env: Env, claims: seq<Claim>, contenders: seq<ClaimId>, from: seq<ClaimId>,
                        room: nat): seq<ClaimId>
    requires InTable(claims, from) && InTable(claims, contenders)
    decreases from
  {
    if from == [] || room == 0 then []
    else if from[0] !in contenders
            && exists k :: 0 <= k < |contenders| && ShareSession(env, claims[from[0]], claims[contenders[k]])
    then [from[0]] + SessionMates(env, claims, contenders, from[1..], room - 1)
    else SessionMates(env, claims, contenders, from[1..], room)
  }

  predicate ShareSession(env: Env, a: Claim, b: Claim) {
    exists i, j :: 0 <= i < |a.evidence| && 0 <= j < |b.evidence|
                   && a.evidence[i].candidateId in env.sessions && b.evidence[j].candidateId in env.sessions
                   && env.sessions[a.evidence[i].candidateId] == env.sessions[b.evidence[j].candidateId]
  }

  /** Demote every contender but the winner, linking both ways. */
  function SettleContenders(env: Env, s: Store, contenders: seq<ClaimId>, w: ClaimId): (r: (Store, bool))
    decreases contenders
  {
    if contenders == [] then (s, false)
    else if contenders[0] == w then SettleContenders(env, Log(s, w, Affirmed, env.now), contenders[1..], w)
    else
      match SetStatus(s.claims, contenders[0], Contradicted, env.now)
      case None => SettleContenders(env, s, contenders[1..], w)
      case Some(claims) =>
        var s1 := Log(s.(claims := claims), contenders[0], Superseded(w), env.now);
        var s2 := Related(Related(s1, contenders[0], [w], env.now), w, [contenders[0]], env.now);
        (SettleContenders(env, s2, contenders[1..], w).0, true)
  }

  function Revise(env: Env, s: Store, id: ClaimId): Option<Store>
    requires id < |s.claims|
  {
    if s.claims[id].status != Active then None
    else
      var rivals := ActiveRivals(s.claims, id);
      if rivals == [] then None
      else
        var contenders := [id] + rivals;
        var w := PickRevisionWinner(s.claims, contenders);
        var mates := SessionMates(env, s.claims, contenders, Listed(s.claims), 5);
        var (s', changed) := SettleContenders(env, s, contenders, w);
        if !changed then None
        else Some(if mates == [] then s' else Related(s', w, mates, env.now))
  }

  function MaintainLock(env: Env, s: Store, id: ClaimId, c: Claim): Option<Store>
    requires id < |s.claims|
  {
    if c.locked && c.status == Contradicted then
      Some(Log(s.(claims := s.claims[id := s.claims[id].(locked := false, updatedAt := env.now)]), id, Unlocked,
               env.now))
    else if !c.locked && Strong(c) then
      Some(Log(s.(claims := s.claims[id := s.claims[id].(locked := true, updatedAt := env.now)]), id, LockedUp,
               env.now))
    else None
  }

  predicate Strong(c: Claim) {
    c.timesObserved >= LOCK_CORROBORATION_BAR && c.confidence >= LOCK_CONFIDENCE_MIN
  }

  function Spread(env: Env, s: Store, neighbors: seq<ClaimId>, share: real): Store
    decreases neighbors
  {
    if neighbors == [] then s
    else if neighbors[0] >= |s.claims| then Spread(env, s, neighbors[1..], share)
    else
      var a := s.claims[neighbors[0]].activation;
      var boosted := Min(1.0, (if a.Some? then a.value else 0.0) + share);
      Spread(env, Log(SetActivation(s, neighbors[0], boosted, env.now), neighbors[0], Activated(None), env.now),
             neighbors[1..], share)
  }

  function Neighbors(c: Claim): seq<ClaimId> {
    c.related[..if |c.related| < ACTIVATION_FAN_CAP then |c.related| else ACTIVATION_FAN_CAP]
  }

  predicate ActivationDue(env: Env, s: Store, id: ClaimId) {
    var latest := Latest(s.history, id, IsActivate);
    latest.None? || env.now - latest.value.at >= ACTIVATION_MIN_INTERVAL_MS
  }

  function Activate(env: Env, s: Store, id: ClaimId, c: Claim): Option<Store>
    requires id < |s.claims|
  {
    if c.lastAccessedAt.Some? && c.lastAccessedAt != LastBoostAccess(s.history, id) then
      var s1 := Log(SetActivation(s, id, ActivationBoost(c.activation), env.now), id, Activated(c.lastAccessedAt),
                    env.now);
      Some(Spread(env, s1, Neighbors(c), SpreadShare(|c.related|)))
    else if c.activation.Some? && ActivationDue(env, s, id) then
      var next := ActivationDecayStep(c.activation.value);
      if next < c.activation.value
        then Some(Log(SetActivation(s, id, next, env.now), id, Activated(None), env.now)) else None
    else None
  }

  function SourceOf(c: Claim): SourceType {
    if c.origin.AgentOrigin? then Inference
    else if c.extractorConfidence >= 0.8 then DirectStatement
    else if c.extractorConfidence >= 0.5 then Inference
    else Speculation
  }

  function Classify(env: Env, s: Store, id: ClaimId, c: Claim): Option<Store>
    requires id < |s.claims|
  {
    if c.sourceType.Some? then None
    else Some(Log(s.(claims := s.claims[id := s.claims[id].(sourceType := Some(SourceOf(c)), updatedAt := env.now)]),
                  id, Classified, env.now))
  }

  // ---------- The ladder and the pass ----------

  const LADDER := [DidCompound, DidDecay, DidLink, DidProposeGist, DidRevise, DidLock, DidActivate, DidClassify]

  /** What one rung would do, None when it does not apply. */
  function Rung(env: Env, s: Store, id: ClaimId, c: Claim, family: set<ClaimId>, which: Outcome): Option<Store>
    requires id < |s.claims|
  {
    match which
    case DidCompound => Compound(env, s, id, c)
    case DidDecay => Decay(env, s, id, c)
    case DidLink => LinkCounterparts(env, s, id, c)
    case DidProposeGist => ProposeGist(env, s, id, family)
    case DidRevise => Revise(env, s, id)
    case DidLock => MaintainLock(env, s, id, c)
    case DidActivate => Activate(env, s, id, c)
    case DidClassify => Classify(env, s, id, c)
    case DidSkip => None
  }

  /** The first rung that applies. */
  function Climb(env: Env, s: Store, id: ClaimId, c: Claim, family: set<ClaimId>,
                 rungs: seq<Outcome>): (r: (Store, Outcome))
    requires id < |s.claims|
    ensures r.1 == DidSkip ==> r.0 == s
    ensures r.1 != DidSkip ==> r.1 in rungs && Rung(env, s, id, c, family, r.1) == Some(r.0)
    decreases rungs
  {
    if rungs == [] then (s, DidSkip)
    else
      match Rung(env, s, id, c, family, rungs[0])
      case Some(s') => (s', rungs[0])
      case None => Climb(env, s, id, c, family, rungs[1..])
  }

  /** Exactly one transition per claim per pass, in a fixed order of priority. */
  function MaintainOne(env: Env, s: Store, id: ClaimId, c: Claim, family: set<ClaimId>): (Store, Outcome)
    requires id < |s.claims|
  {
    Climb(env, s, id, c, family, LADDER)
  }

  /** Lower the activation of one familiar near miss, once per trace. */
  function SuppressOne(env: Env, s: Store, id: ClaimId, at: Time): Store {
    if id >= |s.claims| || s.claims[id].activation.None? then s
    else
      var latest := Latest(s.history, id, IsSuppress);
      var next := Max(0.0, s.claims[id].activation.value - SUPPRESS_STEP);
      if (latest.Some? && latest.value.at >= at) || next >= s.claims[id].activation.value then s
      else Log(SetActivation(s, id, next, env.now), id, Suppressed, env.now)
  }

  function SuppressRows(env: Env, s: Store, ids: seq<ClaimId>, at: Time): Store
    decreases ids
  {
    if ids == [] then s else SuppressRows(env, SuppressOne(env, s, ids[0], at), ids[1..], at)
  }

  function SuppressFromTraces(env: Env, s: Store, traces: seq<Trace>): Store
    decreases traces
  {
    if traces == []
      then s else SuppressFromTraces(env, SuppressRows(env, s, traces[0].familiar, traces[0].at), traces[1..])
  }

  /** Work through `ids`; `snapshot` is the listing's view of every claim. */
  function MaintainEach(env: Env, snapshot: seq<Claim>, s: Store, ids: seq<ClaimId>): (r: (Store, seq<Outcome>))
    requires InTable(snapshot, ids)
    ensures |r.1| == |ids|
    decreases ids
  {
    if ids == [] then (s, [])
    else if ids[0] >= |s.claims| then
      var (s1, outcomes) := MaintainEach(env, snapshot, s, ids[1..]);
      (s1, [DidSkip] + outcomes)
    else
      var (s1, outcome) := MaintainOne(env, s, ids[0], snapshot[ids[0]], Family(snapshot, snapshot[ids[0]]));
      var (s2, outcomes) := MaintainEach(env, snapshot, s1, ids[1..]);
      (s2, [outcome] + outcomes)
  }

  datatype Pass = Pass(store: Store, suppressed: bool, outcomes: seq<Outcome>)

  function RunPass(env: Env, s: Store): Pass {
    var s0 := SuppressFromTraces(env, s, env.traces);
    var (s1, outcomes) := MaintainEach(env, s0.claims, s0, Listed(s0.claims));
    Pass(s1, s0 != s, outcomes)
  }

  // ---------- What no rung ever touches ----------

  /** The columns a pass may write are confidence, status, links, lock, activation and source type. */
  ghost predicate SameFacts(a: Claim, b: Claim) {
    b == a.(confidence := b.confidence, status := b.status, related := b.related, locked := b.locked,
            activation := b.activation, sourceType := b.sourceType, updatedAt := b.updatedAt)
  }

  /** Facts stay; a status changes only from active to contradicted; links and stamps are never lost. */
  ghost predicate Advances(s: Store, s': Store) {
    && |s'.claims| == |s.claims|
    && forall i :: 0 <= i < |s.claims| ==>
                     && SameFacts(s.claims[i], s'.claims[i])
                     && (s'.claims[i].status == s.claims[i].status
                         || (s.claims[i].status == Active && s'.claims[i].status == Contradicted))
                     && (forall r <- s.claims[i].related :: r in s'.claims[i].related)
                     && (s.claims[i].sourceType.Some? ==> s'.claims[i].sourceType == s.claims[i].sourceType)
  }

  ghost predicate KeepsStamps(s: Store, s': Store, id: ClaimId) {
    && |s'.claims| == |s.claims|
    && forall i :: 0 <= i < |s.claims| && i != id ==> s'.claims[i].sourceType == s.claims[i].sourceType
  }

  lemma AdvancesTransitive(a: Store, b: Store, c: Store)
    requires Advances(a, b) && Advances(b, c)
    ensures Advances(a, c)
  {
  }

  lemma RelatedAdvances(s: Store, id: ClaimId, more: seq<ClaimId>, now: Time)
    ensures Advances(s, Related(s, id, more, now)) && KeepsStamps(s, Related(s, id, more, now), |s.claims|)
    ensures Related(s, id, more, now).history == s.history
  {
  }

  lemma {:induction false} SettleAdvances(env: Env, s: Store, contenders: seq<ClaimId>, w: ClaimId)
    ensures Advances(s, SettleContenders(env, s, contenders, w).0)
            && KeepsStamps(s, SettleContenders(env, s, contenders, w).0, |s.claims|)
    decreases contenders
  {
    if contenders != [] {
      if contenders[0] == w {
        SettleAdvances(env, Log(s, w, Affirmed, env.now), contenders[1..], w);
      } else {
        match SetStatus(s.claims, contenders[0], Contradicted, env.now)
        case None =>
          SettleAdvances(env, s, contenders[1..], w);
        case Some(claims) =>
          var s1 := Log(s.(claims := claims), contenders[0], Superseded(w), env.now);
          assert Advances(s, s1);
          var s2 := Related(s1, contenders[0], [w], env.now);
          RelatedAdvances(s1, contenders[0], [w], env.now);
          var s3 := Related(s2, w, [contenders[0]], env.now);
          RelatedAdvances(s2, w, [contenders[0]], env.now);
          SettleAdvances(env, s3, contenders[1..], w);
          AdvancesTransitive(s, s1, s2);
          AdvancesTransitive(s, s2, s3);
          AdvancesTransitive(s, s3, SettleContenders(env, s3, contenders[1..], w).0);
      }
    }
  }

  lemma ReviseAdvances(env: Env, s: Store, id: ClaimId)
    requires id < |s.claims| && Revise(env, s, id).Some?
    ensures Advances(s, Revise(env, s, id).value) && KeepsStamps(s, Revise(env, s, id).value, |s.claims|)
  {
    var contenders := [id] + ActiveRivals(s.claims, id);
    var w := PickRevisionWinner(s.claims, contenders);
    SettleAdvances(env, s, contenders, w);
    var s1 := SettleContenders(env, s, contenders, w).0;
    RelatedAdvances(s1, w, SessionMates(env, s.claims, contenders, Listed(s.claims), 5), env.now);
    AdvancesTransitive(s, s1, Revise(env, s, id).value);
  }

  lemma {:induction false} SpreadAdvances(env: Env, s: Store, neighbors: seq<ClaimId>, share: real)
    ensures Advances(s, Spread(env, s, neighbors, share))
            && KeepsStamps(s, Spread(env, s, neighbors, share), |s.claims|)
    decreases neighbors
  {
    if neighbors != [] {
      if neighbors[0] >= |s.claims| {
        SpreadAdvances(env, s, neighbors[1..], share);
      } else {
        var a := s.claims[neighbors[0]].activation;
        var boosted := Min(1.0, (if a.Some? then a.value else 0.0) + share);
        var s1 := Log(SetActivation(s, neighbors[0], boosted, env.now), neighbors[0], Activated(None), env.now);
        SpreadAdvances(env, s1, neighbors[1..], share);
        AdvancesTransitive(s, s1, Spread(env, s1, neighbors[1..], share));
      }
    }
  }

  lemma ActivateAdvances(env: Env, s: Store, id: ClaimId, c: Claim)
    requires id < |s.claims| && Activate(env, s, id, c).Some?
    ensures Advances(s, Activate(env, s, id, c).value) && KeepsStamps(s, Activate(env, s, id, c).value, |s.claims|)
  {
    var s1 := Log(SetActivation(s, id, ActivationBoost(c.activation), env.now), id, Activated(c.lastAccessedAt),
                  env.now);
    SpreadAdvances(env, s1, Neighbors(c), SpreadShare(|c.related|));
    AdvancesTransitive(s, s1, Spread(env, s1, Neighbors(c), SpreadShare(|c.related|)));
  }

  lemma {:induction false} SettleAppends(env: Env, s: Store, contenders: seq<ClaimId>, w: ClaimId)
    ensures s.history <= SettleContenders(env, s, contenders, w).0.history
    decreases contenders
  {
    hide SetStatus, AddRelated;
    if contenders != [] {
      if contenders[0] == w {
        SettleAppends(env, Log(s, w, Affirmed, env.now), contenders[1..], w);
      } else {
        match SetStatus(s.claims, contenders[0], Contradicted, env.now)
        case None =>
          SettleAppends(env, s, contenders[1..], w);
        case Some(claims) =>
          var s1 := Log(s.(claims := claims), contenders[0], Superseded(w), env.now);
          var s2 := Related(Related(s1, contenders[0], [w], env.now), w, [contenders[0]], env.now);
          SettleAppends(env, s2, contenders[1..], w);
      }
    }
  }

  lemma {:induction false} SpreadAppends(env: Env, s: Store, neighbors: seq<ClaimId>, share: real)
    ensures s.history <= Spread(env, s, neighbors, share).history
    decreases neighbors
  {
    if neighbors != [] {
      if neighbors[0] >= |s.claims| {
        SpreadAppends(env, s, neighbors[1..], share);
      } else {
        var a := s.claims[neighbors[0]].activation;
        var boosted := Min(1.0, (if a.Some? then a.value else 0.0) + share);
        var s1 := Log(SetActivation(s, neighbors[0], boosted, env.now), neighbors[0], Activated(None), env.now);
        SpreadAppends(env, s1, neighbors[1..], share);
      }
    }
  }

  lemma ReviseAppends(env: Env, s: Store, id: ClaimId)
    requires id < |s.claims| && Revise(env, s, id).Some?
    ensures s.history <= Revise(env, s, id).value.history
  {
    hide AddRelated, SettleContenders, ActiveRivals, SessionMates;
    var contenders := [id] + ActiveRivals(s.claims, id);
    SettleAppends(env, s, contenders, PickRevisionWinner(s.claims, contenders));
  }

  lemma ActivateAppends(env: Env, s: Store, id: ClaimId, c: Claim)
    requires id < |s.claims| && Activate(env, s, id, c).Some?
    ensures s.history <= Activate(env, s, id, c).value.history
  {
    hide Spread, LastBoostAccess, ActivationDue;
    var s1 := Log(SetActivation(s, id, ActivationBoost(c.activation), env.now), id, Activated(c.lastAccessedAt),
                  env.now);
    SpreadAppends(env, s1, Neighbors(c), SpreadShare(|c.related|));
  }

  /** History is append-only: no rung rewrites or drops a row. */
  lemma RungAppends(env: Env, s: Store, id: ClaimId, c: Claim, family: set<ClaimId>, which: Outcome)
    requires id < |s.claims| && Rung(env, s, id, c, family, which).Some?
    ensures s.history <= Rung(env, s, id, c, family, which).value.history
  {
    hide AddRelated, Revise, Activate, Latest, DecayStep, CompoundConfidence, Without;
    if which == DidRevise {
      ReviseAppends(env, s, id);
    } else if which == DidActivate {
      ActivateAppends(env, s, id, c);
    }
  }

  /** A snapshot taken earlier in the pass: same facts, and nothing gained since then has been lost. */
  ghost predicate Snapshot(c: Claim, now: Claim) {
    && SameFacts(c, now)
    && (forall r <- c.related :: r in now.related)
    && now.sourceType == c.sourceType
  }

  /** Every rung advances the store, appends to its history, and stamps no source type but the claim's own. */
  lemma RungAdvances(env: Env, s: Store, id: ClaimId, c: Claim, family: set<ClaimId>, which: Outcome)
    requires id < |s.claims| && Snapshot(c, s.claims[id])
    requires Rung(env, s, id, c, family, which).Some?
    ensures var s' := Rung(env, s, id, c, family, which).value;
            Advances(s, s') && KeepsStamps(s, s', id) && s.history <= s'.history
  {
    RungAppends(env, s, id, c, family, which);
    match which
    case DidLink => RelatedAdvances(s, id, Without(Counterparts(env.journal, id), c.related), env.now);
    case DidRevise => ReviseAdvances(env, s, id);
    case DidActivate =>
      if c.lastAccessedAt.Some? && c.lastAccessedAt != LastBoostAccess(s.history, id) {
        ActivateAdvances(env, s, id, c);
      }
    case _ =>
  }
}
