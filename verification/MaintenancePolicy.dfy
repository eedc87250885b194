/** Maintenance policy: constants and the pure steps, and what the decay step does and does not depend on. */
module MaintenancePolicy {
  import opened Wrappers
  import opened C = ClaimStore

  const COMPOUND_BOOST: real := 0.02
  const COMPOUND_LEVEL_CAP: nat := 5
  const COMPOUND_CEILING: real := 0.99
  const CONFIDENCE_MAX: real := 1.0
  const GIST_FAMILY_SIZE: nat := 3
  const PASS_LIMIT: nat := 500
  const LIST_CAP: nat := 200
  /** What a listing of `PASS_LIMIT` claims hands out. */
  const LISTED_CLAIMS: nat := if PASS_LIMIT < LIST_CAP then PASS_LIMIT else LIST_CAP
  const DECAY_GRACE_DAYS: real := 30.0
  const DECAY_HALF_LIFE_DAYS: real := 90.0
  const ACCESS_SHIELD_DAYS: real := 7.0
  const LOCK_CORROBORATION_BAR: nat := 5
  const LOCK_CONFIDENCE_MIN: real := 0.9
  const ACTIVATION_SELF_BOOST: real := 0.3
  const ACTIVATION_FAN_CAP: nat := 5
  const ACTIVATION_DECAY_STEP: real := 0.05
  const ACTIVATION_MIN_INTERVAL_MS: nat := 3_600_000
  const SUPPRESS_STEP: real := 0.1
  const DAY_MS: nat := 86_400_000

  function Max(x: real, y: real): real { if x < y then y else x }
  function Min(x: real, y: real): real { if x < y then x else y }

  /** Multiplication, named so that proofs can treat a product as one quantity. */
  function Times(x: real, y: real): real { x * y }

  function HalfLife(c: Category): (days: real)
    ensures days > 0.0
  {
    DECAY_HALF_LIFE_DAYS *
    match c case Fact => 1.0 case Preference => 0.8 case Relationship => 2.0 case Procedure => 1.5
  }

  function Floor(c: Category): (floor: real)
    ensures 0.0 < floor < 1.0
  {
    match c case Fact => 0.2 case Preference => 0.15 case Relationship => 0.3 case Procedure => 0.25
  }

  function CompoundConfidence(confidence: real, timesObserved: nat, dampening: real): real {
    var level := if timesObserved < 1 then 1
        else if timesObserved > COMPOUND_LEVEL_CAP then COMPOUND_LEVEL_CAP else timesObserved;
    Min(CONFIDENCE_MAX, Min(COMPOUND_CEILING, confidence + COMPOUND_BOOST * level as real * dampening))
  }

  function ActivationBoost(current: Option<real>): real {
    Min(1.0, (if current.Some? then current.value else 0.0) + ACTIVATION_SELF_BOOST)
  }

  function ActivationDecayStep(current: real): real {
    Max(0.0, current - ACTIVATION_DECAY_STEP)
  }

  function SpreadShare(fanout: nat): real {
    ACTIVATION_SELF_BOOST / (if fanout < 1 then 1
        else if fanout > ACTIVATION_FAN_CAP then ACTIVATION_FAN_CAP else fanout) as real
  }

  // ---------- Decay ----------

  /** The laws of `x => 0.5 ** x` on non-negative exponents that decay relies on. */
  ghost predicate HalvingLaws(half: real -> real) {
    && half(0.0) == 1.0
    && (forall x, y :: x >= 0.0 && y >= 0.0 ==> half(x + y) == half(x) * half(y))
    && (forall x :: x > 0.0 ==> 0.0 < half(x) < 1.0)
  }

  /** Days from `then` to `now`, never negative. */
  function DaysSince(now: Time, then_: Time): real {
    if now <= then_ then 0.0 else (now - then_) as real / DAY_MS as real
  }

  predicate Shielded(c: Claim, now: Time) {
    c.lastAccessedAt.Some? && DaysSince(now, c.lastAccessedAt.value) <= ACCESS_SHIELD_DAYS
  }

  /** Neglected days to bill: since the last decay in full, or since the last touch less the grace. */
  function Billable(c: Claim, now: Time, lastDecay: Option<Time>): real {
    var touched := if c.lastAccessedAt.Some? then c.lastAccessedAt.value else c.updatedAt;
    if lastDecay.Some? then DaysSince(now, lastDecay.value)
    else Max(0.0, DaysSince(now, touched) - DECAY_GRACE_DAYS)
  }

  /** The share of the confidence that survives so many days. */
  function Kept(days: real, category: Category, half: real -> real): real {
    half(days / HalfLife(category))
  }

  function Decayed(confidence: real, category: Category, days: real, half: real -> real): real {
    Max(Floor(category), Times(confidence, Kept(days, category, half)))
  }

  /** The lowered confidence, or None when nothing decays. */
  function DecayStep(c: Claim, now: Time, lastDecay: Option<Time>, half: real -> real): Option<real> {
    if c.locked || Shielded(c, now) then None
    else
      var days := Billable(c, now, lastDecay);
      if days <= 0.0 then None
      else
        var next := Decayed(c.confidence, c.category, days, half);
        if next < c.confidence then Some(next) else None
  }

  datatype Clock = Clock(confidence: real, lastDecay: Option<Time>)

  /** One pass over the claim: a successful step records its own time as the decay clock. */
  function Tick(c: Claim, k: Clock, now: Time, half: real -> real): Clock {
    match DecayStep(c.(confidence := k.confidence), now, k.lastDecay, half)
    case None => k
    case Some(next) => Clock(next, Some(now))
  }

  function Ticks(c: Claim, k: Clock, times: seq<Time>, half: real -> real): Clock {
    if times == [] then k
    else Tick(c, Ticks(c, k, times[..|times| - 1], half), times[|times| - 1], half)
  }

  /** After any passes up to time `t`: either nothing ever decayed, or the whole bill is paid up to `clock`. */
  ghost predicate PaidUp(c: Claim, k: Clock, k': Clock, t: Time, half: real -> real) {
    || (k' == k && DecayStep(c.(confidence := k.confidence), t, k.lastDecay, half).None?)
    || (&& !c.locked && k'.lastDecay.Some? && k'.lastDecay.value <= t
        && !Shielded(c, k'.lastDecay.value)
        && Billable(c, k'.lastDecay.value, k.lastDecay) > 0.0
        && Floor(c.category) < k.confidence
        && k'.confidence == Decayed(k.confidence, c.category, Billable(c, k'.lastDecay.value, k.lastDecay), half)
        && (k'.lastDecay.value == t || k'.confidence == Floor(c.category)))
  }

  lemma DaysAdd(a: Time, b: Time, c: Time)
    requires a <= b <= c
    ensures DaysSince(c, a) == DaysSince(b, a) + DaysSince(c, b)
    ensures DaysSince(b, a) <= DaysSince(c, a)
  {
  }

  /** Once a bill is due, waiting longer adds exactly the days waited, and no shield returns. */
  lemma BillGrows(c: Claim, lastDecay: Option<Time>, t: Time, u: Time)
    requires t <= u && Billable(c, t, lastDecay) > 0.0
    ensures Billable(c, u, lastDecay) == Billable(c, t, lastDecay) + DaysSince(u, t)
    ensures !Shielded(c, t) ==> !Shielded(c, u)
  {
    var base := if lastDecay.Some? then lastDecay.value
        else if c.lastAccessedAt.Some? then c.lastAccessedAt.value else c.updatedAt;
    DaysAdd(base, t, u);
    if c.lastAccessedAt.Some? && c.lastAccessedAt.value <= t {
      DaysAdd(c.lastAccessedAt.value, t, u);
    }
  }

  lemma TimesShrinks(x: real, p: real)
    requires x > 0.0 && 0.0 < p < 1.0
    ensures Times(x, p) < x
  {
  }

  lemma TimesMono(x: real, y: real, z: real)
    requires x <= y && z >= 0.0
    ensures Times(x, z) <= Times(y, z)
  {
  }

  lemma TimesAssoc(x: real, y: real, z: real)
    ensures Times(Times(x, y), z) == Times(x, Times(y, z))
  {
  }

  /** Two shrinking factors with a floor under both: the floor may wait for the second. */
  lemma TwoFactors(f: real, c: real, p: real, q: real)
    requires 0.0 < f < c && 0.0 < p < 1.0 && 0.0 < q < 1.0
    ensures Max(f, Times(Max(f, Times(c, p)), q)) == Max(f, Times(c, Times(p, q)))
    ensures f <= Max(f, Times(c, p)) < c && Times(Max(f, Times(c, p)), q) < Max(f, Times(c, p))
  {
    hide Times;
    TimesShrinks(c, p);
    TimesShrinks(f, q);
    TimesShrinks(Max(f, Times(c, p)), q);
    TimesAssoc(c, p, q);
    if Times(c, p) <= f {
      TimesMono(Times(c, p), f, q);
    }
  }

  /** Two decays in a row are one decay over both stretches. */
  lemma DecayTwice(confidence: real, category: Category, d: real, e: real, half: real -> real)
    requires HalvingLaws(half) && d > 0.0 && e > 0.0 && Floor(category) < confidence
    ensures var once := Decayed(confidence, category, d, half);
            && Decayed(once, category, e, half) == Decayed(confidence, category, d + e, half)
            && Floor(category) <= once < confidence
            && (Floor(category) < once ==> Decayed(once, category, e, half) < once)
            && (once == Floor(category) ==>
                Decayed(confidence, category, d + e, half) == once && Decayed(once, category, e, half) == once)
  {
    hide Times, HalvingLaws, Kept;
    KeptAdds(d, e, category, half);
    TwoFactors(Floor(category), confidence, Kept(d, category, half), Kept(e, category, half));
  }

  lemma KeptAdds(d: real, e: real, category: Category, half: real -> real)
    requires HalvingLaws(half) && d > 0.0 && e > 0.0
    ensures Kept(d + e, category, half) == Times(Kept(d, category, half), Kept(e, category, half))
    ensures 0.0 < Kept(d, category, half) < 1.0 && 0.0 < Kept(e, category, half) < 1.0
  {
    hide HalfLife;
    var h := HalfLife(category);
    Quotients(d, e, h);
    assert half(d / h + e / h) == half(d / h) * half(e / h);
  }

  lemma Quotients(d: real, e: real, h: real)
    requires d > 0.0 && e > 0.0 && h > 0.0
    ensures d / h > 0.0 && e / h > 0.0 && (d + e) / h == d / h + e / h
  {
  }

  lemma TickPaysUp(c: Claim, k: Clock, k': Clock, t: Time, u: Time, half: real -> real)
    requires HalvingLaws(half) && t <= u && PaidUp(c, k, k', t, half)
    ensures PaidUp(c, k, Tick(c, k', u, half), u, half)
  {
    hide Decayed, HalvingLaws, Floor;
    if k' == k && DecayStep(c.(confidence := k.confidence), t, k.lastDecay, half).None? {
      if DecayStep(c.(confidence := k.confidence), u, k.lastDecay, half).Some? {
        StepBelow(c.(confidence := k.confidence), u, k.lastDecay, half);
      }
    } else {
      var tc := k'.lastDecay.value;
      var d, e := Billable(c, tc, k.lastDecay), DaysSince(u, tc);
      BillGrows(c, k.lastDecay, tc, u);
      if e > 0.0 {
        DecayTwice(k.confidence, c.category, d, e, half);
      }
    }
  }

  /** A step that happens starts above the floor. */
  lemma StepBelow(c: Claim, now: Time, lastDecay: Option<Time>, half: real -> real)
    requires DecayStep(c, now, lastDecay, half).Some?
    ensures Floor(c.category) < c.confidence
  {
  }

  lemma {:induction false} TicksPayUp(c: Claim, k: Clock, times: seq<Time>, half: real -> real)
    requires HalvingLaws(half) && times != []
    requires forall i, j :: 0 <= i < j < |times| ==> times[i] <= times[j]
    ensures PaidUp(c, k, Ticks(c, k, times, half), times[|times| - 1], half)
  {
    var n := |times| - 1;
    if n == 0 {
      assert times[..0] == [];
      if DecayStep(c.(confidence := k.confidence), times[0], k.lastDecay, half).Some? {
        StepBelow(c.(confidence := k.confidence), times[0], k.lastDecay, half);
      }
    } else {
      TicksPayUp(c, k, times[..n], half);
      TickPaysUp(c, k, Ticks(c, k, times[..n], half), times[n - 1], times[n], half);
    }
  }

  /**
   * The decay step does not depend on how often it is taken: over a claim nothing else writes to, any steps at rising
   * times leave the confidence of a single one at the last of them; it never rises, nor falls below floor and start.
   */
  lemma DecayIgnoresFrequency(c: Claim, k: Clock, times: seq<Time>, half: real -> real)
    requires HalvingLaws(half) && times != []
    requires forall i, j :: 0 <= i < j < |times| ==> times[i] <= times[j]
    ensures var often := Ticks(c, k, times, half).confidence;
            && often == Tick(c, k, times[|times| - 1], half).confidence
            && Min(k.confidence, Floor(c.category)) <= often <= k.confidence
  {
    TicksPayUp(c, k, times, half);
    PaidUpIsOneStep(c, k, Ticks(c, k, times, half), times[|times| - 1], half);
  }

  lemma PaidUpIsOneStep(c: Claim, k: Clock, k': Clock, u: Time, half: real -> real)
    requires HalvingLaws(half) && PaidUp(c, k, k', u, half)
    ensures k'.confidence == Tick(c, k, u, half).confidence
    ensures Min(k.confidence, Floor(c.category)) <= k'.confidence <= k.confidence
  {
    hide Decayed, HalvingLaws, Floor;
    if !(k' == k && DecayStep(c.(confidence := k.confidence), u, k.lastDecay, half).None?) {
      var tc := k'.lastDecay.value;
      var d, e := Billable(c, tc, k.lastDecay), DaysSince(u, tc);
      BillGrows(c, k.lastDecay, tc, u);
      DecayTwice(k.confidence, c.category, d, if e > 0.0 then e else 1.0, half);
      DecayTwice(k.confidence, c.category, d + e, 1.0, half);
    }
  }

  /** From the end of the grace on, a claim above its floor decays. */
  lemma DecaysAfterGrace(c: Claim, now: Time, half: real -> real)
    requires HalvingLaws(half) && !c.locked && Floor(c.category) < c.confidence && c.lastAccessedAt.None?
    requires DaysSince(now, c.updatedAt) > DECAY_GRACE_DAYS
    ensures DecayStep(c, now, None, half).Some?
  {
    DecayTwice(c.confidence, c.category, Billable(c, now, None), 1.0, half);
    hide Decayed, HalvingLaws, Floor;
  }

  /**
   * The decay step ignores when the claim was last written, at every time, exactly when the claim is locked, or at its
   * floor, or has been accessed, or has decayed before; until then every write restarts the grace.
   */
  lemma DecayIgnoresWrites(c: Claim, lastDecay: Option<Time>, half: real -> real)
    requires HalvingLaws(half)
    ensures (forall now, u :: DecayStep(c.(updatedAt := u), now, lastDecay, half) == DecayStep(c, now, lastDecay, half))
            <==> c.locked || c.confidence <= Floor(c.category) || c.lastAccessedAt.Some? || lastDecay.Some?
  {
    hide Decayed, HalvingLaws;
    if c.locked || c.confidence <= Floor(c.category) || c.lastAccessedAt.Some? || lastDecay.Some? {
      forall now, u
        ensures DecayStep(c.(updatedAt := u), now, lastDecay, half) == DecayStep(c, now, lastDecay, half)
      {
        if c.confidence <= Floor(c.category) {
          FloorStays(c, now, lastDecay, half);
          FloorStays(c.(updatedAt := u), now, lastDecay, half);
        }
      }
    } else {
      var now := c.updatedAt + 31 * DAY_MS;
      DecaysAfterGrace(c, now, half);
      assert DecayStep(c.(updatedAt := now), now, lastDecay, half).None?;
    }
  }

  lemma FloorStays(c: Claim, now: Time, lastDecay: Option<Time>, half: real -> real)
    requires c.confidence <= Floor(c.category)
    ensures DecayStep(c, now, lastDecay, half).None?
  {
  }
}
