/**
 * The influence rules of src/core/influences.ts as values: each rule maps the
 * record it is given and the park snapshot to whether it changed the record and
 * what the record holds afterwards. The methods in module Influences, which
 * rewrite an `Effect` object in place, are proved to follow these functions.
 */
module Scoring {
  import opened Wrappers
  import opened Effects
  import opened Snapshots

  /** The keys of the influence table. */
  datatype Key =
    | Difficulty
    | NumberOfGuests
    | NumberOfHappyGuests
    | NumberOfLostGuests
    | RideUptime
    | RideAverageExcitement
    | RideAverageIntensity
    | RideTotalExcitement
    | RideTotalIntensity
    | Litter
    | Casualties

  /** The influence table in evaluation order. */
  const Table: seq<Key> := [
    Difficulty, NumberOfGuests, NumberOfHappyGuests, NumberOfLostGuests, RideUptime,
    RideAverageExcitement, RideAverageIntensity, RideTotalExcitement, RideTotalIntensity,
    Litter, Casualties]

  /** The 1-based position of a key in the table: the `order` its record is created with. */
  function Order(k: Key): (n: int)
    ensures 1 <= n <= |Table| && Table[n - 1] == k
  {
    match k
    case Difficulty => 1
    case NumberOfGuests => 2
    case NumberOfHappyGuests => 3
    case NumberOfLostGuests => 4
    case RideUptime => 5
    case RideAverageExcitement => 6
    case RideAverageIntensity => 7
    case RideTotalExcitement => 8
    case RideTotalIntensity => 9
    case Litter => 10
    case Casualties => 11
  }

  /** Every table position holds the key of that order, so the table lists each key once. */
  lemma TablePosition(i: int)
    requires 0 <= i < |Table|
    ensures Order(Table[i]) == i + 1
  {
    assert i == 0 || i == 1 || i == 2 || i == 3 || i == 4 || i == 5 || i == 6 || i == 7 || i == 8 || i == 9 || i == 10;
  }

  /** The outcome of one influence: did it report a change, and the record afterwards. */
  datatype Step = Step(changed: bool, next: EffectState)

  function Min(a: int, b: int): int { if a <= b then a else b }
  function RealMin(a: real, b: real): real { if a <= b then a else b }
  function Abs(x: int): nat { if x < 0 then -x else x }

  /** `Math.floor(n / d)` for integers with a positive divisor is Dafny's integer division. */
  lemma FloorOfQuotient(n: int, d: int)
    requires d > 0
    ensures (n as real / d as real).Floor == n / d
  {
    var q, r := n / d, n % d;
    assert n == q * d + r && 0 <= r < d;
    assert n as real / d as real == q as real + r as real / d as real;
    assert 0.0 <= r as real / d as real < 1.0;
  }

  // ---- impact formulas ----

  /** +1 for every 13 guests, up to 2000 guests. */
  function GuestsImpact(guests: int): (r: int)
    ensures r <= 153
    ensures guests >= 0 ==> r >= 0
    ensures guests >= 2000 ==> r == 153
  {
    Min(2000, guests) / 13
  }

  /** Twice the happy share in 1/300ths of the guests, capped at 250 before doubling. */
  function HappyGuestsImpact(happy: int, total: int): (r: int)
    requires total > 0
    ensures r == Min(500, (600 * happy) / total)
    ensures happy >= 0 ==> 0 <= r <= 500
  {
    HappyGuestsIntegerForm(happy, total);
    (2.0 * RealMin(250.0, (happy * 300) as real / total as real)).Floor
  }

  lemma HappyGuestsIntegerForm(happy: int, total: int)
    requires total > 0
    ensures (2.0 * RealMin(250.0, (happy * 300) as real / total as real)).Floor == Min(500, (600 * happy) / total)
  {
    var share := (happy * 300) as real / total as real;
    ScaledQuotient(happy * 300, total, 2);
    assert 2 * (happy * 300) == 600 * happy;
    FloorOfQuotient(600 * happy, total);
    QuotientAtLeast(happy * 300, total, 250);
    if share >= 250.0 {
      DivAtLeast(600 * happy, total, 500);
    } else {
      DivBelow(600 * happy, total, 500);
    }
  }

  lemma ScaledQuotient(n: int, d: int, c: int)
    requires d > 0
    ensures c as real * (n as real / d as real) == (c * n) as real / d as real
  {
  }

  lemma QuotientAtLeast(n: int, d: int, k: int)
    requires d > 0
    ensures n as real / d as real >= k as real <==> n >= k * d
  {
  }

  lemma DivBelow(n: int, d: int, k: int)
    requires d > 0 && n < k * d
    ensures n / d < k
  {
    var q, r := n / d, n % d;
    assert n == q * d + r && 0 <= r;
    assert (k - q) * d > 0;
  }

  lemma DivAtLeast(n: int, d: int, k: int)
    requires d > 0 && n >= k * d
    ensures n / d >= k
  {
    var q, r := n / d, n % d;
    assert n == q * d + r && r < d;
    assert (q - k + 1) * d == n - r + d - k * d;
    assert (q - k + 1) * d > 0;
  }

  /** -7 for every lost guest beyond the first 25. */
  function LostGuestsImpact(lost: int): (r: int)
    ensures r <= 0
    ensures r == 0 <==> lost <= 25
  {
    if lost > 25 then (lost - 25) * -7 else 0
  }

  /** Twice the average uptime percentage, the average rounded down. */
  function RideUptimeImpact(uptime: int, rides: int): (r: int)
    requires rides > 0
    ensures r % 2 == 0
    ensures uptime <= 100 * rides ==> r <= 200
    ensures uptime >= 0 ==> r >= 0
  {
    DivAtMost(uptime, rides, 100);
    (uptime / rides) * 2
  }

  lemma DivAtMost(n: int, d: int, k: int)
    requires d > 0
    ensures n <= k * d ==> n / d <= k
    ensures n >= 0 ==> n / d >= 0
  {
    var q, r := n / d, n % d;
    assert n == q * d + r && 0 <= r < d;
  }

  /**
   * `getAverageRatingImpact`: 50 less half the distance between the average and
   * the target, rounded down, never below 0.
   */
  function AverageRatingImpact(average: real, target: int): (r: int)
    ensures 0 <= r <= 50
    ensures r == 50 <==> -2.0 < average - target as real < 2.0
  {
    var distance := average - target as real;
    var impact := if distance < 0.0 then -distance else distance;
    50 - Min((impact / 2.0).Floor, 50)
  }

  /** On a quotient of integers the average-rating impact is integer arithmetic throughout. */
  lemma AverageRatingIntegerForm(total: int, count: int, target: int)
    requires count > 0
    ensures AverageRatingImpact(total as real / count as real, target)
         == 50 - Min(Abs(total - target * count) / (2 * count), 50)
  {
    var gap := total - target * count;
    ShiftedQuotient(total, count, target);
    HalvedQuotient(Abs(gap), count);
    if gap < 0 {
      NegatedQuotient(gap, count);
    }
    FloorOfQuotient(Abs(gap), 2 * count);
  }

  lemma ShiftedQuotient(total: int, count: int, target: int)
    requires count > 0
    ensures total as real / count as real - target as real == (total - target * count) as real / count as real
  {
  }

  lemma HalvedQuotient(n: int, d: int)
    requires d > 0
    ensures (n as real / d as real) / 2.0 == n as real / (2 * d) as real
  {
  }

  lemma NegatedQuotient(n: int, d: int)
    requires d > 0
    ensures -(n as real / d as real) == (-n) as real / d as real
  {
  }

  /** A tenth of the rating total, counting at most 1000 points. */
  function TotalRatingImpact(total: int): (r: int)
    ensures r <= 100
    ensures total >= 0 ==> r >= 0
    ensures total >= 1000 ==> r == 100
  {
    Min(total, 1000) / 10
  }

  /** -4 for every piece of old litter, counting at most 150 pieces. */
  function LitterImpact(litter: int): (r: int)
    ensures r >= -600
    ensures litter >= 0 ==> r <= 0
    ensures litter >= 150 ==> r == -600
  {
    -4 * Min(150, litter)
  }

  // ---- cache keys ----

  const TwoTo32: int := 0x1_0000_0000

  /**
   * JavaScript's `a ^ b`: both operands are truncated to 32 bits and the result
   * is read back as a signed 32-bit integer.
   */
  function Xor32(a: int, b: int): (r: int)
    ensures -0x8000_0000 <= r < 0x8000_0000
    ensures a % TwoTo32 == b % TwoTo32 ==> r == 0
  {
    var bits := ((a % TwoTo32) as bv32) ^ ((b % TwoTo32) as bv32);
    var unsigned := bits as int;
    if unsigned >= 0x8000_0000 then unsigned - TwoTo32 else unsigned
  }

  // ---- rule shapes ----

  /** The record after a recomputation: new key, active, and all display fields. */
  function Rewritten(s: EffectState, key: real, impact: int, name: Text, value: Value,
                     maximum: Option<int>, note: Text): EffectState
  {
    s.(cache := Num(key), active := Some(true), impact := impact, name := name,
       value := value, maximum := maximum, note := note)
  }

  /**
   * A cached rule: an unchanged key leaves the record alone, whatever `active` is;
   * any other key recomputes it.
   */
  function Cached(s: EffectState, key: real, impact: int, name: Text, value: Value,
                  maximum: Option<int>, note: Text): (r: Step)
    ensures r.changed <==> s.cache != Num(key)
    ensures !r.changed ==> r.next == s
    ensures r.changed ==> IsActive(r.next) && r.next.cache == Num(key)
    ensures r.changed ==> r.next.impact == impact && r.next.maximum == maximum
    ensures r.next.order == s.order
  {
    if s.cache == Num(key) then Step(false, s)
    else Step(true, Rewritten(s, key, impact, name, value, maximum, note))
  }

  /** `disableEffect`: an active record is switched off with its key reset to 0. */
  function DisableEffect(s: EffectState): (r: Step)
    ensures r.changed <==> IsActive(s)
    ensures !IsActive(r.next)
    ensures r.changed ==> r.next == s.(active := Some(false), cache := Num(0.0))
    ensures !r.changed ==> r.next == s
    ensures r.next.impact == s.impact && r.next.order == s.order
  {
    if s.active == Some(true) then Step(true, s.(cache := Num(0.0), active := Some(false)))
    else Step(false, s)
  }

  /** What the influence stored under `k` does to record `s` on snapshot `p`. */
  function Influence(k: Key, s: EffectState, p: Snapshot): (r: Step)
    ensures r.changed ==> r.next.active.Some?
    ensures r.next.order == s.order
  {
    match k
    case Difficulty =>
      if s.active == Some(p.hasDifficultParkRating) then Step(false, s)
      else if p.hasDifficultParkRating then
        Step(true, s.(active := Some(true), impact := -100, name := DifficultyName, value := Enabled,
                      maximum := None, note := DifficultyNote))
      else Step(true, s.(active := Some(false)))
    case NumberOfGuests =>
      var guestCount := p.guestsTotal;
      Cached(s, guestCount as real, GuestsImpact(guestCount), GuestsName,
             OutOf(guestCount, 2000), Some(153), GuestsNote)
    case NumberOfHappyGuests =>
      var totalGuests := p.guestsTotal;
      if totalGuests <= 0 then DisableEffect(s)
      else
        var happyGuests := p.guestsHappy;
        Cached(s, Xor32(totalGuests, happyGuests) as real, HappyGuestsImpact(happyGuests, totalGuests),
               HappyGuestsName, HappyShare(happyGuests, totalGuests), Some(500), HappyGuestsNote)
    case NumberOfLostGuests =>
      var lostGuests := p.guestsLost;
      Cached(s, lostGuests as real, LostGuestsImpact(lostGuests), LostGuestsName,
             Value.Count(lostGuests), None, LostGuestsNote)
    case RideUptime =>
      var rideCount := p.ridesTotal;
      if rideCount <= 0 then DisableEffect(s)
      else
        var totalUptime := p.ridesUptime;
        Cached(s, totalUptime as real, RideUptimeImpact(totalUptime, rideCount), RideUptimeName,
               Percent(totalUptime / rideCount), Some(200), RideUptimeNote)
    case RideAverageExcitement =>
      var withRatings := p.ridesWithRatings;
      if withRatings <= 0 then DisableEffect(s)
      else
        var average := p.ridesExcitement as real / withRatings as real;
        Cached(s, average, AverageRatingImpact(average, 46), AverageExcitementName,
               ScaledAverage(average, 46), Some(50), AverageRatingNote)
    case RideAverageIntensity =>
      var withRatings := p.ridesWithRatings;
      if withRatings <= 0 then DisableEffect(s)
      else
        var average := p.ridesIntensity as real / withRatings as real;
        Cached(s, average, AverageRatingImpact(average, 65), AverageIntensityName,
               ScaledAverage(average, 65), Some(50), AverageRatingNote)
    case RideTotalExcitement =>
      var totalExcitement := p.ridesExcitement;
      Cached(s, totalExcitement as real, TotalRatingImpact(totalExcitement), TotalExcitementName,
             ScaledTotal(totalExcitement), Some(100), TotalRatingNote)
    case RideTotalIntensity =>
      var totalIntensity := p.ridesIntensity;
      Cached(s, totalIntensity as real, TotalRatingImpact(totalIntensity), TotalIntensityName,
             ScaledTotal(totalIntensity), Some(100), TotalRatingNote)
    case Litter =>
      var litterCount := p.litter;
      Cached(s, litterCount as real, LitterImpact(litterCount), LitterName,
             OutOf(litterCount, 150), None, LitterNote)
    case Casualties =>
      var effect := p.casualtyPenalty;
      Cached(s, effect as real, -effect, CasualtiesName, OutOf(effect, 1000), None, CasualtiesNote)
  }

  // ---- properties of the rules ----

  /** A rule that reports no change leaves every field as it was. */
  lemma InfluenceFrame(k: Key, s: EffectState, p: Snapshot)
    ensures !Influence(k, s, p).changed ==> Influence(k, s, p).next == s
  {
  }

  /** An active record with a maximum shows an impact no greater than it. */
  predicate WithinMaximum(s: EffectState)
  {
    IsActive(s) && s.maximum.Some? ==> s.impact <= s.maximum.value
  }

  /**
   * On a snapshot taken from the game, every maximum a rule attaches bounds the
   * impact it computes: a rewritten record is within its maximum, and a record
   * that was stays so. Ride downtimes are percentages, so never negative.
   */
  lemma InfluenceWithinMaximum(k: Key, s: EffectState, host: Host)
    requires forall i :: 0 <= i < |host.rides| ==> host.rides[i].downtime >= 0
    ensures var r := Influence(k, s, Refreshed(host));
      && (r.changed ==> WithinMaximum(r.next))
      && (WithinMaximum(s) ==> WithinMaximum(r.next))
  {
    RefreshedBounds(host);
  }

  /** Snapshots `p` and `q` agree on every field the rule stored under `k` reads. */
  predicate SameInputs(k: Key, p: Snapshot, q: Snapshot)
  {
    match k
    case Difficulty => p.hasDifficultParkRating == q.hasDifficultParkRating
    case NumberOfGuests => p.guestsTotal == q.guestsTotal
    case NumberOfHappyGuests => p.guestsTotal == q.guestsTotal && p.guestsHappy == q.guestsHappy
    case NumberOfLostGuests => p.guestsLost == q.guestsLost
    case RideUptime => p.ridesTotal == q.ridesTotal && p.ridesUptime == q.ridesUptime
    case RideAverageExcitement => p.ridesWithRatings == q.ridesWithRatings && p.ridesExcitement == q.ridesExcitement
    case RideAverageIntensity => p.ridesWithRatings == q.ridesWithRatings && p.ridesIntensity == q.ridesIntensity
    case RideTotalExcitement => p.ridesExcitement == q.ridesExcitement
    case RideTotalIntensity => p.ridesIntensity == q.ridesIntensity
    case Litter => p.litter == q.litter
    case Casualties => p.casualtyPenalty == q.casualtyPenalty
  }

  /** A rule sees only its own inputs: snapshots that agree on them give the same outcome. */
  lemma InfluenceLocal(k: Key, s: EffectState, p: Snapshot, q: Snapshot)
    requires SameInputs(k, p, q)
    ensures Influence(k, s, p) == Influence(k, s, q)
  {
  }

  /** Applying a rule a second time to the same snapshot reports no change and changes nothing. */
  lemma InfluenceIdempotent(k: Key, s: EffectState, p: Snapshot)
    ensures var t := Influence(k, s, p).next; Influence(k, t, p) == Step(false, t)
  {
  }

  /**
   * The difficulty rule makes `active` equal the flag and reports a change exactly
   * when `active` differed before, which includes a fresh record's `undefined`.
   */
  lemma DifficultyRule(s: EffectState, p: Snapshot)
    ensures var r := Influence(Difficulty, s, p);
      && r.next.active == Some(p.hasDifficultParkRating)
      && (r.changed <==> s.active != Some(p.hasDifficultParkRating))
      && (r.changed && IsActive(r.next) ==> r.next.impact == -100 && r.next.maximum == None)
  {
  }

  /**
   * Cache hits ignore `active`: a record that `disableEffect` switched off
   * (inactive, key 0) is not switched back on by a snapshot whose key is 0 again,
   * even though the rule's guard now holds. With as many happy guests as guests
   * the XOR key is 0 and the record stays hidden instead of showing +500.
   */
  lemma HappyGuestsIgnoresZeroKey(s: EffectState, p: Snapshot)
    requires s.active == Some(false) && s.cache == Num(0.0)
    requires p.guestsTotal > 0 && p.guestsHappy == p.guestsTotal
    ensures Influence(NumberOfHappyGuests, s, p) == Step(false, s)
    ensures HappyGuestsImpact(p.guestsHappy, p.guestsTotal) == 500
  {
    assert Xor32(p.guestsTotal, p.guestsHappy) == 0;
    assert (600 * p.guestsHappy) / p.guestsTotal == 600;
  }

  /** With zero total uptime the uptime record, once disabled, stays hidden (its impact would be 0). */
  lemma RideUptimeIgnoresZeroKey(s: EffectState, p: Snapshot)
    requires s.active == Some(false) && s.cache == Num(0.0)
    requires p.ridesTotal > 0 && p.ridesUptime == 0
    ensures Influence(RideUptime, s, p) == Step(false, s)
  {
  }

  /**
   * With rated rides whose excitement (intensity) total is 0 the average is 0.0, so
   * the disabled record stays hidden instead of showing +27 (+18).
   */
  lemma AverageRatingsIgnoreZeroKey(s: EffectState, p: Snapshot)
    requires s.active == Some(false) && s.cache == Num(0.0)
    requires p.ridesWithRatings > 0
    ensures p.ridesExcitement == 0 ==> Influence(RideAverageExcitement, s, p) == Step(false, s)
    ensures p.ridesIntensity == 0 ==> Influence(RideAverageIntensity, s, p) == Step(false, s)
    ensures AverageRatingImpact(0.0, 46) == 27 && AverageRatingImpact(0.0, 65) == 18
  {
    assert 0 as real / p.ridesWithRatings as real == 0.0;
    AverageRatingIntegerForm(0, 1, 46);
    AverageRatingIntegerForm(0, 1, 65);
  }

  /**
   * Keys that coincide for different inputs leave a stale impact: 5 guests with 1
   * happy and 6 with 2 happy share the XOR key 4, and 100 uptime over 2 rides and
   * over 4 rides share the key 100.
   */
  lemma StaleCacheHits(s: EffectState, p: Snapshot, q: Snapshot)
    requires s.cache == Undefined
    requires p.guestsTotal == 5 && p.guestsHappy == 1 && q.guestsTotal == 6 && q.guestsHappy == 2
    requires p.ridesTotal == 2 && q.ridesTotal == 4 && p.ridesUptime == q.ridesUptime == 100
    ensures var t := Influence(NumberOfHappyGuests, s, p).next;
      t.impact == 120 && Influence(NumberOfHappyGuests, t, q) == Step(false, t)
      && HappyGuestsImpact(2, 6) == 200
    ensures var t := Influence(RideUptime, s, p).next;
      t.impact == 100 && Influence(RideUptime, t, q) == Step(false, t)
      && RideUptimeImpact(100, 4) == 50
  {
    assert 5 % TwoTo32 == 5 && 1 % TwoTo32 == 1 && 6 % TwoTo32 == 6 && 2 % TwoTo32 == 2;
    assert ((5 as bv32) ^ (1 as bv32)) as int == 4;
    assert ((6 as bv32) ^ (2 as bv32)) as int == 4;
    assert Xor32(5, 1) == Xor32(6, 2) == 4;
    assert HappyGuestsImpact(1, 5) == 120;
  }

  /** The worked examples of the rules' formulas. */
  lemma ImpactExamples()
    ensures GuestsImpact(1310) == 100 && GuestsImpact(2600) == 153
    ensures HappyGuestsImpact(500, 500) == 500 && HappyGuestsImpact(250, 500) == 300 && HappyGuestsImpact(0, 500) == 0
    ensures LostGuestsImpact(500) == -3325 && LostGuestsImpact(25) == 0
    ensures RideUptimeImpact(1000, 10) == 200 && RideUptimeImpact(500, 10) == 100 && RideUptimeImpact(0, 10) == 0
    ensures AverageRatingImpact(460.0 / 10.0, 46) == 50 && AverageRatingImpact(650.0 / 10.0, 65) == 50
    ensures AverageRatingImpact(26.0 / 1.0, 46) == 40 && AverageRatingImpact(7.0 / 1.0, 65) == 21
    ensures TotalRatingImpact(1000) == 100 && TotalRatingImpact(26) == 2 && TotalRatingImpact(7) == 0
    ensures LitterImpact(50) == -200 && LitterImpact(150) == -600 && LitterImpact(0) == 0
  {
    AverageRatingIntegerForm(460, 10, 46);
    AverageRatingIntegerForm(650, 10, 65);
    AverageRatingIntegerForm(26, 1, 46);
    AverageRatingIntegerForm(7, 1, 65);
  }
}
