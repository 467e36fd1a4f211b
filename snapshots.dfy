/**
 * The park snapshot (src/core/parkInfo.ts): counts read from the host
 * simulation and aggregated by `refresh`. The host's globals (`park`, `map`,
 * `date`) are replaced by one explicit `Host` value.
 */
module Snapshots {

  /** A guest entity as the host reports it. */
  datatype Guest = Guest(isInPark: bool, happiness: int, leavingPark: bool, isLost: bool)

  /** A ride as the host reports it; ratings are in the game's raw units. */
  datatype Ride = Ride(downtime: int, excitement: int, intensity: int)

  /** A litter entity. */
  datatype LitterItem = LitterItem(creationTick: int)

  /** Everything `refresh` reads from the host in one call. */
  datatype Host = Host(
    difficultParkRating: bool,   // park.getFlag("difficultParkRating")
    guestCount: int,             // park.guests
    guests: seq<Guest>,          // map.getAllEntities("guest")
    rides: seq<Ride>,            // map.rides
    litter: seq<LitterItem>,     // map.getAllEntities("litter")
    ticksElapsed: int,           // date.ticksElapsed
    casualtyPenalty: int)        // park.casualtyPenalty

  /** The fields of the park snapshot, as a value. */
  datatype Snapshot = Snapshot(
    hasDifficultParkRating: bool,
    guestsTotal: int,
    guestsHappy: int,
    guestsLost: int,
    ridesTotal: int,
    ridesUptime: int,
    ridesWithRatings: int,
    ridesExcitement: int,
    ridesIntensity: int,
    litter: int,
    casualtyPenalty: int)

  /** Litter younger than this many ticks is not counted. */
  const LitterAgeThreshold: int := 7680

  predicate InPark(g: Guest) { g.isInPark }
  predicate IsHappy(g: Guest) { g.isInPark && g.happiness > 128 }
  predicate IsLostGuest(g: Guest) { g.isInPark && g.leavingPark && g.isLost }

  predicate HasRatings(r: Ride) { r.excitement > 0 || r.intensity > 0 }
  function Uptime(r: Ride): int { 100 - r.downtime }
  /** A rated ride adds its rating divided by 8 and floored; an unrated one adds nothing. */
  function ExcitementPoints(r: Ride): int { if HasRatings(r) then r.excitement / 8 else 0 }
  function IntensityPoints(r: Ride): int { if HasRatings(r) then r.intensity / 8 else 0 }

  /** Litter counts once its age, a plain signed difference of ticks, reaches the threshold. */
  predicate IsOldLitter(currentTick: int, item: LitterItem) {
    currentTick - item.creationTick >= LitterAgeThreshold
  }

  /** The number of elements of `s` that satisfy `p`. */
  function Count<T>(s: seq<T>, p: T -> bool): nat
  {
    if s == [] then 0 else Count(s[..|s| - 1], p) + (if p(s[|s| - 1]) then 1 else 0)
  }

  /** The sum of `f` over the elements of `s`. */
  function Sum<T>(s: seq<T>, f: T -> int): int
  {
    if s == [] then 0 else Sum(s[..|s| - 1], f) + f(s[|s| - 1])
  }

  /** The number of litter items old enough to count at the current tick. */
  function OldLitter(items: seq<LitterItem>, currentTick: int): nat
  {
    Count(items, (item: LitterItem) => IsOldLitter(currentTick, item))
  }

  /** What `refresh` stores, given what the host reports. */
  function Refreshed(host: Host): Snapshot
  {
    Snapshot(
      host.difficultParkRating,
      host.guestCount,
      Count(host.guests, IsHappy),
      Count(host.guests, IsLostGuest),
      |host.rides|,
      Sum(host.rides, Uptime),
      Count(host.rides, HasRatings),
      Sum(host.rides, ExcitementPoints),
      Sum(host.rides, IntensityPoints),
      OldLitter(host.litter, host.ticksElapsed),
      host.casualtyPenalty)
  }

  /** The process-wide snapshot object, overwritten in place by `Refresh`. */
  class ParkInfo {
    var hasDifficultParkRating: bool
    var guestsTotal: int
    var guestsHappy: int
    var guestsLost: int
    var ridesTotal: int
    var ridesUptime: int
    var ridesWithRatings: int
    var ridesExcitement: int
    var ridesIntensity: int
    var litter: int
    var casualtyPenalty: int

    /** The initial state of the singleton: every count zero, the flag off. */
    constructor ()
      ensures Current() == Snapshot.Snapshot(false, 0, 0, 0, 0, 0, 0, 0, 0, 0, 0)
    {
      hasDifficultParkRating := false;
      guestsTotal, guestsHappy, guestsLost := 0, 0, 0;
      ridesTotal, ridesUptime, ridesWithRatings, ridesExcitement, ridesIntensity := 0, 0, 0, 0, 0;
      litter, casualtyPenalty := 0, 0;
    }

    function Current(): Snapshot
      reads this
    {
      Snapshot.Snapshot(hasDifficultParkRating, guestsTotal, guestsHappy, guestsLost,
               ridesTotal, ridesUptime, ridesWithRatings, ridesExcitement, ridesIntensity,
               litter, casualtyPenalty)
    }

    /** Recounts guests, rides and litter and overwrites every field. */
    method Refresh(host: Host)
      modifies this
      ensures Current() == Refreshed(host)
    {
      var s := Recount(host);
      hasDifficultParkRating, guestsTotal, guestsHappy, guestsLost := s.hasDifficultParkRating, s.guestsTotal, s.guestsHappy, s.guestsLost;
      ridesTotal, ridesUptime, ridesWithRatings := s.ridesTotal, s.ridesUptime, s.ridesWithRatings;
      ridesExcitement, ridesIntensity, litter, casualtyPenalty := s.ridesExcitement, s.ridesIntensity, s.litter, s.casualtyPenalty;
    }
  }

  /** The counting loops of `refresh`, gathered into the values it stores. */
  method Recount(host: Host) returns (s: Snapshot)
    ensures s == Refreshed(host)
  {
    var happy, lost := CountGuests(host.guests);
    var rides, uptime, withRatings, excitement, intensity := CountRides(host.rides);
    var oldLitter := CountLitter(host.litter, host.ticksElapsed);
    s := Snapshot(host.difficultParkRating, host.guestCount, happy, lost,
                  rides, uptime, withRatings, excitement, intensity, oldLitter, host.casualtyPenalty);
  }

  /** The guest loop of `refresh`: guests outside the park are skipped. */
  method CountGuests(guests: seq<Guest>) returns (happy: int, lost: int)
    ensures happy == Count(guests, IsHappy)
    ensures lost == Count(guests, IsLostGuest)
  {
    happy, lost := 0, 0;
    for i := 0 to |guests|
      invariant happy == Count(guests[..i], IsHappy)
      invariant lost == Count(guests[..i], IsLostGuest)
    {
      assert guests[..i + 1][..i] == guests[..i];
      var guest := guests[i];
      if !guest.isInPark {
        continue;
      }
      if guest.happiness > 128 {
        happy := happy + 1;
      }
      if guest.leavingPark && guest.isLost {
        lost := lost + 1;
      }
    }
    assert guests[..|guests|] == guests;
  }

  /** The ride loop of `refresh`: only rated rides add to the rating totals. */
  method CountRides(rides: seq<Ride>) returns (rideCount: int, ridesUptime: int, withRatings: int, excitement: int, intensity: int)
    ensures rideCount == |rides|
    ensures ridesUptime == Sum(rides, Uptime)
    ensures withRatings == Count(rides, HasRatings)
    ensures excitement == Sum(rides, ExcitementPoints)
    ensures intensity == Sum(rides, IntensityPoints)
  {
    rideCount, ridesUptime, excitement, intensity, withRatings := 0, 0, 0, 0, 0;
    for i := 0 to |rides|
      invariant rideCount == i
      invariant ridesUptime == Sum(rides[..i], Uptime)
      invariant excitement == Sum(rides[..i], ExcitementPoints)
      invariant intensity == Sum(rides[..i], IntensityPoints)
      invariant withRatings == Count(rides[..i], HasRatings)
    {
      assert rides[..i + 1][..i] == rides[..i];
      var ride := rides[i];
      ridesUptime := ridesUptime + (100 - ride.downtime);
      rideCount := rideCount + 1;
      if ride.excitement > 0 || ride.intensity > 0 {
        excitement := excitement + ride.excitement / 8;
        intensity := intensity + ride.intensity / 8;
        withRatings := withRatings + 1;
      }
    }
    assert rides[..|rides|] == rides;
  }

  /** The litter loop of `refresh`: the age is the plain difference of the two ticks. */
  method CountLitter(items: seq<LitterItem>, currentTick: int) returns (litterCount: int)
    ensures litterCount == OldLitter(items, currentTick)
  {
    litterCount := 0;
    for i := 0 to |items|
      invariant litterCount == OldLitter(items[..i], currentTick)
    {
      assert items[..i + 1][..i] == items[..i];
      if currentTick - items[i].creationTick >= 7680 {
        litterCount := litterCount + 1;
      }
    }
    assert items[..|items|] == items;
  }

  lemma {:induction false} CountAppend<T>(a: seq<T>, b: seq<T>, p: T -> bool)
    ensures Count(a + b, p) == Count(a, p) + Count(b, p)
  {
    if b == [] {
      assert a + b == a;
    } else {
      assert (a + b)[..|a + b| - 1] == a + b[..|b| - 1];
      CountAppend(a, b[..|b| - 1], p);
    }
  }

  lemma {:induction false} SumAppend<T>(a: seq<T>, b: seq<T>, f: T -> int)
    ensures Sum(a + b, f) == Sum(a, f) + Sum(b, f)
  {
    if b == [] {
      assert a + b == a;
    } else {
      assert (a + b)[..|a + b| - 1] == a + b[..|b| - 1];
      SumAppend(a, b[..|b| - 1], f);
    }
  }

  /** Inserting one element changes a count by one exactly when the element satisfies the predicate. */
  lemma CountInsert<T>(a: seq<T>, x: T, b: seq<T>, p: T -> bool)
    ensures Count(a + [x] + b, p) == Count(a + b, p) + (if p(x) then 1 else 0)
  {
    CountAppend(a + [x], b, p);
    CountAppend(a, b, p);
    assert (a + [x])[..|a + [x]| - 1] == a;
  }

  lemma SumInsert<T>(a: seq<T>, x: T, b: seq<T>, f: T -> int)
    ensures Sum(a + [x] + b, f) == Sum(a + b, f) + f(x)
  {
    SumAppend(a + [x], b, f);
    SumAppend(a, b, f);
    assert (a + [x])[..|a + [x]| - 1] == a;
  }

  lemma {:induction false} CountAtMostLength<T>(s: seq<T>, p: T -> bool)
    ensures Count(s, p) <= |s|
  {
    if s != [] {
      CountAtMostLength(s[..|s| - 1], p);
    }
  }

  /** A predicate implied by another on every element counts at least as many elements. */
  lemma {:induction false} CountMonotone<T>(s: seq<T>, p: T -> bool, q: T -> bool)
    requires forall i :: 0 <= i < |s| ==> p(s[i]) ==> q(s[i])
    ensures Count(s, p) <= Count(s, q)
  {
    if s != [] {
      CountMonotone(s[..|s| - 1], p, q);
    }
  }

  lemma {:induction false} SumAtMost<T>(s: seq<T>, f: T -> int, bound: int)
    requires forall i :: 0 <= i < |s| ==> f(s[i]) <= bound
    ensures Sum(s, f) <= bound * |s|
  {
    if s != [] {
      SumAtMost(s[..|s| - 1], f, bound);
    }
  }

  /**
   * The bounds a refreshed snapshot keeps: happy and lost guests are among the
   * in-park guests, rated rides among all rides, old litter among all litter,
   * and with no negative downtime the uptime sum is at most 100 per ride.
   */
  lemma RefreshedBounds(host: Host)
    ensures var s := Refreshed(host);
      && 0 <= s.guestsHappy <= Count(host.guests, InPark)
      && 0 <= s.guestsLost <= Count(host.guests, InPark)
      && s.ridesTotal == |host.rides|
      && 0 <= s.ridesWithRatings <= s.ridesTotal
      && 0 <= s.litter <= |host.litter|
      && ((forall i :: 0 <= i < |host.rides| ==> host.rides[i].downtime >= 0) ==> s.ridesUptime <= 100 * s.ridesTotal)
  {
    CountMonotone(host.guests, IsHappy, InPark);
    CountMonotone(host.guests, IsLostGuest, InPark);
    CountAtMostLength(host.rides, HasRatings);
    CountAtMostLength(host.litter, (item: LitterItem) => IsOldLitter(host.ticksElapsed, item));
    if forall i :: 0 <= i < |host.rides| ==> host.rides[i].downtime >= 0 {
      SumAtMost(host.rides, Uptime, 100);
    }
  }

  /** Happiness must be strictly above 128: an in-park guest at 129 is counted, one at 128 is not. */
  lemma HappinessThreshold(a: seq<Guest>, b: seq<Guest>, leavingPark: bool, isLost: bool)
    ensures Count(a + [Guest(true, 129, leavingPark, isLost)] + b, IsHappy) == Count(a + b, IsHappy) + 1
    ensures Count(a + [Guest(true, 128, leavingPark, isLost)] + b, IsHappy) == Count(a + b, IsHappy)
  {
    CountInsert(a, Guest(true, 129, leavingPark, isLost), b, IsHappy);
    CountInsert(a, Guest(true, 128, leavingPark, isLost), b, IsHappy);
  }

  /**
   * A guest that has left the park adds to neither count; an in-park guest is
   * lost exactly when it is both leaving the park and flagged as lost.
   */
  lemma GuestCounting(a: seq<Guest>, g: Guest, b: seq<Guest>)
    ensures !g.isInPark ==> Count(a + [g] + b, IsHappy) == Count(a + b, IsHappy)
    ensures !g.isInPark ==> Count(a + [g] + b, IsLostGuest) == Count(a + b, IsLostGuest)
    ensures g.isInPark ==>
      Count(a + [g] + b, IsLostGuest) == Count(a + b, IsLostGuest) + (if g.leavingPark && g.isLost then 1 else 0)
  {
    CountInsert(a, g, b, IsHappy);
    CountInsert(a, g, b, IsLostGuest);
  }

  /**
   * A ride with neither excitement nor intensity above zero, wherever it stands,
   * adds to neither rating total nor to the rated-ride count; it still adds its uptime.
   */
  lemma UnratedRideAddsNoRatings(a: seq<Ride>, r: Ride, b: seq<Ride>)
    requires !(r.excitement > 0 || r.intensity > 0)
    ensures Sum(a + [r] + b, ExcitementPoints) == Sum(a + b, ExcitementPoints)
    ensures Sum(a + [r] + b, IntensityPoints) == Sum(a + b, IntensityPoints)
    ensures Count(a + [r] + b, HasRatings) == Count(a + b, HasRatings)
    ensures Sum(a + [r] + b, Uptime) == Sum(a + b, Uptime) + 100 - r.downtime
  {
    SumInsert(a, r, b, ExcitementPoints);
    SumInsert(a, r, b, IntensityPoints);
    CountInsert(a, r, b, HasRatings);
    SumInsert(a, r, b, Uptime);
  }

  /** A litter item created after the current tick, wherever it stands, is never counted. */
  lemma FutureLitterNotCounted(a: seq<LitterItem>, item: LitterItem, b: seq<LitterItem>, currentTick: int)
    requires item.creationTick > currentTick
    ensures OldLitter(a + [item] + b, currentTick) == OldLitter(a + b, currentTick)
  {
    CountInsert(a, item, b, (x: LitterItem) => IsOldLitter(currentTick, x));
  }
}
