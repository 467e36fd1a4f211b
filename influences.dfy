/**
 * The influence rules of src/core/influences.ts as they run: each one rewrites
 * the effect record it is handed in place and reports whether it changed it.
 * Each method is proved to do exactly what `Scoring.Influence` says for its key.
 */
module Influences {
  import opened Wrappers
  import opened Effects
  import opened Snapshots
  import Scoring

  /** Penalty for parks with the 'difficult park rating' flag. */
  method Difficulty(current: Effect, park: ParkInfo) returns (changed: bool)
    modifies current
    ensures Scoring.Step(changed, current.State())
         == Scoring.Influence(Scoring.Key.Difficulty, old(current.State()), park.Current())
  {
    if current.active == Some(park.hasDifficultParkRating) {
      return false;
    }
    current.active := Some(park.hasDifficultParkRating);
    if current.active == Some(true) {
      current.impact := -100;
      current.name := DifficultyName;
      current.value := Enabled;
      current.maximum := None;
      current.note := DifficultyNote;
    }
    return true;
  }

  /** The more guests there are, the higher the rating. */
  method NumberOfGuests(current: Effect, park: ParkInfo) returns (changed: bool)
    modifies current
    ensures Scoring.Step(changed, current.State())
         == Scoring.Influence(Scoring.Key.NumberOfGuests, old(current.State()), park.Current())
  {
    var guestCount := park.guestsTotal;
    if Num(guestCount as real) == current.cache {
      return false;
    }
    current.cache := Num(guestCount as real);
    current.active := Some(true);
    current.impact := Scoring.GuestsImpact(guestCount);
    current.name := GuestsName;
    current.value := OutOf(guestCount, 2000);
    current.maximum := Some(153);
    current.note := GuestsNote;
    return true;
  }

  /** Rewards the share of happy guests, up to 83%. */
  method NumberOfHappyGuests(current: Effect, park: ParkInfo) returns (changed: bool)
    modifies current
    ensures Scoring.Step(changed, current.State())
         == Scoring.Influence(Scoring.Key.NumberOfHappyGuests, old(current.State()), park.Current())
  {
    var totalGuests := park.guestsTotal;
    if totalGuests <= 0 {
      changed := DisableEffect(current);
      return;
    }
    var happyGuests := park.guestsHappy;
    var hash := Scoring.Xor32(totalGuests, happyGuests);
    if Num(hash as real) == current.cache {
      return false;
    }
    current.cache := Num(hash as real);
    current.active := Some(true);
    current.impact := Scoring.HappyGuestsImpact(happyGuests, totalGuests);
    current.name := HappyGuestsName;
    current.value := HappyShare(happyGuests, totalGuests);
    current.maximum := Some(500);
    current.note := HappyGuestsNote;
    return true;
  }

  /** Penalizes every lost guest after the first 25. */
  method NumberOfLostGuests(current: Effect, park: ParkInfo) returns (changed: bool)
    modifies current
    ensures Scoring.Step(changed, current.State())
         == Scoring.Influence(Scoring.Key.NumberOfLostGuests, old(current.State()), park.Current())
  {
    var lostGuests := park.guestsLost;
    if Num(lostGuests as real) == current.cache {
      return false;
    }
    current.cache := Num(lostGuests as real);
    current.active := Some(true);
    current.impact := Scoring.LostGuestsImpact(lostGuests);
    current.name := LostGuestsName;
    current.value := Value.Count(lostGuests);
    current.maximum := None;
    current.note := LostGuestsNote;
    return true;
  }

  /** Rewards rides that are not broken down. */
  method RideUptime(current: Effect, park: ParkInfo) returns (changed: bool)
    modifies current
    ensures Scoring.Step(changed, current.State())
         == Scoring.Influence(Scoring.Key.RideUptime, old(current.State()), park.Current())
  {
    var rideCount := park.ridesTotal;
    if rideCount <= 0 {
      changed := DisableEffect(current);
      return;
    }
    var totalUptime := park.ridesUptime;
    if Num(totalUptime as real) == current.cache {
      return false;
    }
    current.cache := Num(totalUptime as real);
    current.active := Some(true);
    var averageUptime := totalUptime / rideCount;
    current.impact := Scoring.RideUptimeImpact(totalUptime, rideCount);
    current.name := RideUptimeName;
    current.value := Percent(averageUptime);
    current.maximum := Some(200);
    current.note := RideUptimeNote;
    return true;
  }

  /** Penalizes an average excitement far from the target 46 (3.68 on the game's scale). */
  method RideAverageExcitement(current: Effect, park: ParkInfo) returns (changed: bool)
    modifies current
    ensures Scoring.Step(changed, current.State())
         == Scoring.Influence(Scoring.Key.RideAverageExcitement, old(current.State()), park.Current())
  {
    var withRatings := park.ridesWithRatings;
    if withRatings <= 0 {
      changed := DisableEffect(current);
      return;
    }
    var averageExcitement := park.ridesExcitement as real / withRatings as real;
    if Num(averageExcitement) == current.cache {
      return false;
    }
    current.cache := Num(averageExcitement);
    current.active := Some(true);
    current.impact := Scoring.AverageRatingImpact(averageExcitement, 46);
    current.name := AverageExcitementName;
    current.value := ScaledAverage(averageExcitement, 46);
    current.maximum := Some(50);
    current.note := AverageRatingNote;
    return true;
  }

  /** Penalizes an average intensity far from the target 65 (5.20 on the game's scale). */
  method RideAverageIntensity(current: Effect, park: ParkInfo) returns (changed: bool)
    modifies current
    ensures Scoring.Step(changed, current.State())
         == Scoring.Influence(Scoring.Key.RideAverageIntensity, old(current.State()), park.Current())
  {
    var withRatings := park.ridesWithRatings;
    if withRatings <= 0 {
      changed := DisableEffect(current);
      return;
    }
    var averageIntensity := park.ridesIntensity as real / withRatings as real;
    if Num(averageIntensity) == current.cache {
      return false;
    }
    current.cache := Num(averageIntensity);
    current.active := Some(true);
    current.impact := Scoring.AverageRatingImpact(averageIntensity, 65);
    current.name := AverageIntensityName;
    current.value := ScaledAverage(averageIntensity, 65);
    current.maximum := Some(50);
    current.note := AverageRatingNote;
    return true;
  }

  /** Rewards owning exciting rides. */
  method RideTotalExcitement(current: Effect, park: ParkInfo) returns (changed: bool)
    modifies current
    ensures Scoring.Step(changed, current.State())
         == Scoring.Influence(Scoring.Key.RideTotalExcitement, old(current.State()), park.Current())
  {
    var totalExcitement := park.ridesExcitement;
    if Num(totalExcitement as real) == current.cache {
      return false;
    }
    current.cache := Num(totalExcitement as real);
    current.active := Some(true);
    current.impact := Scoring.TotalRatingImpact(totalExcitement);
    current.name := TotalExcitementName;
    current.value := ScaledTotal(totalExcitement);
    current.maximum := Some(100);
    current.note := TotalRatingNote;
    return true;
  }

  /** Rewards owning intense rides. */
  method RideTotalIntensity(current: Effect, park: ParkInfo) returns (changed: bool)
    modifies current
    ensures Scoring.Step(changed, current.State())
         == Scoring.Influence(Scoring.Key.RideTotalIntensity, old(current.State()), park.Current())
  {
    var totalIntensity := park.ridesIntensity;
    if Num(totalIntensity as real) == current.cache {
      return false;
    }
    current.cache := Num(totalIntensity as real);
    current.active := Some(true);
    current.impact := Scoring.TotalRatingImpact(totalIntensity);
    current.name := TotalIntensityName;
    current.value := ScaledTotal(totalIntensity);
    current.maximum := Some(100);
    current.note := TotalRatingNote;
    return true;
  }

  /** Penalizes every piece of old litter. */
  method Litter(current: Effect, park: ParkInfo) returns (changed: bool)
    modifies current
    ensures Scoring.Step(changed, current.State())
         == Scoring.Influence(Scoring.Key.Litter, old(current.State()), park.Current())
  {
    var litterCount := park.litter;
    if Num(litterCount as real) == current.cache {
      return false;
    }
    current.cache := Num(litterCount as real);
    current.active := Some(true);
    current.impact := Scoring.LitterImpact(litterCount);
    current.name := LitterName;
    current.value := OutOf(litterCount, 150);
    current.maximum := None;
    current.note := LitterNote;
    return true;
  }

  /** Penalty points from crashed vehicles and recently dead guests. */
  method Casualties(current: Effect, park: ParkInfo) returns (changed: bool)
    modifies current
    ensures Scoring.Step(changed, current.State())
         == Scoring.Influence(Scoring.Key.Casualties, old(current.State()), park.Current())
  {
    var effect := park.casualtyPenalty;
    if Num(effect as real) == current.cache {
      return false;
    }
    current.cache := Num(effect as real);
    current.active := Some(true);
    current.impact := -effect;
    current.name := CasualtiesName;
    current.value := OutOf(effect, 1000);
    current.maximum := None;
    current.note := CasualtiesNote;
    return true;
  }

  /** Switches an active effect off and resets its key to 0; reports whether it was active. */
  method DisableEffect(effect: Effect) returns (changed: bool)
    modifies effect
    ensures Scoring.Step(changed, effect.State()) == Scoring.DisableEffect(old(effect.State()))
  {
    if effect.active == Some(true) {
      effect.cache := Num(0.0);
      effect.active := Some(false);
      return true;
    }
    return false;
  }

  /** `Influences[key](effect, park)`: runs the influence stored under `key`. */
  method Invoke(key: Scoring.Key, current: Effect, park: ParkInfo) returns (changed: bool)
    modifies current
    ensures Scoring.Step(changed, current.State()) == Scoring.Influence(key, old(current.State()), park.Current())
  {
    match key
    case Difficulty => changed := Difficulty(current, park);
    case NumberOfGuests => changed := NumberOfGuests(current, park);
    case NumberOfHappyGuests => changed := NumberOfHappyGuests(current, park);
    case NumberOfLostGuests => changed := NumberOfLostGuests(current, park);
    case RideUptime => changed := RideUptime(current, park);
    case RideAverageExcitement => changed := RideAverageExcitement(current, park);
    case RideAverageIntensity => changed := RideAverageIntensity(current, park);
    case RideTotalExcitement => changed := RideTotalExcitement(current, park);
    case RideTotalIntensity => changed := RideTotalIntensity(current, park);
    case Litter => changed := Litter(current, park);
    case Casualties => changed := Casualties(current, park);
  }
}
