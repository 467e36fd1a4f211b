# Park rating engine of the OpenRCT2 Park Rating Inspector

This project models the engine behind the Park Rating Inspector plugin for
OpenRCT2. The plugin shows the player which effects raise or lower their park
rating. The modelled parts are:

- **Snapshot.** The park snapshot (`ParkInfo`) is a singleton. `refresh`
  overwrites it from the host simulation: guests, rides, old litter, the
  casualty penalty and the difficult-rating flag.
- **Effect records.** An effect record (`Effect`) holds the rating effect one
  influence shows: active flag, name, value, impact, note, maximum, a cache key
  and a display order.
- **Influences.** There are eleven influence rules, plus `disableEffect` and
  `getAverageRatingImpact`. Each rule rewrites its record in place and reports
  whether it changed it.
- **Rating.** A park rating (`ParkRating`) keeps one record per influence key.
  `recalculate` refreshes the snapshot, runs every rule once in table order,
  creating missing records, and stores the total of the active impacts. The
  `effects` getter lists the active records.
- **`find`.** The first-match array search `find`.

The model is split into modules:

- `Effects` (effects.dfy) holds the record and its value view `EffectState`.
- `Snapshots` (snapshots.dfy) holds the `ParkInfo` class and the counting loops.
- `Scoring` (scoring.dfy) states every rule as a function on values.
- `Influences` (influences.dfy) holds the rules as methods that mutate an
  `Effect`. Each is proved equal to `Scoring.Influence` for its key.
- `Ratings` (ratings.dfy) holds the `ParkRating` class. Its `Recalculate` loop
  is proved against the value-level pass `Recalculated`, `AnyChanged` and
  `ActiveTotal`.
- `ArrayUtil` (arrays.dfy) holds `find`.
- `Wrappers` (wrappers.dfy) holds `Option`.

JavaScript's `undefined` becomes `None`, `Undefined` (the cache) or `Blank`
(the value) where the source can observe it.

## Model

| member | source | states |
|---|---|---|
| Effects.Fresh | src/core/parkRating.ts:82 | a record created as `{ order: index }` is inactive, has no `active` flag and no cache key, and carries its order |
| Effects.Effect.constructor | src/core/parkRating.ts:82 | a new record object holds exactly the fresh state for its order |
| Scoring.Order | src/core/parkRating.ts:73-82 | each key's record order is its 1-based position in the influence table |
| Scoring.TablePosition | src/core/parkRating.ts:75-77 | the table lists each key once: position i holds the key of order i+1 |
| Scoring.FloorOfQuotient | src/core/influences.ts:132 | `Math.floor(n / d)` with a positive divisor equals integer division |
| Scoring.GuestsImpact | src/core/influences.ts:62 | the guests impact is at most 153, never negative for a non-negative count, and 153 from 2000 guests on |
| Scoring.HappyGuestsImpact | src/core/influences.ts:87 | the happy-guests impact equals min(500, floor(600·happy/total)) and lies in [0, 500] for non-negative happy counts |
| Scoring.HappyGuestsIntegerForm | src/core/influences.ts:87 | the floating formula `floor(2·min(250, 300·h/t))` equals its integer form for every positive total |
| Scoring.LostGuestsImpact | src/core/influences.ts:108 | the lost-guests impact is never positive and is 0 exactly when at most 25 guests are lost |
| Scoring.RideUptimeImpact | src/core/influences.ts:132-133 | the uptime impact is even, at most 200 when the uptime sum is at most 100 per ride, and never negative for a non-negative uptime sum |
| Scoring.AverageRatingImpact | src/core/influences.ts:269-276 | `getAverageRatingImpact` lies in [0, 50] and is 50 exactly when the average is within 2 of the target |
| Scoring.AverageRatingIntegerForm | src/core/influences.ts:269-276 | on an average of integers the impact equals 50 − min(⌊\|total − target·count\| / (2·count)⌋, 50) |
| Scoring.TotalRatingImpact | src/core/influences.ts:198 | the ride-total impact is at most 100, non-negative for a non-negative total, and 100 from 1000 points on |
| Scoring.LitterImpact | src/core/influences.ts:236 | the litter impact is at least −600, never positive for a non-negative count, and −600 from 150 pieces on |
| Scoring.Xor32 | src/core/influences.ts:80 | JavaScript's `^` yields a signed 32-bit integer, and it is 0 when both operands agree modulo 2^32 |
| Scoring.DisableEffect | src/core/influences.ts:283-292 | `disableEffect` reports a change exactly when the record was active; it leaves the record inactive; on a change the record differs from the old one only in `active` (now false) and the key (now 0); otherwise it changes nothing; it never touches impact or order |
| Scoring.Cached | src/core/influences.ts:57-67 | a cached rule reports a change exactly when the key differs from the stored one; then the record is active with the new key, impact and maximum; otherwise it is untouched; order is never touched |
| Scoring.Influence | src/core/influences.ts:34-261 | the rule table: a rule that reports a change leaves `active` defined, and no rule touches `order` |
| Scoring.WithinMaximum | src/core/effects.ts:31-34 | an active record with a maximum shows an impact no greater than it |
| Scoring.InfluenceWithinMaximum | src/core/influences.ts:54-261 | on a snapshot refreshed from the game (downtimes non-negative), the maximum every rule attaches bounds the impact it computes: a rewritten record is within its maximum, and one that was stays so |
| Scoring.SameInputs | src/core/influences.ts:34-261 | the snapshot fields each rule reads (for example the guest total and happy count for happy guests, the rated-ride count and excitement for average excitement) |
| Scoring.InfluenceLocal | src/core/influences.ts:34-261 | a rule's outcome depends only on its own snapshot fields: snapshots that agree on them give the same outcome |
| Scoring.InfluenceFrame | src/core/influences.ts:34-261 | every rule that reports no change has left every field as it was |
| Scoring.InfluenceIdempotent | src/core/influences.ts:11-16 | a rule applied twice on the same snapshot reports no change the second time and leaves the record as the first call left it |
| Scoring.DifficultyRule | src/core/influences.ts:34-49 | afterwards `active` equals the difficult-rating flag; the rule reports a change exactly when `active` differed before, including a fresh record's `undefined`; an activated record gets impact −100 and no maximum |
| Scoring.HappyGuestsIgnoresZeroKey | src/core/influences.ts:73-95 | a happy-guests record that `disableEffect` switched off stays hidden when all guests are happy, because the XOR key is 0 again, though its impact would be +500 |
| Scoring.RideUptimeIgnoresZeroKey | src/core/influences.ts:119-139 | a disabled uptime record stays hidden when rides return with zero total uptime |
| Scoring.AverageRatingsIgnoreZeroKey | src/core/influences.ts:144-185 | a disabled average-rating record stays hidden when the rated rides' total is 0, though it would show +27 (excitement) or +18 (intensity) |
| Scoring.StaleCacheHits | src/core/influences.ts:73-139 | different inputs that share a cache key keep the stale impact: 1 happy of 5 and 2 happy of 6 share key 4 (120 kept, 200 due); 100 uptime over 2 and over 4 rides share key 100 (100 kept, 50 due) |
| Scoring.ImpactExamples | tests/core/parkRating.tests.ts:93-362 | the worked examples of the guests, happy-guests, lost-guests, uptime, average-rating, total-rating and litter formulas |
| Influences.Difficulty | src/core/influences.ts:34-49 | the in-place difficulty rule leaves the record and returns the flag exactly as `Scoring.Influence` says for its key |
| Influences.NumberOfGuests | src/core/influences.ts:54-68 | the in-place guests rule follows `Scoring.Influence` |
| Influences.NumberOfHappyGuests | src/core/influences.ts:73-95 | the in-place happy-guests rule follows `Scoring.Influence`, including the disable branch |
| Influences.NumberOfLostGuests | src/core/influences.ts:100-114 | the in-place lost-guests rule follows `Scoring.Influence` |
| Influences.RideUptime | src/core/influences.ts:119-139 | the in-place uptime rule follows `Scoring.Influence`, including the disable branch |
| Influences.RideAverageExcitement | src/core/influences.ts:144-162 | the in-place average-excitement rule follows `Scoring.Influence` (target 46) |
| Influences.RideAverageIntensity | src/core/influences.ts:167-185 | the in-place average-intensity rule follows `Scoring.Influence` (target 65) |
| Influences.RideTotalExcitement | src/core/influences.ts:190-204 | the in-place total-excitement rule follows `Scoring.Influence` |
| Influences.RideTotalIntensity | src/core/influences.ts:209-223 | the in-place total-intensity rule follows `Scoring.Influence` |
| Influences.Litter | src/core/influences.ts:228-242 | the in-place litter rule follows `Scoring.Influence` |
| Influences.Casualties | src/core/influences.ts:247-261 | the in-place casualties rule follows `Scoring.Influence` (impact −penalty) |
| Influences.DisableEffect | src/core/influences.ts:283-292 | the in-place `disableEffect` follows `Scoring.DisableEffect` |
| Influences.Invoke | src/core/parkRating.ts:86-87 | `Influences[key](effect, park)` runs the rule of `key` with the effect of `Scoring.Influence` |
| Snapshots.Refreshed | src/core/parkInfo.ts:96-160 | what `refresh` stores: flag, guest total and casualty penalty verbatim, happy and lost in-park guests counted, ride count, uptime sum, rated rides and their rating points, and the old litter count |
| Snapshots.ParkInfo.constructor | src/core/parkInfo.ts:78-94 | the singleton starts with every count 0 and the flag off |
| Snapshots.ParkInfo.Refresh | src/core/parkInfo.ts:96-160 | `refresh` overwrites every field with the recount `Refreshed(host)`, the flag, guest total and casualty penalty verbatim |
| Snapshots.Recount | src/core/parkInfo.ts:104-156 | the counting loops of `refresh` produce exactly `Refreshed(host)` |
| Snapshots.CountGuests | src/core/parkInfo.ts:104-119 | the guest loop counts in-park guests with happiness above 128, and in-park guests that are leaving and lost |
| Snapshots.CountRides | src/core/parkInfo.ts:121-142 | the ride loop counts all rides, sums 100 − downtime over all of them, and counts rated rides; only rated rides add ⌊rating/8⌋ |
| Snapshots.CountLitter | src/core/parkInfo.ts:144-156 | the litter loop counts the items whose age `currentTick − creationTick` is at least 7680 |
| Snapshots.RefreshedBounds | src/core/parkInfo.ts:104-156 | happy and lost are at most the in-park guests; rated rides at most all rides; old litter at most all litter; with no negative downtime the uptime sum is at most 100 per ride |
| Snapshots.HappinessThreshold | src/core/parkInfo.ts:112-113 | an in-park guest at happiness 129 counts as happy and one at 128 does not |
| Snapshots.GuestCounting | src/core/parkInfo.ts:107-116 | a guest outside the park adds to neither count; an in-park guest is lost exactly when leaving and flagged lost |
| Snapshots.UnratedRideAddsNoRatings | src/core/parkInfo.ts:125-136 | a ride with no positive rating adds nothing to the rating totals or the rated count, but still adds its uptime |
| Snapshots.FutureLitterNotCounted | src/core/parkInfo.ts:149-155 | inserting an item created after the current tick anywhere in the litter list leaves the old-litter count unchanged |
| Ratings.Prior | src/core/parkRating.ts:78-84 | the record an influence is handed: the stored one, or for a key seen the first time an inactive record with no flag, no cache key and the key's order |
| Ratings.AnyChanged | src/core/parkRating.ts:77-90 | the change flag after the first keys of the table: raised by any rule that reported a change (see `AnyChangedExactly`) |
| Ratings.ActiveTotal | src/core/parkRating.ts:91-95 | the sum of the impacts of the active records under the given keys |
| Ratings.Recalculated | src/core/parkRating.ts:75-90 | after one pass every influence key has a record |
| Ratings.AnyChangedExactly | src/core/parkRating.ts:72-97 | `recalculate` reports a change if and only if some influence reported one, with no short-circuit |
| Ratings.InactiveImpactIgnored | src/core/parkRating.ts:91-94 | the impact stored in an inactive record never reaches the total |
| Ratings.RecalculateIdempotent | src/core/parkRating.ts:68-98 | a second pass on the same snapshot changes no record and reports no change, so the total stays as it was |
| Ratings.RecalculatedOrders | src/core/parkRating.ts:77-84 | after a pass every key has a record and each record's order is its key's table position; records are never dropped |
| Ratings.RecalculatedUnaffected | src/core/influences.ts:11-16 | a pass on a snapshot that agrees with the previous one on a key's inputs leaves that key's record as it was and reports no change for it |
| Ratings.RecalculatedWithinMaximum | src/core/effects.ts:31-34 | passes on snapshots refreshed from the game keep every active record within its maximum |
| Ratings.DifficultyToggle | tests/core/parkRating.tests.ts:68-90 | the difficulty flag switched on, off and on over three passes: shown at −100, kept in the map but hidden, then shown at −100 again |
| Ratings.ParkRating.For | src/core/parkRating.ts:43-60 | a new rating has no records, no effects and total 0 |
| Ratings.ParkRating.Effects | src/core/parkRating.ts:50-56 | `effects` lists exactly the active records, each once, in table order |
| Ratings.ParkRating.ActiveUpTo | src/core/parkRating.ts:50-56 | the active records among the first n keys of the table, in table order |
| Ratings.ParkRating.Recalculate | src/core/parkRating.ts:68-98 | `recalculate` refreshes the snapshot, leaves the records equal to `Recalculated` on it, keeps every existing record object under its key, returns `AnyChanged` and stores `ActiveTotal` of the new records; records it creates are new objects owned by the rating, so it can run again |
| Ratings.ParkRating.RecalculateTwice | src/core/parkRating.ts:68-98 | two `recalculate` calls on unchanged game data: the second reports no change and keeps the total of the first |
| Ratings.ParkRating.Pass | src/core/parkRating.ts:72-95 | the loop over the influence table ends with every key run once, the change flag and the running total of active impacts; every record it adds is a new object |
| Ratings.ParkRating.Turn | src/core/parkRating.ts:77-94 | one iteration finds or creates the key's record (a new object when the key was missing), runs its rule, raises the flag on a change, and adds the impact when active |
| Ratings.ParkRating.Run | src/core/parkRating.ts:86-90 | running a rule changes only its own record, as `Scoring.Influence` says |
| Ratings.ParkRating.Lookup | src/core/parkRating.ts:78-84 | the key's record is the stored one, or a new one of the key's order stored under the key |
| Ratings.ParkRating.Create | src/core/parkRating.ts:80-84 | a missing key gets a new record `{ order: index }` and nothing else changes |
| ArrayUtil.Find | src/utilities/array.ts:6-17 | `find` returns `None` exactly when no element satisfies the predicate; otherwise it returns the element at the first index that does |

## Left out

- Host reads: `park.getFlag`, `park.guests`, `map.getAllEntities`, `map.rides`, `date.ticksElapsed` and `park.casualtyPenalty` become the fields of one `Host` value passed to `Refresh` and `Recalculate`.
- Display strings: a record's `value` is the datatype `Value` with the numbers it shows. The `toFixed` formatting of `x·0.08`, the percentage `floor(h/t·100)` and string interpolation are not modelled.
- Names and notes are the datatype `Text`; `Effects.Wording` spells out each text.
- Floating point: averages, the happy share and cache keys are exact reals, not IEEE doubles. Rounding of a double, for example two different averages that round to the same double and so share a cache key, is not captured.
- Integer ranges: counts are unbounded integers. Only the XOR cache key is truncated to 32 bits, as JavaScript does.
- A fresh record's undefined `name`, `value`, `note`, `impact` and `maximum` are `Untitled`, `Blank`, `Untitled`, 0 and `None`. None of them is read while the record is inactive. An undefined `impact` adds nothing to the total, as 0 does.
- The display order of `effects`: `Object.keys` returns keys in insertion order. The first pass inserts every key in table order, so the model lists records in table order.
- Litter age: the code subtracts the creation tick from the current tick as plain signed numbers; the model does the same and adds no modular arithmetic.
- The litter test that sets `creationTime` rather than `creationTick` (tests/core/parkInfo.tests.ts:143-159) contradicts the age check. No property is drawn from it.
- Unchanged array: `ArrayUtil.Find` has no `modifies` clause, so Dafny guarantees the array is unchanged without an `ensures`.
- The UI (`src/main.ts`, `src/startup.ts`) and its display sort are not part of this model. Neither are plugin registration, build configuration and logging.
