/**
 * The effect record (src/core/effects.ts): the mutable per-rule state that an
 * influence rewrites and the rating aggregator keeps between passes.
 */
module Effects {
  import opened Wrappers

  /** The opaque last-seen key of a rule; a fresh record has none (`undefined`). */
  datatype Cache = Undefined | Num(key: real)

  /**
   * What the record's display string shows. The string itself is left abstract:
   * its float formatting (`toFixed`, percentages) is not modelled.
   */
  datatype Value =
    | Blank                                   // a fresh record: `undefined`
    | Enabled                                 // "enabled"
    | OutOf(amount: int, limit: int)          // "amount/limit"
    | HappyShare(happy: int, total: int)      // "happy/total (percentage%)"
    | Count(amount: int)                      // "amount"
    | Percent(amount: int)                    // "amount%"
    | ScaledAverage(average: real, target: int) // "(average * 0.08)/(target * 0.08)", two decimals
    | ScaledTotal(amount: int)                // "(amount * 0.08)/80.0", one decimal

  /**
   * The display texts an influence writes into a record's `name` and `note`;
   * `Untitled` is a fresh record's `undefined`. `Wording` spells each one out.
   */
  datatype Text =
    | Untitled
    | DifficultyName
    | DifficultyNote
    | GuestsName
    | GuestsNote
    | HappyGuestsName
    | HappyGuestsNote
    | LostGuestsName
    | LostGuestsNote
    | RideUptimeName
    | RideUptimeNote
    | AverageExcitementName
    | AverageIntensityName
    | AverageRatingNote
    | TotalExcitementName
    | TotalIntensityName
    | TotalRatingNote
    | LitterName
    | LitterNote
    | CasualtiesName
    | CasualtiesNote

  function Wording(t: Text): string
  {
    match t
    case Untitled => ""
    case DifficultyName => "Difficulty"
    case DifficultyNote => "Setting for 'difficult park rating'"
    case GuestsName => "Guests"
    case GuestsNote => "+1 for every 13 guests, max. +153"
    case HappyGuestsName => "Happy guests"
    case HappyGuestsNote => "+6 for every percent, max. +500 (83%)"
    case LostGuestsName => "Lost guests"
    case LostGuestsNote => "-7 per lost guest after the first 25"
    case RideUptimeName => "Average ride uptime"
    case RideUptimeNote => "+2 for every percent, max. +200"
    case AverageExcitementName => "Average ride excitement"
    case AverageIntensityName => "Average ride intensity"
    case AverageRatingNote => "Closer is better, max. +50"
    case TotalExcitementName => "Total ride excitement"
    case TotalIntensityName => "Total ride intensity"
    case TotalRatingNote => "Max. +100"
    case LitterName => "Amount of litter"
    case LitterNote => "-4 per piece of litter"
    case CasualtiesName => "Casualty penalty"
    case CasualtiesNote => "-200 per crashed train until -500, -25 per drowned guest"
  }

  /** A snapshot of all fields of an effect record, as a value. */
  datatype EffectState = EffectState(
    active: Option<bool>,
    name: Text,
    value: Value,
    impact: int,
    note: Text,
    maximum: Option<int>,
    cache: Cache,
    order: int)

  /** `active` alone decides whether the effect is shown and counted; `undefined` is falsy. */
  predicate IsActive(s: EffectState) {
    s.active == Some(true)
  }

  /** A freshly created record carries only its order. */
  function Fresh(order: int): (s: EffectState)
    ensures !IsActive(s) && s.active == None && s.cache == Undefined && s.order == order
  {
    EffectState(None, Untitled, Blank, 0, Untitled, None, Undefined, order)
  }

  /** The record object that influences rewrite in place. Its order never changes. */
  class Effect {
    var active: Option<bool>
    var name: Text
    var value: Value
    var impact: int
    var note: Text
    var maximum: Option<int>
    var cache: Cache
    const order: int

    /** `{ order: index } as Effect`: every other field is still undefined. */
    constructor (order: int)
      ensures State() == Fresh(order)
    {
      this.order := order;
      active, name, value, impact, note, maximum, cache := None, Untitled, Blank, 0, Untitled, None, Undefined;
    }

    function State(): EffectState
      reads this
    {
      EffectState(active, name, value, impact, note, maximum, cache, order)
    }
  }
}
