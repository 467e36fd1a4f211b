/**
 * The rating aggregator (src/core/parkRating.ts): one rating per park, holding
 * the effect records by influence key and the total of the active impacts.
 */
module Ratings {
  import opened Wrappers
  import opened Effects
  import opened Snapshots
  import opened Scoring
  import Influences

  /** The effect records of a rating, as values. */
  type Records = map<Key, EffectState>

  /** The record an influence is handed: the stored one, or a fresh one tagged with the key's order. */
  function Prior(records: Records, k: Key): (s: EffectState)
    ensures k in records ==> s == records[k]
    ensures k !in records ==> !IsActive(s) && s.active == None && s.cache == Undefined && s.order == Order(k)
  {
    if k in records then records[k] else Fresh(Order(k))
  }

  lemma AllKeysInTable()
    ensures forall k: Key :: k in Table
  {
    forall k: Key
      ensures k in Table
    {
      assert Table[Order(k) - 1] == k;
    }
  }

  /** The records after one pass: every key's influence applied once to its prior record. */
  function Recalculated(records: Records, p: Snapshot): (after: Records)
    ensures forall k: Key :: k in after
  {
    AllKeysInTable();
    map k | k in Table :: Influence(k, Prior(records, k), p).next
  }

  /** Whether any of the influences under `keys` reports a change in a pass. */
  function AnyChanged(keys: seq<Key>, records: Records, p: Snapshot): bool
  {
    if keys == [] then false
    else
      var k := keys[|keys| - 1];
      AnyChanged(keys[..|keys| - 1], records, p) || Influence(k, Prior(records, k), p).changed
  }

  /** The sum of the impacts of the active records under `keys`; inactive ones add nothing. */
  function ActiveTotal(keys: seq<Key>, records: Records): int
  {
    if keys == [] then 0
    else
      var k := keys[|keys| - 1];
      ActiveTotal(keys[..|keys| - 1], records) + (if k in records && IsActive(records[k]) then records[k].impact else 0)
  }

  /** `recalculate` reports a change exactly when some influence does. */
  lemma {:induction false} AnyChangedExactly(keys: seq<Key>, records: Records, p: Snapshot)
    ensures AnyChanged(keys, records, p)
        <==> exists i :: 0 <= i < |keys| && Influence(keys[i], Prior(records, keys[i]), p).changed
  {
    if keys != [] {
      var front := keys[..|keys| - 1];
      AnyChangedExactly(front, records, p);
      assert forall i :: 0 <= i < |front| ==> front[i] == keys[i];
    }
  }

  /** The impact stored in an inactive record never reaches the total. */
  lemma {:induction false} InactiveImpactIgnored(keys: seq<Key>, records: Records, k: Key, impact: int)
    requires k in records && !IsActive(records[k])
    ensures ActiveTotal(keys, records[k := records[k].(impact := impact)]) == ActiveTotal(keys, records)
  {
    if keys != [] {
      InactiveImpactIgnored(keys[..|keys| - 1], records, k, impact);
    }
  }

  /**
   * A second pass on the same snapshot changes no record, reports no change and
   * so leaves the total as it was.
   */
  lemma RecalculateIdempotent(records: Records, p: Snapshot)
    ensures var once := Recalculated(records, p);
      Recalculated(once, p) == once && !AnyChanged(Table, once, p)
  {
    var once := Recalculated(records, p);
    forall k | k in Table
      ensures Influence(k, Prior(once, k), p) == Step(false, once[k])
    {
      InfluenceIdempotent(k, Prior(records, k), p);
    }
    AnyChangedExactly(Table, once, p);
  }

  /**
   * After a pass every key has a record, no record is dropped, and each record's
   * order is its key's 1-based table position if it was before.
   */
  lemma RecalculatedOrders(records: Records, p: Snapshot)
    requires forall k :: k in records ==> records[k].order == Order(k)
    ensures var after := Recalculated(records, p);
      forall k: Key :: k in after && after[k].order == Order(k)
  {
    forall k: Key
      ensures k in Recalculated(records, p) && Recalculated(records, p)[k].order == Order(k)
    {
      InfluenceFrame(k, Prior(records, k), p);
    }
  }

  /**
   * A pass on a snapshot that agrees with the previous one on the fields a key's
   * rule reads leaves that key's record alone and reports no change for it.
   */
  lemma RecalculatedUnaffected(records: Records, p: Snapshot, q: Snapshot, k: Key)
    requires SameInputs(k, p, q)
    ensures var once := Recalculated(records, p);
      Recalculated(once, q)[k] == once[k] && !Influence(k, once[k], q).changed
  {
    var once := Recalculated(records, p);
    InfluenceIdempotent(k, Prior(records, k), p);
    InfluenceLocal(k, once[k], q, p);
  }

  /**
   * On snapshots taken from the game, passes keep every active record within its
   * maximum; new records start inactive, so a rating always shows bounded impacts.
   */
  lemma RecalculatedWithinMaximum(records: Records, host: Host)
    requires forall i :: 0 <= i < |host.rides| ==> host.rides[i].downtime >= 0
    requires forall k :: k in records ==> WithinMaximum(records[k])
    ensures var after := Recalculated(records, Refreshed(host));
      forall k: Key :: WithinMaximum(after[k])
  {
    forall k: Key
      ensures WithinMaximum(Recalculated(records, Refreshed(host))[k])
    {
      InfluenceWithinMaximum(k, Prior(records, k), host);
    }
  }

  /**
   * The difficulty flag switched on, off and on again over three passes of a new
   * rating: the record is shown with -100, then kept but hidden, then shown with
   * -100 again.
   */
  lemma DifficultyToggle(p: Snapshot)
    requires p.hasDifficultParkRating
    ensures var first := Recalculated(map[], p);
      var second := Recalculated(first, p.(hasDifficultParkRating := false));
      var third := Recalculated(second, p);
      && IsActive(first[Difficulty]) && first[Difficulty].impact == -100
      && Difficulty in second && !IsActive(second[Difficulty])
      && IsActive(third[Difficulty]) && third[Difficulty].impact == -100
  {
    var q := p.(hasDifficultParkRating := false);
    var first := Recalculated(map[], p);
    DifficultyRule(Fresh(Order(Difficulty)), p);
    DifficultyRule(first[Difficulty], q);
    var second := Recalculated(first, q);
    DifficultyRule(second[Difficulty], p);
  }

  /** The rating of one park. */
  class ParkRating {
    const park: ParkInfo
    var total: int
    var records: map<Key, Effect>

    /**
     * Every record's order is its key's table position, so no two keys share a
     * record object.
     */
    ghost predicate Valid()
      reads this`records
    {
      forall k :: k in records ==> records[k].order == Order(k)
    }

    ghost function Records(): Records
      reads this`records, records.Values
    {
      StatesOf(records)
    }

    /** `ParkRating.for`: no records yet, so no effects, and a total of 0. */
    constructor For(park: ParkInfo)
      ensures Valid() && this.park == park && total == 0 && records == map[]
      ensures Effects() == []
    {
      this.park := park;
      total := 0;
      records := map[];
    }

    /** The active records, in table order. */
    function Effects(): (effects: seq<Effect>)
      requires Valid()
      reads this`records, records.Values
      ensures forall i :: 0 <= i < |effects| ==> effects[i] in records.Values && effects[i].active == Some(true)
      ensures forall k :: k in records && records[k].active == Some(true) ==> records[k] in effects
      ensures forall i, j :: 0 <= i < j < |effects| ==> effects[i].order < effects[j].order
      ensures records == map[] ==> effects == []
    {
      ActiveUpTo(|Table|)
    }

    /** The active records among the first `n` keys of the table. */
    function ActiveUpTo(n: nat): (effects: seq<Effect>)
      requires Valid() && n <= |Table|
      reads this`records, records.Values
      ensures forall i :: 0 <= i < |effects| ==>
        effects[i] in records.Values && effects[i].active == Some(true) && 1 <= effects[i].order <= n
      ensures forall i :: 0 <= i < n && Table[i] in records && records[Table[i]].active == Some(true) ==>
        records[Table[i]] in effects
      ensures forall i, j :: 0 <= i < j < |effects| ==> effects[i].order < effects[j].order
      ensures records == map[] ==> effects == []
    {
      if n == 0 then []
      else
        var rest := ActiveUpTo(n - 1);
        var k := Table[n - 1];
        TablePosition(n - 1);
        if k in records && records[k].active == Some(true) then rest + [records[k]] else rest
    }

    /**
     * `recalculateEffects`: refreshes the snapshot, runs every influence once in
     * table order on its record (created on first sight), and stores the total
     * of the active impacts. Reports whether any influence changed its record.
     */
    method Recalculate(host: Host) returns (changed: bool)
      requires Valid()
      modifies this, park, records.Values
      ensures Valid()
      ensures park.Current() == Refreshed(host)
      ensures Records() == Recalculated(old(Records()), park.Current())
      ensures changed == AnyChanged(Table, old(Records()), park.Current())
      ensures total == ActiveTotal(Table, Records())
      ensures forall k :: k in old(records) ==> k in records && records[k] == old(records)[k]
      ensures forall k :: k in records && k !in old(records) ==> fresh(records[k])
    {
      ghost var before := Records();
      park.Refresh(host);
      ghost var p := park.Current();
      var sum;
      changed, sum := Pass(before, p);
      assert Table[..|Table|] == Table;
      MidwayDone(before, Recalculated(before, p));
      total := sum;
    }

    /**
     * Two ticks in a row on unchanged game data: records created by the first
     * `recalculate` are the rating's own, so the second may rewrite them; it
     * reports no change and leaves the records and the total as they were.
     */
    method RecalculateTwice(host: Host) returns (first: bool, second: bool, firstTotal: int)
      requires Valid()
      modifies this, park, records.Values
      ensures Valid() && park.Current() == Refreshed(host)
      ensures Records() == Recalculated(old(Records()), Refreshed(host))
      ensures first == AnyChanged(Table, old(Records()), Refreshed(host))
      ensures !second && total == firstTotal
    {
      first := Recalculate(host);
      firstTotal := total;
      RecalculateIdempotent(old(Records()), Refreshed(host));
      second := Recalculate(host);
    }

    /** The loop of `recalculateEffects` over the influence table, on the current snapshot. */
    method Pass(ghost before: Records, ghost p: Snapshot) returns (changed: bool, sum: int)
      requires Valid() && Records() == before && park.Current() == p
      modifies this, records.Values
      ensures Valid() && park.Current() == p
      ensures forall k :: k in old(records) ==> k in records && records[k] == old(records)[k]
      ensures forall k :: k in records && k !in old(records) ==> fresh(records[k])
      ensures Reached(before, p, |Table|, changed, sum)
    {
      var anyUpdate := false;
      var index := 0;
      sum := 0;
      ghost var initial := records;
      while index < |Table|
        invariant 0 <= index <= |Table|
        invariant Valid() && park.Current() == p
        invariant forall k :: k in initial ==> k in records && records[k] == initial[k]
        invariant forall k :: k in records && k !in initial ==> Order(k) <= index
        invariant forall k :: k in records && k !in initial ==> fresh(records[k])
        invariant Reached(before, p, index, anyUpdate, sum)
      {
        TablePosition(index);
        ghost var prior := records;
        anyUpdate, sum := Turn(index, anyUpdate, sum, before, p);
        Extended(initial, prior, records, Table[index], index);
        index := index + 1;
      }
      changed := anyUpdate;
    }

    /**
     * Part-way through the loop of `recalculateEffects`: the first `index` keys
     * of the table have been run, and the change flag and the total cover them.
     */
    ghost predicate Reached(before: Records, p: Snapshot, index: int, anyUpdate: bool, sum: int)
      requires 0 <= index <= |Table|
      reads this`records, records.Values
    {
      var after := Recalculated(before, p);
      && Records() == Midway(before, after, index)
      && anyUpdate == AnyChanged(Table[..index], before, p)
      && sum == ActiveTotal(Table[..index], after)
    }

    /**
     * One turn of the loop of `recalculateEffects`: the key's record is found or
     * created, rewritten by its influence, and its outcome added to the change
     * flag and, when active, to the total.
     */
    method Turn(index: int, anyUpdate: bool, sum: int, ghost before: Records, ghost p: Snapshot)
      returns (anyUpdate': bool, sum': int)
      requires Valid() && 0 <= index < |Table| && park.Current() == p
      requires Reached(before, p, index, anyUpdate, sum)
      modifies this, if Table[index] in records then {records[Table[index]]} else {}
      ensures Valid() && park.Current() == p
      ensures Table[index] in records && records == old(records)[Table[index] := records[Table[index]]]
      ensures Table[index] in old(records) ==> records[Table[index]] == old(records)[Table[index]]
      ensures Table[index] !in old(records) ==> fresh(records[Table[index]])
      ensures Reached(before, p, index + 1, anyUpdate', sum')
    {
      var key := Table[index];
      ghost var after := Recalculated(before, p);
      TablePosition(index);
      MidwayStep(before, after, index);
      MidwayPrior(before, after, index);
      AnyChangedStep(before, p, index);
      ActiveTotalStep(after, index);
      ghost var reached := Records();
      var effect := Lookup(key, index + 1);
      ghost var found := effect.State();
      var updated := Run(key, effect);
      Overwrite(reached, key, found, effect.State());
      anyUpdate' := anyUpdate;
      if updated {
        anyUpdate' := true;
      }
      sum' := sum;
      if effect.active == Some(true) && effect.impact != 0 {
        sum' := sum' + effect.impact;
      }
    }

    /** Runs the key's influence on its record, which no other key shares. */
    method Run(key: Key, effect: Effect) returns (updated: bool)
      requires Valid() && key in records && records[key] == effect
      modifies effect
      ensures Records() == old(Records())[key := effect.State()]
      ensures Step(updated, effect.State()) == Influence(key, old(effect.State()), park.Current())
    {
      ghost var prior := Records();
      updated := Influences.Invoke(key, effect, park);
      forall k | k in records && k != key
        ensures records[k].State() == prior[k]
      {
        assert records[k].order == Order(k) != Order(key);
      }
      OnlyKeyRewritten(prior, Records(), key);
    }

    /** The key's record: the stored one, or a new one of the key's order, stored under the key. */
    method Lookup(key: Key, index: int) returns (effect: Effect)
      requires Valid() && index == Order(key)
      modifies this
      ensures Valid()
      ensures records == old(records)[key := effect]
      ensures key in old(records) ==> effect == old(records)[key]
      ensures key !in old(records) ==> fresh(effect)
      ensures effect.State() == Prior(old(Records()), key)
      ensures Records() == old(Records())[key := effect.State()]
    {
      if key in records {
        effect := records[key];
        Unmoved(Records(), key);
      } else {
        effect := Create(key, index);
      }
    }

    /** `{ order: index }` stored under a key that had no record. */
    method Create(key: Key, index: int) returns (effect: Effect)
      requires Valid() && index == Order(key) && key !in records
      modifies this
      ensures Valid() && fresh(effect)
      ensures records == old(records)[key := effect]
      ensures effect.State() == Fresh(index)
      ensures Records() == old(Records())[key := effect.State()]
    {
      ghost var prior := records;
      effect := new Effect(index);
      records := records[key := effect];
      StatesOfUpdate(prior, key, effect);
    }
  }

  /**
   * One turn of the loop keeps every record it started with and adds at most
   * the record of the key it ran.
   */
  lemma Extended(initial: map<Key, Effect>, prior: map<Key, Effect>, now: map<Key, Effect>, key: Key, index: int)
    requires forall k :: k in initial ==> k in prior && prior[k] == initial[k]
    requires forall k :: k in prior && k !in initial ==> Order(k) <= index
    requires Order(key) == index + 1
    requires key in now && now == prior[key := now[key]]
    requires key in prior ==> now[key] == prior[key]
    ensures forall k :: k in initial ==> k in now && now[k] == initial[k]
    ensures forall k :: k in now && k !in initial ==> Order(k) <= index + 1
  {
  }

  lemma Unmoved(m: Records, k: Key)
    requires k in m
    ensures m[k := m[k]] == m
  {
  }

  lemma Overwrite(m: Records, k: Key, a: EffectState, b: EffectState)
    ensures m[k := a][k := b] == m[k := b]
  {
  }

  /** The states of the record objects under each key. */
  ghost function StatesOf(rs: map<Key, Effect>): Records
    reads rs.Values
  {
    map k | k in rs :: rs[k].State()
  }

  lemma StatesOfUpdate(rs: map<Key, Effect>, key: Key, e: Effect)
    ensures StatesOf(rs[key := e]) == StatesOf(rs)[key := e.State()]
  {
  }

  /** Two record maps over the same keys that differ at most under `key`. */
  lemma OnlyKeyRewritten(prior: Records, now: Records, key: Key)
    requires key in prior && now.Keys == prior.Keys
    requires forall k :: k in now && k != key ==> now[k] == prior[k]
    ensures now == prior[key := now[key]]
  {
  }

  /** The change flag after one more key of the table. */
  lemma AnyChangedStep(before: Records, p: Snapshot, index: int)
    requires 0 <= index < |Table|
    ensures AnyChanged(Table[..index + 1], before, p)
         == (AnyChanged(Table[..index], before, p) || Influence(Table[index], Prior(before, Table[index]), p).changed)
  {
    assert Table[..index + 1][..index] == Table[..index];
  }

  /** The total after one more key of the table. */
  lemma ActiveTotalStep(after: Records, index: int)
    requires 0 <= index < |Table| && Table[index] in after
    ensures ActiveTotal(Table[..index + 1], after)
         == ActiveTotal(Table[..index], after) + (if IsActive(after[Table[index]]) then after[Table[index]].impact else 0)
  {
    assert Table[..index + 1][..index] == Table[..index];
  }

  /** The records part-way through a pass: keys of order up to `n` as in `after`, the rest as `before`. */
  ghost function Midway(before: Records, after: Records, n: int): Records
    requires forall k: Key :: k in after
  {
    map k | k in Table && (Order(k) <= n || k in before) :: if Order(k) <= n then after[k] else before[k]
  }

  lemma MidwayStep(before: Records, after: Records, index: int)
    requires forall k: Key :: k in after
    requires 0 <= index < |Table| && Order(Table[index]) == index + 1
    ensures Midway(before, after, index + 1) == Midway(before, after, index)[Table[index] := after[Table[index]]]
  {
  }

  lemma MidwayDone(before: Records, after: Records)
    requires forall k: Key :: k in after
    ensures Midway(before, after, |Table|) == after
  {
    AllKeysInTable();
  }

  /** Part-way through a pass, a key not yet reached still has its prior record. */
  lemma MidwayPrior(before: Records, after: Records, index: int)
    requires forall k: Key :: k in after
    requires 0 <= index < |Table| && Order(Table[index]) == index + 1
    ensures Prior(Midway(before, after, index), Table[index]) == Prior(before, Table[index])
  {
  }
}