/** The echo simulator (components/echo-simulator.tsx): five slots that each
    hold a catalogued echo as well as its main stat and sub-stats.  Choosing
    an echo resets the slot's stats, and sub-stats are rolled from the echo's
    own sub-stat list without the slot's main stat. */
module EchoSimulation {
  import opened Prelude
  import opened Echoes

  /** A catalogued echo: its id, cost and the sub-stat names it can roll. */
  datatype Echo = Echo(id: string, cost: int, subStats: seq<string>)

  /** An echo slot of the simulator: like the selector's slots, plus the
      chosen echo's id (null until one is chosen). */
  datatype SimSlot = SimSlot(cost: int, echo: Option<string>, mainStat: Option<string>, mainStatValue: real,
                             subStats: seq<SubStat>)

  /** The five slots the simulator starts with: costs 4, 3, 3, 1, 1 and
      nothing chosen. */
  function InitialSimSlots(): (slots: seq<SimSlot>)
    ensures |slots| == |SlotCosts| == 5
    ensures forall k :: 0 <= k < |slots| ==> slots[k] == SimSlot(SlotCosts[k], None, None, 0.0, [])
  {
    seq(|SlotCosts|, k requires 0 <= k < |SlotCosts| => SimSlot(SlotCosts[k], None, None, 0.0, []))
  }

  /** The `(field, value)` pair of `updateEchoSlot`, one case per slot field. */
  datatype SimUpdate =
    | SetEcho(newEcho: string)
    | SetMainStat(newMainStat: string)
    | SetSubStats(newSubStats: seq<SubStat>)

  /** `echoes.find((e) => e.id === id)`. */
  function FindEcho(echoes: seq<Echo>, id: string): (r: Option<Echo>)
    ensures r.Some? ==> r.value.id == id && r.value in echoes
    ensures r.None? <==> forall k :: 0 <= k < |echoes| ==> echoes[k].id != id
    ensures r.Some? ==> exists k :: 0 <= k < |echoes| && echoes[k] == r.value &&
                                    forall j :: 0 <= j < k ==> echoes[j].id != id
  {
    Find(echoes, (e: Echo) => e.id == id)
  }

  /** The slot after `updateEchoSlot`.  Choosing a catalogued echo clears
      the main stat, its value and the sub-stats and keeps the cost; an
      unknown echo id only sets the echo.  Choosing a main stat re-rolls its
      value when the slot's cost has a range for it.  Any other update
      changes its own field alone. */
  function UpdatedSimSlot(slot: SimSlot, update: SimUpdate, echoes: seq<Echo>, mainRanges: MainStatRanges,
                          sample: real): (r: SimSlot)
    requires 0.0 <= sample < 1.0
    ensures r.cost == slot.cost
    ensures r.echo == if update.SetEcho? then Some(update.newEcho) else slot.echo
    ensures update.SetEcho? && FindEcho(echoes, update.newEcho).Some? ==>
              r.mainStat == None && r.mainStatValue == 0.0 && r.subStats == []
    ensures update.SetEcho? && FindEcho(echoes, update.newEcho).None? ==> r == slot.(echo := Some(update.newEcho))
    ensures update.SetMainStat? ==> r.mainStat == Some(update.newMainStat) && r.subStats == slot.subStats
    ensures update.SetMainStat? && MainStatRange(mainRanges, slot.cost, update.newMainStat).None? ==>
              r.mainStatValue == slot.mainStatValue
    ensures update.SetMainStat? && MainStatRange(mainRanges, slot.cost, update.newMainStat).Some? ==>
              var range := mainRanges[slot.cost][update.newMainStat];
              r.mainStatValue == GenerateRandomValue(range.min, range.max, false, sample) &&
              IsTenth(r.mainStatValue) &&
              (range.min <= range.max ==> range.min - 0.05 < r.mainStatValue <= range.max + 0.05)
    ensures update.SetSubStats? ==> r == slot.(subStats := update.newSubStats)
  {
    match update
    case SetEcho(id) =>
      if FindEcho(echoes, id).Some? then slot.(echo := Some(id), mainStat := None, mainStatValue := 0.0, subStats := [])
      else slot.(echo := Some(id))
    case SetMainStat(name) =>
      var range := MainStatRange(mainRanges, slot.cost, name);
      if range.Some? then
        slot.(mainStat := Some(name), mainStatValue := GenerateRandomValue(range.value.min, range.value.max, false, sample))
      else
        slot.(mainStat := Some(name))
    case SetSubStats(subs) => slot.(subStats := subs)
  }

  function DiffersFrom(mainStat: Option<string>): string -> bool {
    (stat: string) => mainStat != Some(stat)
  }

  /** `selectedEcho.subStats.filter((stat) => stat !== slot.mainStat)`: the
      echo's sub-stat names without the slot's main stat, in the echo's order. */
  function SubStatPool(echo: Echo, mainStat: Option<string>): (pool: seq<string>)
    ensures forall k :: 0 <= k < |pool| ==> pool[k] in echo.subStats && mainStat != Some(pool[k])
    ensures forall name :: name in echo.subStats && mainStat != Some(name) ==> name in pool
    ensures mainStat.None? ==> pool == echo.subStats
    ensures forall name :: multiset(pool)[name] == if mainStat == Some(name) then 0 else multiset(echo.subStats)[name]
  {
    var pool := Filter(echo.subStats, DiffersFrom(mainStat));
    FilterMultiset(echo.subStats, DiffersFrom(mainStat));
    if mainStat.None? then
      FilterAll(echo.subStats, DiffersFrom(mainStat));
      pool
    else
      pool
  }

  /** `getAvailableEchoes(cost)`: the catalogued echoes of that cost, in catalog order. */
  function GetAvailableEchoes(echoes: seq<Echo>, cost: int): (r: seq<Echo>)
    ensures |r| <= |echoes|
    ensures forall k :: 0 <= k < |r| ==> r[k] in echoes && r[k].cost == cost
    ensures forall e :: e in echoes && e.cost == cost ==> e in r
  {
    Filter(echoes, (e: Echo) => e.cost == cost)
  }

  /** The echo list keeps catalog order: the echoes of a longer catalog are
      those of its first part followed by those of the rest. */
  lemma AvailableEchoesKeepOrder(echoes: seq<Echo>, more: seq<Echo>, cost: int)
    ensures GetAvailableEchoes(echoes + more, cost) == GetAvailableEchoes(echoes, cost) + GetAvailableEchoes(more, cost)
  {
    FilterAppend(echoes, more, (e: Echo) => e.cost == cost);
  }

  /** `getAvailableMainStats(cost)`: the names the cost's range table lists,
      none when the cost has no table. */
  function GetAvailableMainStats(mainRanges: MainStatRanges, cost: int): (names: set<string>)
    ensures cost !in mainRanges ==> names == {}
    ensures forall name :: name in names <==> MainStatRange(mainRanges, cost, name).Some?
  {
    if cost in mainRanges then mainRanges[cost].Keys else {}
  }

  /** Every main stat the simulator offers for a slot gets a freshly rolled
      value when chosen, with at most one decimal. */
  lemma OfferedMainStatsAreRolled(slot: SimSlot, name: string, echoes: seq<Echo>, mainRanges: MainStatRanges,
                                  sample: real)
    requires 0.0 <= sample < 1.0
    requires name in GetAvailableMainStats(mainRanges, slot.cost)
    ensures var range := mainRanges[slot.cost][name];
            var r := UpdatedSimSlot(slot, SetMainStat(name), echoes, mainRanges, sample);
            r.mainStatValue == GenerateRandomValue(range.min, range.max, false, sample) && IsTenth(r.mainStatValue)
  {
  }

  /** `shuffled` is the slot's pool in some order; it is only constrained
      when the slot holds a catalogued echo. */
  predicate PoolShuffled(slot: SimSlot, echoes: seq<Echo>, shuffled: seq<string>) {
    slot.echo.Some? && FindEcho(echoes, slot.echo.value).Some? ==>
      multiset(shuffled) == multiset(SubStatPool(FindEcho(echoes, slot.echo.value).value, slot.mainStat))
  }

  /** Every element of a reordering of `pool` is in `pool`. */
  lemma ReorderedMembers(shuffled: seq<string>, pool: seq<string>)
    requires multiset(shuffled) == multiset(pool)
    ensures forall k :: 0 <= k < |shuffled| ==> shuffled[k] in pool
  {
    forall k | 0 <= k < |shuffled| ensures shuffled[k] in pool {
      assert shuffled[k] in multiset(shuffled);
    }
  }

  /** The sub-stats `rollSubStatsForSlot` stores: none for a slot without a
      catalogued echo, and none when a rolled name has no range (the source
      throws); otherwise up to four entries in shuffled order whose names
      come from the echo's list, never equal the main stat and all have a
      range, each with a value rolled from its range; when the echo lists no
      name twice, no name is rolled twice. */
  function RolledSubStats(slot: SimSlot, echoes: seq<Echo>, shuffled: seq<string>, subRanges: SubStatRanges,
                          samples: seq<real>): (r: Option<seq<SubStat>>)
    requires |samples| >= 4 && AllSamples(samples)
    requires PoolShuffled(slot, echoes, shuffled)
    ensures slot.echo.None? || FindEcho(echoes, slot.echo.value).None? ==> r.None?
    ensures slot.echo.Some? && FindEcho(echoes, slot.echo.value).Some? ==>
              (r.Some? <==> forall k :: 0 <= k < Taken(4, |shuffled|) ==> shuffled[k] in subRanges)
    ensures r.Some? ==>
              slot.echo.Some? && FindEcho(echoes, slot.echo.value).Some? &&
              |r.value| == Taken(4, |shuffled|) &&
              forall k :: 0 <= k < |r.value| ==>
                r.value[k].stat == shuffled[k] &&
                r.value[k].stat in FindEcho(echoes, slot.echo.value).value.subStats &&
                slot.mainStat != Some(r.value[k].stat) &&
                r.value[k].stat in subRanges &&
                r.value[k].value == RollValue(shuffled[k], subRanges[shuffled[k]], samples[k])
    ensures r.Some? && Distinct(FindEcho(echoes, slot.echo.value).value.subStats) ==>
              forall i, j :: 0 <= i < j < |r.value| ==> r.value[i].stat != r.value[j].stat
  {
    if slot.echo.None? then None
    else
      match FindEcho(echoes, slot.echo.value)
      case None => None
      case Some(e) =>
        ReorderedMembers(shuffled, SubStatPool(e, slot.mainStat));
        if Distinct(e.subStats) then
          FilterDistinct(e.subStats, DiffersFrom(slot.mainStat));
          DistinctPermutation(SubStatPool(e, slot.mainStat), shuffled);
          RollSubStats(shuffled, subRanges, samples, 4)
        else
          RollSubStats(shuffled, subRanges, samples, 4)
  }

  class EchoSimulator {
    var echoSlots: seq<SimSlot>
    /** The last slot list passed to `onEchoChange`, if any. */
    var reported: Option<seq<SimSlot>>

    /** The slot list always has its five slots, with costs 4, 3, 3, 1, 1:
        no update changes a slot's cost. */
    predicate Valid()
      reads this
    {
      |echoSlots| == |SlotCosts| &&
      forall k :: 0 <= k < |echoSlots| ==> echoSlots[k].cost == SlotCosts[k]
    }

    constructor()
      ensures Valid()
      ensures echoSlots == InitialSimSlots() && reported == None
    {
      echoSlots := InitialSimSlots();
      reported := None;
    }

    /** `updateEchoSlot(slotIndex, field, value)`: copy the slot list, replace
        one field of one slot, apply the echo reset or the main-stat re-roll,
        store the list and report it. */
    method UpdateEchoSlot(slotIndex: nat, update: SimUpdate, echoes: seq<Echo>, mainRanges: MainStatRanges,
                          sample: real)
      requires Valid() && slotIndex < |echoSlots|
      requires 0.0 <= sample < 1.0
      modifies this
      ensures Valid()
      ensures echoSlots ==
              old(echoSlots)[slotIndex := UpdatedSimSlot(old(echoSlots)[slotIndex], update, echoes, mainRanges, sample)]
      ensures forall k :: 0 <= k < |echoSlots| && k != slotIndex ==> echoSlots[k] == old(echoSlots)[k]
      ensures reported == Some(echoSlots)
    {
      var newSlots := echoSlots;
      var slot := newSlots[slotIndex];
      match update {
        case SetEcho(id) => slot := slot.(echo := Some(id));
        case SetMainStat(name) => slot := slot.(mainStat := Some(name));
        case SetSubStats(subs) => slot := slot.(subStats := subs);
      }
      newSlots := newSlots[slotIndex := slot];

      if update.SetEcho? {
        var selectedEcho := FindEcho(echoes, update.newEcho);
        if selectedEcho.Some? {
          // Reset main stat when echo changes
          newSlots := newSlots[slotIndex := newSlots[slotIndex].(mainStat := None)];
          newSlots := newSlots[slotIndex := newSlots[slotIndex].(mainStatValue := 0.0)];
          newSlots := newSlots[slotIndex := newSlots[slotIndex].(subStats := [])];
        }
      }

      if update.SetMainStat? {
        var cost := newSlots[slotIndex].cost;
        var range := MainStatRange(mainRanges, cost, update.newMainStat);
        if range.Some? {
          newSlots := newSlots[slotIndex := newSlots[slotIndex].(
            mainStatValue := GenerateRandomValue(range.value.min, range.value.max, false, sample))];
        }
      }

      echoSlots := newSlots;
      reported := Some(newSlots);
    }

    /** `rollSubStatsForSlot`: roll the slot's sub-stats as `RolledSubStats`
        says and store them, or leave the state alone when it gives nothing. */
    method RollSubStatsForSlot(slotIndex: nat, echoes: seq<Echo>, shuffled: seq<string>, subRanges: SubStatRanges,
                               samples: seq<real>)
      requires Valid() && slotIndex < |echoSlots|
      requires |samples| >= 4 && AllSamples(samples)
      requires PoolShuffled(echoSlots[slotIndex], echoes, shuffled)
      modifies this
      ensures Valid()
      ensures match RolledSubStats(old(echoSlots)[slotIndex], echoes, shuffled, subRanges, samples)
              case None => echoSlots == old(echoSlots) && reported == old(reported)
              case Some(subs) => echoSlots == old(echoSlots)[slotIndex := old(echoSlots)[slotIndex].(subStats := subs)] &&
                                 reported == Some(echoSlots)
    {
      var slot := echoSlots[slotIndex];
      if slot.echo.None? {
        return;
      }
      var selectedEcho := FindEcho(echoes, slot.echo.value);
      if selectedEcho.Some? {
        var availableSubStats := SubStatPool(selectedEcho.value, slot.mainStat);
        var newSubStats := RollSubStats(shuffled, subRanges, samples, 4);
        if newSubStats.None? {
          // `range.min` of a name without a range throws before any update
          return;
        }
        UpdateEchoSlot(slotIndex, SetSubStats(newSubStats.value), echoes, map[], 0.0);
      }
    }
  }
}
