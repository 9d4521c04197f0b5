/** The echo set selector of the build simulator (components/echo-set-selector.tsx):
    the chosen set, the five echo slots it edits, and the configuration it
    reports to the simulator page through `onEchoChange`. */
module SetSelector {
  import opened Prelude
  import opened Echoes

  /** The five slots the selector starts with: costs 4, 3, 3, 1, 1, no main
      stat, value 0 and no sub-stats. */
  function InitialSlots(): (slots: seq<EchoSlot>)
    ensures |slots| == |SlotCosts| == 5
    ensures forall k :: 0 <= k < |slots| ==> slots[k] == EchoSlot(SlotCosts[k], None, 0.0, [])
  {
    seq(|SlotCosts|, k requires 0 <= k < |SlotCosts| => EchoSlot(SlotCosts[k], None, 0.0, []))
  }

  /** The `(field, value)` pair of `updateEchoSlot`, one case per slot field. */
  datatype SlotUpdate =
    | SetMainStat(newMainStat: string)
    | SetSubStats(newSubStats: seq<SubStat>)

  /** The slot after `updateEchoSlot`: only the named field changes, except
      that choosing a main stat re-rolls its value when the slot's cost has a
      range for it (and keeps the old value otherwise). */
  function UpdatedSlot(slot: EchoSlot, update: SlotUpdate, mainRanges: MainStatRanges, sample: real): (r: EchoSlot)
    requires 0.0 <= sample < 1.0
    ensures r.cost == slot.cost
    ensures r.mainStat == if update.SetMainStat? then Some(update.newMainStat) else slot.mainStat
    ensures r.subStats == if update.SetSubStats? then update.newSubStats else slot.subStats
    ensures update.SetMainStat? && MainStatRange(mainRanges, slot.cost, update.newMainStat).None? ==>
              r.mainStatValue == slot.mainStatValue
    ensures update.SetMainStat? && MainStatRange(mainRanges, slot.cost, update.newMainStat).Some? ==>
              var range := mainRanges[slot.cost][update.newMainStat];
              r.mainStatValue == GenerateRandomValue(range.min, range.max, false, sample) &&
              IsTenth(r.mainStatValue) &&
              (range.min <= range.max ==> range.min - 0.05 < r.mainStatValue <= range.max + 0.05)
    ensures update.SetSubStats? ==> r.mainStatValue == slot.mainStatValue
  {
    match update
    case SetMainStat(name) =>
      var range := MainStatRange(mainRanges, slot.cost, name);
      if range.Some? then
        slot.(mainStat := Some(name), mainStatValue := GenerateRandomValue(range.value.min, range.value.max, false, sample))
      else
        slot.(mainStat := Some(name))
    case SetSubStats(subs) => slot.(subStats := subs)
  }

  /** `echoSets.find((s) => s.id === id)`. */
  function FindSet(echoSets: seq<EchoSet>, id: string): (r: Option<EchoSet>)
    ensures r.Some? ==> r.value.id == id && r.value in echoSets
    ensures r.None? <==> forall k :: 0 <= k < |echoSets| ==> echoSets[k].id != id
    ensures r.Some? ==> exists k :: 0 <= k < |echoSets| && echoSets[k] == r.value &&
                                    forall j :: 0 <= j < k ==> echoSets[j].id != id
  {
    Find(echoSets, (s: EchoSet) => s.id == id)
  }

  class EchoSetSelector {
    /** The chosen echo set id; "" while none is chosen. */
    var selectedSet: string
    var echoSlots: seq<EchoSlot>
    /** The last configuration passed to `onEchoChange`, if any. */
    var reported: Option<EchoConfiguration>

    /** The slot list always has its five slots, with costs 4, 3, 3, 1, 1:
        no update changes a slot's cost. */
    predicate Valid()
      reads this
    {
      |echoSlots| == |SlotCosts| &&
      forall k :: 0 <= k < |echoSlots| ==> echoSlots[k].cost == SlotCosts[k]
    }

    constructor()
      ensures Valid()
      ensures selectedSet == "" && echoSlots == InitialSlots() && reported == None
    {
      selectedSet := "";
      echoSlots := InitialSlots();
      reported := None;
    }

    /** `setSelectedSet`: the slots are kept and nothing is reported. */
    method SelectSet(id: string)
      requires Valid()
      modifies this
      ensures Valid()
      ensures selectedSet == id
      ensures echoSlots == old(echoSlots) && reported == old(reported)
    {
      selectedSet := id;
    }

    /** `updateEchoSlot(slotIndex, field, value)`: copy the slot list, replace
        one field of one slot, re-roll a newly chosen main stat's value when a
        range exists, store the list and report it with the selected set. */
    method UpdateEchoSlot(slotIndex: nat, update: SlotUpdate, mainRanges: MainStatRanges, sample: real)
      requires Valid() && slotIndex < |echoSlots|
      requires 0.0 <= sample < 1.0
      modifies this
      ensures Valid()
      ensures echoSlots == old(echoSlots)[slotIndex := UpdatedSlot(old(echoSlots)[slotIndex], update, mainRanges, sample)]
      ensures forall k :: 0 <= k < |echoSlots| && k != slotIndex ==> echoSlots[k] == old(echoSlots)[k]
      ensures selectedSet == old(selectedSet)
      ensures reported == Some(EchoConfiguration(selectedSet, echoSlots))
    {
      var newSlots := echoSlots;
      var slot := newSlots[slotIndex];
      match update {
        case SetMainStat(name) => slot := slot.(mainStat := Some(name));
        case SetSubStats(subs) => slot := slot.(subStats := subs);
      }
      newSlots := newSlots[slotIndex := slot];

      if update.SetMainStat? {
        var cost := newSlots[slotIndex].cost;
        var range := MainStatRange(mainRanges, cost, update.newMainStat);
        if range.Some? {
          newSlots := newSlots[slotIndex := newSlots[slotIndex].(
            mainStatValue := GenerateRandomValue(range.value.min, range.value.max, false, sample))];
        }
      }

      echoSlots := newSlots;
      reported := Some(EchoConfiguration(selectedSet, newSlots));
    }

    /** `rollSubStatsForSlot`: roll four sub-stats from the whole sub-stat
        table (shuffled into `shuffled`, whose names are the table's keys
        without repetition) and store them in the slot. */
    method RollSubStatsForSlot(slotIndex: nat, shuffled: seq<string>, subRanges: SubStatRanges, samples: seq<real>)
      requires Valid() && slotIndex < |echoSlots|
      requires Distinct(shuffled) && (set name | name in shuffled) == subRanges.Keys
      requires |samples| >= 4 && AllSamples(samples)
      modifies this
      ensures Valid()
      ensures var rolled := echoSlots[slotIndex].subStats;
              |rolled| == Taken(4, |shuffled|) &&
              (forall k :: 0 <= k < |rolled| ==>
                 rolled[k].stat == shuffled[k] && rolled[k].stat in subRanges &&
                 rolled[k].value == RollValue(shuffled[k], subRanges[shuffled[k]], samples[k])) &&
              (forall i, j :: 0 <= i < j < |rolled| ==> rolled[i].stat != rolled[j].stat)
      ensures |echoSlots[slotIndex].subStats| == Taken(4, |subRanges|)
      ensures echoSlots == old(echoSlots)[slotIndex := old(echoSlots)[slotIndex].(subStats := echoSlots[slotIndex].subStats)]
      ensures selectedSet == old(selectedSet)
      ensures reported == Some(EchoConfiguration(selectedSet, echoSlots))
    {
      DistinctCardinality(shuffled);
      assert |subRanges| == |subRanges.Keys| == |shuffled|;
      assert forall k :: 0 <= k < |shuffled| ==> shuffled[k] in subRanges;
      var newSubStats := RollSubStats(shuffled, subRanges, samples, 4);
      UpdateEchoSlot(slotIndex, SetSubStats(newSubStats.value), map[], 0.0);
    }

    /** `getAvailableMainStats(cost)`: the main stats the selected set offers
        at that cost; none when no set is selected, the set is not catalogued,
        or it lists nothing for the cost. */
    function GetAvailableMainStats(echoSets: seq<EchoSet>, cost: int): (r: seq<string>)
      reads this
      ensures selectedSet == "" ==> r == []
      ensures FindSet(echoSets, selectedSet).None? ==> r == []
      ensures FindSet(echoSets, selectedSet).Some? && cost !in FindSet(echoSets, selectedSet).value.mainStats ==> r == []
      ensures selectedSet != "" && FindSet(echoSets, selectedSet).Some? &&
              cost in FindSet(echoSets, selectedSet).value.mainStats ==>
                r == FindSet(echoSets, selectedSet).value.mainStats[cost]
      ensures r != [] ==> exists k :: 0 <= k < |echoSets| && echoSets[k].id == selectedSet &&
                                      cost in echoSets[k].mainStats && r == echoSets[k].mainStats[cost]
    {
      if selectedSet == "" then []
      else
        match FindSet(echoSets, selectedSet)
        case None => []
        case Some(s) => if cost in s.mainStats then s.mainStats[cost] else []
    }
  }
}
