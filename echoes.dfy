/** Echo slots as both slot editors keep them, and the random roll generator
    they share.  components/echo-set-selector.tsx and components/echo-simulator.tsx
    define the same `generateRandomValue`; their `rollSubStats` differ only
    in the pool, which the selector takes from the keys of the sub-stat table
    and the simulator receives as an argument.  Here both are defined once,
    with the pool's shuffle as a parameter.  Every `Math.random()` draw is a `sample` parameter in [0, 1),
    and the shuffle `[...pool].sort(() => 0.5 - Math.random())` is a given
    sequence `shuffled` that the callers require to be a permutation of the pool. */
module Echoes {
  import opened Prelude

  /** A numeric range of the catalog's range tables. */
  datatype Range = Range(min: real, max: real)

  /** A rolled sub-stat entry `{ stat, value }`. */
  datatype SubStat = SubStat(stat: string, value: real)

  /** An echo slot of the set selector: its cost, the chosen main stat (null
      until one is chosen), the main stat's rolled value and the sub-stats. */
  datatype EchoSlot = EchoSlot(cost: int, mainStat: Option<string>, mainStatValue: real, subStats: seq<SubStat>)

  /** What the set selector reports to the simulator page: `{ set, slots }`. */
  datatype EchoConfiguration = EchoConfiguration(setId: string, slots: seq<EchoSlot>)

  /** A catalogued echo set: its id, display name, the main-stat names legal
      at each cost, and its bonus texts. */
  datatype EchoSet = EchoSet(id: string, name: string, mainStats: map<int, seq<string>>, twoPieceBonus: string, fivePieceBonus: string)

  /** `echoMainStatRanges`: cost -> main-stat name -> range. */
  type MainStatRanges = map<int, map<string, Range>>

  /** `echoSubStatRanges`: sub-stat name -> range. */
  type SubStatRanges = map<string, Range>

  /** The costs of the five slots both editors start with. */
  const SlotCosts: seq<int> := [4, 3, 3, 1, 1]

  /** `echoMainStatRanges[cost]?.[name]`. */
  function MainStatRange(ranges: MainStatRanges, cost: int, name: string): (r: Option<Range>)
    ensures r.Some? <==> cost in ranges && name in ranges[cost]
    ensures r.Some? ==> r.value == ranges[cost][name]
  {
    if cost in ranges && name in ranges[cost] then Some(ranges[cost][name]) else None
  }

  /** `Math.random() * (max - min) + min` for the draw `sample`: inside
      [min, max) whenever the range is non-empty. */
  function Scale(min: real, max: real, sample: real): (v: real)
    requires 0.0 <= sample < 1.0
    ensures min < max ==> min <= v < max
    ensures min == max ==> v == min
  {
    var width := max - min;
    assert 0.0 < width ==> 0.0 < (1.0 - sample) * width;
    sample * width + min
  }

  /** `generateRandomValue(min, max, isInteger)` for the draw `sample`: the
      scaled draw, floored when an integer is asked for and rounded to one
      decimal otherwise. */
  function GenerateRandomValue(min: real, max: real, isInteger: bool, sample: real): (r: real)
    requires 0.0 <= sample < 1.0
    ensures isInteger ==> r == r.Floor as real
    ensures !isInteger ==> IsTenth(r)
    ensures isInteger && min <= max ==> min.Floor as real <= r <= max
    ensures isInteger && min < max ==> r < max
    ensures !isInteger && min <= max ==> min - 0.05 < r <= max + 0.05
    ensures !isInteger && min < max ==> r < max + 0.05
  {
    var value := Scale(min, max, sample);
    FloorMonotone(min, value);
    if isInteger then value.Floor as real else RoundTenth(value)
  }

  /** Rounding to one decimal happens after scaling, so a float roll can
      land on the range's maximum: 9.96 rounds to 10.0. */
  lemma FloatRollCanReachMax()
    ensures GenerateRandomValue(0.0, 10.0, false, 0.996) == 10.0
  {
    assert Scale(0.0, 10.0, 0.996) == 9.96;
    assert Round(99.6) == 100 by { assert (99.6 + 0.5).Floor == 100; }
  }

  /** An integer roll never exceeds the floor of the maximum. */
  lemma IntegerRollBelowFloorOfMax(min: real, max: real, sample: real)
    requires 0.0 <= sample < 1.0 && min < max
    ensures GenerateRandomValue(min, max, true, sample) <= max.Floor as real
  {
    FloorMonotone(Scale(min, max, sample), max);
  }

  /** With a maximum that is not an integer, the floor of the maximum is
      reached: on [0, 2.5) the draw 0.9 scales to 2.25 and rolls 2. */
  lemma IntegerRollReachesFloorOfMax()
    ensures GenerateRandomValue(0.0, 2.5, true, 0.9) == 2.0
  {
    assert Scale(0.0, 2.5, 0.9) == 2.25;
    assert (2.25).Floor == 2;
  }

  /** The three flat stats are rolled as integers. */
  predicate IsIntegerStat(stat: string) {
    stat == "ATK" || stat == "HP" || stat == "DEF"
  }

  /** The value rolled for one sub-stat entry. */
  function RollValue(stat: string, range: Range, sample: real): real
    requires 0.0 <= sample < 1.0
  {
    GenerateRandomValue(range.min, range.max, IsIntegerStat(stat), sample)
  }

  /** How many entries `slice(0, count)` keeps. */
  function Taken(count: nat, available: nat): (n: nat)
    ensures n <= count && n <= available && (n == count || n == available)
  {
    if count <= available then count else available
  }

  predicate AllSamples(samples: seq<real>) {
    forall k :: 0 <= k < |samples| ==> 0.0 <= samples[k] < 1.0
  }

  /** `rollSubStats(pool, count)` once the pool has been shuffled into `shuffled`:
      the first `count` names, each with a value rolled from its range.  A name
      without a range makes `range.min` throw; that outcome is `None`. */
  function RollSubStats(shuffled: seq<string>, ranges: SubStatRanges, samples: seq<real>, count: nat): (r: Option<seq<SubStat>>)
    requires |samples| >= Taken(count, |shuffled|) && AllSamples(samples)
    ensures r.Some? <==> forall k :: 0 <= k < Taken(count, |shuffled|) ==> shuffled[k] in ranges
    ensures r.Some? ==> |r.value| == Taken(count, |shuffled|)
    ensures r.Some? ==> forall k :: 0 <= k < |r.value| ==>
              r.value[k].stat == shuffled[k] && r.value[k].stat in ranges &&
              r.value[k].value == RollValue(shuffled[k], ranges[shuffled[k]], samples[k])
    ensures r.Some? && Distinct(shuffled) ==> forall i, j :: 0 <= i < j < |r.value| ==> r.value[i].stat != r.value[j].stat
  {
    var n := Taken(count, |shuffled|);
    if forall k :: 0 <= k < n ==> shuffled[k] in ranges then
      Some(seq(n, k requires 0 <= k < n => SubStat(shuffled[k], RollValue(shuffled[k], ranges[shuffled[k]], samples[k]))))
    else
      None
  }

  /** ATK, HP and DEF entries always take the integer branch: an integer no
      smaller than the floor of the range's minimum and below its maximum. */
  lemma FlatSubStatsAreIntegers(shuffled: seq<string>, ranges: SubStatRanges, samples: seq<real>, count: nat, k: nat)
    requires |samples| >= Taken(count, |shuffled|) && AllSamples(samples)
    requires RollSubStats(shuffled, ranges, samples, count).Some?
    requires k < |RollSubStats(shuffled, ranges, samples, count).value|
    requires IsIntegerStat(shuffled[k])
    ensures var e := RollSubStats(shuffled, ranges, samples, count).value[k];
            var range := ranges[shuffled[k]];
            e.value == e.value.Floor as real &&
            (range.min < range.max ==> range.min.Floor as real <= e.value < range.max)
  {
  }
}
