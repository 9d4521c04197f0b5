# Wuthering Waves build simulator: a Dafny model

This project models the arithmetic and the slot editing of the "Lucky Pulls"
build simulator for Wuthering Waves. It covers four pieces of the application:

- **Stat aggregation.** `calculateDetailedStats` resolves a resonator's stats at a given level from its
  base stats, the selected weapon and the five echo slots. Each field is a sum of named
  contributions. HP%, ATK% and DEF% are then folded into the flat stats, and the percentage
  outputs are rounded to one decimal.
- **Material estimator.** `calculateMaterials` applies threshold rules on the character, weapon
  and skill levels.
- **Stat panels.** The crit-value score, the stat-efficiency bars, the crit-value progress bar, the
  "no materials" message and the 5-piece bonus condition.
- **Echo slot editors.** Two of them: the set selector, whose configuration feeds the simulator
  page, and the echo simulator. Each keeps a five-slot list (costs 4, 3, 3, 1, 1). It rolls
  main-stat values and sub-stats from range tables.

Modules:

| file | module | contents |
|---|---|---|
| `prelude.dfy` | `Prelude` | `Option`; the JavaScript semantics used: `includes`, `Math.round`, numeric `\|\|`, `find`, `filter`; additive folds with their append, permutation and update laws |
| `echoes.dfy` | `Echoes` | echo slots, range tables, `generateRandomValue` and `rollSubStats`, which both editors share |
| `stat_panels.dfy` | `StatPanels` | the panel computations, which are identical in both panels and defined once |
| `simulator.dfy` | `Simulator` | `calculateDetailedStats` (imperative, proved against the closed form `ResolvedStats`), `calculateMaterials`, the weapon filter, `getActiveEchoSet` |
| `echo_set_selector.dfy` | `SetSelector` | class `EchoSetSelector` |
| `echo_simulator.dfy` | `EchoSimulation` | class `EchoSimulator` |

**Randomness.**
- Every `Math.random()` draw is a `sample` parameter in [0, 1).
- The shuffle `[...pool].sort(() => 0.5 - Math.random())` becomes a given sequence `shuffled`. The caller must supply a permutation of the pool.

**The stats record.** The `stats` object holds one number per field of the enumeration `Stat`. It is a sequence of sixteen numbers, read with `Get` and written with `Set`.

**Data catalogs.** The resonator, weapon, echo and echo-set catalogs and the range tables are parameters.

**Numbers.**
- Numbers are `real`.
- `Math.floor` is `.Floor`, and `Math.round(x)` is `(x + 0.5).Floor`.
- A numeric `||` treats 0 as absent.
- An absent optional number, such as a missing `critRate`, is represented as 0. The code reads both alike.

**Rolls and the default record.**
- A float roll is not confined to [min, max). Rounding to one decimal after scaling can give exactly `max` (`FloatRollCanReachMax`), or a value up to 0.05 below `min`.
- An integer roll is below `max` and at most floor(max) (`IntegerRollBelowFloorOfMax`). With a non-integer `max` it can equal floor(max) (`IntegerRollReachesFloorOfMax`); with an integer `max` it is at most max − 1.
- The "no resonator" record of app/simulator/page.tsx:41-56 has no HP%, ATK% or DEF% accumulators. Here they are 0.

## Model

| member | source | states |
|---|---|---|
| Prelude.ContainsIffSlice | app/simulator/page.tsx:124-125 | `includes` holds exactly when the needle occurs as a contiguous slice of the string |
| Prelude.RoundTenth | app/simulator/page.tsx:170-178 | the result has at most one decimal and lies in (x - 0.05, x + 0.05] |
| Prelude.RoundTenthOfTenth | app/simulator/page.tsx:170-178 | rounding a value that already has one decimal leaves it unchanged |
| Prelude.RoundTenthMonotone | components/build-stats.tsx:46 | rounding to one decimal preserves order |
| Prelude.OrDefault | app/simulator/page.tsx:66-67 | `x \|\| d` gives x when x is non-zero and d when x is 0 |
| Prelude.Find | app/simulator/page.tsx:59 | None exactly when no element matches; otherwise the first matching element |
| Prelude.Filter | app/simulator/page.tsx:32 | the result holds exactly the matching elements of the input |
| Prelude.FilterAppend | app/simulator/page.tsx:32 | filtering distributes over concatenation, so input order is kept |
| Prelude.SumPermutation | app/simulator/page.tsx:107-161 | an additive fold gives the same total for any reordering of its input |
| Prelude.SumUpdate | app/simulator/page.tsx:107-161 | replacing one element changes the total by the difference of the two contributions |
| Echoes.MainStatRange | components/echo-set-selector.tsx:46 | `ranges[cost]?.[name]` exists exactly when both keys are present, and it is that entry |
| Echoes.Scale | components/echo-set-selector.tsx:23 | the scaled draw lies in [min, max) for a non-empty range, and is min for an empty one |
| Echoes.GenerateRandomValue | components/echo-set-selector.tsx:22-25 | integer rolls are integers in [floor(min), max); float rolls have one decimal and lie within 0.05 of [min, max] |
| Echoes.FloatRollCanReachMax | components/echo-set-selector.tsx:24 | a float roll on [0, 10) with draw 0.996 returns exactly 10.0 |
| Echoes.IntegerRollBelowFloorOfMax | components/echo-set-selector.tsx:24 | an integer roll on a non-empty range is at most floor(max) |
| Echoes.IntegerRollReachesFloorOfMax | components/echo-set-selector.tsx:24 | an integer roll on [0, 2.5) with draw 0.9 returns floor(2.5) = 2 |
| Echoes.RollSubStats | components/echo-set-selector.tsx:27-38 | takes min(count, pool size) entries, in shuffled order, each rolled from its own range; names are pairwise distinct when the shuffle is; an entry without a range gives the throwing outcome None |
| Echoes.FlatSubStatsAreIntegers | components/echo-set-selector.tsx:32-35 | ATK, HP and DEF entries are integers ≥ floor(min) and < max |
| StatPanels.CritValue | components/build-stats.tsx:43-47 | one-decimal result within 0.05 of 2·(critRate \|\| 5) + (critDMG \|\| 150) |
| StatPanels.CritValueOfDefaults | components/build-stats.tsx:43-47 | the score is 160 both for absent and for default crit stats |
| StatPanels.CritValueMonotone | components/build-stats.tsx:44-46 | for positive crit stats the score never decreases when either one grows |
| StatPanels.CritValueDropsAfterZero | components/detailed-stats.tsx:48-52 | 0 counts as absent: crit rate 0 scores 160 while crit rate 1 scores 152 |
| StatPanels.MaxValue | components/build-stats.tsx:50-59 | exactly eight keys have a maximum: critDMG 300, energyRegen 200, and 100 for critRate, elementalDMG and the four skill-damage keys |
| StatPanels.StatEfficiency | components/build-stats.tsx:49-65 | never above 100; 0 for keys without a maximum; value/max·100 up to the maximum and 100 above it; non-negative for non-negative values |
| StatPanels.NoEfficiencyForFlatStats | components/detailed-stats.tsx:54-70 | hp, attack, defense, healingBonus and allDMGBonus always show efficiency 0 |
| StatPanels.CritProgress | components/build-stats.tsx:88 | min(cv/2, 100): never above 100, cv/2 up to 200, 100 beyond |
| StatPanels.NoMaterials | components/build-stats.tsx:252-254 | the "no materials" message appears exactly for the record with all three lists empty |
| StatPanels.ShownBonuses | components/detailed-stats.tsx:171-180 | the 2-piece bonus always comes first; the 5-piece bonus is listed exactly when pieces ≥ 5 |
| Simulator.Set | app/simulator/page.tsx:165-178 | assigning `stats[f]` sets field f and leaves every other field unchanged |
| Simulator.Add | app/simulator/page.tsx:83-159 | `stats[f] += v` raises field f by v and leaves every other field unchanged |
| Simulator.Tally | app/simulator/page.tsx:62-79 | the record built from a per-field function has that function's value in every field |
| Simulator.DefaultStats | app/simulator/page.tsx:41-56 | crit rate 5, crit damage 150, energy regen 100, every other field 0 |
| Simulator.SeedFields | app/simulator/page.tsx:62-79 | HP, ATK and DEF are floor(base · level multiplier), the floored base values at level 1; crit rate and crit damage fall back to 5 and 150 when 0; energy regen 100; every other field 0 |
| Simulator.HasMainStat | app/simulator/page.tsx:109 | a slot's main stat counts only when it is set, non-empty and has a non-zero value |
| Simulator.MainStatTarget | app/simulator/page.tsx:110-128 | elemental damage exactly for non-exact names that contain both "DMG%" and the element; nothing exactly for other non-exact names; ATK%, HP%, DEF%, Crit Rate, Crit DMG, Energy Regen and Healing Bonus% go to the ATK%, HP%, DEF%, crit rate, crit damage, energy regen and healing fields |
| Simulator.SubStatTarget | app/simulator/page.tsx:133-158 | each of the thirteen names goes to its own field (ATK, ATK%, HP, HP%, DEF, DEF%, crit rate, crit damage, energy regen and the four skill-damage bonuses); nothing exactly for names outside the thirteen; never elemental, all-damage or healing |
| Simulator.WeaponSubStatTarget | app/simulator/page.tsx:87-95 | only four names are routed: Crit Rate to crit rate, Crit DMG to crit damage, ATK% to the ATK% accumulator, Energy Regen to energy regen |
| Simulator.PassiveStatTarget | app/simulator/page.tsx:98-103 | only two keys are routed: atkPercent to the ATK% accumulator and energyRegen to energy regen |
| Simulator.AddWeaponStats | app/simulator/page.tsx:82-104 | every field grows by exactly the weapon's credit to it |
| Simulator.AddPassiveStats | app/simulator/page.tsx:98-103 | every field grows by exactly the passive entries' credit to it |
| Simulator.AddSubStats | app/simulator/page.tsx:132-159 | every field grows by exactly the slot's sub-stat credit to it |
| Simulator.AddSlotStats | app/simulator/page.tsx:108-160 | every field grows by exactly the slot's main-stat and sub-stat credit |
| Simulator.AddEchoStats | app/simulator/page.tsx:107-162 | every field grows by exactly the sum of the slots' credits |
| Simulator.Accumulate | app/simulator/page.tsx:58-162 | the record before the fold is the seed plus weapon and echo credits in every field |
| Simulator.FoldAndRound | app/simulator/page.tsx:165-178 | the percentages are folded into HP, ATK and DEF, and the nine percentage outputs are rounded |
| Simulator.SelectedWeapon | app/simulator/page.tsx:59 | the first weapon with the selected id, or None when there is none |
| Simulator.ResolvedStats | app/simulator/page.tsx:40-181 | the default record without a resonator; otherwise HP, ATK and DEF are their accumulated values boosted by HP%, ATK% and DEF%, the nine percentage outputs are their accumulators rounded to one decimal, and the all-damage bonus and percentage accumulators are kept |
| Simulator.CalculateDetailedStats | app/simulator/page.tsx:40-181 | the result is the closed-form resolved stats; with no resonator it is the fixed default record |
| Simulator.AccumulatedGet | app/simulator/page.tsx:62-162 | each field before the fold is its seed plus what the weapon and the echoes route to it |
| Simulator.FoldPercent | app/simulator/page.tsx:165-167 | one flat field becomes floor(flat · (1 + percent/100)); every other field is unchanged |
| Simulator.RoundField | app/simulator/page.tsx:170-178 | one field is rounded to one decimal; every other field is unchanged |
| Simulator.RoundedGet | app/simulator/page.tsx:170-178 | the rounding step rounds exactly the nine percentage outputs and passes every other field through |
| Simulator.FinalizeRounded | app/simulator/page.tsx:170-178 | each of the nine percentage outputs is its accumulator rounded to one decimal |
| Simulator.FinalizeFolded | app/simulator/page.tsx:165-167 | the final HP, ATK and DEF are their accumulated values boosted by HP%, ATK% and DEF% |
| Simulator.FinalizeKept | app/simulator/page.tsx:165-178 | the three percentage accumulators and the all-damage bonus pass through the fold unchanged |
| Simulator.FinalizeFields | app/simulator/page.tsx:165-178 | for every field: the nine percentage outputs are rounded, and the percentage accumulators and the all-damage bonus are kept |
| Simulator.CreditsDetermineStats | app/simulator/page.tsx:107-162 | configurations with equal per-field credits resolve to equal stats |
| Simulator.SlotOrderIrrelevant | app/simulator/page.tsx:107-161 | reordering the echo slots does not change the resolved stats |
| Simulator.SubStatsReplaced | app/simulator/page.tsx:132-159 | replacing a slot's sub-stats with ones of equal per-field credit does not change the resolved stats |
| Simulator.SubStatOrderIrrelevant | app/simulator/page.tsx:132-159 | reordering the sub-stats inside a slot does not change the resolved stats |
| Simulator.UnknownSubStatIgnored | app/simulator/page.tsx:132-159 | adding a sub-stat whose name is outside the thirteen leaves every field unchanged |
| Simulator.SlotAddsNoAllDMG | app/simulator/page.tsx:107-161 | no echo slot routes anything to the all-damage bonus |
| Simulator.AllDMGBonusIsZero | app/simulator/page.tsx:69 | the resolved all-damage bonus is always 0 |
| Simulator.WeaponFlatCredit | app/simulator/page.tsx:83-103 | the weapon gives ATK its floored scaled base attack, and gives nothing to HP or DEF |
| Simulator.FlatCredit | app/simulator/page.tsx:107-161 | a flat stat receives from the echoes exactly the total of the sub-stats named after it |
| Simulator.FlatAccumulated | app/simulator/page.tsx:63-65 | before the fold a flat stat equals floor(base·level multiplier), plus the weapon attack for ATK, plus its flat sub-stats |
| Simulator.FinalFlatStat | app/simulator/page.tsx:165-167 | one flat stat after the fold is floor(flat total · (1 + percent/100)) |
| Simulator.FinalFlatStats | app/simulator/page.tsx:63-167 | the final HP, ATK and DEF are their flat totals multiplied by the accumulated percentages |
| Simulator.PercentOutputRounded | app/simulator/page.tsx:170-178 | each percentage output is its accumulator rounded: one decimal and within 0.05 |
| Simulator.ElementalRoutingExample | app/simulator/page.tsx:124-127 | "Electro DMG%" feeds elemental damage for an Electro resonator and nothing for an Aero one |
| Simulator.CalculateMaterials | app/simulator/page.tsx:183-207 | exact material lists per threshold; no materials exactly when level ≤ 20, weapon level ≤ 20 and the skill total ≤ 4 |
| Simulator.CurrentResonator | app/simulator/page.tsx:31 | the first resonator with the selected id, or None when there is none |
| Simulator.AvailableWeapons | app/simulator/page.tsx:32 | exactly the catalogued weapons of the resonator's type; none without a resonator |
| Simulator.AvailableWeaponsKeepOrder | app/simulator/page.tsx:32 | the weapon list keeps catalog order |
| Simulator.GetActiveEchoSet | app/simulator/page.tsx:209-212 | none without a configuration naming a set; otherwise the first catalogued set with that id |
| SetSelector.InitialSlots | components/echo-set-selector.tsx:14-20 | five slots with costs 4, 3, 3, 1, 1, no main stat, value 0 and no sub-stats |
| SetSelector.UpdatedSlot | components/echo-set-selector.tsx:40-50 | only the named field changes; a chosen main stat is re-rolled exactly when a range exists, and otherwise the old value stays |
| SetSelector.FindSet | components/echo-set-selector.tsx:63 | the first catalogued set with that id, or None when there is none |
| SetSelector.EchoSetSelector.constructor | components/echo-set-selector.tsx:13-20 | no set selected, the initial slots, nothing reported |
| SetSelector.EchoSetSelector.SelectSet | components/echo-set-selector.tsx:78 | only the selected set changes |
| SetSelector.EchoSetSelector.UpdateEchoSlot | components/echo-set-selector.tsx:40-54 | the list keeps its five slots and their costs 4, 3, 3, 1, 1; only slot i changes, as UpdatedSlot says; `{ set, slots }` is reported |
| SetSelector.EchoSetSelector.RollSubStatsForSlot | components/echo-set-selector.tsx:56-59 | slot i receives min(4, table size) sub-stats with distinct names from the table; nothing else changes |
| SetSelector.EchoSetSelector.GetAvailableMainStats | components/echo-set-selector.tsx:61-65 | [] with no selected set, an uncatalogued set or no entry for the cost; otherwise that set's list |
| EchoSimulation.InitialSimSlots | components/echo-simulator.tsx:14-20 | five slots with costs 4, 3, 3, 1, 1 and nothing chosen |
| EchoSimulation.FindEcho | components/echo-simulator.tsx:44 | the first catalogued echo with that id, or None when there is none |
| EchoSimulation.UpdatedSimSlot | components/echo-simulator.tsx:39-58 | a catalogued echo clears the main stat, its value and the sub-stats and keeps the cost; an unknown echo only sets the echo; the main-stat re-roll happens only when a range exists |
| EchoSimulation.SubStatPool | components/echo-simulator.tsx:70 | exactly the echo's sub-stat names other than the main stat, each as often as the echo lists it |
| EchoSimulation.GetAvailableEchoes | components/echo-simulator.tsx:76-78 | exactly the catalogued echoes of that cost |
| EchoSimulation.AvailableEchoesKeepOrder | components/echo-simulator.tsx:76-78 | the echo list keeps catalog order |
| EchoSimulation.GetAvailableMainStats | components/echo-simulator.tsx:80-82 | the names with a range at that cost; empty when the cost has no table |
| EchoSimulation.OfferedMainStatsAreRolled | components/echo-simulator.tsx:53-58 | every offered main stat gets a freshly rolled one-decimal value when chosen |
| EchoSimulation.ReorderedMembers | components/echo-simulator.tsx:28 | every name of the shuffled pool comes from the pool |
| EchoSimulation.RolledSubStats | components/echo-simulator.tsx:65-74 | nothing without a catalogued echo or when a name lacks a range; otherwise up to four entries in shuffled order from the echo's list, never the main stat, each rolled from its own range, with distinct names when the echo's list has no repeats |
| EchoSimulation.EchoSimulator.constructor | components/echo-simulator.tsx:14-20 | the initial slots, nothing reported |
| EchoSimulation.EchoSimulator.UpdateEchoSlot | components/echo-simulator.tsx:39-63 | the list keeps its five slots and their costs 4, 3, 3, 1, 1; only slot i changes, as UpdatedSimSlot says; the new list is reported |
| EchoSimulation.EchoSimulator.RollSubStatsForSlot | components/echo-simulator.tsx:65-74 | slot i receives the rolled sub-stats, or the state is unchanged when none are rolled |

## Left out

- Floating point: the model computes over `real`. IEEE-754 drift in the 0.1 and 0.05 multipliers and in `round(x*10)/10` is not modelled.
- Randomness:
  - `Math.random()` is a sample parameter.
  - Only the permutation property of the shuffle is used. `sort(() => 0.5 - Math.random())` is not a uniform shuffle, and no distribution is claimed.
- Rendering: JSX, Tailwind classes, icons and colours (lib/stat-icons.tsx), navigation, and the display-only pages.
- React state scheduling:
  - `useState` batching is not modelled;
  - the effect that auto-selects the first weapon is not modelled;
  - the reading of the `resonator` search parameter is not modelled.
- The selectors: the slider and select values are plain parameters (`level`, `weaponLevel`, `SkillLevels`).
- Roll All: the "Roll All Substats" buttons are not modelled. Each call in their loop starts from the same stale slot list, so they are not sequential updates.
- The catalogs in `lib/data` are not part of this model. They are parameters.
- EchoSimulation.GetAvailableMainStats: returns the key set, not the key list. `Object.keys` order depends on insertion order in the catalog, which is not modelled.
- SetSelector.EchoSetSelector.UpdateEchoSlot and EchoSimulation.EchoSimulator.UpdateEchoSlot require an index inside the slot list. The UI only passes indices of existing slots. An out-of-range index, which would make JavaScript grow the array, is not modelled.
- EchoSimulation.EchoSimulator.RollSubStatsForSlot: a sub-stat name without a range makes the source throw. This is modelled as no state change, not as an exception.
- SetSelector.SlotUpdate and EchoSimulation.SimUpdate: `updateEchoSlot(i, field, value)` writes any field by name. The model has one case per field the components pass to it: main stat and sub-stats in the selector, and echo, main stat and sub-stats in the simulator. The main-stat value is only assigned inside `updateEchoSlot`, by the re-roll. No caller writes `cost`, so each slot keeps its cost, and `Valid()` states that.
- Absent `subStats` or `passiveStats` are modelled as empty sequences. `echo.subStats?.forEach` and `if (passiveStats)` do nothing for them.
