/** The arithmetic of the build simulator page (app/simulator/page.tsx):
    `calculateDetailedStats`, `calculateMaterials`, the weapon filter and
    `getActiveEchoSet`.

    The aggregation is specified in closed form: every field of the result is
    the character's seed value plus the sum of what the weapon and each echo
    slot route to that field, and only then are the percentage stats folded
    into HP, ATK and DEF and the percentage outputs rounded.  The string
    if/else chains of the page are the routing functions `MainStatTarget`,
    `SubStatTarget`, `WeaponSubStatTarget` and `PassiveStatTarget` over the
    enumeration `Stat` of the record's fields. */
module Simulator {
  import opened Prelude
  import opened Echoes
  import opened StatPanels

  /** `baseStats` of a resonator.  An absent crit rate or crit damage is 0,
      which the page treats exactly like an absent one. */
  datatype BaseStats = BaseStats(hp: real, attack: real, defense: real, critRate: real, critDMG: real)

  datatype Resonator = Resonator(id: string, element: string, weapon: string, baseStats: BaseStats)

  /** A catalogued weapon; `passiveStats` lists the entries of the optional
      passive-stat object in `Object.entries` order ([] when absent). */
  datatype Weapon = Weapon(id: string, weaponType: string, baseAttack: real, subStat: string, subStatValue: real,
                           passiveStats: seq<(string, real)>)

  datatype SkillLevels = SkillLevels(basic: int, skill: int, liberation: int, intro: int)

  /** The fields of the `stats` record. */
  datatype Stat =
    | Hp | Attack | Defense | CritRate | CritDMG | ElementalDMG | AllDMGBonus | EnergyRegen | HealingBonus
    | AtkPercent | HpPercent | DefPercent | BasicAttackDMG | HeavyAttackDMG | ResonanceSkillDMG | ResonanceLiberationDMG

  /** The `stats` record of `calculateDetailedStats`. */
  const FieldCount := 16

  /** The position of a field in a record. */
  function Index(f: Stat): (i: nat)
    ensures i < FieldCount
  {
    match f
    case Hp => 0
    case Attack => 1
    case Defense => 2
    case CritRate => 3
    case CritDMG => 4
    case ElementalDMG => 5
    case AllDMGBonus => 6
    case EnergyRegen => 7
    case HealingBonus => 8
    case AtkPercent => 9
    case HpPercent => 10
    case DefPercent => 11
    case BasicAttackDMG => 12
    case HeavyAttackDMG => 13
    case ResonanceSkillDMG => 14
    case ResonanceLiberationDMG => 15
  }

  /** The field at a position. */
  function StatAt(i: nat): Stat
    requires i < FieldCount
  {
    if i == 0 then Hp
    else if i == 1 then Attack
    else if i == 2 then Defense
    else if i == 3 then CritRate
    else if i == 4 then CritDMG
    else if i == 5 then ElementalDMG
    else if i == 6 then AllDMGBonus
    else if i == 7 then EnergyRegen
    else if i == 8 then HealingBonus
    else if i == 9 then AtkPercent
    else if i == 10 then HpPercent
    else if i == 11 then DefPercent
    else if i == 12 then BasicAttackDMG
    else if i == 13 then HeavyAttackDMG
    else if i == 14 then ResonanceSkillDMG
    else ResonanceLiberationDMG
  }

  lemma StatAtIndex()
    ensures forall f :: StatAt(Index(f)) == f
  {
  }

  lemma IndexStatAt()
    ensures forall i :: 0 <= i < FieldCount ==> Index(StatAt(i)) == i
  {
  }

  /** The `stats` record of `calculateDetailedStats`: one number per field,
      at the field's position. */
  type Stats = s: seq<real> | |s| == FieldCount witness seq(FieldCount, _ => 0.0)

  /** `stats[f]`. */
  function Get(s: Stats, f: Stat): real {
    s[Index(f)]
  }

  /** `stats[f] = v`: field `f` becomes `v`, every other field is unchanged. */
  function Set(s: Stats, f: Stat, v: real): (r: Stats)
    ensures forall g :: Get(r, g) == if g == f then v else Get(s, g)
  {
    StatAtIndex();
    s[Index(f) := v]
  }

  /** `stats[f] += v`: field `f` grows by `v`, every other field is unchanged. */
  function Add(s: Stats, f: Stat, v: real): (r: Stats)
    ensures forall g :: Get(r, g) == Get(s, g) + (if g == f then v else 0.0)
  {
    Set(s, f, Get(s, f) + v)
  }

  /** The record whose every field `f` is `g(f)`. */
  function Tally(g: Stat -> real): (r: Stats)
    ensures forall f :: Get(r, f) == g(f)
  {
    StatAtIndex();
    seq(FieldCount, i requires 0 <= i < FieldCount => g(StatAt(i)))
  }

  /** Two records that agree on every field are the same record. */
  lemma StatsExtensional(a: Stats, b: Stats)
    requires forall f :: Get(a, f) == Get(b, f)
    ensures a == b
  {
    IndexStatAt();
    forall i | 0 <= i < FieldCount ensures a[i] == b[i] {
      assert Get(a, StatAt(i)) == Get(b, StatAt(i));
    }
  }

  /** The record returned when no resonator is selected: 5% crit rate, 150%
      crit damage, 100% energy regen and 0 in every other field (it has no
      percentage accumulators; they are 0 here). */
  function DefaultStats(): (r: Stats)
    ensures Get(r, CritRate) == 5.0 && Get(r, CritDMG) == 150.0 && Get(r, EnergyRegen) == 100.0
    ensures forall f :: f !in {CritRate, CritDMG, EnergyRegen} ==> Get(r, f) == 0.0
  {
    Tally((f: Stat) => match f
                       case CritRate => 5.0
                       case CritDMG => 150.0
                       case EnergyRegen => 100.0
                       case _ => 0.0)
  }

  function LevelMultiplier(level: int): real {
    1.0 + (level - 1) as real * 0.1
  }

  function WeaponLevelMultiplier(weaponLevel: int): real {
    1.0 + (weaponLevel - 1) as real * 0.05
  }

  /** `Math.floor(x * m)`. */
  function ScaledDown(x: real, m: real): (r: real)
    ensures r == r.Floor as real
  {
    (x * m).Floor as real
  }

  /** The initial `stats` record: level-scaled, floored base stats, crit stats
      defaulted by `||`, energy regen 100, everything else 0. */
  function SeedField(base: BaseStats, m: real, f: Stat): real {
    match f
    case Hp => ScaledDown(base.hp, m)
    case Attack => ScaledDown(base.attack, m)
    case Defense => ScaledDown(base.defense, m)
    case CritRate => OrDefault(base.critRate, 5.0)
    case CritDMG => OrDefault(base.critDMG, 150.0)
    case EnergyRegen => 100.0
    case _ => 0.0
  }

  function Seed(base: BaseStats, level: int): Stats {
    Tally((f: Stat) => SeedField(base, LevelMultiplier(level), f))
  }

  /** The seed record field by field: HP, ATK and DEF are the base values
      scaled by the level multiplier and floored (at level 1 the floored base
      values),
      a zero crit stat falls back to 5% and 150%, energy regen is 100% and
      every other field starts at 0. */
  lemma SeedFields(base: BaseStats, level: int)
    ensures var r := Seed(base, level);
            Get(r, Hp) == ScaledDown(base.hp, LevelMultiplier(level)) &&
            Get(r, Attack) == ScaledDown(base.attack, LevelMultiplier(level)) &&
            Get(r, Defense) == ScaledDown(base.defense, LevelMultiplier(level))
    ensures var r := Seed(base, 1);
            Get(r, Hp) == base.hp.Floor as real && Get(r, Attack) == base.attack.Floor as real &&
            Get(r, Defense) == base.defense.Floor as real
    ensures var r := Seed(base, level);
            Get(r, CritRate) == (if base.critRate == 0.0 then 5.0 else base.critRate) &&
            Get(r, CritDMG) == (if base.critDMG == 0.0 then 150.0 else base.critDMG) &&
            Get(r, EnergyRegen) == 100.0
    ensures forall f :: f !in {Hp, Attack, Defense, CritRate, CritDMG, EnergyRegen} ==> Get(Seed(base, level), f) == 0.0
  {
    var m := LevelMultiplier(level);
    assert Get(Seed(base, level), Hp) == SeedField(base, m, Hp) == ScaledDown(base.hp, m);
    assert Get(Seed(base, level), Attack) == SeedField(base, m, Attack) == ScaledDown(base.attack, m);
    assert Get(Seed(base, level), Defense) == SeedField(base, m, Defense) == ScaledDown(base.defense, m);
    assert LevelMultiplier(1) == 1.0;
  }

  // ---------------------------------------------------------------------------
  // Routing of stat names to fields

  /** The main-stat names matched exactly, before the `DMG%` rule. */
  const ExactMainStatNames: set<string> :=
    {"ATK%", "HP%", "DEF%", "Crit Rate", "Crit DMG", "Energy Regen", "Healing Bonus%"}

  /** The thirteen sub-stat names the page recognises. */
  const SubStatNames: set<string> :=
    {"ATK", "ATK%", "HP", "HP%", "DEF", "DEF%", "Crit Rate", "Crit DMG", "Energy Regen",
     "Basic Attack DMG%", "Heavy Attack DMG%", "Resonance Skill DMG%", "Resonance Liberation DMG%"}

  /** Where an echo main stat is added.  Any name outside the exact list that
      contains "DMG%" goes to elemental damage when it also contains the
      resonator's element, and nowhere otherwise. */
  function MainStatTarget(name: string, element: string): (t: Option<Stat>)
    ensures t == Some(ElementalDMG) <==>
              name !in ExactMainStatNames && Contains(name, "DMG%") && Contains(name, element)
    ensures t.None? <==> name !in ExactMainStatNames && !(Contains(name, "DMG%") && Contains(name, element))
    ensures t.Some? ==> t.value in {AtkPercent, HpPercent, DefPercent, CritRate, CritDMG, EnergyRegen, HealingBonus, ElementalDMG}
    ensures name == "ATK%" ==> t == Some(AtkPercent)
    ensures name == "HP%" ==> t == Some(HpPercent)
    ensures name == "DEF%" ==> t == Some(DefPercent)
    ensures name == "Crit Rate" ==> t == Some(CritRate)
    ensures name == "Crit DMG" ==> t == Some(CritDMG)
    ensures name == "Energy Regen" ==> t == Some(EnergyRegen)
    ensures name == "Healing Bonus%" ==> t == Some(HealingBonus)
  {
    if name == "ATK%" then Some(AtkPercent)
    else if name == "HP%" then Some(HpPercent)
    else if name == "DEF%" then Some(DefPercent)
    else if name == "Crit Rate" then Some(CritRate)
    else if name == "Crit DMG" then Some(CritDMG)
    else if name == "Energy Regen" then Some(EnergyRegen)
    else if name == "Healing Bonus%" then Some(HealingBonus)
    else if Contains(name, "DMG%") then
      if Contains(name, element) then Some(ElementalDMG) else None
    else None
  }

  /** Where an echo sub-stat is added; names outside the thirteen go nowhere. */
  function SubStatTarget(name: string): (t: Option<Stat>)
    ensures t.None? <==> name !in SubStatNames
    ensures t.Some? ==> t.value !in {ElementalDMG, AllDMGBonus, HealingBonus}
    ensures name == "ATK" ==> t == Some(Attack)
    ensures name == "ATK%" ==> t == Some(AtkPercent)
    ensures name == "HP" ==> t == Some(Hp)
    ensures name == "HP%" ==> t == Some(HpPercent)
    ensures name == "DEF" ==> t == Some(Defense)
    ensures name == "DEF%" ==> t == Some(DefPercent)
    ensures name == "Crit Rate" ==> t == Some(CritRate)
    ensures name == "Crit DMG" ==> t == Some(CritDMG)
    ensures name == "Energy Regen" ==> t == Some(EnergyRegen)
    ensures name == "Basic Attack DMG%" ==> t == Some(BasicAttackDMG)
    ensures name == "Heavy Attack DMG%" ==> t == Some(HeavyAttackDMG)
    ensures name == "Resonance Skill DMG%" ==> t == Some(ResonanceSkillDMG)
    ensures name == "Resonance Liberation DMG%" ==> t == Some(ResonanceLiberationDMG)
  {
    if name == "ATK" then Some(Attack)
    else if name == "ATK%" then Some(AtkPercent)
    else if name == "HP" then Some(Hp)
    else if name == "HP%" then Some(HpPercent)
    else if name == "DEF" then Some(Defense)
    else if name == "DEF%" then Some(DefPercent)
    else if name == "Crit Rate" then Some(CritRate)
    else if name == "Crit DMG" then Some(CritDMG)
    else if name == "Energy Regen" then Some(EnergyRegen)
    else if name == "Basic Attack DMG%" then Some(BasicAttackDMG)
    else if name == "Heavy Attack DMG%" then Some(HeavyAttackDMG)
    else if name == "Resonance Skill DMG%" then Some(ResonanceSkillDMG)
    else if name == "Resonance Liberation DMG%" then Some(ResonanceLiberationDMG)
    else None
  }

  /** Where a weapon's secondary stat is added; only four names are recognised. */
  function WeaponSubStatTarget(name: string): (t: Option<Stat>)
    ensures t.None? <==> name !in {"Crit Rate", "Crit DMG", "ATK%", "Energy Regen"}
    ensures t.Some? ==> t.value in {CritRate, CritDMG, AtkPercent, EnergyRegen}
    ensures name == "Crit Rate" ==> t == Some(CritRate)
    ensures name == "Crit DMG" ==> t == Some(CritDMG)
    ensures name == "ATK%" ==> t == Some(AtkPercent)
    ensures name == "Energy Regen" ==> t == Some(EnergyRegen)
  {
    if name == "Crit Rate" then Some(CritRate)
    else if name == "Crit DMG" then Some(CritDMG)
    else if name == "ATK%" then Some(AtkPercent)
    else if name == "Energy Regen" then Some(EnergyRegen)
    else None
  }

  /** Where a weapon passive-stat entry is added; only two keys are recognised. */
  function PassiveStatTarget(key: string): (t: Option<Stat>)
    ensures t.None? <==> key !in {"atkPercent", "energyRegen"}
    ensures t.Some? ==> t.value in {AtkPercent, EnergyRegen}
    ensures key == "atkPercent" ==> t == Some(AtkPercent)
    ensures key == "energyRegen" ==> t == Some(EnergyRegen)
  {
    if key == "atkPercent" then Some(AtkPercent)
    else if key == "energyRegen" then Some(EnergyRegen)
    else None
  }

  // ---------------------------------------------------------------------------
  // What each source adds to a field

  /** `echo.mainStat && echo.mainStatValue`: both present and truthy, so an
      unset or empty main stat and a zero value both count as absent. */
  function HasMainStat(slot: EchoSlot): (b: bool)
    ensures b ==> slot.mainStat.Some? && slot.mainStatValue != 0.0
    ensures slot.mainStat.None? || slot.mainStat == Some("") || slot.mainStatValue == 0.0 ==> !b
    ensures slot.mainStat.Some? && slot.mainStat.value != "" && slot.mainStatValue != 0.0 ==> b
  {
    slot.mainStat.Some? && slot.mainStat.value != "" && slot.mainStatValue != 0.0
  }

  function MainCredit(slot: EchoSlot, element: string, f: Stat): real {
    if HasMainStat(slot) && MainStatTarget(slot.mainStat.value, element) == Some(f) then slot.mainStatValue else 0.0
  }

  function SubCredit(sub: SubStat, f: Stat): real {
    if SubStatTarget(sub.stat) == Some(f) then sub.value else 0.0
  }

  function SubCreditOf(f: Stat): SubStat -> real {
    (sub: SubStat) => SubCredit(sub, f)
  }

  /** What a slot's sub-stats add to `f`. */
  function SubStatsCredit(subs: seq<SubStat>, f: Stat): real {
    Sum(subs, SubCreditOf(f))
  }

  function SlotCredit(slot: EchoSlot, element: string, f: Stat): real {
    MainCredit(slot, element, f) + SubStatsCredit(slot.subStats, f)
  }

  function SlotCreditOf(element: string, f: Stat): EchoSlot -> real {
    (slot: EchoSlot) => SlotCredit(slot, element, f)
  }

  /** What the echo slots add to `f`. */
  function SlotsCredit(slots: seq<EchoSlot>, element: string, f: Stat): real {
    Sum(slots, SlotCreditOf(element, f))
  }

  function ConfigCredit(config: Option<EchoConfiguration>, element: string, f: Stat): real {
    match config
    case None => 0.0
    case Some(c) => SlotsCredit(c.slots, element, f)
  }

  function PassiveCredit(entry: (string, real), f: Stat): real {
    if PassiveStatTarget(entry.0) == Some(f) then entry.1 else 0.0
  }

  function PassiveCreditOf(f: Stat): ((string, real)) -> real {
    (entry: (string, real)) => PassiveCredit(entry, f)
  }

  function PassivesCredit(entries: seq<(string, real)>, f: Stat): real {
    Sum(entries, PassiveCreditOf(f))
  }

  /** The floored, level-scaled weapon base attack. */
  function WeaponAttackBonus(w: Weapon, weaponLevel: int): real {
    ScaledDown(w.baseAttack, WeaponLevelMultiplier(weaponLevel))
  }

  function WeaponCredit(weapon: Option<Weapon>, weaponLevel: int, f: Stat): real {
    match weapon
    case None => 0.0
    case Some(w) =>
      (if f == Attack then WeaponAttackBonus(w, weaponLevel) else 0.0)
      + (if WeaponSubStatTarget(w.subStat) == Some(f) then w.subStatValue else 0.0)
      + PassivesCredit(w.passiveStats, f)
  }

  /** The record before the percentage fold: seed plus every contribution. */
  function Accumulated(r: Resonator, level: int, weapon: Option<Weapon>, weaponLevel: int,
                       config: Option<EchoConfiguration>): Stats
  {
    Tally((f: Stat) => Get(Seed(r.baseStats, level), f) + WeaponCredit(weapon, weaponLevel, f)
                       + ConfigCredit(config, r.element, f))
  }

  /** `Math.floor(flat * (1 + percent / 100))`. */
  function Boosted(flat: real, percent: real): (r: real)
    ensures r == r.Floor as real
  {
    ScaledDown(flat, 1.0 + percent / 100.0)
  }

  /** Field `f` before the fold: its seed plus what the weapon and the echoes route to it. */
  lemma AccumulatedGet(r: Resonator, level: int, weapon: Option<Weapon>, weaponLevel: int,
                       config: Option<EchoConfiguration>, f: Stat)
    ensures Get(Accumulated(r, level, weapon, weaponLevel, config), f) ==
            Get(Seed(r.baseStats, level), f) + WeaponCredit(weapon, weaponLevel, f) + ConfigCredit(config, r.element, f)
  {
  }

  /** `stats.f = Math.floor(stats.f * (1 + stats.pct / 100))`. */
  function FoldPercent(s: Stats, f: Stat, pct: Stat): (r: Stats)
    ensures forall g :: Get(r, g) == if g == f then Boosted(Get(s, f), Get(s, pct)) else Get(s, g)
  {
    Set(s, f, Boosted(Get(s, f), Get(s, pct)))
  }

  /** `stats.f = Math.round(stats.f * 10) / 10`. */
  function RoundField(s: Stats, f: Stat): (r: Stats)
    ensures forall g :: Get(r, g) == if g == f then RoundTenth(Get(s, f)) else Get(s, g)
  {
    Set(s, f, RoundTenth(Get(s, f)))
  }

  /** "Apply percentage bonuses": HP%, ATK% and DEF% folded into HP, ATK and DEF. */
  function Folded(s: Stats): Stats {
    FoldPercent(FoldPercent(FoldPercent(s, Hp, HpPercent), Attack, AtkPercent), Defense, DefPercent)
  }

  /** "Round values": the nine percentage outputs rounded to one decimal. */
  function Rounded(s: Stats): Stats {
    RoundField(RoundField(RoundField(RoundField(RoundField(RoundField(RoundField(RoundField(RoundField(s,
      CritRate), CritDMG), EnergyRegen), HealingBonus), ElementalDMG), BasicAttackDMG), HeavyAttackDMG),
      ResonanceSkillDMG), ResonanceLiberationDMG)
  }

  function Finalize(s: Stats): Stats {
    Rounded(Folded(s))
  }

  /** The outputs that are rounded to one decimal. */
  const RoundedStats: set<Stat> :=
    {CritRate, CritDMG, EnergyRegen, HealingBonus, ElementalDMG, BasicAttackDMG, HeavyAttackDMG,
     ResonanceSkillDMG, ResonanceLiberationDMG}

  /** The nine percentage outputs are their accumulators rounded to one decimal. */
  lemma FinalizeRounded(s: Stats, f: Stat)
    requires f in RoundedStats
    ensures Get(Finalize(s), f) == RoundTenth(Get(s, f))
  {
    RoundedGet(Folded(s), f);
  }

  lemma RoundedGet(t: Stats, f: Stat)
    ensures f in RoundedStats ==> Get(Rounded(t), f) == RoundTenth(Get(t, f))
    ensures f !in RoundedStats ==> Get(Rounded(t), f) == Get(t, f)
  {
  }

  /** HP, ATK and DEF are boosted by their percentage accumulators. */
  lemma FinalizeFolded(s: Stats)
    ensures Get(Finalize(s), Hp) == Boosted(Get(s, Hp), Get(s, HpPercent))
    ensures Get(Finalize(s), Attack) == Boosted(Get(s, Attack), Get(s, AtkPercent))
    ensures Get(Finalize(s), Defense) == Boosted(Get(s, Defense), Get(s, DefPercent))
  {
    RoundedGet(Folded(s), Hp);
    RoundedGet(Folded(s), Attack);
    RoundedGet(Folded(s), Defense);
  }

  /** The percentage accumulators and the all-damage bonus pass through. */
  lemma FinalizeKept(s: Stats, f: Stat)
    requires f in {AllDMGBonus, AtkPercent, HpPercent, DefPercent}
    ensures Get(Finalize(s), f) == Get(s, f)
  {
    RoundedGet(Folded(s), f);
  }

  /** Every field of the finalized record: the nine percentage outputs are
      rounded, the percentage accumulators and the all-damage bonus are kept. */
  lemma FinalizeFields(s: Stats)
    ensures forall f :: f in RoundedStats ==> Get(Finalize(s), f) == RoundTenth(Get(s, f))
    ensures forall f :: f in {AllDMGBonus, AtkPercent, HpPercent, DefPercent} ==> Get(Finalize(s), f) == Get(s, f)
  {
    forall f | f in RoundedStats ensures Get(Finalize(s), f) == RoundTenth(Get(s, f)) {
      FinalizeRounded(s, f);
    }
    forall f | f in {AllDMGBonus, AtkPercent, HpPercent, DefPercent} ensures Get(Finalize(s), f) == Get(s, f) {
      FinalizeKept(s, f);
    }
  }

  /** The resolved stats the page shows: the default record without a
      resonator, otherwise the accumulated record with the percentage folds
      and the roundings applied. */
  function ResolvedStats(resonator: Option<Resonator>, level: int, weapon: Option<Weapon>, weaponLevel: int,
                         config: Option<EchoConfiguration>): (r: Stats)
    ensures resonator.None? ==> r == DefaultStats()
    ensures resonator.Some? ==>
              var acc := Accumulated(resonator.value, level, weapon, weaponLevel, config);
              Get(r, Hp) == Boosted(Get(acc, Hp), Get(acc, HpPercent)) &&
              Get(r, Attack) == Boosted(Get(acc, Attack), Get(acc, AtkPercent)) &&
              Get(r, Defense) == Boosted(Get(acc, Defense), Get(acc, DefPercent)) &&
              (forall f :: f in RoundedStats ==> Get(r, f) == RoundTenth(Get(acc, f))) &&
              (forall f :: f in {AllDMGBonus, AtkPercent, HpPercent, DefPercent} ==> Get(r, f) == Get(acc, f))
  {
    match resonator
    case None => DefaultStats()
    case Some(res) =>
      var acc := Accumulated(res, level, weapon, weaponLevel, config);
      FinalizeFolded(acc);
      FinalizeFields(acc);
      Finalize(acc)
  }

  /** `weapons.find((w) => w.id === selectedWeapon)`. */
  function SelectedWeapon(weapons: seq<Weapon>, selectedWeapon: string): (r: Option<Weapon>)
    ensures r.Some? ==> r.value.id == selectedWeapon && r.value in weapons
    ensures r.None? <==> forall k :: 0 <= k < |weapons| ==> weapons[k].id != selectedWeapon
    ensures r.Some? ==> exists k :: 0 <= k < |weapons| && weapons[k] == r.value &&
                                    forall j :: 0 <= j < k ==> weapons[j].id != selectedWeapon
  {
    Find(weapons, (w: Weapon) => w.id == selectedWeapon)
  }

  // ---------------------------------------------------------------------------
  // calculateDetailedStats

  /** The "Add weapon stats" block: the floored scaled base attack, the
      secondary stat and every passive-stat entry, each added to its field. */
  method AddWeaponStats(stats: Stats, w: Weapon, weaponLevel: int) returns (r: Stats)
    ensures forall f :: Get(r, f) == Get(stats, f) + WeaponCredit(Some(w), weaponLevel, f)
  {
    r := Add(stats, Attack, WeaponAttackBonus(w, weaponLevel));
    ghost var afterAttack := r;
    assert forall f :: Get(afterAttack, f) == Get(stats, f) + (if f == Attack then WeaponAttackBonus(w, weaponLevel) else 0.0);
    var target := WeaponSubStatTarget(w.subStat);
    if target.Some? {
      r := Add(r, target.value, w.subStatValue);
    }
    ghost var beforePassives := r;
    assert forall f :: Get(beforePassives, f) == Get(afterAttack, f)
                                               + (if WeaponSubStatTarget(w.subStat) == Some(f) then w.subStatValue else 0.0);
    r := AddPassiveStats(r, w.passiveStats);
  }

  /** The `Object.entries(passiveStats).forEach` of the weapon: only
      `atkPercent` and `energyRegen` entries are added. */
  method AddPassiveStats(stats: Stats, entries: seq<(string, real)>) returns (r: Stats)
    ensures forall f :: Get(r, f) == Get(stats, f) + PassivesCredit(entries, f)
  {
    r := stats;
    var k := 0;
    while k < |entries|
      invariant 0 <= k <= |entries|
      invariant forall f :: Get(r, f) == Get(stats, f) + PassivesCredit(entries[..k], f)
    {
      var entry := entries[k];
      var passive := PassiveStatTarget(entry.0);
      if passive.Some? {
        r := Add(r, passive.value, entry.1);
      }
      forall f ensures PassivesCredit(entries[..k + 1], f) == PassivesCredit(entries[..k], f) + PassiveCredit(entry, f) {
        SumStep(entries, k, PassiveCreditOf(f));
      }
      k := k + 1;
    }
    assert entries[..k] == entries;
  }

  /** The `subStats.forEach` of one echo slot. */
  method AddSubStats(stats: Stats, subStats: seq<SubStat>) returns (r: Stats)
    ensures forall f :: Get(r, f) == Get(stats, f) + SubStatsCredit(subStats, f)
  {
    r := stats;
    var j := 0;
    while j < |subStats|
      invariant 0 <= j <= |subStats|
      invariant forall f :: Get(r, f) == Get(stats, f) + SubStatsCredit(subStats[..j], f)
    {
      var subStat := subStats[j];
      var target := SubStatTarget(subStat.stat);
      if target.Some? {
        r := Add(r, target.value, subStat.value);
      }
      forall f ensures SubStatsCredit(subStats[..j + 1], f) == SubStatsCredit(subStats[..j], f) + SubCredit(subStat, f) {
        SumStep(subStats, j, SubCreditOf(f));
      }
      j := j + 1;
    }
    assert subStats[..j] == subStats;
  }

  /** The body of the `slots.forEach`: the main stat when set, then the sub-stats. */
  method AddSlotStats(stats: Stats, echo: EchoSlot, element: string) returns (r: Stats)
    ensures forall f :: Get(r, f) == Get(stats, f) + SlotCredit(echo, element, f)
  {
    r := stats;
    if echo.mainStat.Some? && echo.mainStat.value != "" && echo.mainStatValue != 0.0 {
      var target := MainStatTarget(echo.mainStat.value, element);
      if target.Some? {
        r := Add(r, target.value, echo.mainStatValue);
      }
    }
    ghost var afterMain := r;
    assert forall f :: Get(afterMain, f) == Get(stats, f) + MainCredit(echo, element, f);
    r := AddSubStats(r, echo.subStats);
  }

  /** The "Add echo stats" block over every slot of the configuration. */
  method AddEchoStats(stats: Stats, slots: seq<EchoSlot>, element: string) returns (r: Stats)
    ensures forall f :: Get(r, f) == Get(stats, f) + SlotsCredit(slots, element, f)
  {
    r := stats;
    var i := 0;
    while i < |slots|
      invariant 0 <= i <= |slots|
      invariant forall f :: Get(r, f) == Get(stats, f) + SlotsCredit(slots[..i], element, f)
    {
      r := AddSlotStats(r, slots[i], element);
      forall f ensures SlotsCredit(slots[..i + 1], element, f) == SlotsCredit(slots[..i], element, f) + SlotCredit(slots[i], element, f) {
        SumStep(slots, i, SlotCreditOf(element, f));
      }
      i := i + 1;
    }
    assert slots[..i] == slots;
  }

  /** The "Apply percentage bonuses" and "Round values" steps. */
  method FoldAndRound(s: Stats) returns (stats: Stats)
    ensures stats == Finalize(s)
  {
    stats := s;
    // Apply percentage bonuses
    stats := FoldPercent(stats, Hp, HpPercent);
    stats := FoldPercent(stats, Attack, AtkPercent);
    stats := FoldPercent(stats, Defense, DefPercent);

    // Round values
    stats := RoundField(stats, CritRate);
    stats := RoundField(stats, CritDMG);
    stats := RoundField(stats, EnergyRegen);
    stats := RoundField(stats, HealingBonus);
    stats := RoundField(stats, ElementalDMG);
    stats := RoundField(stats, BasicAttackDMG);
    stats := RoundField(stats, HeavyAttackDMG);
    stats := RoundField(stats, ResonanceSkillDMG);
    stats := RoundField(stats, ResonanceLiberationDMG);
  }

  /** The record after the "Base stats", "Add weapon stats" and "Add echo
      stats" steps, before the percentage fold. */
  method Accumulate(current: Resonator, level: int, selectedWeaponData: Option<Weapon>, weaponLevel: int,
                    config: Option<EchoConfiguration>) returns (stats: Stats)
    ensures stats == Accumulated(current, level, selectedWeaponData, weaponLevel, config)
  {
    stats := Seed(current.baseStats, level);
    ghost var seed := stats;
    if selectedWeaponData.Some? {
      stats := AddWeaponStats(stats, selectedWeaponData.value, weaponLevel);
    }
    ghost var afterWeapon := stats;
    assert forall f :: Get(afterWeapon, f) == Get(seed, f) + WeaponCredit(selectedWeaponData, weaponLevel, f);
    if config.Some? {
      stats := AddEchoStats(stats, config.value.slots, current.element);
    }
    assert forall f :: Get(stats, f) == Get(afterWeapon, f) + ConfigCredit(config, current.element, f);
    forall f ensures Get(stats, f) == Get(Accumulated(current, level, selectedWeaponData, weaponLevel, config), f) {
      AccumulatedGet(current, level, selectedWeaponData, weaponLevel, config, f);
    }
    StatsExtensional(stats, Accumulated(current, level, selectedWeaponData, weaponLevel, config));
  }

  /** `calculateDetailedStats`: the `stats` record built by `+=` over the
      weapon, every echo slot and every sub-stat, folded and rounded. */
  method CalculateDetailedStats(resonator: Option<Resonator>, level: int, weapons: seq<Weapon>, selectedWeapon: string,
                                weaponLevel: int, config: Option<EchoConfiguration>) returns (stats: Stats)
    ensures stats == ResolvedStats(resonator, level, SelectedWeapon(weapons, selectedWeapon), weaponLevel, config)
    ensures resonator.None? ==> stats == DefaultStats()
  {
    if resonator.None? {
      return DefaultStats();
    }
    var currentResonator := resonator.value;
    var selectedWeaponData := Find(weapons, (w: Weapon) => w.id == selectedWeapon);
    stats := Accumulate(currentResonator, level, selectedWeaponData, weaponLevel, config);
    stats := FoldAndRound(stats);
  }

  // ---------------------------------------------------------------------------
  // Properties of the resolved stats

  /** Field `f` of the resolved stats, before rounding, is determined by the
      per-field credits alone. */
  lemma CreditsDetermineStats(r: Resonator, level: int, weapon: Option<Weapon>, weaponLevel: int,
                              config: Option<EchoConfiguration>, config': Option<EchoConfiguration>)
    requires forall f :: ConfigCredit(config, r.element, f) == ConfigCredit(config', r.element, f)
    ensures ResolvedStats(Some(r), level, weapon, weaponLevel, config) ==
            ResolvedStats(Some(r), level, weapon, weaponLevel, config')
  {
    forall f ensures Get(Accumulated(r, level, weapon, weaponLevel, config), f) ==
                     Get(Accumulated(r, level, weapon, weaponLevel, config'), f) {
      AccumulatedGet(r, level, weapon, weaponLevel, config, f);
      AccumulatedGet(r, level, weapon, weaponLevel, config', f);
    }
    StatsExtensional(Accumulated(r, level, weapon, weaponLevel, config), Accumulated(r, level, weapon, weaponLevel, config'));
  }

  /** Reordering the echo slots does not change the resolved stats. */
  lemma SlotOrderIrrelevant(resonator: Option<Resonator>, level: int, weapon: Option<Weapon>, weaponLevel: int,
                            c: EchoConfiguration, c': EchoConfiguration)
    requires multiset(c.slots) == multiset(c'.slots)
    ensures ResolvedStats(resonator, level, weapon, weaponLevel, Some(c)) ==
            ResolvedStats(resonator, level, weapon, weaponLevel, Some(c'))
  {
    if resonator.Some? {
      var r := resonator.value;
      forall f ensures ConfigCredit(Some(c), r.element, f) == ConfigCredit(Some(c'), r.element, f) {
        SumPermutation(c.slots, c'.slots, SlotCreditOf(r.element, f));
      }
      CreditsDetermineStats(r, level, weapon, weaponLevel, Some(c), Some(c'));
    }
  }

  /** Replacing the sub-stats of slot `i` by ones with the same per-field
      credits does not change the resolved stats. */
  lemma SubStatsReplaced(resonator: Option<Resonator>, level: int, weapon: Option<Weapon>, weaponLevel: int,
                         c: EchoConfiguration, i: nat, subs: seq<SubStat>)
    requires i < |c.slots|
    requires forall f :: SubStatsCredit(subs, f) == SubStatsCredit(c.slots[i].subStats, f)
    ensures ResolvedStats(resonator, level, weapon, weaponLevel,
                          Some(c.(slots := c.slots[i := c.slots[i].(subStats := subs)]))) ==
            ResolvedStats(resonator, level, weapon, weaponLevel, Some(c))
  {
    if resonator.Some? {
      var r := resonator.value;
      var slot' := c.slots[i].(subStats := subs);
      var c' := c.(slots := c.slots[i := slot']);
      forall f ensures ConfigCredit(Some(c'), r.element, f) == ConfigCredit(Some(c), r.element, f) {
        SumUpdate(c.slots, i, slot', SlotCreditOf(r.element, f));
      }
      CreditsDetermineStats(r, level, weapon, weaponLevel, Some(c'), Some(c));
    }
  }

  /** Reordering the sub-stats inside one slot does not change the resolved stats. */
  lemma SubStatOrderIrrelevant(resonator: Option<Resonator>, level: int, weapon: Option<Weapon>, weaponLevel: int,
                               c: EchoConfiguration, i: nat, subs: seq<SubStat>)
    requires i < |c.slots|
    requires multiset(subs) == multiset(c.slots[i].subStats)
    ensures ResolvedStats(resonator, level, weapon, weaponLevel,
                          Some(c.(slots := c.slots[i := c.slots[i].(subStats := subs)]))) ==
            ResolvedStats(resonator, level, weapon, weaponLevel, Some(c))
  {
    forall f ensures SubStatsCredit(subs, f) == SubStatsCredit(c.slots[i].subStats, f) {
      SumPermutation(subs, c.slots[i].subStats, SubCreditOf(f));
    }
    SubStatsReplaced(resonator, level, weapon, weaponLevel, c, i, subs);
  }

  /** A sub-stat whose name is not one of the thirteen leaves every field unchanged. */
  lemma UnknownSubStatIgnored(resonator: Option<Resonator>, level: int, weapon: Option<Weapon>, weaponLevel: int,
                              c: EchoConfiguration, i: nat, sub: SubStat)
    requires i < |c.slots|
    requires sub.stat !in SubStatNames
    ensures ResolvedStats(resonator, level, weapon, weaponLevel,
                          Some(c.(slots := c.slots[i := c.slots[i].(subStats := c.slots[i].subStats + [sub])]))) ==
            ResolvedStats(resonator, level, weapon, weaponLevel, Some(c))
  {
    var subs := c.slots[i].subStats;
    forall f ensures SubStatsCredit(subs + [sub], f) == SubStatsCredit(subs, f) {
      assert (subs + [sub])[..|subs|] == subs;
    }
    SubStatsReplaced(resonator, level, weapon, weaponLevel, c, i, subs + [sub]);
  }

  /** No echo slot routes anything to the all-damage bonus. */
  lemma SlotAddsNoAllDMG(slot: EchoSlot, element: string)
    ensures SlotCredit(slot, element, AllDMGBonus) == 0.0
  {
    SumOfZeros(slot.subStats, SubCreditOf(AllDMGBonus));
  }

  /** No main stat, sub-stat, weapon stat or passive ever feeds `allDMGBonus`. */
  lemma AllDMGBonusIsZero(resonator: Option<Resonator>, level: int, weapon: Option<Weapon>, weaponLevel: int,
                          config: Option<EchoConfiguration>)
    ensures Get(ResolvedStats(resonator, level, weapon, weaponLevel, config), AllDMGBonus) == 0.0
  {
    if resonator.Some? {
      var r := resonator.value;
      if weapon.Some? {
        SumOfZeros(weapon.value.passiveStats, PassiveCreditOf(AllDMGBonus));
      }
      if config.Some? {
        forall k | 0 <= k < |config.value.slots|
          ensures SlotCreditOf(r.element, AllDMGBonus)(config.value.slots[k]) == 0.0
        {
          SlotAddsNoAllDMG(config.value.slots[k], r.element);
        }
        SumOfZeros(config.value.slots, SlotCreditOf(r.element, AllDMGBonus));
      }
      var acc := Accumulated(r, level, weapon, weaponLevel, config);
      AccumulatedGet(r, level, weapon, weaponLevel, config, AllDMGBonus);
      assert Get(acc, AllDMGBonus) == 0.0;
      FinalizeKept(acc, AllDMGBonus);
    }
  }

  /** The value of every sub-stat entry named `name`. */
  function NamedValue(sub: SubStat, name: string): real {
    if sub.stat == name then sub.value else 0.0
  }

  function NamedValueOf(name: string): SubStat -> real {
    (sub: SubStat) => NamedValue(sub, name)
  }

  function NamedInSlot(slot: EchoSlot, name: string): real {
    Sum(slot.subStats, NamedValueOf(name))
  }

  function NamedInSlotOf(name: string): EchoSlot -> real {
    (slot: EchoSlot) => NamedInSlot(slot, name)
  }

  /** The total of the sub-stats named `name` over all slots of the configuration. */
  function SubStatTotal(config: Option<EchoConfiguration>, name: string): real {
    match config
    case None => 0.0
    case Some(c) => Sum(c.slots, NamedInSlotOf(name))
  }

  /** The weapon's contribution to ATK. */
  function WeaponAttack(weapon: Option<Weapon>, weaponLevel: int): real {
    match weapon
    case None => 0.0
    case Some(w) => WeaponAttackBonus(w, weaponLevel)
  }

  /** A flat stat receives exactly the sub-stats named after it: main stats and
      weapon stats never route to HP, ATK or DEF, except the weapon's base attack. */
  lemma FlatCredit(config: Option<EchoConfiguration>, element: string, f: Stat, name: string)
    requires (f, name) in {(Hp, "HP"), (Attack, "ATK"), (Defense, "DEF")}
    ensures ConfigCredit(config, element, f) == SubStatTotal(config, name)
  {
    if config.Some? {
      var slots := config.value.slots;
      forall k | 0 <= k < |slots|
        ensures SlotCreditOf(element, f)(slots[k]) == NamedInSlotOf(name)(slots[k])
      {
        SumCongruent(slots[k].subStats, SubCreditOf(f), NamedValueOf(name));
      }
      SumCongruent(slots, SlotCreditOf(element, f), NamedInSlotOf(name));
    }
  }

  /** What the weapon gives a flat stat: its base attack to ATK, nothing to HP or DEF. */
  lemma WeaponFlatCredit(weapon: Option<Weapon>, weaponLevel: int, f: Stat)
    requires f in {Hp, Attack, Defense}
    ensures WeaponCredit(weapon, weaponLevel, f) == if f == Attack then WeaponAttack(weapon, weaponLevel) else 0.0
  {
    if weapon.Some? {
      SumOfZeros(weapon.value.passiveStats, PassiveCreditOf(f));
    }
  }

  /** A flat stat before the fold: the level-scaled, floored base, plus the
      weapon's base attack for ATK, plus every flat sub-stat of that name. */
  function FlatTotal(r: Resonator, level: int, weapon: Option<Weapon>, weaponLevel: int,
                     config: Option<EchoConfiguration>, f: Stat, name: string): real
  {
    Get(Seed(r.baseStats, level), f) + (if f == Attack then WeaponAttack(weapon, weaponLevel) else 0.0)
    + SubStatTotal(config, name)
  }

  /** The final HP, ATK and DEF: each flat total multiplied by its accumulated
      percentage and floored, the fold coming after every addition. */
  lemma FinalFlatStats(r: Resonator, level: int, weapon: Option<Weapon>, weaponLevel: int,
                       config: Option<EchoConfiguration>)
    ensures var stats := ResolvedStats(Some(r), level, weapon, weaponLevel, config);
            Get(stats, Attack) == Boosted(FlatTotal(r, level, weapon, weaponLevel, config, Attack, "ATK"), Get(stats, AtkPercent)) &&
            Get(stats, Hp) == Boosted(FlatTotal(r, level, weapon, weaponLevel, config, Hp, "HP"), Get(stats, HpPercent)) &&
            Get(stats, Defense) == Boosted(FlatTotal(r, level, weapon, weaponLevel, config, Defense, "DEF"), Get(stats, DefPercent))
  {
    FinalFlatStat(r, level, weapon, weaponLevel, config, Hp, "HP", HpPercent);
    FinalFlatStat(r, level, weapon, weaponLevel, config, Attack, "ATK", AtkPercent);
    FinalFlatStat(r, level, weapon, weaponLevel, config, Defense, "DEF", DefPercent);
  }

  /** One flat stat of `FinalFlatStats`. */
  lemma FinalFlatStat(r: Resonator, level: int, weapon: Option<Weapon>, weaponLevel: int,
                      config: Option<EchoConfiguration>, f: Stat, name: string, percent: Stat)
    requires (f, name, percent) in {(Hp, "HP", HpPercent), (Attack, "ATK", AtkPercent), (Defense, "DEF", DefPercent)}
    ensures var stats := ResolvedStats(Some(r), level, weapon, weaponLevel, config);
            Get(stats, f) == Boosted(FlatTotal(r, level, weapon, weaponLevel, config, f, name), Get(stats, percent))
  {
    var acc := Accumulated(r, level, weapon, weaponLevel, config);
    assert ResolvedStats(Some(r), level, weapon, weaponLevel, config) == Finalize(acc);
    FlatAccumulated(r, level, weapon, weaponLevel, config, f, name);
    FinalizeKept(acc, percent);
    FinalizeFolded(acc);
  }

  /** Before the fold a flat stat holds exactly its flat total. */
  lemma FlatAccumulated(r: Resonator, level: int, weapon: Option<Weapon>, weaponLevel: int,
                        config: Option<EchoConfiguration>, f: Stat, name: string)
    requires (f, name) in {(Hp, "HP"), (Attack, "ATK"), (Defense, "DEF")}
    ensures Get(Accumulated(r, level, weapon, weaponLevel, config), f) ==
            FlatTotal(r, level, weapon, weaponLevel, config, f, name)
  {
    AccumulatedGet(r, level, weapon, weaponLevel, config, f);
    WeaponFlatCredit(weapon, weaponLevel, f);
    FlatCredit(config, r.element, f, name);
  }

  /** Each of the nine percentage outputs is its accumulator rounded to one
      decimal: it carries at most one decimal and lies within 0.05 of it. */
  lemma PercentOutputRounded(r: Resonator, level: int, weapon: Option<Weapon>, weaponLevel: int,
                             config: Option<EchoConfiguration>, f: Stat)
    requires f in RoundedStats
    ensures var stats := ResolvedStats(Some(r), level, weapon, weaponLevel, config);
            var acc := Accumulated(r, level, weapon, weaponLevel, config);
            Get(stats, f) == RoundTenth(Get(acc, f)) &&
            IsTenth(Get(stats, f)) && Get(acc, f) - 0.05 < Get(stats, f) <= Get(acc, f) + 0.05
  {
    FinalizeRounded(Accumulated(r, level, weapon, weaponLevel, config), f);
  }

  /** "Electro DMG%" counts for an Electro resonator, and not for an Aero one. */
  lemma ElementalRoutingExample()
    ensures MainStatTarget("Electro DMG%", "Electro") == Some(ElementalDMG)
    ensures MainStatTarget("Electro DMG%", "Aero") == None
  {
    var name := "Electro DMG%";
    assert OccursAt(name, "DMG%", 8);
    ContainsIffSlice(name, "DMG%");
    assert OccursAt(name, "Electro", 0);
    ContainsIffSlice(name, "Electro");
    forall i ensures !OccursAt(name, "Aero", i) {
      if 0 <= i <= |name| - 4 {
        assert name[i] != 'A';
        assert name[i..i + 4][0] != 'A';
      }
    }
    ContainsIffSlice(name, "Aero");
  }

  // ---------------------------------------------------------------------------
  // calculateMaterials, the weapon filter and getActiveEchoSet

  /** `calculateMaterials`: the ascension and skill material lists, each
      filled by `push` once its threshold is passed. */
  method CalculateMaterials(characterLevel: int, weaponLevel: int, skillLevels: SkillLevels) returns (needs: MaterialNeeds)
    ensures needs.characterMats ==
            if characterLevel > 20
            then [Material("LF Whisperin Core", characterLevel / 20 * 5), Material("Shell Credits", characterLevel * 1000)]
            else []
    ensures needs.weaponMats == if weaponLevel > 20 then [Material("Crude Ring", weaponLevel / 20 * 3)] else []
    ensures var total := skillLevels.basic + skillLevels.skill + skillLevels.liberation + skillLevels.intro;
            needs.skillMats == if total > 4 then [Material("Waveworn Residue 210", total * 2)] else []
    ensures NoMaterials(needs) <==>
            characterLevel <= 20 && weaponLevel <= 20 &&
            skillLevels.basic + skillLevels.skill + skillLevels.liberation + skillLevels.intro <= 4
  {
    var characterMats: seq<Material> := [];
    var weaponMats: seq<Material> := [];
    var skillMats: seq<Material> := [];

    // Character ascension materials
    if characterLevel > 20 {
      characterMats := characterMats + [Material("LF Whisperin Core", characterLevel / 20 * 5)];
      characterMats := characterMats + [Material("Shell Credits", characterLevel * 1000)];
    }

    // Weapon ascension materials
    if weaponLevel > 20 {
      weaponMats := weaponMats + [Material("Crude Ring", weaponLevel / 20 * 3)];
    }

    // Skill upgrade materials
    var totalSkillLevels := skillLevels.basic + skillLevels.skill + skillLevels.liberation + skillLevels.intro;
    if totalSkillLevels > 4 {
      skillMats := skillMats + [Material("Waveworn Residue 210", totalSkillLevels * 2)];
    }

    needs := MaterialNeeds(characterMats, weaponMats, skillMats);
  }

  /** `resonators.find((r) => r.id === selectedResonator)`. */
  function CurrentResonator(resonators: seq<Resonator>, selected: string): (r: Option<Resonator>)
    ensures r.Some? ==> r.value.id == selected && r.value in resonators
    ensures r.None? <==> forall k :: 0 <= k < |resonators| ==> resonators[k].id != selected
    ensures r.Some? ==> exists k :: 0 <= k < |resonators| && resonators[k] == r.value &&
                                    forall j :: 0 <= j < k ==> resonators[j].id != selected
  {
    Find(resonators, (res: Resonator) => res.id == selected)
  }

  function UsesWeaponOf(resonator: Option<Resonator>): Weapon -> bool {
    (w: Weapon) => resonator.Some? && w.weaponType == resonator.value.weapon
  }

  /** `weapons.filter((w) => w.type === currentResonator?.weapon)`: the weapons
      of the resonator's type in catalog order; none without a resonator. */
  function AvailableWeapons(weapons: seq<Weapon>, resonator: Option<Resonator>): (r: seq<Weapon>)
    ensures |r| <= |weapons|
    ensures resonator.None? ==> r == []
    ensures forall k :: 0 <= k < |r| ==> r[k] in weapons && r[k].weaponType == resonator.value.weapon
    ensures resonator.Some? ==> forall w :: w in weapons && w.weaponType == resonator.value.weapon ==> w in r
  {
    // with no resonator `w.type === undefined` holds for no weapon
    if resonator.None? then [] else Filter(weapons, UsesWeaponOf(resonator))
  }

  /** The weapon filter keeps catalog order: filtering a catalog extended by
      more weapons extends the filtered list by the filtered additions. */
  lemma AvailableWeaponsKeepOrder(weapons: seq<Weapon>, more: seq<Weapon>, resonator: Option<Resonator>)
    ensures AvailableWeapons(weapons + more, resonator) ==
            AvailableWeapons(weapons, resonator) + AvailableWeapons(more, resonator)
  {
    if resonator.Some? {
      FilterAppend(weapons, more, UsesWeaponOf(resonator));
    }
  }

  /** `getActiveEchoSet`: nothing without a configuration naming a set,
      otherwise the first catalogued set with that id. */
  function GetActiveEchoSet(config: Option<EchoConfiguration>, echoSets: seq<EchoSet>): (r: Option<EchoSet>)
    ensures config.None? || config.value.setId == "" ==> r.None?
    ensures r.Some? ==> config.Some? && r.value.id == config.value.setId && r.value in echoSets
    ensures r.Some? ==> exists k :: 0 <= k < |echoSets| && echoSets[k] == r.value &&
                                    forall j :: 0 <= j < k ==> echoSets[j].id != config.value.setId
    ensures config.Some? && config.value.setId != "" && r.None? ==>
              forall k :: 0 <= k < |echoSets| ==> echoSets[k].id != config.value.setId
  {
    if config.None? || config.value.setId == "" then None
    else Find(echoSets, (s: EchoSet) => s.id == config.value.setId)
  }
}
