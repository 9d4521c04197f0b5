/** The derived numbers the two stat panels display.  components/build-stats.tsx
    and components/detailed-stats.tsx contain the same `calculateCritValue`,
    `getStatEfficiency`, progress value and "no materials" condition, character
    for character; they are defined once here.  The 5-piece condition exists
    only in detailed-stats.tsx. */
module StatPanels {
  import opened Prelude

  /** `{ name, amount }` of the material estimator. */
  datatype Material = Material(name: string, amount: int)

  /** The `materialNeeds` prop: `{ characterMats, weaponMats, skillMats }`. */
  datatype MaterialNeeds = MaterialNeeds(characterMats: seq<Material>, weaponMats: seq<Material>, skillMats: seq<Material>)

  /** An active echo set as the detailed panel receives it. */
  datatype ActiveSet = ActiveSet(name: string, pieces: int, twoPieceBonus: string, fivePieceBonus: string)

  const DefaultCritRate: real := 5.0
  const DefaultCritDMG: real := 150.0

  /** `calculateCritValue`: twice the crit rate plus the crit damage, each
      defaulted by `||` when zero, rounded to one decimal. */
  function CritValue(critRate: real, critDMG: real): (cv: real)
    ensures IsTenth(cv)
    ensures var exact := OrDefault(critRate, DefaultCritRate) * 2.0 + OrDefault(critDMG, DefaultCritDMG);
            exact - 0.05 < cv <= exact + 0.05
  {
    RoundTenth(OrDefault(critRate, DefaultCritRate) * 2.0 + OrDefault(critDMG, DefaultCritDMG))
  }

  /** With the default crit stats (given or defaulted) the score is 160. */
  lemma CritValueOfDefaults()
    ensures CritValue(0.0, 0.0) == 160.0
    ensures CritValue(DefaultCritRate, DefaultCritDMG) == 160.0
  {
    assert IsTenth(160.0) by { assert (160.0 * 10.0).Floor == 1600; }
    RoundTenthOfTenth(160.0);
  }

  /** For positive crit stats the score grows with each of them. */
  lemma CritValueMonotone(critRate: real, critRate': real, critDMG: real, critDMG': real)
    requires 0.0 < critRate <= critRate'
    requires 0.0 < critDMG <= critDMG'
    ensures CritValue(critRate, critDMG) <= CritValue(critRate', critDMG')
  {
    RoundTenthMonotone(critRate * 2.0 + critDMG, critRate' * 2.0 + critDMG');
  }

  /** Zero is not a small crit rate but an absent one: raising the crit rate
      from 0 to 1 lowers the score from 160 to 152. */
  lemma CritValueDropsAfterZero()
    ensures CritValue(0.0, 150.0) == 160.0
    ensures CritValue(1.0, 150.0) == 152.0
  {
    assert IsTenth(160.0) by { assert (160.0 * 10.0).Floor == 1600; }
    assert IsTenth(152.0) by { assert (152.0 * 10.0).Floor == 1520; }
    RoundTenthOfTenth(160.0);
    RoundTenthOfTenth(152.0);
  }

  /** The `maxValues` table of `getStatEfficiency`. */
  function MaxValue(key: string): (m: Option<real>)
    ensures m.Some? <==> key in {"critRate", "critDMG", "energyRegen", "elementalDMG", "basicAttackDMG",
                                 "heavyAttackDMG", "resonanceSkillDMG", "resonanceLiberationDMG"}
    ensures m.Some? ==> m.value in {100.0, 200.0, 300.0}
    ensures key == "critDMG" ==> m == Some(300.0)
    ensures key == "energyRegen" ==> m == Some(200.0)
    ensures key == "critRate" || key == "elementalDMG" || key == "basicAttackDMG" ==> m == Some(100.0)
    ensures key == "heavyAttackDMG" || key == "resonanceSkillDMG" || key == "resonanceLiberationDMG" ==> m == Some(100.0)
  {
    match key
    case "critRate" => Some(100.0)
    case "critDMG" => Some(300.0)
    case "energyRegen" => Some(200.0)
    case "elementalDMG" => Some(100.0)
    case "basicAttackDMG" => Some(100.0)
    case "heavyAttackDMG" => Some(100.0)
    case "resonanceSkillDMG" => Some(100.0)
    case "resonanceLiberationDMG" => Some(100.0)
    case _ => None
  }

  /** `getStatEfficiency(key, value)`: the value as a percentage of the key's
      maximum, capped at 100; 0 for a key without a maximum. */
  function StatEfficiency(key: string, value: real): (e: real)
    ensures e <= 100.0
    ensures MaxValue(key).None? ==> e == 0.0
    ensures MaxValue(key).Some? && value <= MaxValue(key).value ==> e == value / MaxValue(key).value * 100.0
    ensures MaxValue(key).Some? && value >= MaxValue(key).value ==> e == 100.0
    ensures 0.0 <= value ==> 0.0 <= e
  {
    match MaxValue(key)
    case None => 0.0
    case Some(maxValue) => Min(value / maxValue * 100.0, 100.0)
  }

  /** Stats without a maximum never show an efficiency bar. */
  lemma NoEfficiencyForFlatStats(value: real)
    ensures StatEfficiency("hp", value) == 0.0
    ensures StatEfficiency("attack", value) == 0.0
    ensures StatEfficiency("defense", value) == 0.0
    ensures StatEfficiency("healingBonus", value) == 0.0
    ensures StatEfficiency("allDMGBonus", value) == 0.0
  {
  }

  /** The crit-value progress bar: `Math.min(cv / 2, 100)`. */
  function CritProgress(cv: real): (p: real)
    ensures p <= 100.0
    ensures cv <= 200.0 ==> p == cv / 2.0
    ensures cv >= 200.0 ==> p == 100.0
    ensures 0.0 <= cv ==> 0.0 <= p
  {
    Min(cv / 2.0, 100.0)
  }

  /** The "No materials needed at current levels" message is shown: `!x?.length`
      holds for all three lists, so the message appears exactly for the
      record with no materials at all. */
  function NoMaterials(needs: MaterialNeeds): (b: bool)
    ensures b <==> needs == MaterialNeeds([], [], [])
  {
    |needs.characterMats| == 0 && |needs.weaponMats| == 0 && |needs.skillMats| == 0
  }

  /** The bonus texts the detailed panel lists for an active set: the 2-piece
      bonus always, the 5-piece bonus from five pieces on. */
  function ShownBonuses(active: ActiveSet): (shown: seq<string>)
    ensures |shown| >= 1 && shown[0] == active.twoPieceBonus
    ensures active.pieces >= 5 <==> |shown| == 2
    ensures |shown| == 2 ==> shown[1] == active.fivePieceBonus
    ensures |shown| <= 2
  {
    [active.twoPieceBonus] + (if active.pieces >= 5 then [active.fivePieceBonus] else [])
  }
}
