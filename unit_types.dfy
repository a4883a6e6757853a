/**
 * Unit templates (`UnitType` and the presets of `UnitTypeEnum` in modules/Unit.js): the six
 * base values a unit is built from. A template is copied into a unit when the unit is built,
 * so a value type models it faithfully.
 */
module UnitTypes {

  /** `new UnitType(baseHP, baseDMG, baseSpeed = 1, baseDEF, baseATKSpeed, baseRange)`. */
  datatype UnitType = UnitType(
    baseHP: real,
    baseDMG: real,
    baseSpeed: real := 1.0,
    baseDEF: real,
    baseATKSpeed: real,
    baseRange: real)

  const Basic: UnitType := UnitType(10.0, 2.0, 1.0, 1.0, 1.0, 25.0)
  const Brute: UnitType := UnitType(10.0, 2.0, 0.7, 3.0, 0.5, 25.0)
  const Tank: UnitType := UnitType(10.0, 2.0, 0.5, 5.0, 0.5, 25.0)
  const Fast: UnitType := UnitType(10.0, 2.0, 2.0, 0.0, 2.0, 25.0)
  const Ranged: UnitType := UnitType(10.0, 20.0, 1.0, 0.0, 2.0, 250.0)

  /** The template a base starts with (`unitLevels` in modules/Base.js). */
  const InitialLevels: UnitType := UnitType(1.0, 1.0, 1.0, 1.0, 1.0, 1.0)

  /**
   * The proficiency a unit is born with: `Math.floor((baseDMG + baseDMG + baseSpeed) / 10)`.
   */
  function InitialProficiency(t: UnitType): (p: int)
    ensures p as real <= (2.0 * t.baseDMG + t.baseSpeed) / 10.0 < p as real + 1.0
    ensures t.baseDMG >= 0.0 && t.baseSpeed >= 0.0 ==> p >= 0
  {
    ((t.baseDMG + t.baseDMG + t.baseSpeed) / 10.0).Floor
  }

  /** The initial proficiency of each preset, hence its starting hit points (baseHP + proficiency). */
  lemma PresetProficiencies()
    ensures InitialProficiency(Basic) == 0 && InitialProficiency(Brute) == 0
    ensures InitialProficiency(Tank) == 0 && InitialProficiency(Fast) == 0
    ensures InitialProficiency(Ranged) == 4
    ensures InitialProficiency(InitialLevels) == 0
  {
  }
}
