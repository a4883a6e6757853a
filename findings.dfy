/**
 * Two list searches and a damage rule of modules/Unit.js as the source writes them. The
 * searches pass an ARRAY to `Math.min` / `Math.max`, which convert their one argument to a
 * number: an empty array becomes 0, a one-element array its element, and any longer array
 * NaN. Every comparison with NaN is false. The rest of the model uses the evident meaning
 * instead (`CombatRules`, `Simulation.World.Target`); the lemmas here show where the two part
 * ways.
 *
 * The damage floor is the other way round: the field comment on `#defence` promises at least
 * 1 damage per attack, while `damaged` floors at 0. The rest of the model keeps the code's rule
 * (`CombatRules.EffectiveDamage`); `FlooredDamage` is the rule the comment describes.
 */
module Findings {
  import opened Options
  import opened Drawables
  import opened CombatRules
  import opened UnitTypes

  /** `Number(list)` for a list of numbers; `None` stands for NaN. */
  function ListToNumber(xs: seq<real>): Option<real>
  {
    if |xs| == 0 then Some(0.0)
    else if |xs| == 1 then Some(xs[0])
    else None
  }

  /** `reach >= Math.min(xs)` as written (the hold test of `Unit.update`). */
  predicate HoldsAsWritten(reach: real, xs: seq<real>)
  {
    var m := ListToNumber(xs);
    m.Some? && reach >= m.value
  }

  /**
   * The as-written hold test agrees with the evident one only for exactly one enemy unit: with
   * two or more it never holds, and with none it holds whenever the reach is not negative.
   */
  lemma HoldsAsWrittenDiffers(reach: real, xs: seq<real>)
    ensures |xs| == 1 ==> (HoldsAsWritten(reach, xs) <==> WithinReach(reach, xs))
    ensures |xs| >= 2 ==> !HoldsAsWritten(reach, xs)
    ensures |xs| == 0 ==> (HoldsAsWritten(reach, xs) <==> reach >= 0.0) && !WithinReach(reach, xs)
  {
    if |xs| == 1 {
      assert Min(xs) == xs[0];
    }
  }

  /**
   * A player unit at x = 100 with range 25 (reach 175) facing enemy units at 150 and 160:
   * the evident rule holds, the as-written one walks into them. Alone on the lane, the same
   * unit holds as written instead of advancing.
   */
  lemma PlayerHoldCounterexample()
    ensures WithinReach(175.0, [150.0, 160.0]) && !HoldsAsWritten(175.0, [150.0, 160.0])
    ensures HoldsAsWritten(175.0, []) && !WithinReach(175.0, [])
  {
    HoldsAsWrittenDiffers(175.0, [150.0, 160.0]);
    HoldsAsWrittenDiffers(175.0, []);
    WithinReachIff(175.0, [150.0, 160.0]);
  }

  /** `list.find(a => a == v)` as an index: the first position holding `v`. */
  function FindIndex(xs: seq<real>, v: real): (k: Option<nat>)
    ensures k.Some? ==> k.value < |xs| && xs[k.value] == v
                        && forall i :: 0 <= i < k.value ==> xs[i] != v
    ensures k.None? ==> forall i :: 0 <= i < |xs| ==> xs[i] != v
  {
    if |xs| == 0 then None
    else if xs[0] == v then Some(0)
    else
      var rest := FindIndex(xs[1..], v);
      if rest.None? then None else Some(rest.value + 1)
  }

  /** The enemy's target search as written: `xs.find(a => a == Math.max(xs))`. */
  function TargetIndexAsWritten(xs: seq<real>): Option<nat>
  {
    var m := ListToNumber(xs);
    if m.None? then None else FindIndex(xs, m.value)
  }

  /**
   * As written, an enemy finds a target only when exactly one player unit exists; with two or
   * more it sees none and goes for the base, although the evident search always finds one.
   */
  lemma TargetAsWrittenDiffers(xs: seq<real>)
    ensures TargetIndexAsWritten(xs).Some? <==> |xs| == 1
    ensures |xs| == 1 ==> TargetIndexAsWritten(xs) == Some(FirstMaxIndex(xs))
    ensures |xs| >= 2 ==> TargetIndexAsWritten(xs).None? && FirstMaxIndex(xs) < |xs|
  {
    if |xs| == 0 {
      assert FindIndex(xs, 0.0).None?;
    }
  }

  /** Two player units at 300 and 400: as written there is no target, evidently the one at 400. */
  lemma TargetCounterexample()
    ensures TargetIndexAsWritten([300.0, 400.0]).None?
    ensures FirstMaxIndex([300.0, 400.0]) == 1
  {
    TargetAsWrittenDiffers([300.0, 400.0]);
    var k := FirstMaxIndex([300.0, 400.0]);
    assert [300.0, 400.0][0] <= [300.0, 400.0][k];
  }

  /**
   * The damage rule the `#defence` comment describes: defence lowers a hit, but never below
   * 1. It agrees with `damaged` whenever the code deals at least 1.
   */
  function FlooredDamage(damage: real, defence: real): (r: real)
    ensures r >= 1.0 && r >= damage - defence
    ensures r == 1.0 || r == damage - defence
    ensures EffectiveDamage(damage, defence) >= 1.0 ==> r == EffectiveDamage(damage, defence)
    ensures EffectiveDamage(damage, defence) < 1.0 ==> r == 1.0
  {
    Max(1.0, damage - defence)
  }

  /**
   * A fresh `basic` unit (damage 2) striking a fresh `tank` unit (defence 5): as written the
   * hit deals nothing, so the tank can never be worn down by basic units; with the floor it
   * loses 1 per hit.
   */
  lemma BasicAgainstTank()
    ensures var damage := Basic.baseDMG + InitialProficiency(Basic) as real;
      var defence := Tank.baseDEF + InitialProficiency(Tank) as real;
      EffectiveDamage(damage, defence) == 0.0 && FlooredDamage(damage, defence) == 1.0
  {
    PresetProficiencies();
  }
}
