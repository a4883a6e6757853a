/**
 * The pure rules behind a unit's update in modules/Unit.js: the step length, the lane edges,
 * the attack cooldown, defence-reduced damage, the kill bonus, and the two searches over the
 * opposing side's x coordinates (the nearest enemy for a player unit, the front-most player
 * unit for an enemy).
 */
module CombatRules {
  import opened Options
  import opened Drawables

  /** Lane edges used by the player update. */
  const LaneStart: real := 100.0
  const LaneEnd: real := 1900.0
  /** `UnitTypeEnum.basic.baseRange`, the distance at which an enemy stops in front of its foe. */
  const HoldDistance: real := 25.0

  function Max(a: real, b: real): real
  {
    if a >= b then a else b
  }

  /** Distance covered in one update: `speed / 16 * Math.max(16, delta)`. */
  function Step(speed: real, delta: real): (d: real)
    ensures delta <= 16.0 ==> d == speed
    ensures speed >= 0.0 ==> d >= speed
  {
    speed / 16.0 * Max(16.0, delta)
  }

  /** The smallest value of a non-empty list (the evident meaning of `Math.min(list)`). */
  function Min(xs: seq<real>): (m: real)
    requires |xs| > 0
    ensures forall i :: 0 <= i < |xs| ==> m <= xs[i]
    ensures exists i :: 0 <= i < |xs| && m == xs[i]
  {
    if |xs| == 1 then xs[0]
    else
      var rest := Min(xs[1..]);
      assert forall i :: 1 <= i < |xs| ==> xs[i] == xs[1..][i - 1];
      if xs[0] <= rest then xs[0] else rest
  }

  /**
   * The index `find` returns for "the first element equal to the maximum" (the evident
   * meaning of `list.find(a => a == Math.max(list))`).
   */
  function FirstMaxIndex(xs: seq<real>): (k: nat)
    requires |xs| > 0
    ensures k < |xs|
    ensures forall i :: 0 <= i < |xs| ==> xs[i] <= xs[k]
    ensures forall i :: 0 <= i < k ==> xs[i] < xs[k]
  {
    if |xs| == 1 then 0
    else
      var k := FirstMaxIndex(xs[1..]) + 1;
      assert forall i :: 1 <= i < |xs| ==> xs[i] == xs[1..][i - 1];
      if xs[0] >= xs[k] then 0 else k
  }

  /** `reach >= Math.min(xs)`, read with an empty list meaning "nobody to reach". */
  predicate WithinReach(reach: real, xs: seq<real>)
  {
    |xs| > 0 && reach >= Min(xs)
  }

  lemma WithinReachIff(reach: real, xs: seq<real>)
    ensures WithinReach(reach, xs) <==> exists i :: 0 <= i < |xs| && reach >= xs[i]
  {
    if exists i :: 0 <= i < |xs| && reach >= xs[i] {
      var i :| 0 <= i < |xs| && reach >= xs[i];
      assert Min(xs) <= xs[i];
    }
  }

  /**
   * The lane-edge rule after a player step: a position at or left of x = 100, or at or right
   * of 1900 - width, is sent back to x = 100.
   */
  function LaneReset(x: real): (r: real)
    ensures LaneStart <= r < LaneEnd - Width
    ensures r == x || r == LaneStart
    ensures LaneStart < x < LaneEnd - Width ==> r == x
  {
    var a := if x <= LaneStart then LaneStart else x;
    if a >= LaneEnd - Width then LaneStart else a
  }

  /**
   * Where a player unit at `x` with reach `range` ends up: `None` when it holds because an
   * enemy is within `x + range + width`, else the position after the step, `moveBy`'s zero
   * quirk and the lane reset.
   */
  function PlayerStep(x: real, range: real, enemyXs: seq<real>, step: real): (r: Option<real>)
    ensures r.None? <==> exists i :: 0 <= i < |enemyXs| && x + range + Width >= enemyXs[i]
    ensures r.Some? ==> LaneStart <= r.value < LaneEnd - Width
    ensures r.Some? && LaneStart < x + step < LaneEnd - Width ==> r.value == x + step
    ensures r.Some? && x + step != 0.0 && !(LaneStart < x + step < LaneEnd - Width) ==> r.value == LaneStart
  {
    WithinReachIff(x + range + Width, enemyXs);
    if WithinReach(x + range + Width, enemyXs) then None
    else Some(LaneReset(OrElse(x + step, x)))
  }

  /**
   * The attack cooldown: `lastAttackTime + 1000 / atkSpeed <= now`. An attack speed of 0 makes
   * the interval infinite, so the unit never attacks.
   */
  predicate CooldownElapsed(lastAttack: real, atkSpeed: real, now: real)
  {
    atkSpeed != 0.0 && lastAttack + 1000.0 / atkSpeed <= now
  }

  /** An attack at `t1` closes the gate for every `t2` less than one interval later. */
  lemma CooldownClosed(t1: real, t2: real, atkSpeed: real)
    requires atkSpeed != 0.0 ==> t2 - t1 < 1000.0 / atkSpeed
    ensures !CooldownElapsed(t1, atkSpeed, t2)
  {
  }

  /** Damage a unit takes: `Math.max(0, damage - defence)`. */
  function EffectiveDamage(damage: real, defence: real): (r: real)
    ensures r >= 0.0 && r >= damage - defence
    ensures r == 0.0 || r == damage - defence
    ensures damage <= defence ==> r == 0.0
  {
    Max(0.0, damage - defence)
  }

  /** The kill bonus: `Math.max(1, prof)`. */
  function KillGain(prof: real): (g: real)
    ensures g >= 1.0 && g >= prof
    ensures g == 1.0 || g == prof
  {
    Max(1.0, prof)
  }

  /** Whom an enemy unit strikes in one update. */
  datatype Strike = NoStrike | StrikeTarget | StrikeBase

  datatype EnemyPlan = EnemyPlan(strike: Strike, hold: bool)

  /**
   * One enemy update as a decision: `x` and `range` are the enemy's, `target` the x of the
   * front-most player unit (if any), `baseX` the player base's x, `ready` the cooldown test.
   */
  function PlanEnemy(x: real, range: real, target: Option<real>, baseX: real, ready: bool): EnemyPlan
  {
    var engaged := target.Some? && x - range <= target.value + Width;
    var besieging := target.None? && x - range <= baseX + Width;
    var strike := if engaged && ready then StrikeTarget
                  else if besieging && ready then StrikeBase
                  else NoStrike;
    var hold := (engaged && x - HoldDistance <= target.value + Width)
                || x <= baseX + Width + HoldDistance;
    EnemyPlan(strike, hold)
  }

  /**
   * The enemy strikes only when its cooldown has elapsed and only the foe the source names:
   * the target when one exists and is within range, the base only when no player unit exists.
   */
  lemma {:induction false} PlanEnemyStrikes(x: real, range: real, target: Option<real>, baseX: real, ready: bool)
    ensures var p := PlanEnemy(x, range, target, baseX, ready);
      && (p.strike == StrikeTarget <==> ready && target.Some? && x - range <= target.value + Width)
      && (p.strike == StrikeBase <==> ready && target.None? && x - range <= baseX + Width)
      && (!ready ==> p.strike == NoStrike)
  {
  }

  /**
   * The enemy holds exactly when it is within the hold distance of a target it is engaging or
   * within the hold distance of the base; a besieging enemy further out keeps walking.
   */
  lemma {:induction false} PlanEnemyHolds(x: real, range: real, target: Option<real>, baseX: real, ready: bool)
    ensures var p := PlanEnemy(x, range, target, baseX, ready);
      p.hold <==> (target.Some? && x - range <= target.value + Width && x - HoldDistance <= target.value + Width)
                  || x <= baseX + Width + HoldDistance
    ensures PlanEnemy(x, range, target, baseX, ready).hold == PlanEnemy(x, range, target, baseX, !ready).hold
  {
  }
}
