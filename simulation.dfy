/**
 * The lane-combat entities of modules/Unit.js, modules/Base.js and modules/Application.js.
 * Those three files import one another, so their classes share this one module.
 *
 * `ApplicationData`'s static roster becomes a `World` object passed to whoever reads or
 * rewrites it; `performance.now()` becomes a `now` parameter; `extends Drawable` becomes a
 * `body` that each entity owns.
 */
module Simulation {
  import opened Options
  import opened Drawables
  import opened UnitTypes
  import opened CombatRules

  /** `Base.UNIT_PLACEMENT_COOLDOWN` and `Base.UPGRADE_COOLDOWN`, in milliseconds. */
  const UnitPlacementCooldown: real := 2000.0
  const UpgradeCooldown: real := 10000.0
  /** A CPU base stops spawning once this many enemy units exist. */
  const MaxEnemyUnits: nat := 10
  /** Where an `EnemyUnit` is placed: `1800 - basic.baseRange - width`. */
  const EnemySpawnX: real := 1800.0 - 25.0 - Width

  // ---------------------------------------------------------------------------------------
  // Roster views (`ApplicationData.playerUnits` / `enemyUnits` and the sweep in `damaged`)
  // ---------------------------------------------------------------------------------------

  /** The units of one side (`isEnemy == enemy`), in roster order: `units.filter(...)`. */
  function Side(us: seq<Unit>, enemy: bool): seq<Unit>
  {
    if us == [] then []
    else (if us[0].isEnemy == enemy then [us[0]] else []) + Side(us[1..], enemy)
  }

  lemma {:induction false} SideMembers(us: seq<Unit>, enemy: bool)
    ensures forall u :: u in Side(us, enemy) <==> u in us && u.isEnemy == enemy
  {
    if us != [] {
      SideMembers(us[1..], enemy);
      assert us == [us[0]] + us[1..];
    }
  }

  /** `SideMembers` by position, for use where the roster is read through a function. */
  lemma SideIndexed(us: seq<Unit>, enemy: bool)
    ensures forall i :: 0 <= i < |Side(us, enemy)| ==>
      Side(us, enemy)[i] in us && Side(us, enemy)[i].isEnemy == enemy
    ensures forall i :: 0 <= i < |us| && us[i].isEnemy == enemy ==> us[i] in Side(us, enemy)
  {
    SideMembers(us, enemy);
    assert forall i :: 0 <= i < |Side(us, enemy)| ==> Side(us, enemy)[i] in Side(us, enemy);
  }

  /** Filtering distributes over concatenation, so it keeps roster order. */
  lemma {:induction false} SideAppend(a: seq<Unit>, b: seq<Unit>, enemy: bool)
    ensures Side(a + b, enemy) == Side(a, enemy) + Side(b, enemy)
  {
    if a != [] {
      assert (a + b)[1..] == a[1..] + b;
      SideAppend(a[1..], b, enemy);
    } else {
      assert a + b == b;
    }
  }

  /** Every unit lands in exactly one of the two sides. */
  lemma {:induction false} SidesPartition(us: seq<Unit>)
    ensures |Side(us, false)| + |Side(us, true)| == |us|
    ensures forall u :: !(u in Side(us, false) && u in Side(us, true))
  {
    SideMembers(us, false);
    SideMembers(us, true);
    if us != [] {
      SidesPartition(us[1..]);
    }
  }

  /** The units still alive (`health > 0`), in roster order: the sweep in `Unit.damaged`. */
  function Alive(us: seq<Unit>): seq<Unit>
    reads us`hitPoints
  {
    if us == [] then []
    else (if us[0].hitPoints > 0.0 then [us[0]] else []) + Alive(us[1..])
  }

  lemma {:induction false} AliveMembers(us: seq<Unit>)
    ensures forall u :: u in Alive(us) <==> u in us && u.hitPoints > 0.0
    ensures |Alive(us)| <= |us|
  {
    if us != [] {
      AliveMembers(us[1..]);
      assert us == [us[0]] + us[1..];
    }
  }

  lemma {:induction false} AliveAppend(a: seq<Unit>, b: seq<Unit>)
    ensures Alive(a + b) == Alive(a) + Alive(b)
  {
    if a != [] {
      var ab := a + b;
      assert ab[0] == a[0] && ab[1..] == a[1..] + b;
      var head := if a[0].hitPoints > 0.0 then [a[0]] else [];
      assert Alive(ab) == head + Alive(a[1..] + b);
      AliveAppend(a[1..], b);
      assert Alive(a) == head + Alive(a[1..]);
    } else {
      assert a + b == b;
    }
  }

  /** A second sweep removes nothing more. */
  lemma {:induction false} AliveIdempotent(us: seq<Unit>)
    ensures Alive(Alive(us)) == Alive(us)
  {
    if us != [] {
      AliveIdempotent(us[1..]);
      var head := if us[0].hitPoints > 0.0 then [us[0]] else [];
      AliveAppend(head, Alive(us[1..]));
      if us[0].hitPoints > 0.0 {
        assert Alive(head) == head by { assert head[1..] == []; }
      }
    }
  }

  /** The x coordinates of a list of units: `units.map(u => u.position.x)`. */
  function Xs(us: seq<Unit>): (r: seq<real>)
    reads set u | u in us :: u.body
    ensures |r| == |us|
    ensures forall i :: 0 <= i < |us| ==> r[i] == us[i].body.x
  {
    if us == [] then [] else [us[0].body.x] + Xs(us[1..])
  }

  // ---------------------------------------------------------------------------------------
  // The shared roster
  // ---------------------------------------------------------------------------------------

  class World {
    /** `ApplicationData.units`, in insertion order. */
    var units: seq<Unit>
    /** The units whose update has run, in call order (no counterpart in the source). */
    ghost var log: seq<Unit>

    constructor ()
      ensures units == [] && log == []
    {
      units, log := [], [];
    }

    /** The sweep: `ApplicationData.units = ApplicationData.units.filter(u => u.health > 0)`. */
    method RemoveDead()
      modifies this`units
      ensures units == Alive(old(units))
    {
      units := Alive(units);
    }

    /** `ApplicationData.playerUnits`: the units that are not enemies, in roster order. */
    function PlayerUnits(): (ps: seq<Unit>)
      reads this`units
      ensures forall i :: 0 <= i < |ps| ==> ps[i] in units && !ps[i].isEnemy
      ensures forall i :: 0 <= i < |units| && !units[i].isEnemy ==> units[i] in ps
      ensures |ps| <= |units|
    {
      SideIndexed(units, false);
      SidesPartition(units);
      Side(units, false)
    }

    /** `ApplicationData.enemyUnits`: the enemy units, in roster order. */
    function EnemyUnits(): (es: seq<Unit>)
      reads this`units
      ensures forall i :: 0 <= i < |es| ==> es[i] in units && es[i].isEnemy
      ensures forall i :: 0 <= i < |units| && units[i].isEnemy ==> units[i] in es
      ensures |es| <= |units|
    {
      SideIndexed(units, true);
      SidesPartition(units);
      Side(units, true)
    }

    /**
     * The enemy's target: `playerUnits.find(a => a.position.x == max x)`, the first player
     * unit whose x is the largest, `None` when there is no player unit.
     */
    function Target(): (t: Option<Unit>)
      reads this`units, set u | u in units :: u.body
      ensures t.Some? ==> t.value in units && !t.value.isEnemy
    {
      SideMembers(units, false);
      var ps := Side(units, false);
      if ps == [] then None else Some(ps[FirstMaxIndex(Xs(ps))])
    }
  }

  /**
   * The target is the front-most player unit (no player unit has a larger x), the first such
   * in roster order, and it is missing only when no player unit exists.
   */
  lemma TargetIsFrontmost(w: World)
    ensures w.Target().None? <==> forall u :: u in w.units ==> u.isEnemy
    ensures w.Target().Some? ==>
      var t := w.Target().value;
      && (forall p :: p in w.units && !p.isEnemy ==> p.body.x <= t.body.x)
      && exists k :: (0 <= k < |w.PlayerUnits()| && w.PlayerUnits()[k] == t
           && forall j :: 0 <= j < k ==> w.PlayerUnits()[j].body.x < t.body.x)
  {
    var ps := Side(w.units, false);
    SideMembers(w.units, false);
    if ps == [] {
      forall u | u in w.units ensures u.isEnemy { assert u !in ps; }
    } else {
      var k := FirstMaxIndex(Xs(ps));
      assert w.Target() == Some(ps[k]);
      forall p | p in w.units && !p.isEnemy ensures p.body.x <= ps[k].body.x {
        var i :| 0 <= i < |ps| && ps[i] == p;
        assert Xs(ps)[i] <= Xs(ps)[k];
      }
      forall j | 0 <= j < k ensures ps[j].body.x < ps[k].body.x {
        assert Xs(ps)[j] < Xs(ps)[k];
      }
      assert w.PlayerUnits()[k] == ps[k];
    }
  }

  // ---------------------------------------------------------------------------------------
  // Units (`Unit` and `EnemyUnit`)
  // ---------------------------------------------------------------------------------------

  class Unit {
    /** Set once at construction: `EnemyUnit`s are enemies, plain `Unit`s are the player's. */
    const isEnemy: bool
    const body: Drawable
    /** The template values, stored unchanged. */
    const attackSpeed: real
    const defence: real
    const movementSpeed: real
    const attackDamage: real
    const attackRange: real
    const maxHitPoints: real
    var proficiency: real
    var hitPoints: real
    var isMoving: bool
    var lastAttackTime: real

    /** The unit was built from template `t`. */
    predicate BuiltFrom(t: UnitType)
    {
      && defence == t.baseDEF && movementSpeed == t.baseSpeed && attackDamage == t.baseDMG
      && attackSpeed == t.baseATKSpeed && attackRange == t.baseRange && maxHitPoints == t.baseHP
    }

    /**
     * `new Unit(type)` (enemy == false) or `new EnemyUnit(type)` (enemy == true), at time
     * `now`, standing on the ground line `groundY`.
     */
    constructor (t: UnitType, now: real, groundY: real, enemy: bool)
      ensures isEnemy == enemy && BuiltFrom(t)
      ensures proficiency == InitialProficiency(t) as real
      ensures hitPoints == t.baseHP + proficiency
      ensures lastAttackTime == now && !isMoving
      ensures fresh(body) && body.y == groundY
      ensures body.x == if enemy then EnemySpawnX else 0.0
    {
      var d := new Drawable();
      d.y := groundY;
      if enemy {
        d.x := EnemySpawnX;
      }
      body := d;
      isEnemy := enemy;
      defence := t.baseDEF;
      movementSpeed := t.baseSpeed;
      attackDamage := t.baseDMG;
      attackSpeed := t.baseATKSpeed;
      attackRange := t.baseRange;
      proficiency := InitialProficiency(t) as real;
      hitPoints := t.baseHP + InitialProficiency(t) as real;
      maxHitPoints := t.baseHP;
      isMoving := false;
      lastAttackTime := now;
    }

    // Derived stats, computed on read.

    function AtkDamage(): real
      reads this
    {
      attackDamage + proficiency
    }

    function Speed(): real
      reads this
    {
      movementSpeed + proficiency * 0.5
    }

    function AtkSpeed(): real
      reads this
    {
      attackSpeed + proficiency * 0.5
    }

    function Defence(): real
      reads this
    {
      defence + proficiency
    }

    function Range(): real
    {
      attackRange
    }

    /** The decision `EnemyUnit.update` takes in the current state. */
    function Plan(world: World, playerBase: Base, now: real): EnemyPlan
      reads this, body, world`units, set u | u in world.units :: u.body, playerBase.body
    {
      var t := world.Target();
      PlanEnemy(body.x, Range(), if t.Some? then Some(t.value.body.x) else None,
                playerBase.body.x, CooldownElapsed(lastAttackTime, AtkSpeed(), now))
    }

    /** `enemyKilled(prof = 1)`: the kill bonus goes to both proficiency and hit points. */
    method EnemyKilled(prof: real := 1.0)
      modifies this
      ensures proficiency == old(proficiency) + KillGain(prof)
      ensures hitPoints == old(hitPoints) + KillGain(prof)
      ensures AtkDamage() == old(AtkDamage()) + KillGain(prof)
      ensures Defence() == old(Defence()) + KillGain(prof)
      ensures Speed() == old(Speed()) + KillGain(prof) * 0.5
      ensures AtkSpeed() == old(AtkSpeed()) + KillGain(prof) * 0.5
      ensures isMoving == old(isMoving) && lastAttackTime == old(lastAttackTime)
    {
      var gain := KillGain(prof);
      proficiency := proficiency + gain;
      hitPoints := hitPoints + gain;
    }

    /**
     * `damaged(damage)`: lose `max(0, damage - defence)` hit points; if that leaves this unit
     * at or below 0, the roster is replaced by its living units.
     */
    method Damaged(damage: real, world: World)
      modifies this`hitPoints, world`units
      ensures hitPoints == old(hitPoints) - EffectiveDamage(damage, old(Defence()))
      ensures hitPoints <= old(hitPoints)
      ensures proficiency == old(proficiency) && isMoving == old(isMoving)
      ensures lastAttackTime == old(lastAttackTime)
      ensures world.units == if hitPoints <= 0.0 then Alive(old(world.units)) else old(world.units)
      ensures world.log == old(world.log)
    {
      hitPoints := hitPoints - EffectiveDamage(damage, Defence());
      if hitPoints <= 0.0 {
        world.RemoveDead();
      }
    }

    /**
     * `Unit.update(delta = 16)`: hold while an enemy unit is within `x + range + width`,
     * otherwise step right and apply the lane reset.
     */
    method UpdatePlayer(world: World, delta: real := 16.0)
      requires !isEnemy
      modifies this`isMoving, body, world`log
      ensures var next := old(PlayerStep(body.x, Range(), Xs(world.EnemyUnits()), Step(Speed(), delta)));
        && (next.None? ==> body.x == old(body.x) && !isMoving)
        && (next.Some? ==> body.x == next.value && isMoving)
      ensures body.y == old(body.y)
      ensures proficiency == old(proficiency) && hitPoints == old(hitPoints)
      ensures lastAttackTime == old(lastAttackTime)
      ensures world.log == old(world.log) + [this]
    {
      var step := Step(Speed(), delta);
      var enemyXs := Xs(world.EnemyUnits());
      ghost var next := PlayerStep(body.x, Range(), enemyXs, step);
      world.log := world.log + [this];
      isMoving := false;
      if WithinReach(body.x + Range() + Width, enemyXs) {
        return;
      }
      body.MoveBy(step, 0.0);
      isMoving := true;
      if body.x <= LaneStart {
        body.MoveTo(LaneStart);
      }
      if body.x >= LaneEnd - Width {
        body.MoveTo(LaneStart);
      }
    }

    /**
     * `EnemyUnit.update(delta = 16)` against `playerBase`: strike the target or, when no
     * player unit exists, the base, if in range and off cooldown; then hold or step left.
     * `target` and `plan` record, for stating properties, whom the unit aimed at and the
     * decision it took.
     */
    method UpdateEnemy(world: World, now: real, playerBase: Base, delta: real := 16.0)
      returns (ghost target: Option<Unit>, ghost plan: EnemyPlan)
      requires isEnemy
      modifies this`isMoving, this`lastAttackTime, body, world`units, world`log
      modifies playerBase`hitPoints, (set u | u in world.units)`hitPoints
      ensures target == old(world.Target()) && plan == old(Plan(world, playerBase, now))
      ensures lastAttackTime == if plan.strike != NoStrike then now else old(lastAttackTime)
      ensures plan.strike == StrikeTarget ==>
        var t := target.value;
        && t.hitPoints == old(t.hitPoints) - EffectiveDamage(old(AtkDamage()), old(t.Defence()))
        && world.units == if t.hitPoints <= 0.0 then Alive(old(world.units)) else old(world.units)
      ensures plan.strike != StrikeTarget ==> world.units == old(world.units)
      ensures playerBase.hitPoints == old(playerBase.hitPoints)
        - if plan.strike == StrikeBase then old(AtkDamage()) else 0.0
      ensures plan.hold ==> body.x == old(body.x) && !isMoving
      ensures !plan.hold ==>
        body.x == OrElse(old(body.x) - Step(old(Speed()), delta), old(body.x)) && isMoving
      ensures proficiency == old(proficiency) && hitPoints == old(hitPoints)
      ensures body.y == old(body.y)
      ensures forall u :: u in old(world.units) && u != this && (plan.strike != StrikeTarget || u != target.value) ==>
        u.hitPoints == old(u.hitPoints)
      ensures forall u :: u in world.units ==> u in old(world.units)
      ensures world.log == old(world.log) + [this]
    {
      // Everything the decision depends on is read before anything changes.
      var next := Plan(world, playerBase, now);
      var foe := world.Target();
      target, plan := foe, next;
      var step := Step(Speed(), delta);
      world.log := world.log + [this];
      isMoving := false;
      Strike(next.strike, foe, world, playerBase, now);
      ghost var swept := next.strike == StrikeTarget && foe.value.hitPoints <= 0.0;
      assert world.units == if swept then Alive(old(world.units)) else old(world.units);
      if !next.hold {
        body.MoveBy(-step, 0.0);
        isMoving := true;
      }
      assert world.units == if swept then Alive(old(world.units)) else old(world.units);
    }

    /**
     * The cooldown-gated attack of `EnemyUnit.update`: restart the cooldown and damage the
     * target (which may sweep the roster) or the player base, as `strike` says.
     */
    method Strike(strike: Strike, target: Option<Unit>, world: World, playerBase: Base, now: real)
      requires strike == StrikeTarget ==> target.Some? && target.value in world.units && target.value != this
      modifies this`lastAttackTime, world`units, playerBase`hitPoints, (set u | u in world.units)`hitPoints
      ensures lastAttackTime == if strike != NoStrike then now else old(lastAttackTime)
      ensures hitPoints == old(hitPoints)
      ensures strike == StrikeTarget ==>
        var t := target.value;
        && t.hitPoints == old(t.hitPoints) - EffectiveDamage(old(AtkDamage()), old(t.Defence()))
        && world.units == if t.hitPoints <= 0.0 then Alive(old(world.units)) else old(world.units)
      ensures strike != StrikeTarget ==> world.units == old(world.units)
      ensures playerBase.hitPoints == old(playerBase.hitPoints) - if strike == StrikeBase then old(AtkDamage()) else 0.0
      ensures forall u :: u in old(world.units) && (strike != StrikeTarget || u != target.value) ==>
        u.hitPoints == old(u.hitPoints)
      ensures forall u :: u in world.units ==> u in old(world.units)
    {
      var damage := AtkDamage();
      if strike != NoStrike {
        lastAttackTime := now;
      }
      if strike == StrikeTarget {
        ghost var before := world.units;
        target.value.Damaged(damage, world);
        AliveMembers(before);
      } else if strike == StrikeBase {
        playerBase.Damaged(damage);
      }
    }
  }

  /**
   * Of two units built from the same template, the one with the higher proficiency has every
   * derived stat at least as high; the range does not depend on proficiency.
   */
  lemma StatsMonotone(a: Unit, b: Unit)
    requires a.attackDamage == b.attackDamage && a.defence == b.defence
    requires a.movementSpeed == b.movementSpeed && a.attackSpeed == b.attackSpeed
    requires a.attackRange == b.attackRange
    requires a.proficiency <= b.proficiency
    ensures a.AtkDamage() <= b.AtkDamage() && a.Defence() <= b.Defence()
    ensures a.Speed() <= b.Speed() && a.AtkSpeed() <= b.AtkSpeed()
    ensures a.Range() == b.Range()
  {
  }

  /**
   * Two updates of one enemy unit less than one attack interval apart strike at most once
   * between them, whatever each of them aimed at.
   */
  method UpdateEnemyTwice(u: Unit, world: World, t1: real, t2: real, playerBase: Base)
    returns (ghost first: EnemyPlan, ghost second: EnemyPlan)
    requires u.isEnemy
    requires t1 <= t2 && (u.AtkSpeed() != 0.0 ==> t2 - t1 < 1000.0 / u.AtkSpeed())
    modifies u`isMoving, u`lastAttackTime, u.body, world`units, world`log
    modifies playerBase`hitPoints, (set v | v in world.units)`hitPoints
    ensures !(first.strike != NoStrike && second.strike != NoStrike)
    ensures world.log == old(world.log) + [u, u]
  {
    var _, p1 := u.UpdateEnemy(world, t1, playerBase);
    var _, p2 := u.UpdateEnemy(world, t2, playerBase);
    first, second := p1, p2;
    if p1.strike != NoStrike {
      CooldownClosed(t1, t2, u.AtkSpeed());
    }
  }

  // ---------------------------------------------------------------------------------------
  // Bases
  // ---------------------------------------------------------------------------------------

  class Base {
    const isCPUBase: bool
    const body: Drawable
    const maxHitPoints: real
    var hitPoints: real
    var lastUnitPlacedTime: real
    var lastUpgradeTime: real
    /** The template enemy units are spawned from. */
    var unitLevels: UnitType

    /** `new Base(hp = 500, isCPUBase)` at time `now`; an omitted flag is falsy. */
    constructor (now: real, hp: real := 500.0, isCPUBase: bool := false)
      ensures hitPoints == hp && maxHitPoints == hp
      ensures lastUnitPlacedTime == now && lastUpgradeTime == now
      ensures this.isCPUBase == isCPUBase && unitLevels == InitialLevels
      ensures fresh(body) && body.x == 0.0 && body.y == 0.0
    {
      body := new Drawable();
      hitPoints, maxHitPoints := hp, hp;
      lastUnitPlacedTime, lastUpgradeTime := now, now;
      this.isCPUBase := isCPUBase;
      unitLevels := InitialLevels;
    }

    /** The game-over condition the source reports with an alert. */
    predicate Destroyed()
      reads this
    {
      hitPoints <= 0.0
    }

    /** `damaged(damage)`: plain subtraction, no defence. */
    method Damaged(damage: real)
      modifies this`hitPoints
      ensures hitPoints == old(hitPoints) - damage
      ensures Destroyed() <==> old(hitPoints) - damage <= 0.0
      ensures lastUnitPlacedTime == old(lastUnitPlacedTime) && lastUpgradeTime == old(lastUpgradeTime)
      ensures unitLevels == old(unitLevels)
    {
      hitPoints := hitPoints - damage;
    }

    /**
     * `update()` at time `now`. `isMax` and `upgrade` stand for `unitLevels.isMax()` and
     * `unitLevels.upgrade()`, which the source calls but does not define; a spawned enemy
     * stands on `groundY`.
     */
    method Update(world: World, now: real, isMax: UnitType -> bool, upgrade: UnitType -> UnitType, groundY: real)
      modifies this, world
      ensures !isCPUBase ==> unchanged(this) && world.units == old(world.units)
      ensures var due := isCPUBase && now - old(lastUpgradeTime) >= UpgradeCooldown && !isMax(old(unitLevels));
        && unitLevels == (if due then upgrade(old(unitLevels)) else old(unitLevels))
        && lastUpgradeTime == (if due then now else old(lastUpgradeTime))
      ensures var due := isCPUBase && now - old(lastUnitPlacedTime) >= UnitPlacementCooldown;
        && lastUnitPlacedTime == (if due then now else old(lastUnitPlacedTime))
        && if due && |old(world.EnemyUnits())| < MaxEnemyUnits then
             && |world.units| == |old(world.units)| + 1
             && world.units[..|old(world.units)|] == old(world.units)
             && var u := world.units[|old(world.units)|];
                fresh(u) && u.isEnemy && u.BuiltFrom(unitLevels) && u.lastAttackTime == now
                && u.proficiency == InitialProficiency(unitLevels) as real
                && u.hitPoints == unitLevels.baseHP + u.proficiency && u.body.x == EnemySpawnX
                && u.body.y == groundY && !u.isMoving
           else world.units == old(world.units)
      ensures |world.units| <= |old(world.units)| + 1
      ensures |old(world.EnemyUnits())| < MaxEnemyUnits ==> |world.EnemyUnits()| <= MaxEnemyUnits
      ensures |old(world.EnemyUnits())| >= MaxEnemyUnits ==> world.units == old(world.units)
      ensures hitPoints == old(hitPoints) && world.log == old(world.log)
    {
      if isCPUBase {
        if now - lastUpgradeTime >= UpgradeCooldown && !isMax(unitLevels) {
          lastUpgradeTime := now;
          unitLevels := upgrade(unitLevels);
        }
        if now - lastUnitPlacedTime >= UnitPlacementCooldown {
          lastUnitPlacedTime := now;
          if |world.EnemyUnits()| >= MaxEnemyUnits {
            return;
          }
          var u := new Unit(unitLevels, now, groundY, true);
          SideAppend(world.units, [u], true);
          world.units := world.units + [u];
        }
      }
    }
  }

  /**
   * Two updates of one base less than the placement cooldown apart spawn at most one unit
   * between them: a spawn, or a spawn the cap blocked, restarts the placement timer.
   */
  method UpdateBaseTwice(b: Base, world: World, t1: real, t2: real,
                         isMax: UnitType -> bool, upgrade: UnitType -> UnitType, groundY: real)
    requires t2 - t1 < UnitPlacementCooldown
    modifies b, world
    ensures |old(world.units)| <= |world.units| <= |old(world.units)| + 1
    ensures world.units[..|old(world.units)|] == old(world.units)
  {
    b.Update(world, t1, isMax, upgrade, groundY);
    b.Update(world, t2, isMax, upgrade, groundY);
  }
}
