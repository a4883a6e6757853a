# Age of Clones: the per-tick lane-combat core in Dafny

This project models the simulation core of *Age of Clones*, a small browser lane-combat game.
Player units walk right and enemy units walk left along one x-axis. Enemy units strike the
front-most player unit, or the player base, behind an attack cooldown. A CPU base upgrades its
unit template and spawns enemy units on two timers. Each animation frame calls `update` on
every unit of one shared roster, in roster order.

Modules, following the program's files:

- `Drawables` is `Drawable` from modules/Renderer.js. It is a mutable point with a fixed
  50 × 100 hitbox (`Width`, `Height`), and its `moveTo`/`moveBy` keep JavaScript's `v || old`
  behaviour.
- `UnitTypes` holds the `UnitType` template, the five `UnitTypeEnum` presets, a base's initial
  template (`InitialLevels`) and the starting proficiency.
- `CombatRules` is the pure arithmetic inside the two `update` methods:
  - the step length, the lane reset and the attack cooldown;
  - defence-reduced damage and the kill bonus;
  - the nearest-enemy test of a player unit (`PlayerStep`);
  - the strike/hold decision of an enemy unit (`PlanEnemy`).
- `Simulation` holds the classes of modules/Unit.js, modules/Base.js and modules/Application.js.
  Those files import one another, so they share one module.
  - `World` is `ApplicationData`. Its `units` is a `seq<Unit>` field, and `PlayerUnits` and
    `EnemyUnits` are its two filters. A ghost `log` records the update calls, so that
    "once per unit, in roster order" can be stated.
  - `Unit` covers both `Unit` and `EnemyUnit`. An `EnemyUnit` is a `Unit` built with the enemy
    flag. The two `update` methods are `UpdatePlayer` and `UpdateEnemy`.
  - `Base` is the base.
  - Instead of `extends Drawable`, every unit and base owns a `body: Drawable`.
- `Renderer` is the update loop of `Renderer.render`.
- `Findings` models the two list searches of modules/Unit.js as written, and the damage rule
  the `#defence` field comment describes. See "## Findings".

Positions, speeds and times are `real`, so the model computes with exact rationals where the
game computes with double-precision floats (see "## Left out"). `performance.now()` becomes a
`now` parameter.

Notes on what the code does:

- Starting proficiency divides by 10: `floor((2·baseDMG + baseSpeed) / 10)`
  (modules/Unit.js:86).
- A player unit at or past a lane edge (x ≤ 100 or x ≥ 1850 after its step) is sent back to
  x = 100, not clamped to the edge (modules/Unit.js:165-166).
- Units do not avoid one another: each moves by its own rule alone.
- `enemyKilled` exists but nothing in the core calls it, so no kill is ever credited.
- An enemy unit that strikes does not necessarily stop (modules/Unit.js:220-238). It holds only:
  - within 25 of its target (`x - 25 <= target.x + width`); or
  - within 25 of the player base's far edge (`x <= base.x + width + 25`).

  So an enemy attacking the base from further out keeps walking.
- Dead units are swept immediately, inside `damaged`, not at the end of the tick
  (modules/Unit.js:185-187).
- The update loop runs only the units; bases are not updated in it (modules/Renderer.js:35).
- `forEach` walks the array it started with. A unit swept during the tick still gets its
  update.

## Model

| member | source | states |
|---|---|---|
| `Drawables.Drawable.constructor` | modules/Renderer.js:71 | a new drawable starts at (0, 0) |
| `Drawables.OrElse` | modules/Renderer.js:128-129 | `v \|\| old` on a coordinate: a zero request keeps the old value |
| `Drawables.Drawable.MoveTo` | modules/Renderer.js:127-130 | each coordinate takes its argument when nonzero and keeps its old value when the argument is 0 or omitted |
| `Drawables.Drawable.MoveBy` | modules/Renderer.js:118-120 | the position becomes `moveTo(x + dx, y + dy)`; a zero displacement leaves a coordinate unchanged; a nonzero target is reached exactly |
| `UnitTypes.InitialProficiency` | modules/Unit.js:86 | the starting proficiency is the floor of `(2·baseDMG + baseSpeed) / 10`, and is ≥ 0 for non-negative stats |
| `UnitTypes.PresetProficiencies` | modules/Unit.js:247-253 | the presets and a base's initial template start with proficiency 0, except `ranged`, which starts with 4 |
| `CombatRules.Step` | modules/Unit.js:160 | the step is `speed` when the frame time is at most 16 ms, and at least `speed` for a non-negative speed |
| `CombatRules.Min` | modules/Unit.js:156 | the minimum of the enemy x list is a lower bound that some element attains |
| `CombatRules.FirstMaxIndex` | modules/Unit.js:207 | the index of the first element equal to the maximum: no element is larger, every earlier one is strictly smaller |
| `CombatRules.WithinReachIff` | modules/Unit.js:156 | the hold test is met exactly when some enemy x is at most `x + range + width` |
| `CombatRules.LaneReset` | modules/Unit.js:165-166 | after the reset, 100 ≤ x < 1850; the position is kept strictly inside the lane and becomes 100 otherwise |
| `CombatRules.PlayerStep` | modules/Unit.js:154-167 | the player unit holds exactly when an enemy is within reach; otherwise it ends in [100, 1850), at `x + step` if that is inside the lane, and at 100 if `x + step` is outside the lane and nonzero; when `x + step` is 0, `moveBy` ignores the move and only the lane bounds are stated |
| `CombatRules.CooldownClosed` | modules/Unit.js:212-214 | after an attack at `t1`, the cooldown stays closed for every time less than `1000 / atkSpeed` later |
| `CombatRules.CooldownElapsed` | modules/Unit.js:212 | the cooldown test `lastAttackTime + 1000 / atkSpeed <= now`, never met at attack speed 0 |
| `CombatRules.EffectiveDamage` | modules/Unit.js:183 | damage taken is the larger of 0 and `damage - defence` |
| `CombatRules.KillGain` | modules/Unit.js:173 | the kill bonus is the larger of 1 and the argument |
| `CombatRules.PlanEnemy` | modules/Unit.js:209-238 | the enemy's strike/hold decision, characterised by `PlanEnemyStrikes` and `PlanEnemyHolds` |
| `CombatRules.PlanEnemyStrikes` | modules/Unit.js:209-232 | an enemy strikes only off cooldown: its target when one exists and is within range, the base only when no player unit exists and the base is in range |
| `CombatRules.PlanEnemyHolds` | modules/Unit.js:220-238 | an enemy holds exactly when it is within 25 of an engaged target or within 25 of the base's far edge, whether or not it struck |
| `Simulation.SideMembers` | modules/Application.js:16-22 | a side holds exactly the roster's units with that `isEnemy` flag |
| `Simulation.SideAppend` | modules/Application.js:16-22 | filtering distributes over concatenation, so both sides keep roster order across an append |
| `Simulation.SidesPartition` | modules/Application.js:16-22 | the two sides are disjoint and their lengths sum to the roster's length |
| `Simulation.AliveMembers` | modules/Unit.js:186 | the sweep keeps exactly the units with health > 0 and never grows the roster |
| `Simulation.AliveAppend` | modules/Unit.js:186 | the sweep distributes over concatenation, so it keeps roster order |
| `Simulation.AliveIdempotent` | modules/Unit.js:186 | a second sweep removes nothing more |
| `Simulation.Xs` | modules/Unit.js:156 | `units.map(u => u.position.x)`: one x per unit, in the same order |
| `Simulation.World.constructor` | modules/Application.js:14 | the roster starts empty |
| `Simulation.World.RemoveDead` | modules/Unit.js:186 | the roster becomes the sweep of its old contents |
| `Simulation.World.PlayerUnits` | modules/Application.js:16-18 | every element is a roster unit that is not an enemy, every such roster unit is present, and the list is no longer than the roster |
| `Simulation.World.EnemyUnits` | modules/Application.js:20-22 | every element is an enemy unit of the roster, every such roster unit is present, and the list is no longer than the roster |
| `Simulation.World.Target` | modules/Unit.js:207 | a found target is a player unit of the roster |
| `Simulation.TargetIsFrontmost` | modules/Unit.js:207 | there is no target exactly when the roster has no player unit; otherwise no player unit is further right, and the target is the first such in roster order |
| `Simulation.Unit.constructor` | modules/Unit.js:68-92 | the template's DEF, speed, DMG, ATK speed and range are stored unchanged; proficiency is the starting proficiency; health is `baseHP + proficiency` and max health `baseHP`; the attack timer is `now`; a new enemy stands at x = 1725, as `EnemyUnit` (modules/Unit.js:196-203) places it |
| `Simulation.Unit.AtkDamage` | modules/Unit.js:102-104 | damage is the stored damage plus proficiency, computed on read |
| `Simulation.Unit.Speed` | modules/Unit.js:106-108 | speed is the stored speed plus half the proficiency, computed on read |
| `Simulation.Unit.AtkSpeed` | modules/Unit.js:110-112 | attack speed is the stored attack speed plus half the proficiency, computed on read |
| `Simulation.Unit.Defence` | modules/Unit.js:114-116 | defence is the stored defence plus proficiency, computed on read |
| `Simulation.Unit.Range` | modules/Unit.js:118-120 | range is the stored range |
| `Simulation.Unit.Plan` | modules/Unit.js:207-235 | the decision `PlanEnemy` takes for this enemy: its x and range, the target's x, the player base's x and the cooldown test at `now` |
| `Simulation.StatsMonotone` | modules/Unit.js:102-120 | every derived stat is non-decreasing in proficiency, and the range does not depend on it |
| `Simulation.Unit.EnemyKilled` | modules/Unit.js:172-176 | proficiency and health both rise by `max(1, prof)` (by 1 by default); damage and defence rise by the same amount, the two speeds by half of it; nothing else changes |
| `Simulation.Unit.Damaged` | modules/Unit.js:182-188 | health falls by exactly `max(0, damage - defence)` and never rises; nothing else in the unit changes; if health ends ≤ 0, the roster becomes its living units in order, and otherwise it is untouched |
| `Simulation.Unit.UpdatePlayer` | modules/Unit.js:154-167 | the unit holds (same position, not moving) or moves to the position `PlayerStep` gives (moving); y, health, proficiency and the attack timer are unchanged |
| `Simulation.Unit.UpdateEnemy` | modules/Unit.js:205-244 | strikes the front-most player unit, or the base when none exists, as `PlanEnemy` decides; restarts the cooldown exactly when it strikes; the target loses `max(0, atkDamage - defence)` with a sweep if that kills it; every other roster unit keeps its health; the base loses `atkDamage` only on a base strike; without a target strike the roster is untouched; the unit holds or moves left by one step, keeping its y; only ever removes units |
| `Simulation.Unit.Strike` | modules/Unit.js:212-232 | the cooldown-gated strike: restarts the timer when it strikes; the target (on a target strike) is the only roster unit whose health changes, and a sweep follows when it dies; the base loses `atkDamage` only on a base strike; the striker's health is unchanged |
| `Simulation.UpdateEnemyTwice` | modules/Unit.js:212-214 | two updates of one enemy less than `1000 / atkSpeed` apart strike at most once |
| `Simulation.Base.constructor` | modules/Base.js:29-39 | health and max health are the argument (500 by default); both timers are `now`; the flag is stored; the template is all ones |
| `Simulation.Base.Damaged` | modules/Base.js:77-79 | health falls by exactly `damage`, with no defence; the base is destroyed exactly when the result is ≤ 0 |
| `Simulation.Base.Destroyed` | modules/Base.js:79 | the game-over condition: health at or below 0 |
| `Simulation.Base.Update` | modules/Base.js:89-107 | a player base changes nothing; the template is upgraded once when 10000 ms have passed and it is not maxed, with the timer reset then; when 2000 ms have passed, the placement timer is reset and, below 10 enemies, one enemy built from the template is appended at the roster's end (at x = 1725 on `groundY`, not moving); the roster grows by at most one and the enemy count stays at most 10 |
| `Simulation.UpdateBaseTwice` | modules/Base.js:98-105 | two updates less than 2000 ms apart add at most one unit between them and keep the existing roster as a prefix |
| `Renderer.UpdateAll` | modules/Renderer.js:35 | one tick runs exactly one update per unit of the starting roster, in roster order, and only ever removes units |
| `Findings.HoldsAsWrittenDiffers` | modules/Unit.js:156 | as written, the player hold test matches the intended one only with exactly one enemy: never with two or more, and with none whenever the reach is non-negative |
| `Findings.PlayerHoldCounterexample` | modules/Unit.js:156 | concrete inputs on which the as-written and intended hold tests disagree |
| `Findings.FindIndex` | modules/Unit.js:207 | `find` returns the first index holding the value, or none when no element does |
| `Findings.TargetAsWrittenDiffers` | modules/Unit.js:207 | as written, an enemy finds a target exactly when there is one player unit |
| `Findings.TargetCounterexample` | modules/Unit.js:207 | with two player units the as-written search finds none, while the intended search finds the front one |
| `Findings.FlooredDamage` | modules/Unit.js:16 | the commented damage rule: at least 1 per hit; equal to the code's damage whenever that is at least 1, and 1 otherwise |
| `Findings.BasicAgainstTank` | modules/Unit.js:183 | a fresh `basic` unit deals 0 to a fresh `tank` as written, and 1 under the commented rule |

## Left out

- Drawing is not modelled: `Unit.render`, `Base.render`, `Drawable.render`, the canvas
  calls, console timing and `requestAnimationFrame` in `Renderer.render`; also the sprite,
  `imageComposer` and modules/CloneComposer.js and modules/Background.js. All of these are
  presentation.
- Page bootstrap (`document.body.onload`) and the `Renderer` constructor are DOM wiring.
- `performance.now()` becomes the `now` parameter, so no clock is modelled.
- A unit's y coordinate is the constructor parameter `groundY`. `Ground.position` and
  `Ground.dimensions` do not exist on the class the source reads them from.
- `alert("Base Destroyed!")` becomes the predicate `Base.Destroyed`.
- Simulation.Base.Damaged: the CPU-spawn branch of `damaged` is not modelled. It reads an
  undeclared `now`, so it would throw on a CPU base.
- Simulation.Base.Update: `unitLevels.isMax()` and `unitLevels.upgrade()` are not defined by
  `UnitType`. They are the parameters `isMax` and `upgrade`, and the model invents no level
  semantics. The source upgrades in place. The model replaces the template by
  `upgrade(old template)`.
- Simulation.Unit.UpdateEnemy: the player base is a parameter, because
  `ApplicationData.playerBase` is never assigned in the source. As written, reading its
  position would throw.
- `CombatRules.EffectiveDamage` keeps the code's floor of 0 rather than the floor of 1 the
  field comment describes; the difference is in "## Findings".
- `CombatRules.Min` and `CombatRules.FirstMaxIndex` give `Math.min(list)` and
  `Math.max(list)` their evident meaning, not JavaScript's coercion. The as-written behaviour
  is in `Findings`.
- Floating-point rounding is not modelled. Positions, speeds and times are exact rationals,
  while the game uses doubles: preset values such as the `brute` speed 0.7, quotients such as
  `1000 / 1.5` and the fractional times `performance.now()` returns are rounded there. So the
  comparisons with 100, 1850 and the cooldown can come out differently at their boundaries.
- JavaScript number quirks outside that coercion are not modelled: NaN, `-0` and infinities.
  Division by an attack speed of 0 makes the cooldown infinite, and `CooldownElapsed` states
  that case directly.
- `isAttacking` is never set by the core, so it is not modelled. The `super(...)` arguments
  of the `Unit` and `Base` constructors are unused, because `Drawable` takes none.
- `health`, `maxHealth` and `range` are read as the fields `hitPoints`, `maxHitPoints` and
  `Range()`. `Drawable.position` is the pair of fields `x` and `y`.
- Renderer.UpdateAll: it states the order and multiplicity of the update calls and that the
  roster only shrinks. The effect of each call is stated by `UpdatePlayer` and
  `UpdateEnemy`, not composed over the whole tick.

## Findings

| source | as written | input that shows it | evidently intended | confidence | as-written member | corrected member |
|---|---|---|---|---|---|---|
| modules/Unit.js:156 | `Math.min(list)` of the enemy x list: an empty list gives 0 and a longer list gives NaN | a unit at x = 100, range 25, facing enemies at 150 and 160 does not hold; the same unit with no enemies holds forever | hold exactly when some enemy x ≤ `x + range + width` | high, not executed | `Findings.HoldsAsWrittenDiffers` | `CombatRules.PlayerStep` |
| modules/Unit.js:207 | `find(a => a.x == Math.max(list))`: with two or more player units the maximum is NaN and nothing is found | player units at x = 300 and x = 400: no target, so the enemy goes for the base | target the first player unit with the largest x | high, not executed | `Findings.TargetAsWrittenDiffers` | `Simulation.TargetIsFrontmost` |
| modules/Unit.js:183 | `damaged` lowers health by `Math.max(0, damage - defence)`, while the comment at modules/Unit.js:16 says a hit cannot be lowered below 1 | a fresh `basic` unit (damage 2) striking a fresh `tank` unit (defence 5) deals 0 | at least 1 damage per hit | medium, not executed | `Findings.BasicAgainstTank` | `Findings.FlooredDamage` |
