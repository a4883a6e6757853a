/**
 * The part of `Renderer.render` (modules/Renderer.js) that drives the simulation:
 * `ApplicationData.units.forEach(unit => unit.update())`. Drawing is not modelled.
 */
module Renderer {
  import Simulation

  /**
   * One tick at time `now`: every unit of the roster, in roster order, runs the update of its
   * own kind with the default step of 16 ms. `forEach` walks the array it started with, so a
   * unit that a sweep removes during the tick still gets its update, and the roster only
   * shrinks (nothing spawns inside the loop).
   */
  method UpdateAll(world: Simulation.World, now: real, playerBase: Simulation.Base)
    modifies world, playerBase, world.units, set u | u in world.units :: u.body
    ensures world.log == old(world.log) + old(world.units)
    ensures forall u :: u in world.units ==> u in old(world.units)
  {
    var roster := world.units;
    for i := 0 to |roster|
      invariant world.log == old(world.log) + roster[..i]
      invariant roster == old(world.units)
      invariant forall u :: u in world.units ==> u in roster
    {
      var unit := roster[i];
      assert unit in old(world.units) && unit.body in set u | u in old(world.units) :: u.body;
      assert forall u :: u in world.units ==> u in old(world.units);
      if unit.isEnemy {
        var _, _ := unit.UpdateEnemy(world, now, playerBase);
      } else {
        unit.UpdatePlayer(world);
      }
      assert roster[..i + 1] == roster[..i] + [unit];
    }
  }
}
