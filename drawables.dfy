/**
 * The position primitive every simulated entity is built on (class `Drawable` of
 * modules/Renderer.js): a mutable point with a fixed 50 x 100 hitbox.
 */
module Drawables {

  /** Every drawable reports this hitbox, whatever it is. */
  const Width: real := 50.0
  const Height: real := 100.0

  /**
   * JavaScript's `v || current` on a coordinate: 0 is falsy, so a requested coordinate of 0
   * (or an omitted one) keeps the current value.
   */
  function OrElse(v: real, current: real): real
  {
    if v != 0.0 then v else current
  }

  class Drawable {
    var x: real
    var y: real

    constructor ()
      ensures x == 0.0 && y == 0.0
    {
      x, y := 0.0, 0.0;
    }

    /** `moveTo(x, y)`; an omitted `y` is `undefined`, which is falsy like 0. */
    method MoveTo(nx: real, ny: real := 0.0)
      modifies this
      ensures nx != 0.0 ==> x == nx
      ensures nx == 0.0 ==> x == old(x)
      ensures ny != 0.0 ==> y == ny
      ensures ny == 0.0 ==> y == old(y)
    {
      x := OrElse(nx, x);
      y := OrElse(ny, y);
    }

    /** `moveBy(dx, dy)` is `moveTo(x + dx, y + dy)`, so it inherits the zero quirk. */
    method MoveBy(dx: real, dy: real)
      modifies this
      ensures x == OrElse(old(x) + dx, old(x))
      ensures y == OrElse(old(y) + dy, old(y))
      ensures dx == 0.0 ==> x == old(x)
      ensures dy == 0.0 ==> y == old(y)
      ensures old(x) + dx != 0.0 ==> x == old(x) + dx
    {
      MoveTo(x + dx, y + dy);
    }
  }
}
