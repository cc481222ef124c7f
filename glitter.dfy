/** The view parameters of the fractal viewer: pan, zoom, the smoothing-filter
    switch and the animation state, with their defaults and the reset that
    restores them (Glitter/Headers/glitter.hpp). */
module Glitter {

  /** Pan and zoom rate per second of frame time; `force` in the source. */
  const Force: real := 10.0

  /** The value held by a `Params` record at one moment. */
  datatype View = View(
    dx: real,
    dy: real,
    scale: real,
    filterOn: bool,
    playAnimation: bool,
    animationTime: real,
    animationSpeed: real)

  /** The field initialisers of `Params`: no pan, unit zoom, filter off,
      animation paused at time 0 with unit speed. */
  const Default: View := View(0.0, 0.0, 1.0, false, false, 0.0, 1.0)

  /** The mutable record the keyboard handler and the frame loop share. */
  class Params {
    var dx: real
    var dy: real
    var scale: real
    var filterOn: bool
    var playAnimation: bool
    var animationTime: real
    var animationSpeed: real

    /** The current field values as one value. */
    function Value(): View
      reads this
    {
      View(dx, dy, scale, filterOn, playAnimation, animationTime, animationSpeed)
    }

    /** Default construction runs the seven field initialisers. */
    constructor ()
      ensures Value() == Default
      ensures dx == 0.0 && dy == 0.0 && scale == 1.0
      ensures !filterOn && !playAnimation
      ensures animationTime == 0.0 && animationSpeed == 1.0
    {
      dx := 0.0;
      dy := 0.0;
      scale := 1.0;
      filterOn := false;
      playAnimation := false;
      animationTime := 0.0;
      animationSpeed := 1.0;
    }

    /** Restores every field to its default, whatever the prior state; the
        new state does not depend on the old one, so a second reset changes
        nothing and a reset record equals a freshly constructed one. */
    method Reset()
      modifies this
      ensures Value() == Default
    {
      dx := 0.0;
      dy := 0.0;
      scale := 1.0;
      filterOn := false;
      playAnimation := false;
      animationTime := 0.0;
      animationSpeed := 1.0;
    }
  }

  /** Two resets in a row leave the record as one reset does: the defaults
      a freshly constructed record also holds. */
  method ResetTwice(p: Params)
    modifies p
    ensures p.Value() == Default
  {
    p.Reset();
    ghost var once := p.Value();
    p.Reset();
    assert p.Value() == once;
  }
}
