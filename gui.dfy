/** The input state of the overlay panel (Glitter/Headers/GUI.hpp and
    Glitter/Sources/GUI.cpp): cursor position and its previous value, and
    the panel's flags. The drawing calls are not modelled. */
module Gui {
  import opened Timing

  /** A cursor position with the position before it. */
  datatype Cursor = Cursor(xpos: real, ypos: real, prevXpos: real, prevYpos: real)

  /** A pointer position reported by the window. */
  datatype Point = Point(x: real, y: real)

  /** One pointer move: the current position becomes the previous one. */
  function Moved(c: Cursor, p: Point): Cursor
  {
    Cursor(p.x, p.y, c.xpos, c.ypos)
  }

  /** The cursor after each reported move, in order. */
  function MovedAll(c: Cursor, moves: seq<Point>): Cursor
    decreases |moves|
  {
    if moves == [] then c else MovedAll(Moved(c, moves[0]), moves[1..])
  }

  /** After two moves the previous position is the first and the current
      position the second. */
  lemma TwoMoves(c: Cursor, p1: Point, p2: Point)
    ensures Moved(Moved(c, p1), p2) == Cursor(p2.x, p2.y, p1.x, p1.y)
  {
  }

  /** After any run of at least two moves the cursor holds the last two
      positions, whatever it held before. */
  lemma {:induction false} MovedAllKeepsLastTwo(c: Cursor, moves: seq<Point>)
    requires |moves| >= 2
    ensures MovedAll(c, moves) == Cursor(
      moves[|moves| - 1].x, moves[|moves| - 1].y,
      moves[|moves| - 2].x, moves[|moves| - 2].y)
    decreases |moves|
  {
    if |moves| == 2 {
      var d := Moved(c, moves[0]);
      assert moves[1..][1..] == [];
      assert MovedAll(d, moves[1..]) == MovedAll(Moved(d, moves[1]), []);
    } else {
      MovedAllKeepsLastTwo(Moved(c, moves[0]), moves[1..]);
    }
  }

  class GUI {
    /** The frame clock the panel reads for its diagnostics. */
    const timer: Timer

    var mouseXpos: real
    var mouseYpos: real
    var mousePrevXpos: real
    var mousePrevYpos: real
    var cursorEnabled: bool
    var clicked: bool
    var resetPressed: bool
    var guiEnabled: bool
    var animationSpeed: real
    var animationTime: real

    /** The cursor fields as one value. */
    function CursorState(): Cursor
      reads this
    {
      Cursor(mouseXpos, mouseYpos, mousePrevXpos, mousePrevYpos)
    }

    /** Sets the flags and the animation read-outs; the cursor fields are
        left with whatever values they get. */
    constructor (timer: Timer)
      ensures this.timer == timer
      ensures cursorEnabled && guiEnabled
      ensures !clicked && !resetPressed
      ensures animationSpeed == 1.0 && animationTime == 0.0
    {
      this.timer := timer;
      cursorEnabled := true;
      clicked := false;
      resetPressed := false;
      guiEnabled := true;
      animationSpeed := 1.0;
      animationTime := 0.0;
    }

    /** Records a pointer move; no flag changes. */
    method MousePositionUpdate(xpos: real, ypos: real)
      modifies this`mouseXpos, this`mouseYpos, this`mousePrevXpos, this`mousePrevYpos
      ensures CursorState() == Moved(old(CursorState()), Point(xpos, ypos))
      ensures mousePrevXpos == old(mouseXpos) && mousePrevYpos == old(mouseYpos)
      ensures mouseXpos == xpos && mouseYpos == ypos
      ensures cursorEnabled == old(cursorEnabled) && clicked == old(clicked)
      ensures resetPressed == old(resetPressed) && guiEnabled == old(guiEnabled)
    {
      mousePrevXpos := mouseXpos;
      mousePrevYpos := mouseYpos;
      mouseXpos := xpos;
      mouseYpos := ypos;
    }

    /** A placeholder: the flag it is meant to clear is not cleared. */
    method ResetInputFlags()
      ensures unchanged(this)
    {
    }
  }
}
