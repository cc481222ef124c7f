/** The key handler of the viewer (Glitter/Sources/main.cpp, KeyboardCallback):
    one key event moves the shared view parameters by one `Force * dt` step or
    flips the filter switch. Key codes and actions stay plain integers, because
    the handler compares a key code with an action constant. */
module Input {
  import opened Glitter

  // GLFW action codes.
  const Release: int := 0
  const Press: int := 1
  const Repeat: int := 2

  // GLFW key codes the handler tests.
  const KeyA: int := 65
  const KeyD: int := 68
  const KeyE: int := 69
  const KeyF: int := 70
  const KeyS: int := 83
  const KeyW: int := 87
  const KeyRight: int := 262
  const KeyLeft: int := 263
  const KeyDown: int := 264

  /** Every key code some branch of the handler can take; `Press` (1) is here
      because the first branch compares the key with the action constant. */
  const BoundKeys: set<int> := {KeyW, Press, KeyS, KeyDown, KeyD, KeyRight, KeyA, KeyLeft, KeyE, KeyF}

  /** The branch of the handler an event takes. */
  datatype Command = ZoomIn | ZoomOut | PanRight | PanLeft | PanUp | PanDown | ToggleFilter | Ignore

  /** The handler's `else if` chain, in the source's order. The `PanDown`
      branch tests `KeyA`, which the `PanLeft` branch has already taken, so
      no event reaches it; an event takes some branch exactly when it is a
      press of a bound key. */
  function Decode(key: int, action: int): (c: Command)
    ensures c != PanDown
    ensures c != Ignore <==> action == Press && key in BoundKeys
  {
    if (key == KeyW || key == Press) && action == Press then ZoomIn
    else if (key == KeyS || key == KeyDown) && action == Press then ZoomOut
    else if (key == KeyD || key == KeyRight) && action == Press then PanRight
    else if (key == KeyA || key == KeyLeft) && action == Press then PanLeft
    else if key == KeyE && action == Press then PanUp
    else if key == KeyA && action == Press then PanDown
    else if key == KeyF && action == Press then ToggleFilter
    else Ignore
  }

  /** The mutation each branch performs, with frame time `dt`. */
  function Apply(v: View, c: Command, dt: real): View
  {
    match c
    case ZoomIn => v.(scale := v.scale + Force * dt)
    case ZoomOut => v.(scale := v.scale - Force * dt)
    case PanRight => v.(dx := v.dx + Force * dt)
    case PanLeft => v.(dx := v.dx - Force * dt)
    case PanUp => v.(dy := v.dy + Force * dt)
    case PanDown => v.(dy := v.dy - Force * dt)
    case ToggleFilter => v.(filterOn := !v.filterOn)
    case Ignore => v
  }

  /** The view after one key event. */
  function Step(v: View, key: int, action: int, dt: real): View
  {
    Apply(v, Decode(key, action), dt)
  }

  /** The callback itself, acting in place on the shared record `params` and
      reading the frame time `dt`; the window, scan code and modifiers are
      not read. */
  method KeyboardCallback(params: Params, dt: real, key: int, scancode: int, action: int, mods: int)
    modifies params
    ensures params.Value() == Step(old(params.Value()), key, action, dt)
  {
    var scale, dx, dy, filterOn := params.scale, params.dx, params.dy, params.filterOn;
    if (key == KeyW || key == Press) && action == Press {
      scale := scale + Force * dt;
    } else if (key == KeyS || key == KeyDown) && action == Press {
      scale := scale - Force * dt;
    } else if (key == KeyD || key == KeyRight) && action == Press {
      dx := dx + Force * dt;
    } else if (key == KeyA || key == KeyLeft) && action == Press {
      dx := dx - Force * dt;
    } else if key == KeyE && action == Press {
      dy := dy + Force * dt;
    } else if key == KeyA && action == Press {
      dy := dy - Force * dt;
    } else if key == KeyF && action == Press {
      filterOn := !filterOn;
    }
    params.scale, params.dx, params.dy, params.filterOn := scale, dx, dy, filterOn;
  }

  // ---------------------------------------------------------------------
  // One event

  /** Every branch also needs `action == Press`: a release or a repeat
      changes nothing. */
  lemma NonPressIgnored(v: View, key: int, action: int, dt: real)
    requires action != Press
    ensures Step(v, key, action, dt) == v
    ensures Step(v, key, Release, dt) == v && Step(v, key, Repeat, dt) == v
  {
  }

  /** W, and key code 1 (equal to the press action), zoom in. */
  lemma ZoomInKeys(v: View, key: int, dt: real)
    requires key == KeyW || key == Press
    ensures Step(v, key, Press, dt) == v.(scale := v.scale + Force * dt)
  {
  }

  /** S and Down zoom out. */
  lemma ZoomOutKeys(v: View, key: int, dt: real)
    requires key == KeyS || key == KeyDown
    ensures Step(v, key, Press, dt) == v.(scale := v.scale - Force * dt)
  {
  }

  /** D and Right pan right; A and Left pan left. */
  lemma PanXKeys(v: View, key: int, dt: real)
    ensures key == KeyD || key == KeyRight ==> Step(v, key, Press, dt) == v.(dx := v.dx + Force * dt)
    ensures key == KeyA || key == KeyLeft ==> Step(v, key, Press, dt) == v.(dx := v.dx - Force * dt)
  {
  }

  /** E pans up. */
  lemma PanUpKey(v: View, dt: real)
    ensures Step(v, KeyE, Press, dt) == v.(dy := v.dy + Force * dt)
  {
  }

  /** F flips the filter switch, so two presses give back the original view. */
  lemma ToggleFilterTwice(v: View, dt1: real, dt2: real)
    ensures Step(v, KeyF, Press, dt1) == v.(filterOn := !v.filterOn)
    ensures Step(Step(v, KeyF, Press, dt1), KeyF, Press, dt2) == v
  {
  }

  /** Since the pan-down branch is dead, `dy` changes only on a press of E,
      and only upwards. */
  lemma DyOnlyRises(v: View, key: int, action: int, dt: real)
    ensures Step(v, key, action, dt).dy != v.dy ==> key == KeyE && action == Press
    ensures Step(v, key, action, dt).dy == v.dy || Step(v, key, action, dt).dy == v.dy + Force * dt
    ensures dt >= 0.0 ==> Step(v, key, action, dt).dy >= v.dy
  {
  }

  /** The fields of a view. */
  datatype Field = DxField | DyField | ScaleField | FilterField | PlayField | TimeField | SpeedField

  /** The fields in which two views differ. */
  function Changed(a: View, b: View): set<Field>
  {
    (if a.dx != b.dx then {DxField} else {}) +
    (if a.dy != b.dy then {DyField} else {}) +
    (if a.scale != b.scale then {ScaleField} else {}) +
    (if a.filterOn != b.filterOn then {FilterField} else {}) +
    (if a.playAnimation != b.playAnimation then {PlayField} else {}) +
    (if a.animationTime != b.animationTime then {TimeField} else {}) +
    (if a.animationSpeed != b.animationSpeed then {SpeedField} else {})
  }

  /** The single field each branch may touch. */
  function Target(c: Command): set<Field>
  {
    match c
    case ZoomIn | ZoomOut => {ScaleField}
    case PanRight | PanLeft => {DxField}
    case PanUp | PanDown => {DyField}
    case ToggleFilter => {FilterField}
    case Ignore => {}
  }

  /** An event changes at most one field, and never an animation field. */
  lemma AtMostOneField(v: View, key: int, action: int, dt: real)
    ensures Changed(v, Step(v, key, action, dt)) <= Target(Decode(key, action))
    ensures |Changed(v, Step(v, key, action, dt))| <= 1
    ensures Changed(v, Step(v, key, action, dt)) !! {PlayField, TimeField, SpeedField}
  {
  }

  /** An event leaves the view unchanged exactly when it is not a press of a
      bound key, or it is a press of a stepping key with zero frame time. */
  lemma StepChangesIff(v: View, key: int, action: int, dt: real)
    ensures Step(v, key, action, dt) != v <==>
      action == Press && key in BoundKeys && (key == KeyF || dt != 0.0)
  {
  }

  /** So a key no branch tests leaves the view unchanged. */
  lemma UnboundKeyIgnored(v: View, key: int, action: int, dt: real)
    requires key !in BoundKeys
    ensures Step(v, key, action, dt) == v
  {
  }

  // ---------------------------------------------------------------------
  // A sequence of events

  /** One delivered key event with the frame time current when it arrived. */
  datatype KeyEvent = KeyEvent(key: int, action: int, dt: real)

  /** The view after the handler has run on each event in turn. */
  function Run(v: View, events: seq<KeyEvent>): View
    decreases |events|
  {
    if events == [] then v
    else Run(Step(v, events[0].key, events[0].action, events[0].dt), events[1..])
  }

  /** Per-event contributions, from each axis's key codes, independent of the
      branch order. */
  function ZoomOf(e: KeyEvent): real
  {
    if e.action != Press then 0.0
    else if e.key in {KeyW, Press} then e.dt
    else if e.key in {KeyS, KeyDown} then -e.dt
    else 0.0
  }

  function PanXOf(e: KeyEvent): real
  {
    if e.action != Press then 0.0
    else if e.key in {KeyD, KeyRight} then e.dt
    else if e.key in {KeyA, KeyLeft} then -e.dt
    else 0.0
  }

  function PanYOf(e: KeyEvent): real
  {
    if e.action == Press && e.key == KeyE then e.dt else 0.0
  }

  function NetZoom(events: seq<KeyEvent>): real
    decreases |events|
  {
    if events == [] then 0.0 else ZoomOf(events[0]) + NetZoom(events[1..])
  }

  function NetPanX(events: seq<KeyEvent>): real
    decreases |events|
  {
    if events == [] then 0.0 else PanXOf(events[0]) + NetPanX(events[1..])
  }

  function NetPanY(events: seq<KeyEvent>): real
    decreases |events|
  {
    if events == [] then 0.0 else PanYOf(events[0]) + NetPanY(events[1..])
  }

  /** The number of F presses. */
  function FilterPresses(events: seq<KeyEvent>): nat
    decreases |events|
  {
    if events == [] then 0
    else (if events[0].action == Press && events[0].key == KeyF then 1 else 0) + FilterPresses(events[1..])
  }

  /** Running the handler over any sequence of events adds `Force` times the
      net signed frame time of each axis's keys, flips the filter once per F
      press, and leaves the animation fields alone. */
  lemma {:induction false} RunIsNetEffect(v: View, events: seq<KeyEvent>)
    ensures Run(v, events) == v.(
      dx := v.dx + Force * NetPanX(events),
      dy := v.dy + Force * NetPanY(events),
      scale := v.scale + Force * NetZoom(events),
      filterOn := v.filterOn != (FilterPresses(events) % 2 == 1))
    decreases |events|
  {
    if events != [] {
      var e := events[0];
      var w := Step(v, e.key, e.action, e.dt);
      assert w == v.(
        dx := v.dx + Force * PanXOf(e),
        dy := v.dy + Force * PanYOf(e),
        scale := v.scale + Force * ZoomOf(e),
        filterOn := v.filterOn != (e.action == Press && e.key == KeyF));
      RunIsNetEffect(w, events[1..]);
    }
  }

  /** With non-negative frame times, `NetPanY` is never negative. */
  lemma {:induction false} NetPanYNonNegative(events: seq<KeyEvent>)
    requires forall i :: 0 <= i < |events| ==> events[i].dt >= 0.0
    ensures NetPanY(events) >= 0.0
    decreases |events|
  {
    if events != [] {
      NetPanYNonNegative(events[1..]);
    }
  }

  /** No sequence of events with non-negative frame times lowers `dy`, and
      none touches the animation fields. */
  lemma RunDyNeverFalls(v: View, events: seq<KeyEvent>)
    requires forall i :: 0 <= i < |events| ==> events[i].dt >= 0.0
    ensures Run(v, events).dy >= v.dy
    ensures Run(v, events).playAnimation == v.playAnimation
    ensures Run(v, events).animationTime == v.animationTime
    ensures Run(v, events).animationSpeed == v.animationSpeed
  {
    RunIsNetEffect(v, events);
    NetPanYNonNegative(events);
  }

  /** Three presses of D at `dt = 0.1` from the defaults pan to `dx = 3`. */
  lemma ThreePanRightPresses()
    ensures Run(Default, [KeyEvent(KeyD, Press, 0.1), KeyEvent(KeyD, Press, 0.1), KeyEvent(KeyD, Press, 0.1)]).dx == 3.0
  {
    var e := KeyEvent(KeyD, Press, 0.1);
    var events := [e, e, e];
    RunIsNetEffect(Default, events);
    assert events[1..] == [e, e] && events[1..][1..] == [e];
    assert NetPanX([e]) == 0.1;
  }
}
