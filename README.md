# MandelbrotGPU view state, key handler, frame clock and panel input — a Dafny model

The viewer renders a Mandelbrot set with an OpenCL kernel into an OpenGL
texture. Around the GPU plumbing sit a few small pieces of sequential state,
and these are what this project models and proves things about:

- `glitter.dfy`, module `Glitter`: the shared view record `Params` (pan `dx`,
  `dy`, zoom `scale`, the smoothing-filter switch `filterOn`, and the
  animation fields), its defaults, its `Reset`, and the constant `force`
  (`Force`, 10).
- `keyboard.dfy`, module `Input`: `KeyboardCallback`, which maps one key
  event `(key, action)` to at most one `±force*dt` step or a flip of
  `filterOn`. Key codes and actions stay integers, so the source's test
  `key == GLFW_PRESS` (key code 1 zooms in) is reproduced, as is the dead
  "decrease `dy`" branch that tests `A` after the `A`/`Left` branch has already
  taken it. The frame time `dt`, a global in the source, is a parameter.
  `Decode` is the `else if` chain, `Apply` the mutation of each branch, `Step`
  their composition and `Run` a sequence of events.
- `timer.dfy`, module `Timing`: the frame clock `Timer`. The wall-clock sample
  is a parameter of `UpdateTime` and `Init`. `Clock`, `Advance`, `Delta` and
  `Fps` are its value-level counterparts.
- `gui.dfy`, module `Gui`: the input state of the overlay panel `GUI`, made of
  the cursor position with the position before it and the panel's flags.
  Its constructor, `MousePositionUpdate` and the no-op `ResetInputFlags` are
  modelled. `Cursor`, `Moved` and `MovedAll` are the value-level counterparts.

`Params` and `Timer` each have a function giving all their fields as one
datatype value (`Params.Value`, `Timer.State`). `GUI` has one giving its
cursor fields (`GUI.CursorState`). Each state-changing method's postcondition
gives the new value as a pure function of the old one. The lemmas then prove
the properties about those pure functions, including over whole sequences
of events, clock samples or pointer moves.

`float` and `double` are modelled as `real`, and the properties are stated
over exact arithmetic.

`KeyboardCallback` (Glitter/Sources/main.cpp:258-274) handles only W, key
code 1, S, Down, D, Right, A, Left, E and F. Its only branch that lowers `dy`
can never be reached. Nothing in the modelled files steps the animation.
`GUI.cpp:13-14` assigns `animationSpeed` and `animationTime`, but `GUI.hpp`
does not declare them. The model gives the class both fields so that the
constructor's assignments can be stated.

## Model

| member | source | states |
|---|---|---|
| `Glitter.Params.constructor` | Glitter/Headers/glitter.hpp:23-30 | a new record has dx = dy = 0, scale = 1, filter and animation off, animation time 0 and speed 1 |
| `Glitter.Params.Reset` | Glitter/Headers/glitter.hpp:32-41 | afterwards every field holds its default whatever the prior state, i.e. the state of a freshly constructed record |
| `Glitter.ResetTwice` | Glitter/Headers/glitter.hpp:32-41 | resetting twice gives the same state as resetting once, and that state equals a freshly constructed record |
| `Input.Decode` | Glitter/Sources/main.cpp:260-273 | no event reaches the pan-down branch (it is shadowed by the A/Left branch); an event takes some branch if and only if it is a press of one of W, 1, S, Down, D, Right, A, Left, E, F |
| `Input.KeyboardCallback` | Glitter/Sources/main.cpp:258-274 | the new parameter record is the old one after the branch that `Decode` selects, with frame time `dt` |
| `Input.NonPressIgnored` | Glitter/Sources/main.cpp:260-273 | an event whose action is not a press (a release or a repeat among them) leaves the parameters unchanged |
| `Input.ZoomInKeys` | Glitter/Sources/main.cpp:260-261 | a press of W, or of key code 1, adds force*dt to scale and changes nothing else |
| `Input.ZoomOutKeys` | Glitter/Sources/main.cpp:262-263 | a press of S or Down subtracts force*dt from scale and changes nothing else |
| `Input.PanXKeys` | Glitter/Sources/main.cpp:264-267 | a press of D or Right adds force*dt to dx; A or Left subtracts it; nothing else changes |
| `Input.PanUpKey` | Glitter/Sources/main.cpp:268-269 | a press of E adds force*dt to dy and changes nothing else |
| `Input.ToggleFilterTwice` | Glitter/Sources/main.cpp:272-273 | a press of F negates filterOn only, and two F presses restore the original parameters |
| `Input.DyOnlyRises` | Glitter/Sources/main.cpp:266-271 | dy changes only on a press of E, only by +force*dt, so with dt >= 0 no event lowers it |
| `Input.AtMostOneField` | Glitter/Sources/main.cpp:260-274 | an event changes at most one field, only the field of the branch taken, and never playAnimation, animationTime or animationSpeed |
| `Input.StepChangesIff` | Glitter/Sources/main.cpp:260-273 | an event changes the parameters if and only if it is a press of a bound key and either the key is F or dt is non-zero |
| `Input.UnboundKeyIgnored` | Glitter/Sources/main.cpp:260-273 | a key outside {W, 1, S, Down, D, Right, A, Left, E, F} leaves the parameters unchanged |
| `Input.RunIsNetEffect` | Glitter/Sources/main.cpp:258-274 | after any sequence of events, each of scale, dx and dy has moved by force times the signed sum of the frame times of its keys' presses, filterOn has flipped once per F press, and the animation fields are unchanged |
| `Input.NetPanYNonNegative` | Glitter/Sources/main.cpp:268-271 | with non-negative frame times the summed dy contribution of any event sequence is non-negative |
| `Input.RunDyNeverFalls` | Glitter/Sources/main.cpp:266-271 | no sequence of events with non-negative frame times lowers dy, and none touches the animation fields |
| `Input.ThreePanRightPresses` | Glitter/Sources/main.cpp:264-265 | from the defaults, three presses of D at dt = 0.1 give dx = 3 |
| `Timing.Fps` | Glitter/Headers/Timer.hpp:15 | the frame rate times the frame time is 1, and the rate is positive exactly when the frame time is |
| `Timing.StartDelta` | Glitter/Headers/Timer.hpp:7-8 | a fresh clock reads a frame time of 0 |
| `Timing.DeltaAfterAdvance` | Glitter/Headers/Timer.hpp:14-20 | after one update the previous time is the old current time, the current time is the sample, and the frame time is the sample minus the old current time |
| `Timing.AdvanceAllKeepsLastTwo` | Glitter/Headers/Timer.hpp:16-20 | after any number of updates the clock holds exactly the last two samples, or the old current time and the one sample |
| `Timing.MonotoneSamplesDelta` | Glitter/Headers/Timer.hpp:14-20 | samples from a clock that never runs backwards give a non-negative frame time |
| `Timing.Timer.constructor` | Glitter/Headers/Timer.hpp:7-8 | a new timer has current and previous time 0 |
| `Timing.Timer.Init` | Glitter/Headers/Timer.hpp:11 | has exactly the effect of one `UpdateTime` with the same sample |
| `Timing.Timer.GetDeltaTime` | Glitter/Headers/Timer.hpp:14 | the time from the previous sample to the current one, changing no field |
| `Timing.Timer.GetFPS` | Glitter/Headers/Timer.hpp:15 | the reciprocal of the frame time |
| `Timing.Timer.UpdateTime` | Glitter/Headers/Timer.hpp:16-20 | the previous time becomes the old current time and the current time the new sample |
| `Gui.TwoMoves` | Glitter/Headers/GUI.hpp:43-49 | after moves to p1 then p2 the previous position is p1 and the current position p2 |
| `Gui.MovedAllKeepsLastTwo` | Glitter/Headers/GUI.hpp:43-49 | after any run of two or more moves the cursor holds the last two positions, whatever it held before |
| `Gui.GUI.constructor` | Glitter/Sources/GUI.cpp:4-15 | cursor capture and the panel are enabled, clicked and reset_pressed are false, animation speed is 1 and animation time 0 |
| `Gui.GUI.MousePositionUpdate` | Glitter/Headers/GUI.hpp:43-58 | the old position becomes the previous one and the new position the current one; the four flags are unchanged |
| `Gui.GUI.ResetInputFlags` | Glitter/Sources/GUI.cpp:66-70 | changes no field |

## Left out

- `main()`'s window, buffer, texture and OpenCL setup, its render loop, and the acquire, kernel, copy and release calls (Glitter/Sources/main.cpp:19-256). These are calls into the GPU driver and the windowing library, and they have no state this model can state contracts about.
- The fractal and smoothing kernels: their source file (`mandel.cl`) is not part of this model.
- `ReadFile2` (Glitter/Headers/glitter.hpp:86-111): file I/O.
- The OpenCL handles, vertex and index arrays and image sizes (Glitter/Headers/glitter.hpp:45-84): constant data handed to the GPU libraries.
- `GUI::Init`, `GUI::Render` and `GUI::Cleanup` (Glitter/Sources/GUI.cpp:17-64): drawing through the ImGui library. The window pointer the constructor stores is left out for the same reason.
- `Timer::GetCurrentTime` (Glitter/Headers/Timer.hpp:13): a wall-clock read. The sample it would return is a parameter of `UpdateTime` and `Init`.
- Timing.Fps: requires a non-zero frame time. The source divides `1.0f` by zero and returns IEEE infinity, which has no counterpart in `real`.
- Timing.Timer.GetFPS: requires `curTime != prevTime`. When the two samples are equal the source returns IEEE +infinity, which has no counterpart in `real`.
- IEEE single and double precision rounding: all arithmetic is exact `real` arithmetic, so the contracts hold for exact values, not for the source's floats. `Input.StepChangesIff` claims that a non-zero `dt` changes the record; in `float` a step `force*dt` below half an ulp of the field leaves it unchanged (e.g. `scale` = 2^23 with `dt` = 0.016). The closed-form sums of `Input.RunIsNetEffect` are exact only over `real`. `Timing.Fps` and `Timing.Timer.GetFPS` state `r * delta == 1`, which a rounded reciprocal does not meet exactly. `Timer` also narrows the `double` clock sample to `float` (Glitter/Headers/Timer.hpp:19); the model keeps the sample exact.
- `Gui.GUI.constructor` does not state the cursor fields: the C++ constructor leaves them uninitialised, so the model leaves them unconstrained.
- Other keys, mouse-button edges and the per-frame animation step: no code in Glitter/Sources/main.cpp:258-274 or Glitter/Sources/GUI.cpp handles them.
