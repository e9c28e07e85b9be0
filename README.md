# Zoom controller with rust layers, in Dafny

A model of `script.js`, the controller of an image viewer in which zooming in
reveals three "rust" layers over a clean tree image. The wheel and a
two-finger pinch change the zoom (clamped to [1, 10]). The rust level is the
number of thresholds 3, 6 and 9 the zoom has reached, and it only grows.
Zooming back down to 1 shows the full-rust layer and starts a 2-second hold.
When the hold runs out, a 500 ms glitch effect plays and then everything
resets: zoom 1, focus centred, rust level 0, clean layer shown. A wheel
zoom, a pinch move or a new touch cancels the pending hold; lifting a finger,
or a move without two touches or without a recorded pinch distance, leaves it
armed. A wheel zoom or a new touch during the glitch aborts it and resets at
once; a pinch move during the glitch is ignored.

The project has three modules:

- `ZoomModel` (`zoom_model.dfy`): the controller's state as a value
  (`Snapshot`) and one pure function per handler: `UpdateRust`, `Zoom`,
  `SetFocus`, `ActivateGlitch`, `HoldFired`, `GlitchFired`, `TouchStart`,
  `TouchMove`, `TouchEnd`. Lemmas state what each handler promises.
- `ZoomController` (`zoom_controller.dfy`): the class `Controller`. Its fields
  are the module-level variables of `script.js`, and the four layer
  opacities live in an array (rust layers 0, 1, 2, clean layer 3). Every
  handler is a method that updates the fields and the array in place,
  with the same loops as the source. Each method's `ensures` says that its
  new `State()` is the matching `ZoomModel` function of the old one, and that
  the invariant holds.
- `ZoomRuns` (`zoom_runs.dfy`): events (wheel, touch start/move/end, the two
  timeouts) and runs of events. Inductive lemmas show that every state
  reachable from load time satisfies the invariant, and that the rust level
  never decreases between resets.

The timers are booleans (`holdArmed`, `glitchArmed`). A timer's callback is a
method that may only be called while that timer is armed. In a run, firing a
cleared timer changes nothing, because in JavaScript a cleared timeout never
runs. Zoom, focus and distances are `real`, so clamping and comparisons are
exact. Opacities are the integers 0 and 1 that the source writes.

Some of the code's behaviour is not what one might expect of such a viewer;
the model follows the code:

- The hold is armed whenever a zoom with a negative delta ends at zoom 1
  (script.js:149). That includes a scroll-down while already at rest, which
  then shows the full-rust layer even at rest level 0 (`ZoomAtRestArmsHold`).
  One might expect the hold only when the zoom comes down to 1 from above.
- A touch that starts during the hold resets zoom, level and layers, just as
  it does during the glitch (script.js:192-205). One might expect a touch
  during the hold merely to cancel it.
- `handleTouchEnd` arms the hold at zoom 1 without showing the full-rust
  layer (script.js:239-244). That is why `Coherent` allows either the
  full-rust view or the clean view while a hold or a glitch is pending.
- A pinch move during the glitch returns at once (script.js:216): it neither
  aborts the glitch nor zooms (`ScenarioPinchDuringGlitch`), whereas a wheel
  zoom or a new touch aborts it.
- None of the cancel paths reset the focus (`ZoomClamps`,
  `TouchStartCancels`). Only the glitch's own completion re-centres it
  (script.js:95-96).
- The code has no pan offset, no mouse drag and no one-finger gesture, so the
  model has none either.

## Model

| member | source | states |
|---|---|---|
| `ZoomModel.Clamp` | script.js:139-140 | the result lies in [lo, hi]; it is the input when the input is in range, lo below the range and hi above it |
| `ZoomModel.RustThresholdAscending` | script.js:5 | the three rust thresholds are strictly ascending, one per rust layer |
| `ZoomModel.Reached` | script.js:50-54 | the count of reached thresholds is at most their number; it is all of them when every threshold is reached and 0 when none is |
| `ZoomModel.ReachedPrefix` | script.js:50-54 | for ascending thresholds, threshold k is reached exactly when the count exceeds k, so the reached thresholds form a prefix |
| `ZoomModel.ReachedRust` | script.js:50-54 | rust layer i is unlocked at a zoom if and only if that zoom is at least its threshold |
| `ZoomController.CurrentRustLevel` | script.js:46-54 | the loop's "last reached index + 1" equals the number of thresholds reached, and layer i counts exactly when its threshold is reached |
| `ZoomModel.RenderVisibility` | script.js:60-77 | at zoom 1 all rust layers are hidden and the clean layer shown; above 1, rust layer i is visible iff i < level and the clean layer is hidden iff some rust layer is visible; every opacity is 0 or 1 |
| `ZoomModel.UpdateRustLevel` | script.js:57 | when not frozen, the new level is the larger of the old level and the thresholds reached, so it never decreases and it stays at most 3; the opacities show the new level and nothing else changes |
| `ZoomModel.UpdateRustFrozen` | script.js:44 | while the hold is armed or a glitch runs, updateRustLayers changes neither the level nor any opacity |
| `ZoomModel.UpdateRustKeepsInv` | script.js:43-78 | updateRustLayers keeps the invariant |
| `ZoomModel.SetFocus` | script.js:112-113 | both focus percentages end in [0, 100]: each equals the input when the input is in range, 0 when it is below and 100 when it is above; nothing else changes |
| `ZoomModel.ZoomClamps` | script.js:119-142 | after performZoom the zoom is in [1, 10]: it is the clamped sum of the delta and the old zoom, or of the delta and 1 when a glitch was interrupted; the focus and the pinch distance are unchanged on every path |
| `ZoomModel.ZoomHold` | script.js:121-161 | a pending hold never affects the result; afterwards the hold is armed iff the zoom is 1 and the delta negative, and then only the full-rust layer shows; no glitch is left running |
| `ZoomModel.ZoomAtRestArmsHold` | script.js:149-161 | a negative delta at zoom 1 keeps zoom 1 and the level, arms the hold and shows only the full-rust layer |
| `ZoomModel.ZoomCancelsGlitch` | script.js:126-136 | with a glitch pending, performZoom gives the same result as zooming from the reset state (zoom 1, level 0, rust hidden, clean shown, no glitch); the new level is what the new zoom alone unlocks |
| `ZoomModel.ZoomLevel` | script.js:139-144 | without an interrupted glitch, performZoom never lowers the level; the level stays at most 3 and at least what the new zoom unlocks |
| `ZoomModel.ZoomKeepsInv` | script.js:119-163 | performZoom keeps the invariant: zoom and focus in range, the glitch flag equal to its timer, never both timers armed, opacities 0/1 |
| `ZoomModel.ActivateGlitchEffect` | script.js:83-87 | activateGlitchAndReset does nothing when a glitch is already running; otherwise it starts the glitch and arms its timer, and it changes nothing else |
| `ZoomModel.HoldFiredEffect` | script.js:157-160 | when the hold fires, the hold disarms and the glitch starts with its timer armed; the invariant is kept |
| `ZoomModel.GlitchFiredEffect` | script.js:88-102 | glitch completion gives zoom 1, focus (50, 50), level 0, no glitch, glitch timer off, rust hidden, clean shown; the hold and the pinch distance are untouched |
| `ZoomModel.TouchStartCancels` | script.js:192-205 | a touch during the hold or the glitch disarms both timers, ends the glitch, and resets zoom, level and layers; it leaves the pinch distance and the focus alone |
| `ZoomModel.TouchStartPinch` | script.js:208-212 | otherwise a two-finger touch records the distance and the clamped centre, and any other touch count changes nothing |
| `ZoomModel.TouchMoveEffect` | script.js:215-234 | a move does nothing while glitching, without exactly two touches, or without a positive start distance; otherwise it zooms by (new / old distance - 1) at the clamped centre and then holds the new distance |
| `ZoomModel.TouchMoveSameDistance` | script.js:226-230 | a pinch whose distance does not change leaves the zoom unchanged |
| `ZoomModel.TouchEndEffect` | script.js:236-245 | touch end clears the pinch distance; the hold ends up armed iff it was armed already or the zoom is 1 and no glitch runs; nothing else changes |
| `ZoomController.Controller.constructor` | script.js:24-31 | the new controller is in the load-time state: zoom 1, focus (50, 50), level 0, no timers, rust hidden and clean shown |
| `ZoomController.Controller.HideRustLayers` | script.js:62 | the three rust opacities become 0 and the clean one is kept |
| `ZoomController.Controller.UpdateRustLayers` | script.js:43-78 | the fields and the opacity array are updated in place to `UpdateRust` of the old state, with the invariant kept |
| `ZoomController.Controller.ActivateGlitchAndReset` | script.js:83-87 | the state becomes `ActivateGlitch` of the old state |
| `ZoomController.Controller.GlitchTimeoutFires` | script.js:88-102 | the state becomes `GlitchFired` of the old state, with the invariant kept |
| `ZoomController.Controller.HoldTimeoutFires` | script.js:157-160 | the state becomes `HoldFired` of the old state, with the invariant kept |
| `ZoomController.Controller.SetZoomFocus` | script.js:106-114 | the focus fields become the clamped percentages |
| `ZoomController.Controller.PerformZoom` | script.js:119-163 | the state becomes `Zoom(old state, delta)`, with the invariant kept |
| `ZoomController.Controller.HandleWheel` | script.js:169-174 | the state becomes `Wheel` of the old state: focus set, then performZoom |
| `ZoomController.Controller.HandleTouchStart` | script.js:190-213 | the state becomes `TouchStart` of the old state |
| `ZoomController.Controller.HandleTouchMove` | script.js:215-234 | the state becomes `TouchMove` of the old state |
| `ZoomController.Controller.HandleTouchEnd` | script.js:236-245 | the state becomes `TouchEnd` of the old state |
| `ZoomRuns.InitialCoherent` | script.js:253-255 | the load-time state is coherent |
| `ZoomRuns.StepKeepsInv` | script.js:83-245 | every handler and every timer callback keeps the invariant |
| `ZoomRuns.ZoomCoherent` | script.js:119-163 | performZoom from any state that satisfies the invariant leaves the layers showing what its zoom and level say |
| `ZoomRuns.StepKeepsCoherent` | script.js:83-245 | every event keeps coherence: the level is at least what the zoom unlocks, and the opacities are the rendering of (zoom, level), or at zoom 1 the full-rust or clean view while a hold or glitch is pending |
| `ZoomRuns.RunKeepsCoherent` | script.js:247-250 | coherence holds after any sequence of events in any order |
| `ZoomRuns.Reachable` | script.js:24-31 | every state reachable from load time has zoom in [1, 10], level at most 3, the glitch flag equal to its timer, and never both timers armed |
| `ZoomRuns.StepLevel` | script.js:43-57 | an event that does not reset never lowers the level; a resetting event leaves only the level the new zoom unlocks |
| `ZoomRuns.LevelMonotone` | script.js:57 | across any run with no reset, the rust level never decreases |
| `ZoomRuns.ScenarioThreeSteps` | script.js:4-5 | three wheel steps of +1 from rest give zoom 4 and level 1, with only the first rust layer shown |
| `ZoomRuns.ScenarioHoldAndGlitch` | script.js:149-163 | zooming to 9 and back to 1 keeps level 3, shows only the full-rust layer and arms the hold; the hold starts the glitch, and its completion restores the load-time state |
| `ZoomRuns.ScenarioPinchDuringGlitch` | script.js:215-216 | a pinch that zooms down to 1 arms the hold; once the hold has started the glitch, a further pinch move leaves the glitch running and the zoom at 1 |
| `ZoomRuns.ScenarioWheelDuringHold` | script.js:121-124 | a wheel event during the hold only cancels it: level 3 survives and the zoom moves by the wheel's own delta |

## Left out

- DOM element lookup and the missing-element error message (script.js:10-21): configuration and I/O; the model assumes all layers exist.
- Listener registration (script.js:247-250) and `preventDefault`: glue. The events of `ZoomRuns.Event` stand for the registered handlers.
- Real time: `setTimeout`/`clearTimeout` become armed flags and explicit firing methods, so the delays `RUST_HOLD_DELAY_MS` and `GLITCH_DURATION_MS` do not appear.
- The `glitching` CSS class on the overlay: its presence is exactly `isGlitching`.
- `updateImageTransform` (script.js:34-37): the transform string; the transform is the pair (zoom, focus) held in the state.
- `getBoundingClientRect` and the division in `setZoomFocus` (script.js:107-110): `SetZoomFocus` takes the container-relative percentages.
- `getDistance` and `getCenter` (script.js:177-188): square roots and midpoints in floating point; the touch handlers take the distance and centre as inputs.
- The wheel factor `-deltaY * 0.005` (script.js:172): `HandleWheel` takes the resulting delta as an arbitrary real.
- IEEE floating point: the model's arithmetic is exact and the test `currentZoom === 1` compares real numbers. A pinch that rounds to just above 1 is not modelled.
