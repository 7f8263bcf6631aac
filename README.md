# Rotary knob: a verified model of its state machine

`Knob` is a rotary control in an audio-effects settings screen. It shows a
progress arc with an orbiting indicator and a percentage readout. It also has
an on/off state that the user toggles with a tap. Dragging around the centre
turns the value. This project models the logic under the drawing code, which
is a small event-driven state machine:

- the clamping setters `setValue`, `setProgress` and `setMax`, and the getter `getProgress`;
- the readout decision of `updateProgressText`;
- the on/off transition `setOn` with its animator update and end listeners;
- `setEnabled`;
- the touch gesture handler `onTouchEvent`. It tells a tap from a drag using a
  deadzone and a sticky "moved" flag;
- the seam rule of `getDelta`, and `angle`.

The files:

- `geometry.dfy` (module `Geometry`) holds `Angle` (`angle`) and `Delta` (the
  wrap rule of `getDelta`). It also holds `ShortestTurn`, an independent
  reference for the rotation a drag step ought to make.
- `knob_model.dfy` (module `KnobModel`) holds the widget state as a value
  (`KnobState`) and one function per operation or callback. `Step` applies
  one host input and `RunInputs` applies a sequence of them.
- `knob.dfy` (module `KnobWidget`) holds the class `Knob`. Its fields are
  the widget's fields and its methods update them in place, in the same order
  as the source. Each state-changing method is proved to produce the state
  that the matching `KnobModel` function gives. Each one except
  `UpdateProgressText`, which touches only the readout, is also proved to
  keep the bounds `Inv`.
- `knob_lemmas.dfy` (module `KnobProperties`) holds properties over input
  sequences: the bounds every reachable state keeps, the sticky moved flag,
  tap versus drag, and an animated switch run to its end.

How the model represents the source:

- Floats are `real`. Java's `(int)` cast is `Trunc`, which truncates toward zero.
- The listener is not called. Each callback it would receive is appended to
  the trace `events`: `ValueChanged(value, fromUser)`,
  `SwitchRequested(proposed)` (the `onSwitchChanged` question) and
  `AnimationFinished(endValue)`. The listener's answer to `onSwitchChanged`
  is the parameter `approve`. Only whether a listener is set is modelled.
- The animator is `animator: Option<Run>`, the pending run. `Run(from, to,
  endOn)` records the animator's start and end values and the `on` that its
  end listener reports. The host delivers updates (`OnAnimationUpdate(v)`)
  and the end (`OnAnimationEnd`). Both are no-ops when no run is pending.
- `setOn` cancels the animator after it has stored the new `on` and before it
  caps the remembered progress (Knob.java:239-246). Whether the host's
  `cancel()` runs the end listener of a started animator is a property of the
  host, so it is a parameter: the class constant `cancelRunsEnd`, copied into
  the state. When it holds, `CancelAnimator` ends the pending run exactly as
  the end listener does. The readout then follows the new `on` and the
  remembered progress before the cap, and the listener hears
  `AnimationFinished` with the `on` of the cancelled run. When it does not
  hold, the run is dropped silently. `CancelReport` is what the listener hears
  from the cancel, and every trace below that passes through `setOn` includes
  it.
- `Math.atan` enters as the class constant `atanDeg`, the arctangent in
  degrees. The only thing assumed about it is that its values lie strictly
  between -90 and 90 (`IsArctanDegrees`).
- The touch handler measures the deadzone from `mWidth / 2` in integer
  division (`TouchCenter`). `angle` uses `mWidth / 2.0f`. The model keeps
  the two centres apart.
- The upper clamp of the remembered progress compares against `100`, as
  written (Knob.java:163-164, 373-374). So `setValue` can remember values up
  to 100, and the next `setOn` caps them at 1 (`SetValueRemembersAboveOne`).
  On the drag path that clamp can never apply: a drag step leaves the
  remembered progress at most 1.5 (`DragStepBounded`).
- A drag sets the remembered progress from the shown progress plus the step
  (Knob.java:370). It does not start from the old remembered progress.
- The remembered progress is clamped at 100, not at 1, and the reported
  integer value is `(int)(progress * max)`, which truncates.

## Model

| member | source | states |
|---|---|---|
| `Geometry.Angle` | src/org/cyanogenmod/audiofx/widget/Knob.java:413-433 | the bearing is in [0, 360); the right half of the widget maps into (0, 180) and the left half into (180, 360); on the centre vertical the bearing is 180 exactly below the centre and 0 otherwise |
| `Geometry.Delta` | src/org/cyanogenmod/audiofx/widget/Knob.java:401-411 | for two bearings the step is in (-180, 180] and never carries the old bearing past 0 or 360; a step that does not cross the seam is the plain difference; a step that crosses the seam ends exactly at 0 or at 360 |
| `Geometry.DeltaFollowsShortestTurn` | src/org/cyanogenmod/audiofx/widget/Knob.java:404-410 | a drag step turns the same way as the shorter rotation to the new bearing and no further; it differs from that rotation only when the rotation crosses the seam; an exact clockwise half turn is taken anticlockwise |
| `KnobModel.Created` | src/org/cyanogenmod/audiofx/widget/Knob.java:80-101 | a new knob is off, disabled and unmoved, has scale 100, width 0, both progresses 0, no listener, no pending run, no callbacks, and the layout's own readout text |
| `KnobModel.Trunc` | src/org/cyanogenmod/audiofx/widget/Knob.java:199 | the `(int)` cast truncates toward zero: the result lies within 1 of the input, on the zero side |
| `KnobModel.ValueOf` | src/org/cyanogenmod/audiofx/widget/Knob.java:199 | the value reported for a progress in [0, 1] lies in [0, max] |
| `KnobModel.Clamp01` | src/org/cyanogenmod/audiofx/widget/Knob.java:186-190 | the shown progress is clamped to [0, 1]; values already in range are kept |
| `KnobModel.ClampOriginal` | src/org/cyanogenmod/audiofx/widget/Knob.java:163-167 | the remembered progress is clamped to [0, 100], not [0, 1] |
| `KnobModel.Notify` | src/org/cyanogenmod/audiofx/widget/Knob.java:198-200 | a callback reaches the trace exactly when a listener is set (the same guard appears at lines 263, 288 and 304) |
| `KnobModel.ShowLabel` | src/org/cyanogenmod/audiofx/widget/Knob.java:177-183 | the readout is "--%" exactly when the text is not to be shown; otherwise it is the truncated percentage, at most 100 for a progress in [0, 1] |
| `KnobModel.SetListener` | src/org/cyanogenmod/audiofx/widget/Knob.java:156-158 | setting the listener changes no progress, on state or callback trace |
| `KnobModel.SetProgress` | src/org/cyanogenmod/audiofx/widget/Knob.java:185-201 | the shown progress is the argument clamped to [0, 1]; the readout is hidden unless enabled and on; exactly one `ValueChanged((int)(progress*max), fromUser)` is reported when a listener is set; nothing else changes |
| `KnobModel.SetValue` | src/org/cyanogenmod/audiofx/widget/Knob.java:160-171 | with max 0 nothing changes; otherwise the remembered progress is value/max clamped to [0, 100], the shown progress is value/max clamped to [0, 1], the readout follows it (hidden unless enabled and on), and one value change is reported as not from the user |
| `KnobModel.SetMax` | src/org/cyanogenmod/audiofx/widget/Knob.java:203-205 | the scale is replaced; neither progress is rescaled and nothing is reported |
| `KnobModel.CancelReport` | src/org/cyanogenmod/audiofx/widget/Knob.java:241-243 | cancelling reports `AnimationFinished` with the pending run's `on` exactly when a run is pending, the host's cancel ends it and a listener is set; otherwise nothing |
| `KnobModel.CancelAnimator` | src/org/cyanogenmod/audiofx/widget/Knob.java:241-243 | after the cancel no run is pending; the trace grows by `CancelReport`; when the cancel ends the run the state is the one the end listener gives (`AnimEnd`), otherwise only the run is dropped |
| `KnobModel.CapRemembered` | src/org/cyanogenmod/audiofx/widget/Knob.java:244-246 | only the remembered progress changes, and only when above 1, to 1 |
| `KnobModel.StartOrSettle` | src/org/cyanogenmod/audiofx/widget/Knob.java:247-307 | `on` and the remembered progress are kept; with animation exactly one run is pending, from the shown progress to the remembered progress (or 0 when off), and nothing else changes; without animation the pending run is left as it is, the progress snaps to that target, the readout shows the remembered progress when enabled and on, and one `AnimationFinished(on)` is reported; the bounds are kept when the remembered progress is at most 1 |
| `KnobModel.SetOn` | src/org/cyanogenmod/audiofx/widget/Knob.java:238-309 | `on` is set; the pending run is cancelled, and the listener first hears its end when the host's cancel ends it; only a remembered progress above 1 is lowered, to 1; without animation the progress snaps to the remembered one (or 0 when off), no run is pending, the readout follows and one `AnimationFinished(on)` is reported; with animation exactly one new run is pending, from the current progress to that target, and the readout is what the cancel left |
| `KnobModel.SetEnabled` | src/org/cyanogenmod/audiofx/widget/Knob.java:219-236 | enabling keeps `on`, cancels the pending run (with its end reported if the cancel ends it), snaps the progress and readout as an unanimated `setOn` does, leaves a remembered progress of at most 1 unchanged and reports `AnimationFinished(on)`; disabling changes only the flag |
| `KnobModel.AnimTick` | src/org/cyanogenmod/audiofx/widget/Knob.java:278-294 | an update of the pending run shows its value clamped to [0, 1], reports it once as from the user and shows the readout whatever the enabled state; the run stays pending |
| `KnobModel.AnimEnd` | src/org/cyanogenmod/audiofx/widget/Knob.java:260-266 | the end of the pending run clears it, sets the readout from the current on and enabled flags and reports `AnimationFinished` with the `on` that started the run |
| `KnobModel.OnSizeChanged` | src/org/cyanogenmod/audiofx/widget/Knob.java:321-323 | the width becomes the smaller of the two sides |
| `KnobModel.TouchCenter` | src/org/cyanogenmod/audiofx/widget/Knob.java:366 | the touch centre is half the width rounded down, at most half a pixel short of the true centre |
| `KnobModel.InDeadzone` | src/org/cyanogenmod/audiofx/widget/Knob.java:366-368 | the touch centre is in the deadzone, and every point of the deadzone lies within half the centre's distance to the edge along each axis |
| `KnobModel.TouchDown` | src/org/cyanogenmod/audiofx/widget/Knob.java:355-361 | while on, the drag is anchored at the pointer; while off nothing changes |
| `KnobModel.TouchMove` | src/org/cyanogenmod/audiofx/widget/Knob.java:362-382 | while off nothing changes; while on the anchor always moves to the pointer; the step is applied, and the moved flag set, only when already moved or outside the deadzone; the remembered progress is the shown progress plus step/360 kept in [0, 100]; one `ValueChanged(.., true)` is reported; the moved flag is never cleared |
| `KnobModel.TouchUp` | src/org/cyanogenmod/audiofx/widget/Knob.java:383-394 | the moved flag ends cleared; an unmoved gesture asks the listener once; `on` flips, with a run pending toward the new state, exactly when the gesture did not move, the listener approves or is absent, and the knob is enabled; a switch also reports the end of the cancelled run when the cancel ends it; without a switch nothing but the moved flag and the question changes; progress, width, anchor and flags other than `on` are never touched |
| `KnobModel.Touch` | src/org/cyanogenmod/audiofx/widget/Knob.java:353-399 | other actions change nothing; only a lift can change `on` |
| `KnobProperties.RunKeepsInv` | src/org/cyanogenmod/audiofx/widget/Knob.java:185-192 | every sequence of inputs keeps the progress in [0, 1] and the remembered progress in [0, 100] |
| `KnobProperties.ReachableKeepsInv` | src/org/cyanogenmod/audiofx/widget/Knob.java:80-84 | every state reachable from a new knob keeps those bounds |
| `KnobProperties.MovedStaysUntilRelease` | src/org/cyanogenmod/audiofx/widget/Knob.java:367-377 | once set, the moved flag survives every input except a lift |
| `KnobProperties.DeadzoneMovesOnlyReanchor` | src/org/cyanogenmod/audiofx/widget/Knob.java:362-382 | before a gesture has moved, moves inside the deadzone change nothing but the anchor |
| `KnobProperties.TapRequestsSwitch` | src/org/cyanogenmod/audiofx/widget/Knob.java:383-394 | down, deadzone moves and up: the listener is asked once and hears no value change, and a switch adds only the end of the cancelled run (when the cancel ends it); the knob flips, with a run pending, exactly when approved (or no listener) and enabled; the progress is untouched |
| `KnobProperties.PointerOnlyReportsValues` | src/org/cyanogenmod/audiofx/widget/Knob.java:355-382 | pointer events other than a lift never change `on`, `enabled` or the pending run, and report only value changes from the user |
| `KnobProperties.DragNeverSwitches` | src/org/cyanogenmod/audiofx/widget/Knob.java:362-394 | a move out of the deadzone, further pointer events and a lift: `on` and the pending run are unchanged, no switch is requested, and at least one value change from the user is reported when a listener is set |
| `KnobProperties.TicksShowValues` | src/org/cyanogenmod/audiofx/widget/Knob.java:278-294 | while a run is pending, each update shows its value clamped and reports it as from the user; the run stays pending |
| `KnobProperties.AnimatedSwitchCompletes` | src/org/cyanogenmod/audiofx/widget/Knob.java:238-295 | an animated `setOn`, its updates and its end leave the knob in the requested state with no run pending and the readout following it; the listener hears the end of the cancelled run (when the cancel ends it), one value change per update and then `AnimationFinished(on)` |
| `KnobProperties.SetValueRemembersAboveOne` | src/org/cyanogenmod/audiofx/widget/Knob.java:163-164 | with scale 100, `setValue(150)` remembers 1.5 while showing 1; the next `setOn` brings it back to 1 |
| `KnobProperties.DragStepBounded` | src/org/cyanogenmod/audiofx/widget/Knob.java:370-375 | a drag step moves the remembered progress at most half a turn from the shown progress, so it stays at most 1.5 and the clamp at 100 never applies |
| `KnobWidget.Knob.constructor` | src/org/cyanogenmod/audiofx/widget/Knob.java:80-101 | the fields start as `KnobModel.Created` gives them, on a host whose cancel behaves as `cancelRunsEnd` says |
| `KnobWidget.Knob.SetOnKnobChangeListener` | src/org/cyanogenmod/audiofx/widget/Knob.java:156-158 | the object ends in the state `KnobModel.SetListener` gives |
| `KnobWidget.Knob.SetValue` | src/org/cyanogenmod/audiofx/widget/Knob.java:160-171 | the object ends in the state `KnobModel.SetValue` gives, unchanged when max is 0 |
| `KnobWidget.Knob.UpdateProgressText` | src/org/cyanogenmod/audiofx/widget/Knob.java:177-183 | only the readout changes, to "--%" exactly when the text is not shown |
| `KnobWidget.Knob.SetProgress` | src/org/cyanogenmod/audiofx/widget/Knob.java:185-201 | the object ends in the state `KnobModel.SetProgress` gives: progress in [0, 1] and exactly one report when a listener is set |
| `KnobWidget.Knob.SetMax` | src/org/cyanogenmod/audiofx/widget/Knob.java:203-205 | the object ends in the state `KnobModel.SetMax` gives |
| `KnobWidget.Knob.GetProgress` | src/org/cyanogenmod/audiofx/widget/Knob.java:207-209 | returns the shown progress, which lies in [0, 1] |
| `KnobWidget.Knob.SetEnabled` | src/org/cyanogenmod/audiofx/widget/Knob.java:219-236 | the object ends in the state `KnobModel.SetEnabled` gives |
| `KnobWidget.Knob.SetOn` | src/org/cyanogenmod/audiofx/widget/Knob.java:238-309 | the object ends in the state `KnobModel.SetOn` gives, with `on` as requested and the remembered progress at most 1 |
| `KnobWidget.Knob.CancelAnimator` | src/org/cyanogenmod/audiofx/widget/Knob.java:241-243 | the object ends in the state `KnobModel.CancelAnimator` gives, with no run pending |
| `KnobWidget.Knob.CapRemembered` | src/org/cyanogenmod/audiofx/widget/Knob.java:244-246 | the object ends in the state `KnobModel.CapRemembered` gives, with the remembered progress at most 1 |
| `KnobWidget.Knob.StartOrSettle` | src/org/cyanogenmod/audiofx/widget/Knob.java:247-307 | the object ends in the state `KnobModel.StartOrSettle` gives, with `on` and the remembered progress unchanged |
| `KnobWidget.Knob.OnAnimationUpdate` | src/org/cyanogenmod/audiofx/widget/Knob.java:280-293 | the object ends in the state `KnobModel.AnimTick` gives |
| `KnobWidget.Knob.OnAnimationEnd` | src/org/cyanogenmod/audiofx/widget/Knob.java:260-266 | the object ends in the state `KnobModel.AnimEnd` gives, with no run pending |
| `KnobWidget.Knob.OnSizeChanged` | src/org/cyanogenmod/audiofx/widget/Knob.java:321-323 | the object ends in the state `KnobModel.OnSizeChanged` gives |
| `KnobWidget.Knob.GetDelta` | src/org/cyanogenmod/audiofx/widget/Knob.java:401-411 | the step from the anchor to the pointer is in (-180, 180] and keeps the anchor's bearing within [0, 360] |
| `KnobWidget.Knob.TouchDown` | src/org/cyanogenmod/audiofx/widget/Knob.java:355-361 | the object ends in the state `KnobModel.TouchDown` gives |
| `KnobWidget.Knob.TouchMove` | src/org/cyanogenmod/audiofx/widget/Knob.java:362-382 | the object ends in the state `KnobModel.TouchMove` gives |
| `KnobWidget.Knob.TouchUp` | src/org/cyanogenmod/audiofx/widget/Knob.java:383-394 | the object ends in the state `KnobModel.TouchUp` gives |
| `KnobWidget.Knob.OnTouchEvent` | src/org/cyanogenmod/audiofx/widget/Knob.java:353-399 | the object ends in the state `KnobModel.Touch` gives, and the event is always consumed |

## Left out

- Drawing is not modelled: `onDraw`, `drawIndicator` with its sine and cosine placement, the arc and the `Paint` setup. These are graphics calls over floating-point trigonometry.
- Layout is not modelled beyond the width: the arc rectangle, text sizes, paddings and the indicator width in `onSizeChanged`. These are host layout plumbing.
- The constructor's style, resource and inflater lookups, and the colour swaps in `setEnabled`, are not modelled. They call foreign toolkit APIs.
- `Geometry.Angle`: `Math.atan` is not modelled. Only its range is assumed. So the model proves where a bearing lies, not its exact value.
- Float rounding, NaN, infinities and the saturation of the `(int)` cast are not modelled. The model computes on exact reals. With rounding, `angle` could return exactly 360 for a point far above and just left of the centre.
- The animator's timing is not modelled: the 500 ms duration, the interpolation curve and the values it delivers. Updates may carry any value. Whether `cancel()` runs the end listener is a parameter (`cancelRunsEnd`), not a fact the model decides; an update or end delivered for a run that was already cancelled is not modelled (both are no-ops without a pending run).
- `onInterceptTouchEvent`, `requestDisallowInterceptTouchEvent` and `invalidate` are not modelled. They are host event-loop plumbing with no modelled state.
- The listener object is not modelled; only whether one is set. The knob argument of its callbacks is not recorded.
- The one-argument `setProgress(progress)` is not a separate member, because Dafny has no overloading. It is `SetProgress` with `fromUser` false, which is how `SetValue` calls it.
- `KnobWidget.Knob.TouchMove` writes the drag clamp as a call to `ClampOriginal` rather than as two `if` statements. Its branch at 100 cannot be reached on this path (`DragStepBounded`). The behaviour is the same.
- `KnobWidget.Knob.OnTouchEvent` hands each action to its own method (`TouchDown`, `TouchMove`, `TouchUp`). The source handles them in one `switch`.
- `KnobWidget.Knob.SetOn` runs its three steps as methods of their own (`CancelAnimator`, `CapRemembered`, `StartOrSettle`), in the source's order. The source writes them inline.
