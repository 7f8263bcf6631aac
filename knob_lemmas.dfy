/**
 * Properties of the knob over sequences of inputs: the bounds every reachable
 * state keeps, the sticky "moved" flag, what a tap and what a drag do, and
 * how an animated switch runs to its end.
 */
module KnobProperties {
  import opened Geometry
  import opened KnobModel

  /** Running two input sequences one after the other is running their concatenation. */
  lemma {:induction false} RunConcat(s: KnobState, a: seq<Input>, b: seq<Input>, atanDeg: real -> real)
    requires IsArctanDegrees(atanDeg)
    ensures RunInputs(s, a + b, atanDeg) == RunInputs(RunInputs(s, a, atanDeg), b, atanDeg)
    decreases |a|
  {
    if a == [] {
      assert a + b == b;
    } else {
      assert (a + b)[0] == a[0];
      assert (a + b)[1..] == a[1..] + b;
      RunConcat(Step(s, a[0], atanDeg), a[1..], b, atanDeg);
    }
  }

  /** No sequence of inputs takes the progress out of [0, 1] or the remembered progress below 0 or above 100. */
  lemma {:induction false} RunKeepsInv(s: KnobState, inputs: seq<Input>, atanDeg: real -> real)
    requires IsArctanDegrees(atanDeg)
    requires Inv(s)
    ensures Inv(RunInputs(s, inputs, atanDeg))
    decreases |inputs|
  {
    if inputs != [] {
      RunKeepsInv(Step(s, inputs[0], atanDeg), inputs[1..], atanDeg);
    }
  }

  /** Every state reachable from a new knob keeps the bounds. */
  lemma ReachableKeepsInv(cancelRunsEnd: bool, inputs: seq<Input>, atanDeg: real -> real)
    requires IsArctanDegrees(atanDeg)
    ensures Inv(RunInputs(Created(cancelRunsEnd), inputs, atanDeg))
  {
    RunKeepsInv(Created(cancelRunsEnd), inputs, atanDeg);
  }

  /** The pointer being lifted: the only input that clears the "moved" flag. */
  predicate IsRelease(i: Input)
  {
    i.Touched? && i.ev.Up?
  }

  /** Once a gesture has moved it stays moved, whatever else happens, until the pointer is lifted. */
  lemma {:induction false} MovedStaysUntilRelease(s: KnobState, inputs: seq<Input>, atanDeg: real -> real)
    requires IsArctanDegrees(atanDeg)
    requires s.moved
    requires forall k :: 0 <= k < |inputs| ==> !IsRelease(inputs[k])
    ensures RunInputs(s, inputs, atanDeg).moved
    decreases |inputs|
  {
    if inputs != [] {
      assert !IsRelease(inputs[0]);
      StepKeepsMoved(s, inputs[0], atanDeg);
      var t := Step(s, inputs[0], atanDeg);
      assert RunInputs(s, inputs, atanDeg) == RunInputs(t, inputs[1..], atanDeg);
      MovedStaysUntilRelease(t, inputs[1..], atanDeg);
    }
  }

  /** One input other than a lift keeps the "moved" flag. */
  lemma StepKeepsMoved(s: KnobState, i: Input, atanDeg: real -> real)
    requires IsArctanDegrees(atanDeg)
    requires s.moved && !IsRelease(i)
    ensures Step(s, i, atanDeg).moved
  {
  }

  /** Pointer moves that stay inside the deadzone of a widget of side `width`. */
  predicate DeadzoneMoves(inputs: seq<Input>, width: nat)
  {
    forall k :: 0 <= k < |inputs| ==>
      inputs[k].Touched? && inputs[k].ev.Move? && InDeadzone(width, inputs[k].ev.x, inputs[k].ev.y)
  }

  /** Before a gesture has moved, moves inside the deadzone change nothing but the drag anchor. */
  lemma {:induction false} DeadzoneMovesOnlyReanchor(s: KnobState, inputs: seq<Input>, atanDeg: real -> real)
    requires IsArctanDegrees(atanDeg)
    requires !s.moved
    requires DeadzoneMoves(inputs, s.width)
    ensures var t := RunInputs(s, inputs, atanDeg); t == s.(lastX := t.lastX, lastY := t.lastY)
    decreases |inputs|
  {
    if inputs != [] {
      var t := Step(s, inputs[0], atanDeg);
      assert t == s.(lastX := t.lastX, lastY := t.lastY);
      assert DeadzoneMoves(inputs[1..], t.width);
      DeadzoneMovesOnlyReanchor(t, inputs[1..], atanDeg);
    }
  }

  /**
   * A tap: the pointer goes down, wanders only inside the deadzone, and is
   * lifted.  The listener (if any) is asked exactly once whether to switch
   * and hears no value change; the knob switches, with an animation pending
   * toward the new state's target, exactly when the listener approves (or
   * there is none) and the knob is enabled.  A switch cancels the run
   * pending before it, and the listener then also hears that run's end if
   * the host's cancel ends it.  The shown progress is untouched.
   */
  lemma TapRequestsSwitch(s: KnobState, x: real, y: real, moves: seq<Input>, approve: bool,
                          atanDeg: real -> real)
    requires IsArctanDegrees(atanDeg)
    requires !s.moved
    requires DeadzoneMoves(moves, s.width)
    ensures var t := RunInputs(s, [Touched(Down(x, y), approve)] + moves + [Touched(Up, approve)], atanDeg);
      var switched := (!s.hasListener || approve) && s.enabled;
      && t.on == (if switched then !s.on else s.on)
      && t.events == s.events + Notify(s, SwitchRequested(!s.on)) + (if switched then CancelReport(s) else [])
      && t.progress == s.progress
      && !t.moved
      && (switched ==> t.animator.Some? && t.animator.value.endOn == !s.on)
      && (!switched ==> t.animator == s.animator)
  {
    var down := [Touched(Down(x, y), approve)];
    var up := [Touched(Up, approve)];
    RunConcat(s, down + moves, up, atanDeg);
    RunConcat(s, down, moves, atanDeg);
    var s1 := RunInputs(s, down, atanDeg);
    assert s1 == s.(lastX := s1.lastX, lastY := s1.lastY);
    DeadzoneMovesOnlyReanchor(s1, moves, atanDeg);
    var s2 := RunInputs(s1, moves, atanDeg);
    assert s2 == s.(lastX := s2.lastX, lastY := s2.lastY);
    assert CancelReport(s2) == CancelReport(s);
    assert RunInputs(s2, up, atanDeg) == TouchUp(s2, approve);
  }

  /** Events that are all value changes reported as coming from the user. */
  predicate AllUserValueChanges(es: seq<Event>)
  {
    forall k :: 0 <= k < |es| ==> es[k].ValueChanged? && es[k].fromUser
  }

  /** Pointer events other than a lift. */
  predicate PointerWithoutRelease(inputs: seq<Input>)
  {
    forall k :: 0 <= k < |inputs| ==>
      inputs[k].Touched? && !inputs[k].ev.Up?
  }

  /**
   * Pointer events other than a lift never switch the knob and never touch
   * the animation; all they report are value changes from the user.
   */
  lemma {:induction false} PointerOnlyReportsValues(s: KnobState, inputs: seq<Input>, atanDeg: real -> real)
    requires IsArctanDegrees(atanDeg)
    requires PointerWithoutRelease(inputs)
    ensures var t := RunInputs(s, inputs, atanDeg);
      && t.on == s.on && t.enabled == s.enabled && t.hasListener == s.hasListener
      && t.animator == s.animator && (s.moved ==> t.moved)
      && |s.events| <= |t.events| && t.events[..|s.events|] == s.events
      && AllUserValueChanges(t.events[|s.events|..])
    decreases |inputs|
  {
    if inputs != [] {
      PointerStep(s, inputs[0], atanDeg);
      var t := Step(s, inputs[0], atanDeg);
      assert RunInputs(s, inputs, atanDeg) == RunInputs(t, inputs[1..], atanDeg);
      PointerOnlyReportsValues(t, inputs[1..], atanDeg);
      var u := RunInputs(t, inputs[1..], atanDeg);
      assert u.events[|s.events|..] == t.events[|s.events|..] + u.events[|t.events|..];
    }
  }

  /** One pointer event other than a lift: what `PointerOnlyReportsValues` says, for a single step. */
  lemma PointerStep(s: KnobState, i: Input, atanDeg: real -> real)
    requires IsArctanDegrees(atanDeg)
    requires i.Touched? && !i.ev.Up?
    ensures var t := Step(s, i, atanDeg);
      && t.on == s.on && t.enabled == s.enabled && t.hasListener == s.hasListener
      && t.animator == s.animator && (s.moved ==> t.moved)
      && (t.events == s.events || t.events == s.events + [ValueChanged(ValueOf(t.progress, s.max), true)])
  {
  }

  /**
   * A drag: a move that leaves the deadzone while the knob is on, any
   * further pointer events short of a lift, and the lift.  The listener
   * hears at least the first move as a value change from the user, nothing
   * but such value changes, and no switch request; the knob stays as it was.
   */
  lemma DragNeverSwitches(s: KnobState, x: real, y: real, rest: seq<Input>, approve: bool,
                          atanDeg: real -> real)
    requires IsArctanDegrees(atanDeg)
    requires s.on && !InDeadzone(s.width, x, y)
    requires PointerWithoutRelease(rest)
    ensures var t := RunInputs(s, [Touched(Move(x, y), approve)] + rest + [Touched(Up, approve)], atanDeg);
      && t.on == s.on && t.animator == s.animator && !t.moved
      && |s.events| <= |t.events| && t.events[..|s.events|] == s.events
      && AllUserValueChanges(t.events[|s.events|..])
      && (s.hasListener ==> |t.events| > |s.events|)
  {
    var s1 := TouchMove(s, x, y, atanDeg);
    assert s1.on == s.on && s1.animator == s.animator;
    assert s1.events == s.events + Notify(s, ValueChanged(ValueOf(s1.progress, s.max), true));
    assert s1.events[|s.events|..] == Notify(s, ValueChanged(ValueOf(s1.progress, s.max), true));
    PointerOnlyReportsValues(s1, rest, atanDeg);
    var s2 := RunInputs(s1, rest, atanDeg);
    UserChangesCompose(s.events, s1.events, s2.events);
    DragPhases(s, x, y, rest, approve, atanDeg);
  }

  /** Extending a trace by user value changes, twice, extends it by user value changes. */
  lemma UserChangesCompose(a: seq<Event>, b: seq<Event>, c: seq<Event>)
    requires |a| <= |b| && b[..|a|] == a && AllUserValueChanges(b[|a|..])
    requires |b| <= |c| && c[..|b|] == b && AllUserValueChanges(c[|b|..])
    ensures |a| <= |c| && c[..|a|] == a && AllUserValueChanges(c[|a|..])
  {
    assert c[|a|..] == b[|a|..] + c[|b|..];
  }

  /**
   * A drag taken apart into its first move and the pointer events after it;
   * the lift only clears the "moved" flag.
   */
  lemma DragPhases(s: KnobState, x: real, y: real, rest: seq<Input>, approve: bool, atanDeg: real -> real)
    requires IsArctanDegrees(atanDeg)
    requires s.on && !InDeadzone(s.width, x, y)
    requires PointerWithoutRelease(rest)
    ensures RunInputs(s, [Touched(Move(x, y), approve)] + rest + [Touched(Up, approve)], atanDeg) ==
            RunInputs(TouchMove(s, x, y, atanDeg), rest, atanDeg).(moved := false)
  {
    var first := [Touched(Move(x, y), approve)];
    var up := [Touched(Up, approve)];
    RunConcat(s, first + rest, up, atanDeg);
    RunConcat(s, first, rest, atanDeg);
    assert RunInputs(s, first, atanDeg) == TouchMove(s, x, y, atanDeg);
    var s2 := RunInputs(TouchMove(s, x, y, atanDeg), rest, atanDeg);
    PointerOnlyReportsValues(TouchMove(s, x, y, atanDeg), rest, atanDeg);
    assert s2.moved;
    assert RunInputs(s2, up, atanDeg) == TouchUp(s2, approve);
  }

  /** One animator update per value. */
  function Ticks(vs: seq<real>): (inputs: seq<Input>)
    ensures |inputs| == |vs|
    ensures forall k :: 0 <= k < |vs| ==> inputs[k] == AnimatorUpdate(vs[k])
  {
    seq(|vs|, k requires 0 <= k < |vs| => AnimatorUpdate(vs[k]))
  }

  /** What the listener hears from the updates `vs` of a run on a knob with scale `max`. */
  function TickEvents(vs: seq<real>, max: int): (es: seq<Event>)
    ensures |es| == |vs|
    ensures AllUserValueChanges(es)
  {
    seq(|vs|, k requires 0 <= k < |vs| => ValueChanged(ValueOf(Clamp01(vs[k]), max), true))
  }

  /**
   * While a run is pending, each update shows its value clamped to [0, 1]
   * and reports it as from the user; the run itself stays pending.
   */
  lemma {:induction false} TicksShowValues(s: KnobState, vs: seq<real>, atanDeg: real -> real)
    requires IsArctanDegrees(atanDeg)
    requires s.animator.Some?
    ensures var t := RunInputs(s, Ticks(vs), atanDeg);
      && t == s.(progress := t.progress, readout := t.readout, events := t.events)
      && t.events == s.events + (if s.hasListener then TickEvents(vs, s.max) else [])
      && t.progress == (if vs == [] then s.progress else Clamp01(vs[|vs| - 1]))
    decreases |vs|
  {
    if vs != [] {
      var t := AnimTick(s, vs[0]);
      assert Ticks(vs)[0] == AnimatorUpdate(vs[0]);
      assert Ticks(vs)[1..] == Ticks(vs[1..]);
      assert RunInputs(s, Ticks(vs), atanDeg) == RunInputs(t, Ticks(vs[1..]), atanDeg);
      TicksShowValues(t, vs[1..], atanDeg);
      if s.hasListener {
        assert TickEvents(vs, s.max) == [ValueChanged(ValueOf(Clamp01(vs[0]), s.max), true)] + TickEvents(vs[1..], s.max);
      }
    }
  }

  /**
   * An animated switch followed by its updates and its end: the knob ends in
   * the requested state with no run pending, the remembered progress capped
   * at 1, and the listener hears the end of the run the switch cancelled
   * (if the host's cancel ends it), one value change per update and then
   * that the animation finished with the requested state.  The readout
   * finally follows the requested state and the enabled flag.
   */
  lemma AnimatedSwitchCompletes(s: KnobState, on: bool, vs: seq<real>, atanDeg: real -> real)
    requires IsArctanDegrees(atanDeg)
    ensures var t := RunInputs(s, [OnSet(on, true)] + Ticks(vs) + [AnimatorEnd], atanDeg);
      && t.on == on && t.animator == None
      && t.originalProgress == (if s.originalProgress > 1.0 then 1.0 else s.originalProgress)
      && t.events == s.events + CancelReport(s) +
           (if s.hasListener then TickEvents(vs, s.max) + [AnimationFinished(on)] else [])
      && t.progress == (if vs == [] then s.progress else Clamp01(vs[|vs| - 1]))
      && t.readout == ShowLabel(on && s.enabled, t.originalProgress)
  {
    var s1 := SetOn(s, on, true);
    assert s1.events == s.events + CancelReport(s) && s1.animator.Some? && s1.animator.value.endOn == on;
    TicksShowValues(s1, vs, atanDeg);
    var s2 := RunInputs(s1, Ticks(vs), atanDeg);
    SwitchTicksEnd(s, on, vs, atanDeg);
    var ticks := if s.hasListener then TickEvents(vs, s.max) else [];
    assert s2.events == s.events + CancelReport(s) + ticks;
    assert AnimEnd(s2).events == s.events + CancelReport(s) + ticks + Notify(s, AnimationFinished(on));
  }

  /** An animated switch, its updates and its end, taken apart into its three phases. */
  lemma SwitchTicksEnd(s: KnobState, on: bool, vs: seq<real>, atanDeg: real -> real)
    requires IsArctanDegrees(atanDeg)
    ensures RunInputs(s, [OnSet(on, true)] + Ticks(vs) + [AnimatorEnd], atanDeg) ==
            AnimEnd(RunInputs(SetOn(s, on, true), Ticks(vs), atanDeg))
  {
    var start := [OnSet(on, true)];
    var end := [AnimatorEnd];
    RunConcat(s, start + Ticks(vs), end, atanDeg);
    RunConcat(s, start, Ticks(vs), atanDeg);
    assert RunInputs(s, start, atanDeg) == SetOn(s, on, true);
    var s2 := RunInputs(SetOn(s, on, true), Ticks(vs), atanDeg);
    assert RunInputs(s2, end, atanDeg) == AnimEnd(s2);
  }

  /**
   * The literal upper clamp of `setValue` lets the remembered progress
   * exceed 1 (with the default scale 100, the value 150 remembers 1.5 while
   * showing 1); the next `setOn` brings it back to 1.
   */
  lemma SetValueRemembersAboveOne(s: KnobState)
    requires s.max == 100
    ensures SetValue(s, 150).originalProgress == 1.5
    ensures SetValue(s, 150).progress == 1.0
    ensures SetOn(SetValue(s, 150), s.on, false).originalProgress == 1.0
  {
  }

  /**
   * A drag step moves the remembered progress at most half a turn away from
   * the shown progress, so from a bounded state it stays at most 1.5: the
   * clamp against 100 on the drag path never applies.
   */
  lemma DragStepBounded(s: KnobState, x: real, y: real, atanDeg: real -> real)
    requires IsArctanDegrees(atanDeg)
    requires Inv(s) && s.on && (s.moved || !InDeadzone(s.width, x, y))
    ensures var t := TouchMove(s, x, y, atanDeg);
      && t.originalProgress <= s.progress + 0.5
      && (t.originalProgress == 0.0 || t.originalProgress > s.progress - 0.5)
      && t.originalProgress <= 1.5
  {
  }
}
