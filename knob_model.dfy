/**
 * The rotary knob's state and its transitions, as values.
 *
 * `KnobState` holds every field of the widget that its logic reads or
 * writes, and one function per public operation or host callback gives the
 * state after it.  The listener is not called: every notification it would
 * receive is appended to `events`, and its answer to a switch request is a
 * parameter.  The class in knob.dfy is proved against these functions.
 */
module KnobModel {
  import opened Geometry

  datatype Option<T> = None | Some(value: T)

  /** What the numeric readout shows: the layout's own text before any update, "<n>%" or "--%". */
  datatype Label = LayoutText | Percent(n: int) | Dashes

  /**
   * A pending on/off animation: an animator running from `from` to `to`,
   * whose end listener reports `endOn` (the `on` that started it).
   */
  datatype Run = Run(from: real, to: real, endOn: bool)

  /** The listener callbacks, in the order the widget makes them. */
  datatype Event =
    | ValueChanged(value: int, fromUser: bool)
    | SwitchRequested(proposed: bool)
    | AnimationFinished(endValue: bool)

  /** The pointer events the widget distinguishes. */
  datatype MotionEvent = Down(x: real, y: real) | Move(x: real, y: real) | Up | OtherAction

  datatype KnobState = KnobState(
    progress: real,
    originalProgress: real,
    max: int,
    on: bool,
    enabled: bool,
    moved: bool,
    lastX: real,
    lastY: real,
    width: nat,
    animator: Option<Run>,
    hasListener: bool,
    readout: Label,
    events: seq<Event>,
    /** A property of the host, not of the widget: whether cancelling a started animator runs its end listener there and then. */
    cancelRunsEnd: bool)

  /** Everything the host can do to the widget, one constructor per operation or callback. */
  datatype Input =
    | ListenerSet(present: bool)
    | ValueSet(value: int)
    | ProgressSet(p: real, fromUser: bool)
    | MaxSet(m: int)
    | EnabledSet(e: bool)
    | OnSet(turnOn: bool, animate: bool)
    | SizeChanged(w: nat, h: nat)
    | Touched(ev: MotionEvent, approve: bool)
    | AnimatorUpdate(v: real)
    | AnimatorEnd

  /** The bounds every reachable state keeps: the shown progress is a fraction, the remembered one is never negative. */
  predicate Inv(s: KnobState)
  {
    0.0 <= s.progress <= 1.0 && 0.0 <= s.originalProgress <= 100.0
  }

  /** The state of a newly constructed knob, on a host whose animators behave as `cancelRunsEnd` says. */
  function Created(cancelRunsEnd: bool): (s: KnobState)
    ensures Inv(s) && s.max == 100 && !s.on && !s.enabled && s.animator == None && s.events == []
    ensures s.progress == 0.0 && s.originalProgress == 0.0 && !s.moved && !s.hasListener && s.width == 0
    ensures s.readout == LayoutText && s.cancelRunsEnd == cancelRunsEnd
  {
    KnobState(0.0, 0.0, 100, false, false, false, 0.0, 0.0, 0, None, false, LayoutText, [], cancelRunsEnd)
  }

  /** The `(int)` cast of a float: truncation toward zero. */
  function Trunc(x: real): (n: int)
    ensures 0.0 <= x ==> 0 <= n && n as real <= x < n as real + 1.0
    ensures x <= 0.0 ==> n <= 0 && n as real - 1.0 < x <= n as real
  {
    if x >= 0.0 then x.Floor else -((-x).Floor)
  }

  /** The integer value the listener is given for a progress: `(int) (progress * max)`. */
  function ValueOf(p: real, max: int): (v: int)
    ensures 0.0 <= p <= 1.0 && 0 <= max ==> 0 <= v <= max
  {
    FractionOf(p, max as real);
    Trunc(p * max as real)
  }

  /** A fraction of a non-negative amount lies between 0 and that amount. */
  lemma FractionOf(a: real, b: real)
    ensures 0.0 <= a <= 1.0 && 0.0 <= b ==> 0.0 <= a * b <= b
  {
    if 0.0 <= a <= 1.0 && 0.0 <= b {
      assert 0.0 <= a * b;
      assert b - a * b == (1.0 - a) * b;
      assert 0.0 <= (1.0 - a) * b;
    }
  }

  /** The clamp applied to the shown progress. */
  function Clamp01(p: real): (r: real)
    ensures 0.0 <= r <= 1.0
    ensures 0.0 <= p <= 1.0 ==> r == p
    ensures p < 0.0 ==> r == 0.0
    ensures p > 1.0 ==> r == 1.0
  {
    if p > 1.0 then 1.0 else if p < 0.0 then 0.0 else p
  }

  /**
   * The clamp applied to the remembered progress by `setValue` and by a drag:
   * it compares against 100, not 1, so values in (1, 100] pass unchanged.
   */
  function ClampOriginal(p: real): (r: real)
    ensures 0.0 <= r <= 100.0
    ensures 0.0 <= p <= 100.0 ==> r == p
    ensures p < 0.0 ==> r == 0.0
    ensures p > 100.0 ==> r == 100.0
  {
    if p < 0.0 then 0.0 else if p > 100.0 then 100.0 else p
  }

  /** The listener's share of a notification: the event itself if a listener is set, nothing otherwise. */
  function Notify(s: KnobState, e: Event): (r: seq<Event>)
    ensures s.hasListener ==> r == [e]
    ensures !s.hasListener ==> r == []
  {
    if s.hasListener then [e] else []
  }

  /** `updateProgressText`: the percentage, truncated, or "--%" when the text is not to be shown. */
  function ShowLabel(show: bool, p: real): (l: Label)
    ensures l == Dashes <==> !show
    ensures show && 0.0 <= p ==> l.Percent? && 0 <= l.n && l.n as real <= p * 100.0 < l.n as real + 1.0
    ensures show && 0.0 <= p <= 1.0 ==> l.Percent? && l.n <= 100
  {
    if show then Percent(Trunc(p * 100.0)) else Dashes
  }

  /** `setOnKnobChangeListener`: only whether a listener is present is modelled. */
  function SetListener(s: KnobState, present: bool): (t: KnobState)
    ensures t.hasListener == present
    ensures t.events == s.events && t.on == s.on
    ensures t.progress == s.progress && t.originalProgress == s.originalProgress
    ensures t == s.(hasListener := t.hasListener)
  {
    s.(hasListener := present)
  }

  /**
   * `setProgress(progress, fromUser)`: stores the progress clamped to [0, 1],
   * refreshes the readout (hidden unless enabled and on) and reports the
   * integer value `(int)(progress * max)` to the listener, exactly once.
   */
  function SetProgress(s: KnobState, p: real, fromUser: bool): (t: KnobState)
    ensures 0.0 <= t.progress <= 1.0
    ensures 0.0 <= p <= 1.0 ==> t.progress == p
    ensures p < 0.0 ==> t.progress == 0.0
    ensures p > 1.0 ==> t.progress == 1.0
    ensures t.readout == Dashes <==> !(s.enabled && s.on)
    ensures s.enabled && s.on ==> t.readout == Percent(Trunc(t.progress * 100.0))
    ensures t.events == s.events + Notify(s, ValueChanged(ValueOf(t.progress, s.max), fromUser))
    ensures t == s.(progress := t.progress, readout := t.readout, events := t.events)
    ensures Inv(s) ==> Inv(t)
  {
    var q := Clamp01(p);
    s.(progress := q, readout := ShowLabel(s.enabled && s.on, q),
       events := s.events + Notify(s, ValueChanged(ValueOf(q, s.max), fromUser)))
  }

  /**
   * `setValue(value)`: with a zero maximum nothing happens.  Otherwise the
   * remembered progress becomes value / max, kept at least 0 and at most 100,
   * and the shown progress becomes that clamped to [0, 1], reported as not
   * coming from the user.
   */
  function SetValue(s: KnobState, value: int): (t: KnobState)
    ensures s.max == 0 ==> t == s
    ensures s.max != 0 ==> t.originalProgress == ClampOriginal(value as real / s.max as real)
    // The next two clauses are consequences of the one above, spelled out.
    ensures s.max != 0 ==> 0.0 <= t.originalProgress <= 100.0
    ensures s.max != 0 && 0.0 <= value as real / s.max as real <= 100.0 ==>
      t.originalProgress == value as real / s.max as real
    ensures s.max != 0 ==> t.progress == Clamp01(value as real / s.max as real)
    ensures s.max != 0 ==>
      t.events == s.events + Notify(s, ValueChanged(ValueOf(t.progress, s.max), false))
    ensures s.max != 0 ==> t.readout == ShowLabel(s.enabled && s.on, t.progress)
    ensures t == s.(progress := t.progress, originalProgress := t.originalProgress,
                    readout := t.readout, events := t.events)
    ensures Inv(s) ==> Inv(t)
  {
    if s.max != 0 then
      var op := ClampOriginal(value as real / s.max as real);
      SetProgress(s.(originalProgress := op), op, false)
    else
      s
  }

  /** `setMax(max)`: replaces the scale without rescaling either progress and without notifying. */
  function SetMax(s: KnobState, m: int): (t: KnobState)
    ensures t.max == m
    ensures t.progress == s.progress && t.originalProgress == s.originalProgress
    ensures t.events == s.events && t.readout == s.readout
    ensures t == s.(max := t.max)
  {
    s.(max := m)
  }

  /** Cancelling the animator ends a run: a run is pending and the host's cancel runs the end listener. */
  predicate CancelEndsRun(s: KnobState)
  {
    s.animator.Some? && s.cancelRunsEnd
  }

  /** What the listener hears when the animator is cancelled: the end of the pending run, if cancelling ends it. */
  function CancelReport(s: KnobState): (es: seq<Event>)
    ensures CancelEndsRun(s) ==> es == Notify(s, AnimationFinished(s.animator.value.endOn))
    ensures !CancelEndsRun(s) ==> es == []
  {
    if CancelEndsRun(s) then Notify(s, AnimationFinished(s.animator.value.endOn)) else []
  }

  /**
   * `mAnimator.cancel()`: afterwards no run is pending.  Where the host's
   * cancel runs the end listener, the pending run ends exactly as `AnimEnd`
   * ends it; otherwise it is dropped silently.
   */
  function CancelAnimator(s: KnobState): (t: KnobState)
    ensures t.animator == None
    ensures t.events == s.events + CancelReport(s)
    ensures CancelEndsRun(s) ==> t == AnimEnd(s)
    ensures !CancelEndsRun(s) ==> t == s.(animator := None)
    ensures t == s.(animator := None, readout := t.readout, events := t.events)
  {
    if s.cancelRunsEnd then AnimEnd(s) else s.(animator := None)
  }

  /**
   * `setOn(on, animate)`: records `on`, cancels any pending animation (whose
   * end listener, if cancelling runs it, already sees the new `on` and the
   * remembered progress before the cap) and caps the remembered progress at
   * 1.  Without animation the shown progress jumps to the remembered one (or
   * to 0 when turning off) and the listener hears that the animation
   * finished; with animation a single new run is pending, from the current
   * progress to that target.
   */
  function SetOn(s: KnobState, on: bool, animate: bool): (t: KnobState)
    ensures t.on == on
    ensures t.originalProgress <= 1.0
    ensures t.originalProgress == (if s.originalProgress > 1.0 then 1.0 else s.originalProgress)
    ensures !animate ==> t.animator == None
    ensures !animate ==> t.progress == (if on then t.originalProgress else 0.0)
    ensures !animate ==> t.events == s.events + CancelReport(s) + Notify(s, AnimationFinished(on))
    ensures !animate ==> t.readout == ShowLabel(s.enabled && on, t.originalProgress)
    ensures animate ==>
      t.animator == Some(Run(s.progress, if on then t.originalProgress else 0.0, on))
    ensures animate ==> t.progress == s.progress && t.events == s.events + CancelReport(s)
    ensures animate && CancelEndsRun(s) ==> t.readout == ShowLabel(on && s.enabled, s.originalProgress)
    ensures animate && !CancelEndsRun(s) ==> t.readout == s.readout
    ensures t == s.(on := t.on, originalProgress := t.originalProgress, progress := t.progress,
                    animator := t.animator, readout := t.readout, events := t.events)
    ensures Inv(s) ==> Inv(t)
  {
    StartOrSettle(CapRemembered(CancelAnimator(s.(on := on))), animate)
  }

  /** The cap `setOn` puts on the remembered progress: at most 1. */
  function CapRemembered(s: KnobState): (t: KnobState)
    ensures t.originalProgress == (if s.originalProgress > 1.0 then 1.0 else s.originalProgress)
    ensures t == s.(originalProgress := t.originalProgress)
  {
    if s.originalProgress > 1.0 then s.(originalProgress := 1.0) else s
  }

  /**
   * The second half of `setOn`, once `on` is recorded, the animator
   * cancelled and the remembered progress capped: start a run toward the
   * target, or show the target at once and report the end.
   */
  function StartOrSettle(s: KnobState, animate: bool): (t: KnobState)
    ensures t.on == s.on && t.originalProgress == s.originalProgress
    ensures animate ==>
      && t.animator == Some(Run(s.progress, if s.on then s.originalProgress else 0.0, s.on))
      && t.progress == s.progress && t.events == s.events && t.readout == s.readout
    ensures !animate ==>
      && t.animator == s.animator
      && t.progress == (if s.on then s.originalProgress else 0.0)
      && t.readout == ShowLabel(s.enabled && s.on, s.originalProgress)
      && t.events == s.events + Notify(s, AnimationFinished(s.on))
    ensures t == s.(progress := t.progress, animator := t.animator, readout := t.readout, events := t.events)
    ensures Inv(s) && s.originalProgress <= 1.0 ==> Inv(t)
  {
    if animate then
      var target := if s.on then s.originalProgress else 0.0;
      s.(animator := Some(Run(s.progress, target, s.on)))
    else
      s.(readout := ShowLabel(s.enabled && s.on, s.originalProgress),
         progress := if s.on then s.originalProgress else 0.0,
         events := s.events + Notify(s, AnimationFinished(s.on)))
  }

  /**
   * `setEnabled(enabled)`: enabling re-applies the current on state at once
   * (as `setOn(on, false)`); disabling changes nothing but the flag.
   */
  function SetEnabled(s: KnobState, e: bool): (t: KnobState)
    ensures t.enabled == e && t.on == s.on
    ensures e ==> t.animator == None
    ensures e ==> t.progress == (if s.on then t.originalProgress else 0.0)
    ensures e && s.originalProgress <= 1.0 ==> t.originalProgress == s.originalProgress
    ensures e ==> t.originalProgress == (if s.originalProgress > 1.0 then 1.0 else s.originalProgress)
    ensures e ==> t.events == s.events + CancelReport(s) + Notify(s, AnimationFinished(s.on))
    ensures e ==> t.readout == ShowLabel(s.on, t.originalProgress)
    ensures e ==> t == s.(enabled := true, originalProgress := t.originalProgress, progress := t.progress,
                          animator := None, readout := t.readout, events := t.events)
    ensures !e ==> t == s.(enabled := false)
    ensures Inv(s) ==> Inv(t)
  {
    var flagged := s.(enabled := e);
    if e then SetOn(flagged, flagged.on, false) else flagged
  }

  /**
   * The animator's update listener, for the pending run: stores the animated
   * value clamped to [0, 1], reports it as coming from the user and shows the
   * readout whatever the enabled state.  Nothing is delivered without a run.
   */
  function AnimTick(s: KnobState, v: real): (t: KnobState)
    ensures s.animator == None ==> t == s
    ensures s.animator != None ==> t.progress == Clamp01(v)
    ensures s.animator != None ==>
      t.events == s.events + Notify(s, ValueChanged(ValueOf(t.progress, s.max), true))
    ensures s.animator != None ==> t.readout == ShowLabel(true, t.progress)
    ensures t == s.(progress := t.progress, readout := t.readout, events := t.events)
    ensures Inv(s) ==> Inv(t)
  {
    if s.animator == None then s
    else
      var q := Clamp01(v);
      s.(progress := q, events := s.events + Notify(s, ValueChanged(ValueOf(q, s.max), true)),
         readout := ShowLabel(true, q))
  }

  /**
   * The animator's end listener, for the pending run: clears the run, shows
   * the readout according to the current on and enabled flags, and reports
   * the `on` that started the run.
   */
  function AnimEnd(s: KnobState): (t: KnobState)
    ensures s.animator == None ==> t == s
    ensures t.animator == None
    ensures s.animator != None ==>
      t.events == s.events + Notify(s, AnimationFinished(s.animator.value.endOn))
    ensures s.animator != None ==> t.readout == ShowLabel(s.on && s.enabled, s.originalProgress)
    ensures t == s.(animator := t.animator, readout := t.readout, events := t.events)
  {
    match s.animator
    case None => s
    case Some(run) =>
      s.(animator := None, readout := ShowLabel(s.on && s.enabled, s.originalProgress),
         events := s.events + Notify(s, AnimationFinished(run.endOn)))
  }

  /** The part of `onSizeChanged` the logic depends on: the side of the largest square that fits. */
  function OnSizeChanged(s: KnobState, w: nat, h: nat): (t: KnobState)
    ensures t.width <= w && t.width <= h && (t.width == w || t.width == h)
    ensures t == s.(width := t.width)
  {
    s.(width := if w > h then h else w)
  }

  /** The centre used by the touch handler: half the width in integer division. */
  function TouchCenter(width: nat): (c: real)
    ensures 0.0 <= c <= width as real / 2.0
    ensures width as real / 2.0 - c <= 0.5
  {
    (width / 2) as real
  }

  /**
   * The deadzone of `onTouchEvent`: the disc around the touch centre whose
   * radius is half the distance from the centre to the edge (compared as
   * squared distances).  The centre itself lies in it, and no point of it is
   * farther than that radius from the centre along either axis.
   */
  predicate InDeadzone(width: nat, x: real, y: real): (r: bool)
    ensures x == TouchCenter(width) && y == TouchCenter(width) ==> r
    ensures r ==> var c := TouchCenter(width);
      -c / 2.0 <= x - c <= c / 2.0 && -c / 2.0 <= y - c <= c / 2.0
  {
    var c := TouchCenter(width);
    WithinDiscBounds(x - c, y - c, c / 2.0);
    (x - c) * (x - c) + (y - c) * (y - c) <= c * c / 4.0
  }

  /** A point inside the disc of radius `h` around the origin lies in the square of half-side `h`. */
  lemma WithinDiscBounds(a: real, b: real, h: real)
    ensures 0.0 <= h && a * a + b * b <= h * h ==> -h <= a <= h && -h <= b <= h
  {
    if 0.0 <= h && a * a + b * b <= h * h {
      assert 0.0 <= b * b && 0.0 <= a * a;
      SquareGrows(a, h);
      SquareGrows(-a, h);
      SquareGrows(b, h);
      SquareGrows(-b, h);
    }
  }

  /** Squaring is increasing on the non-negative reals. */
  lemma SquareGrows(a: real, h: real)
    ensures 0.0 <= h < a ==> h * h < a * a
  {
    if 0.0 <= h < a {
      var d, e := a - h, a + h;
      assert 0.0 < d && 0.0 < e;
      assert 0.0 < d * e;
      assert a * a - h * h == d * e;
    }
  }

  /** ACTION_DOWN: while on, anchors the drag at the pointer. */
  function TouchDown(s: KnobState, x: real, y: real): (t: KnobState)
    ensures !s.on ==> t == s
    ensures s.on ==> t.lastX == x && t.lastY == y
    ensures t == s.(lastX := t.lastX, lastY := t.lastY)
  {
    if s.on then s.(lastX := x, lastY := y) else s
  }

  /**
   * ACTION_MOVE: while on, a move counts once the gesture has left the
   * deadzone (and from then on, even back inside it): the remembered
   * progress becomes the SHOWN progress turned by the drag step, kept in
   * [0, 100], it is shown through `SetProgress` as coming from the user, and
   * the gesture is marked as moved.  Every move while on re-anchors the drag.
   */
  function TouchMove(s: KnobState, x: real, y: real, atanDeg: real -> real): (t: KnobState)
    requires IsArctanDegrees(atanDeg)
    ensures !s.on ==> t == s
    ensures s.on ==> t.lastX == x && t.lastY == y
    ensures s.moved ==> t.moved
    ensures s.on && !s.moved && InDeadzone(s.width, x, y) ==> t == s.(lastX := x, lastY := y)
    ensures s.on && (s.moved || !InDeadzone(s.width, x, y)) ==>
      t.moved &&
      t.originalProgress == ClampOriginal(s.progress +
        Delta(Angle(s.width, x, y, atanDeg), Angle(s.width, s.lastX, s.lastY, atanDeg)) / 360.0) &&
      t.progress == Clamp01(t.originalProgress) &&
      t.readout == ShowLabel(s.enabled, t.progress) &&
      t.events == s.events + Notify(s, ValueChanged(ValueOf(t.progress, s.max), true))
    ensures t == s.(lastX := t.lastX, lastY := t.lastY, moved := t.moved, progress := t.progress,
                    originalProgress := t.originalProgress, readout := t.readout, events := t.events)
    ensures Inv(s) ==> Inv(t)
  {
    if !s.on then s
    else if s.moved || !InDeadzone(s.width, x, y) then
      var delta := Delta(Angle(s.width, x, y, atanDeg), Angle(s.width, s.lastX, s.lastY, atanDeg));
      var op := ClampOriginal(s.progress + delta / 360.0);
      SetProgress(s.(originalProgress := op), op, true).(moved := true, lastX := x, lastY := y)
    else
      s.(lastX := x, lastY := y)
  }

  /**
   * ACTION_UP: a gesture that never moved is a tap.  A tap asks the listener
   * (if any) whether to switch, and switches with animation when the listener
   * approves (or there is none) and the knob is enabled.  Either way the
   * next gesture starts unmoved.
   */
  function TouchUp(s: KnobState, approve: bool): (t: KnobState)
    ensures !t.moved
    ensures t.on == (if !s.moved && (!s.hasListener || approve) && s.enabled then !s.on else s.on)
    ensures !s.moved && (!s.hasListener || approve) && s.enabled ==>
      && t.animator == Some(Run(s.progress, if !s.on then t.originalProgress else 0.0, !s.on))
      && t.originalProgress == (if s.originalProgress > 1.0 then 1.0 else s.originalProgress)
      && t.events == s.events + Notify(s, SwitchRequested(!s.on)) + CancelReport(s)
      && t.readout == (if CancelEndsRun(s) then ShowLabel(!s.on && s.enabled, s.originalProgress) else s.readout)
    ensures !s.moved && !((!s.hasListener || approve) && s.enabled) ==>
      t == s.(moved := false, events := s.events + Notify(s, SwitchRequested(!s.on)))
    ensures s.moved ==> t == s.(moved := false)
    ensures t == s.(on := t.on, moved := false, originalProgress := t.originalProgress,
                    animator := t.animator, readout := t.readout, events := t.events)
    ensures Inv(s) ==> Inv(t)
  {
    if !s.moved then
      var asked := s.(events := s.events + Notify(s, SwitchRequested(!s.on)));
      var approved := !s.hasListener || approve;
      var switched := if approved && s.enabled then SetOn(asked, !s.on, true) else asked;
      switched.(moved := false)
    else
      s.(moved := false)
  }

  /** `onTouchEvent`: dispatch on the action; other actions are ignored. */
  function Touch(s: KnobState, ev: MotionEvent, approve: bool, atanDeg: real -> real): (t: KnobState)
    requires IsArctanDegrees(atanDeg)
    ensures ev.OtherAction? ==> t == s
    ensures !ev.Up? ==> t.on == s.on
    ensures Inv(s) ==> Inv(t)
  {
    match ev
    case Down(x, y) => TouchDown(s, x, y)
    case Move(x, y) => TouchMove(s, x, y, atanDeg)
    case Up => TouchUp(s, approve)
    case OtherAction => s
  }

  /** One input applied to a state. */
  function Step(s: KnobState, i: Input, atanDeg: real -> real): (t: KnobState)
    requires IsArctanDegrees(atanDeg)
    ensures Inv(s) ==> Inv(t)
  {
    match i
    case ListenerSet(present) => SetListener(s, present)
    case ValueSet(value) => SetValue(s, value)
    case ProgressSet(p, fromUser) => SetProgress(s, p, fromUser)
    case MaxSet(m) => SetMax(s, m)
    case EnabledSet(e) => SetEnabled(s, e)
    case OnSet(turnOn, animate) => SetOn(s, turnOn, animate)
    case SizeChanged(w, h) => OnSizeChanged(s, w, h)
    case Touched(ev, approve) => Touch(s, ev, approve, atanDeg)
    case AnimatorUpdate(v) => AnimTick(s, v)
    case AnimatorEnd => AnimEnd(s)
  }

  /** A sequence of inputs applied in order. */
  function RunInputs(s: KnobState, inputs: seq<Input>, atanDeg: real -> real): KnobState
    requires IsArctanDegrees(atanDeg)
    decreases |inputs|
  {
    if inputs == [] then s else RunInputs(Step(s, inputs[0], atanDeg), inputs[1..], atanDeg)
  }
}
