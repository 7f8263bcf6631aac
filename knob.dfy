/**
 * The knob widget itself: an object whose fields its methods update in
 * place, one method per public operation, host callback and animator
 * listener.  Each method is proved to leave the object in the state that the
 * corresponding function of `KnobModel` gives, and to keep the bounds of
 * `KnobModel.Inv`.
 */
module KnobWidget {
  import opened Geometry
  import opened KnobModel

  class Knob {
    /** The host's arctangent, in degrees; `angle()` is built on it. */
    const atanDeg: real -> real
    /** Whether the host's `Animator.cancel()` runs the end listener of a started animator. */
    const cancelRunsEnd: bool

    var progress: real
    var originalProgress: real
    var max: int
    var on: bool
    var enabled: bool
    var moved: bool
    var lastX: real
    var lastY: real
    var width: nat
    /** The pending animator run, if any. */
    var animator: Option<Run>
    /** Whether an `OnKnobChangeListener` is set. */
    var hasListener: bool
    /** The text of the numeric readout. */
    var readout: Label
    /** Every callback the listener has received, oldest first. */
    var events: seq<Event>

    /** The fields as a `KnobModel` state. */
    function State(): KnobState
      reads this
    {
      KnobState(progress, originalProgress, max, on, enabled, moved, lastX, lastY, width,
                animator, hasListener, readout, events, cancelRunsEnd)
    }

    ghost predicate Valid()
      reads this
    {
      IsArctanDegrees(atanDeg) && Inv(State())
    }

    constructor (atanDeg: real -> real, cancelRunsEnd: bool)
      requires IsArctanDegrees(atanDeg)
      ensures Valid() && this.atanDeg == atanDeg
      ensures State() == Created(cancelRunsEnd)
    {
      this.atanDeg := atanDeg;
      this.cancelRunsEnd := cancelRunsEnd;
      progress, originalProgress, max := 0.0, 0.0, 100;
      on, enabled, moved := false, false, false;
      lastX, lastY, width := 0.0, 0.0, 0;
      animator, hasListener, readout, events := None, false, LayoutText, [];
    }

    method SetOnKnobChangeListener(present: bool)
      requires Valid()
      modifies this
      ensures Valid()
      ensures State() == SetListener(old(State()), present)
    {
      hasListener := present;
    }

    method SetValue(value: int)
      requires Valid()
      modifies this
      ensures Valid()
      ensures State() == KnobModel.SetValue(old(State()), value)
      ensures max == 0 ==> State() == old(State())
    {
      if max != 0 {
        originalProgress := value as real / max as real;
        if originalProgress > 100.0 {
          originalProgress := 100.0;
        } else if originalProgress < 0.0 {
          originalProgress := 0.0;
        }
        SetProgress(originalProgress, false);
      }
    }

    method UpdateProgressText(showText: bool, p: real)
      modifies this`readout
      ensures readout == ShowLabel(showText, p)
      ensures readout == Dashes <==> !showText
    {
      if showText {
        readout := Percent(Trunc(p * 100.0));
      } else {
        readout := Dashes;
      }
    }

    method SetProgress(p: real, fromUser: bool)
      requires Valid()
      modifies this
      ensures Valid()
      ensures State() == KnobModel.SetProgress(old(State()), p, fromUser)
      ensures 0.0 <= progress <= 1.0
      ensures events == old(events) + Notify(old(State()), ValueChanged(ValueOf(progress, max), fromUser))
    {
      var q := p;
      if q > 1.0 {
        q := 1.0;
      } else if q < 0.0 {
        q := 0.0;
      }
      progress := q;
      UpdateProgressText(enabled && on, q);
      if hasListener {
        events := events + [ValueChanged(ValueOf(q, max), fromUser)];
      }
    }

    method SetMax(m: int)
      requires Valid()
      modifies this
      ensures Valid()
      ensures State() == KnobModel.SetMax(old(State()), m)
    {
      max := m;
    }

    method GetProgress() returns (p: real)
      requires Valid()
      ensures p == progress
      ensures 0.0 <= p <= 1.0
    {
      p := progress;
    }

    method SetEnabled(e: bool)
      requires Valid()
      modifies this
      ensures Valid()
      ensures State() == KnobModel.SetEnabled(old(State()), e)
    {
      enabled := e;
      if e {
        SetOn(on, false);
      }
    }

    method SetOn(turnOn: bool, animate: bool)
      requires Valid()
      modifies this
      ensures Valid()
      ensures State() == KnobModel.SetOn(old(State()), turnOn, animate)
      ensures on == turnOn && originalProgress <= 1.0
    {
      on := turnOn;
      CancelAnimator();
      CapRemembered();
      StartOrSettle(animate);
    }

    /** The cap `setOn` puts on the remembered progress. */
    method CapRemembered()
      requires Valid()
      modifies this
      ensures Valid()
      ensures State() == KnobModel.CapRemembered(old(State()))
      ensures originalProgress <= 1.0
    {
      if originalProgress > 1.0 {
        originalProgress := 1.0;
      }
    }

    /** The second half of `setOn`: start the run, or show its target at once. */
    method StartOrSettle(animate: bool)
      requires Valid() && originalProgress <= 1.0
      modifies this
      ensures Valid()
      ensures State() == KnobModel.StartOrSettle(old(State()), animate)
      ensures on == old(on) && originalProgress == old(originalProgress)
    {
      if animate {
        var target := if on then originalProgress else 0.0;
        animator := Some(Run(progress, target, on));
      } else {
        UpdateProgressText(enabled && on, originalProgress);
        progress := if on then originalProgress else 0.0;
        if hasListener {
          events := events + [AnimationFinished(on)];
        }
      }
    }

    /** `mAnimator.cancel()`: the pending run, if any, ends through its end listener or is dropped. */
    method CancelAnimator()
      requires Valid()
      modifies this
      ensures Valid()
      ensures State() == KnobModel.CancelAnimator(old(State()))
      ensures animator == None
    {
      if animator.Some? {
        if cancelRunsEnd {
          OnAnimationEnd();
        } else {
          animator := None;
        }
      }
    }

    /** The update listener of the pending run, given the animated value `v`. */
    method OnAnimationUpdate(v: real)
      requires Valid()
      modifies this
      ensures Valid()
      ensures State() == AnimTick(old(State()), v)
    {
      if animator != None {
        var q := v;
        if q < 0.0 {
          q := 0.0;
        } else if q > 1.0 {
          q := 1.0;
        }
        progress := q;
        if hasListener {
          events := events + [ValueChanged(ValueOf(q, max), true)];
        }
        UpdateProgressText(true, progress);
      }
    }

    /** The end listener of the pending run. */
    method OnAnimationEnd()
      requires Valid()
      modifies this
      ensures Valid()
      ensures State() == AnimEnd(old(State()))
      ensures animator == None
    {
      if animator.Some? {
        var endOn := animator.value.endOn;
        animator := None;
        UpdateProgressText(on && enabled, originalProgress);
        if hasListener {
          events := events + [AnimationFinished(endOn)];
        }
      }
    }

    method OnSizeChanged(w: nat, h: nat)
      requires Valid()
      modifies this
      ensures Valid()
      ensures State() == KnobModel.OnSizeChanged(old(State()), w, h)
    {
      var size := if w > h then h else w;
      width := size;
    }

    /** `getDelta`: the drag step from the anchor to (x, y), in degrees. */
    function GetDelta(x: real, y: real): (d: real)
      requires IsArctanDegrees(atanDeg)
      reads this
      ensures -180.0 < d <= 180.0
      ensures var anchor := Angle(width, lastX, lastY, atanDeg); 0.0 <= anchor + d <= 360.0
    {
      Delta(Angle(width, x, y, atanDeg), Angle(width, lastX, lastY, atanDeg))
    }

    /** ACTION_DOWN. */
    method TouchDown(x: real, y: real)
      requires Valid()
      modifies this
      ensures Valid()
      ensures State() == KnobModel.TouchDown(old(State()), x, y)
    {
      if on {
        lastX := x;
        lastY := y;
      }
    }

    /** ACTION_MOVE. */
    method TouchMove(x: real, y: real)
      requires Valid()
      modifies this
      ensures Valid()
      ensures State() == KnobModel.TouchMove(old(State()), x, y, atanDeg)
    {
      ghost var s := State();
      if on {
        var center := (width / 2) as real;
        if moved || (x - center) * (x - center) + (y - center) * (y - center) > center * center / 4.0 {
          assert s.moved || !InDeadzone(s.width, x, y);
          var delta := GetDelta(x, y);
          // The remembered progress follows the SHOWN progress; of the two
          // clamps, the one at 100 cannot apply here (see DragStepBounded).
          originalProgress := ClampOriginal(progress + delta / 360.0);
          assert State() == s.(originalProgress := originalProgress);
          SetProgress(originalProgress, true);
          moved := true;
        } else {
          assert !s.moved && InDeadzone(s.width, x, y);
        }
        lastX := x;
        lastY := y;
      }
    }

    /** ACTION_UP; `approve` is the listener's answer if it is asked. */
    method TouchUp(approve: bool)
      requires Valid()
      modifies this
      ensures Valid()
      ensures State() == KnobModel.TouchUp(old(State()), approve)
    {
      if !moved {
        var approved := true;
        if hasListener {
          events := events + [SwitchRequested(!on)];
          approved := approve;
        }
        if approved {
          if enabled {
            SetOn(!on, true);
          }
        }
      }
      moved := false;
    }

    /** `onTouchEvent`: every event is consumed. */
    method OnTouchEvent(ev: MotionEvent, approve: bool) returns (handled: bool)
      requires Valid()
      modifies this
      ensures Valid()
      ensures State() == Touch(old(State()), ev, approve, atanDeg)
      ensures handled
    {
      match ev {
        case Down(x, y) => TouchDown(x, y);
        case Move(x, y) => TouchMove(x, y);
        case Up => TouchUp(approve);
        case OtherAction =>
      }
      handled := true;
    }
  }
}
