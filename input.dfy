/**
 * Pilot input: the keyboard handler steps each control surface by a fifth of
 * its travel per key press and changes thrust while a thrust key is held; the
 * gamepad handler maps stick positions outside a dead zone to deflections and
 * throttle changes. The action state the input library computes is given as a
 * value; the handlers update the aircraft's `control` and `thrust` in place.
 */
module Input {
  import opened Plane

  datatype Option<T> = None | Some(value: T)

  /** `PlaneAction`: keyboard keys, gamepad axes and camera views. */
  datatype PlaneAction =
    | RollLeft | RollRight | YawLeft | YawRight | PitchUp | PitchDown | ThrustUp | ThrustDown
    | Pitch | Roll | Throttle | Rudder
    | FollowBehind | FollowAbove | FollowSide | FollowInside

  /**
   * One frame's `ActionState<PlaneAction>`: which actions are held, which
   * started or stopped being held this frame, and each axis's value clamped
   * to [-1, 1] by the input library.
   */
  datatype ActionState = ActionState(
    pressed: set<PlaneAction>,
    justPressed: set<PlaneAction>,
    justReleased: set<PlaneAction>,
    clampedValue: PlaneAction -> real)

  /**
   * The parts of the plane's design the handlers read: the maximum deflection
   * of the wings' ailerons, the horizontal tail's elevators and the vertical
   * tail's rudder, and the maximum thrust.
   */
  datatype ControlLimits = ControlLimits(
    wingMaxAngle: real,
    horizontalMaxAngle: real,
    verticalMaxAngle: real,
    maxThrust: real)

  /**
   * `f32::clamp` panics unless its lower bound is at most its upper bound,
   * so every limit must be non-negative.
   */
  predicate LimitsValid(l: ControlLimits) {
    l.wingMaxAngle >= 0.0 && l.horizontalMaxAngle >= 0.0 && l.verticalMaxAngle >= 0.0 && l.maxThrust >= 0.0
  }

  /** Every deflection is within its surface's travel and thrust within [0, max]. */
  predicate WithinLimits(c: PlaneControl, thrust: real, l: ControlLimits) {
    -l.wingMaxAngle <= c.ailerons <= l.wingMaxAngle
    && -l.horizontalMaxAngle <= c.elevators <= l.horizontalMaxAngle
    && -l.verticalMaxAngle <= c.rudder <= l.verticalMaxAngle
    && 0.0 <= thrust <= l.maxThrust
  }

  /** `f32::clamp`: the bound that `x` passes, or `x` itself. */
  function Clamp(x: real, lo: real, hi: real): (r: real)
    requires lo <= hi
    ensures lo <= r <= hi
    ensures lo <= x <= hi ==> r == x
    ensures x < lo ==> r == lo
    ensures x > hi ==> r == hi
  {
    if x < lo then lo else if x > hi then hi else x
  }

  /** Number of key presses that take a surface from neutral to full deflection. */
  const StepsToFull: nat := 5

  /** The `inc_clamped` closure: one fifth of the travel up, within [-max, max]. */
  function IncClamped(current: real, maxAngle: real): (r: real)
    requires maxAngle >= 0.0
    ensures -maxAngle <= r <= maxAngle
    ensures current + maxAngle / 5.0 <= maxAngle && current >= -maxAngle ==> r == current + maxAngle / 5.0
    ensures current + maxAngle / 5.0 > maxAngle ==> r == maxAngle
    ensures current <= maxAngle ==> current <= r
  {
    Clamp(current + maxAngle / 5.0, -maxAngle, maxAngle)
  }

  /** The `dec_clamped` closure: one fifth of the travel down, within [-max, max]. */
  function DecClamped(current: real, maxAngle: real): (r: real)
    requires maxAngle >= 0.0
    ensures -maxAngle <= r <= maxAngle
    ensures current - maxAngle / 5.0 >= -maxAngle && current <= maxAngle ==> r == current - maxAngle / 5.0
    ensures current - maxAngle / 5.0 < -maxAngle ==> r == -maxAngle
    ensures current >= -maxAngle ==> r <= current
  {
    Clamp(current - maxAngle / 5.0, -maxAngle, maxAngle)
  }

  /** A decrement is an increment seen in a mirror. */
  lemma DecMirrorsInc(current: real, maxAngle: real)
    requires maxAngle >= 0.0
    ensures DecClamped(current, maxAngle) == -IncClamped(-current, maxAngle)
  {
  }

  /** Inside the travel, a press in one direction is undone by a press in the other. */
  lemma DecUndoesInc(current: real, maxAngle: real)
    requires -maxAngle <= current <= maxAngle - maxAngle / 5.0
    ensures DecClamped(IncClamped(current, maxAngle), maxAngle) == current
    ensures IncClamped(DecClamped(current + maxAngle / 5.0, maxAngle), maxAngle) == current + maxAngle / 5.0
  {
  }

  /** `n` successive increments from `current`. */
  function IncRepeated(current: real, maxAngle: real, n: nat): (r: real)
    requires maxAngle >= 0.0
    ensures n > 0 ==> -maxAngle <= r <= maxAngle
  {
    if n == 0 then current else IncClamped(IncRepeated(current, maxAngle, n - 1), maxAngle)
  }

  /**
   * From neutral, the k-th press (k at most five) deflects the surface by
   * k fifths of its travel.
   */
  lemma {:induction false} IncFromNeutral(maxAngle: real, k: nat)
    requires maxAngle >= 0.0 && k <= StepsToFull
    ensures IncRepeated(0.0, maxAngle, k) == (k as real) * (maxAngle / 5.0)
  {
    if k > 0 {
      IncFromNeutral(maxAngle, k - 1);
      var prev := IncRepeated(0.0, maxAngle, k - 1);
      assert prev == ((k - 1) as real) * (maxAngle / 5.0);
      assert prev + maxAngle / 5.0 == (k as real) * (maxAngle / 5.0);
      assert (k as real) * (maxAngle / 5.0) <= 5.0 * (maxAngle / 5.0) by {
        MulMonotone(k as real, 5.0, maxAngle / 5.0);
      }
    }
  }

  lemma MulMonotone(a: real, b: real, c: real)
    requires a <= b && c >= 0.0
    ensures a * c <= b * c
  {
  }

  /** Five presses from neutral give full deflection; further presses keep it there. */
  lemma {:induction false} FullDeflectionAfterFive(maxAngle: real, n: nat)
    requires maxAngle >= 0.0 && n >= StepsToFull
    ensures IncRepeated(0.0, maxAngle, n) == maxAngle
  {
    if n == StepsToFull {
      IncFromNeutral(maxAngle, StepsToFull);
    } else {
      FullDeflectionAfterFive(maxAngle, n - 1);
    }
  }

  // ---------------------------------------------------------------------
  // Keyboard
  // ---------------------------------------------------------------------

  /** A pair of keys handled in the order lower, then raise. */
  function LowerThenRaise(current: real, maxAngle: real, lower: bool, raise: bool): real
    requires maxAngle >= 0.0
  {
    var lowered := if lower then DecClamped(current, maxAngle) else current;
    if raise then IncClamped(lowered, maxAngle) else lowered
  }

  /** A pair of keys handled in the order raise, then lower. */
  function RaiseThenLower(current: real, maxAngle: real, raise: bool, lower: bool): real
    requires maxAngle >= 0.0
  {
    var raised := if raise then IncClamped(current, maxAngle) else current;
    if lower then DecClamped(raised, maxAngle) else raised
  }

  /**
   * The deflections after `handle_keyboard_input`: roll left/right lowers or
   * raises the ailerons, yaw left/right the rudder, and pitch down/up the
   * elevators, once per key press (not while held). Roll and yaw are
   * handled lower-then-raise, pitch raise-then-lower.
   */
  function KeyboardControl(c: PlaneControl, s: ActionState, l: ControlLimits): PlaneControl
    requires LimitsValid(l)
  {
    PlaneControl(
      LowerThenRaise(c.ailerons, l.wingMaxAngle, RollLeft in s.justPressed, RollRight in s.justPressed),
      RaiseThenLower(c.elevators, l.horizontalMaxAngle, PitchUp in s.justPressed, PitchDown in s.justPressed),
      LowerThenRaise(c.rudder, l.verticalMaxAngle, YawLeft in s.justPressed, YawRight in s.justPressed))
  }

  /**
   * The thrust after `handle_keyboard_input`: 50 per second gained or lost
   * while a thrust key is held, then clamped.
   */
  function KeyboardThrust(thrust: real, s: ActionState, l: ControlLimits, dt: real): real
    requires LimitsValid(l)
  {
    var raised := if ThrustUp in s.pressed then thrust + 50.0 * dt else thrust;
    var lowered := if ThrustDown in s.pressed then raised - 50.0 * dt else raised;
    Clamp(lowered, 0.0, l.maxThrust)
  }

  /**
   * `handle_keyboard_input`: without an action state nothing changes;
   * otherwise the keys just pressed step the deflections and the keys held
   * change the thrust.
   */
  method HandleKeyboardInput(state: Option<ActionState>, plane: Aircraft, l: ControlLimits, dt: real)
    requires LimitsValid(l)
    modifies plane`control, plane`thrust
    ensures state.None? ==> plane.control == old(plane.control) && plane.thrust == old(plane.thrust)
    ensures state.Some? ==> plane.control == KeyboardControl(old(plane.control), state.value, l)
    ensures state.Some? ==> plane.thrust == KeyboardThrust(old(plane.thrust), state.value, l, dt)
  {
    if state.None? {
      return;
    }
    var s := state.value;
    if RollLeft in s.justPressed {
      plane.control := plane.control.(ailerons := DecClamped(plane.control.ailerons, l.wingMaxAngle));
    }
    if RollRight in s.justPressed {
      plane.control := plane.control.(ailerons := IncClamped(plane.control.ailerons, l.wingMaxAngle));
    }
    if YawLeft in s.justPressed {
      plane.control := plane.control.(rudder := DecClamped(plane.control.rudder, l.verticalMaxAngle));
    }
    if YawRight in s.justPressed {
      plane.control := plane.control.(rudder := IncClamped(plane.control.rudder, l.verticalMaxAngle));
    }
    if PitchUp in s.justPressed {
      plane.control := plane.control.(elevators := IncClamped(plane.control.elevators, l.horizontalMaxAngle));
    }
    if PitchDown in s.justPressed {
      plane.control := plane.control.(elevators := DecClamped(plane.control.elevators, l.horizontalMaxAngle));
    }
    assert plane.control == KeyboardControl(old(plane.control), s, l);
    if ThrustUp in s.pressed {
      plane.thrust := plane.thrust + 50.0 * dt;
    }
    if ThrustDown in s.pressed {
      plane.thrust := plane.thrust - 50.0 * dt;
    }
    ghost var raised := if ThrustUp in s.pressed then old(plane.thrust) + 50.0 * dt else old(plane.thrust);
    assert plane.thrust == if ThrustDown in s.pressed then raised - 50.0 * dt else raised;
    plane.thrust := Clamp(plane.thrust, 0.0, l.maxThrust);
  }

  /** The keyboard never takes a deflection outside its travel or thrust outside [0, max]. */
  lemma KeyboardKeepsLimits(c: PlaneControl, thrust: real, s: ActionState, l: ControlLimits, dt: real)
    requires LimitsValid(l) && WithinLimits(c, thrust, l)
    ensures WithinLimits(KeyboardControl(c, s, l), KeyboardThrust(thrust, s, l, dt), l)
  {
  }

  /** Thrust ends within [0, max] whatever it was before. */
  lemma KeyboardThrustBounded(thrust: real, s: ActionState, l: ControlLimits, dt: real)
    requires LimitsValid(l)
    ensures 0.0 <= KeyboardThrust(thrust, s, l, dt) <= l.maxThrust
  {
  }

  /**
   * Which key moves which surface which way: with only roll left pressed the
   * ailerons go down by a step (or to the end of their travel) and nothing
   * else moves; likewise every other key.
   */
  lemma KeyDirections(c: PlaneControl, s: ActionState, l: ControlLimits)
    requires LimitsValid(l)
    ensures s.justPressed == {RollLeft} ==> KeyboardControl(c, s, l) == c.(ailerons := DecClamped(c.ailerons, l.wingMaxAngle))
    ensures s.justPressed == {RollRight} ==> KeyboardControl(c, s, l) == c.(ailerons := IncClamped(c.ailerons, l.wingMaxAngle))
    ensures s.justPressed == {YawLeft} ==> KeyboardControl(c, s, l) == c.(rudder := DecClamped(c.rudder, l.verticalMaxAngle))
    ensures s.justPressed == {YawRight} ==> KeyboardControl(c, s, l) == c.(rudder := IncClamped(c.rudder, l.verticalMaxAngle))
    ensures s.justPressed == {PitchUp} ==> KeyboardControl(c, s, l) == c.(elevators := IncClamped(c.elevators, l.horizontalMaxAngle))
    ensures s.justPressed == {PitchDown} ==> KeyboardControl(c, s, l) == c.(elevators := DecClamped(c.elevators, l.horizontalMaxAngle))
  {
  }

  /** Keys that are only held (not just pressed) leave the deflections alone. */
  lemma HeldKeysDoNotRepeat(c: PlaneControl, s: ActionState, l: ControlLimits)
    requires LimitsValid(l)
    requires RollLeft !in s.justPressed && RollRight !in s.justPressed
    requires YawLeft !in s.justPressed && YawRight !in s.justPressed
    requires PitchUp !in s.justPressed && PitchDown !in s.justPressed
    ensures KeyboardControl(c, s, l) == c
  {
  }

  /**
   * Pressing both keys of a pair in the same frame leaves an unclamped
   * deflection where it was.
   */
  lemma OpposingPressesCancel(c: PlaneControl, s: ActionState, l: ControlLimits)
    requires LimitsValid(l)
    requires {RollLeft, RollRight} <= s.justPressed
    requires -l.wingMaxAngle + l.wingMaxAngle / 5.0 <= c.ailerons <= l.wingMaxAngle
    ensures KeyboardControl(c, s, l).ailerons == c.ailerons
  {
    assert RollLeft in s.justPressed && RollRight in s.justPressed;
    DecUndoesInc(c.ailerons - l.wingMaxAngle / 5.0, l.wingMaxAngle);
  }

  /** Holding both thrust keys only clamps the thrust; holding neither does the same. */
  lemma OpposingThrustKeysCancel(thrust: real, s: ActionState, l: ControlLimits, dt: real)
    requires LimitsValid(l)
    requires (ThrustUp in s.pressed) == (ThrustDown in s.pressed)
    ensures KeyboardThrust(thrust, s, l, dt) == Clamp(thrust, 0.0, l.maxThrust)
  {
  }

  /** Holding thrust up for a frame adds 50 per second of frame time, up to the maximum. */
  lemma ThrustUpRate(thrust: real, s: ActionState, l: ControlLimits, dt: real)
    requires LimitsValid(l)
    requires ThrustUp in s.pressed && ThrustDown !in s.pressed
    requires 0.0 <= thrust + 50.0 * dt <= l.maxThrust
    ensures KeyboardThrust(thrust, s, l, dt) - thrust == 50.0 * dt
  {
  }

  // ---------------------------------------------------------------------
  // Gamepad
  // ---------------------------------------------------------------------

  /** `STICK_THRESHOLD`: the dead zone of every gamepad axis. */
  const StickThreshold: real := 0.2

  /** `f32::signum` on a non-NaN value: +1 for zero and positive values, -1 otherwise. */
  function Signum(v: real): (r: real)
    ensures v >= 0.0 ==> r == 1.0
    ensures v < 0.0 ==> r == -1.0
  {
    if v < 0.0 then -1.0 else 1.0
  }

  function Abs(v: real): (r: real)
    ensures r >= 0.0 && (r == v || r == -v)
  {
    if v < 0.0 then -v else v
  }

  /**
   * The `scaled_value` closure: an axis position outside the dead zone is
   * stretched so that the edge of the dead zone maps to 0 and full travel to
   * plus or minus 1.
   */
  function ScaledValue(v: real): real {
    Signum(v) * (Abs(v) - StickThreshold) / (1.0 - StickThreshold)
  }

  /** The stretch is odd: opposite stick positions give opposite values. */
  lemma ScaledValueOdd(v: real)
    requires v != 0.0
    ensures ScaledValue(-v) == -ScaledValue(v)
  {
    if v < 0.0 {
      assert ScaledValue(v) == -(-v - 0.2) / 0.8;
      assert ScaledValue(-v) == (-v - 0.2) / 0.8;
    } else {
      assert ScaledValue(v) == (v - 0.2) / 0.8;
      assert ScaledValue(-v) == -(v - 0.2) / 0.8;
    }
  }

  /** The edges of the dead zone map to 0 and full travel to plus or minus 1. */
  lemma ScaledValueEnds()
    ensures ScaledValue(StickThreshold) == 0.0 && ScaledValue(-StickThreshold) == 0.0
    ensures ScaledValue(1.0) == 1.0 && ScaledValue(-1.0) == -1.0
  {
    assert ScaledValue(1.0) == (1.0 - 0.2) / 0.8;
    assert ScaledValue(-1.0) == -(1.0 - 0.2) / 0.8;
  }

  /**
   * Outside the dead zone and within full travel, the stretched value has the
   * stick's sign and is at most 1 in size.
   */
  lemma ScaledValueRange(v: real)
    requires StickThreshold <= Abs(v) <= 1.0
    ensures v > 0.0 ==> 0.0 <= ScaledValue(v) <= 1.0
    ensures v < 0.0 ==> -1.0 <= ScaledValue(v) <= 0.0
  {
    if v < 0.0 {
      assert ScaledValue(v) == -(-v - 0.2) / 0.8;
    } else {
      assert ScaledValue(v) == (v - 0.2) / 0.8;
    }
  }

  /** Farther out, larger: on each side of the dead zone the stretch is increasing. */
  lemma ScaledValueMonotone(v: real, w: real)
    requires StickThreshold <= v <= w || w <= v <= -StickThreshold
    ensures v <= w ==> ScaledValue(v) <= ScaledValue(w)
    ensures w <= v ==> ScaledValue(w) <= ScaledValue(v)
  {
    if v >= StickThreshold {
      assert ScaledValue(v) == (v - 0.2) / 0.8;
      assert ScaledValue(w) == (w - 0.2) / 0.8;
    } else {
      assert ScaledValue(v) == -(-v - 0.2) / 0.8;
      assert ScaledValue(w) == -(-w - 0.2) / 0.8;
    }
  }

  /** The deflection commanded by a stick held at `v` on a surface of travel `maxAngle`. */
  function StickDeflection(v: real, maxAngle: real): real {
    ScaledValue(v) * maxAngle
  }

  /** A stick within full travel and outside the dead zone commands a deflection within the travel. */
  lemma StickDeflectionBounded(v: real, maxAngle: real)
    requires maxAngle >= 0.0 && StickThreshold <= Abs(v) <= 1.0
    ensures -maxAngle <= StickDeflection(v, maxAngle) <= maxAngle
  {
    ScaledValueRange(v);
    var s := ScaledValue(v);
    BoundedProduct(s, maxAngle);
    assert StickDeflection(v, maxAngle) == s * maxAngle;
  }

  lemma BoundedProduct(s: real, m: real)
    requires -1.0 <= s <= 1.0 && m >= 0.0
    ensures -m <= s * m <= m
  {
    MulMonotone(s, 1.0, m);
    MulMonotone(-1.0, s, m);
  }

  /** A control axis stopped being held this frame. */
  predicate AxisReleased(s: ActionState) {
    Pitch in s.justReleased || Roll in s.justReleased || Rudder in s.justReleased
  }

  /**
   * The deflections after `handle_gamepad_input`: a released axis first
   * returns all three surfaces to neutral; then every held axis sets its
   * surface from the stick position.
   */
  function GamepadControl(c: PlaneControl, s: ActionState, l: ControlLimits): PlaneControl {
    var base := if AxisReleased(s) then NeutralControl else c;
    PlaneControl(
      if Roll in s.pressed then StickDeflection(s.clampedValue(Roll), l.wingMaxAngle) else base.ailerons,
      if Pitch in s.pressed then StickDeflection(s.clampedValue(Pitch), l.horizontalMaxAngle) else base.elevators,
      if Rudder in s.pressed then StickDeflection(s.clampedValue(Rudder), l.verticalMaxAngle) else base.rudder)
  }

  /** The thrust after `handle_gamepad_input`: changed and clamped only while the throttle is held. */
  function GamepadThrust(thrust: real, s: ActionState, l: ControlLimits, dt: real): real
    requires l.maxThrust >= 0.0
  {
    if Throttle in s.pressed then Clamp(thrust + s.clampedValue(Throttle) * dt * 50.0, 0.0, l.maxThrust)
    else thrust
  }

  /**
   * `handle_gamepad_input`: without an action state nothing changes;
   * otherwise a released axis resets the controls, and the held axes set the
   * deflections and change the thrust.
   */
  method HandleGamepadInput(state: Option<ActionState>, plane: Aircraft, l: ControlLimits, dt: real)
    requires l.maxThrust >= 0.0
    modifies plane`control, plane`thrust
    ensures state.None? ==> plane.control == old(plane.control) && plane.thrust == old(plane.thrust)
    ensures state.Some? ==> plane.control == GamepadControl(old(plane.control), state.value, l)
    ensures state.Some? ==> plane.thrust == GamepadThrust(old(plane.thrust), state.value, l, dt)
  {
    if state.None? {
      return;
    }
    var s := state.value;
    if Pitch in s.justReleased || Roll in s.justReleased || Rudder in s.justReleased {
      plane.ClearControl();
    }
    ghost var base := if AxisReleased(s) then NeutralControl else old(plane.control);
    assert plane.control == base;
    if Pitch in s.pressed {
      plane.control := plane.control.(elevators := ScaledValue(s.clampedValue(Pitch)) * l.horizontalMaxAngle);
    }
    if Roll in s.pressed {
      plane.control := plane.control.(ailerons := ScaledValue(s.clampedValue(Roll)) * l.wingMaxAngle);
    }
    if Throttle in s.pressed {
      plane.thrust := plane.thrust + s.clampedValue(Throttle) * dt * 50.0;
      plane.thrust := Clamp(plane.thrust, 0.0, l.maxThrust);
    }
    assert plane.thrust == GamepadThrust(old(plane.thrust), s, l, dt);
    if Rudder in s.pressed {
      plane.control := plane.control.(rudder := ScaledValue(s.clampedValue(Rudder)) * l.verticalMaxAngle);
    }
    assert plane.control.ailerons == GamepadControl(old(plane.control), s, l).ailerons;
    assert plane.control.elevators == GamepadControl(old(plane.control), s, l).elevators;
  }

  /**
   * The input library reports an axis as held only outside its dead zone,
   * and clamps its value to [-1, 1].
   */
  predicate AxesCalibrated(s: ActionState) {
    forall a :: a in s.pressed && a in {Pitch, Roll, Rudder} ==> StickThreshold <= Abs(s.clampedValue(a)) <= 1.0
  }

  /** With calibrated axes the gamepad keeps every deflection in its travel and thrust in [0, max]. */
  lemma GamepadKeepsLimits(c: PlaneControl, thrust: real, s: ActionState, l: ControlLimits, dt: real)
    requires LimitsValid(l) && WithinLimits(c, thrust, l) && AxesCalibrated(s)
    ensures WithinLimits(GamepadControl(c, s, l), GamepadThrust(thrust, s, l, dt), l)
  {
    if Roll in s.pressed {
      StickDeflectionBounded(s.clampedValue(Roll), l.wingMaxAngle);
    }
    if Pitch in s.pressed {
      StickDeflectionBounded(s.clampedValue(Pitch), l.horizontalMaxAngle);
    }
    if Rudder in s.pressed {
      StickDeflectionBounded(s.clampedValue(Rudder), l.verticalMaxAngle);
    }
  }

  /** Thrust changes only while the throttle axis is held. */
  lemma ThrottleOnlyWhileHeld(thrust: real, s: ActionState, l: ControlLimits, dt: real)
    requires l.maxThrust >= 0.0
    ensures Throttle !in s.pressed ==> GamepadThrust(thrust, s, l, dt) == thrust
    ensures Throttle in s.pressed ==> 0.0 <= GamepadThrust(thrust, s, l, dt) <= l.maxThrust
  {
  }

  /**
   * Releasing an axis happens before the held axes are read: after a release
   * every surface whose axis is not held is neutral, and a held axis still
   * sets its own surface.
   */
  lemma ReleaseResetsFirst(c: PlaneControl, s: ActionState, l: ControlLimits)
    requires AxisReleased(s)
    ensures Roll !in s.pressed ==> GamepadControl(c, s, l).ailerons == 0.0
    ensures Pitch !in s.pressed ==> GamepadControl(c, s, l).elevators == 0.0
    ensures Rudder !in s.pressed ==> GamepadControl(c, s, l).rudder == 0.0
    ensures Pitch in s.pressed ==> GamepadControl(c, s, l).elevators == StickDeflection(s.clampedValue(Pitch), l.horizontalMaxAngle)
    ensures Pitch !in s.pressed && Roll !in s.pressed && Rudder !in s.pressed ==> GamepadControl(c, s, l) == NeutralControl
  {
  }

  /** With no axis released or held, the gamepad leaves the deflections alone. */
  lemma IdleGamepadKeepsControl(c: PlaneControl, s: ActionState, l: ControlLimits)
    requires !AxisReleased(s) && Pitch !in s.pressed && Roll !in s.pressed && Rudder !in s.pressed
    ensures GamepadControl(c, s, l) == c
  {
  }

  /** Full stick gives full deflection; a stick at the edge of the dead zone gives none. */
  lemma FullStickFullDeflection(maxAngle: real)
    ensures StickDeflection(1.0, maxAngle) == maxAngle
    ensures StickDeflection(-1.0, maxAngle) == -maxAngle
    ensures StickDeflection(StickThreshold, maxAngle) == 0.0
  {
    ScaledValueEnds();
  }
}
