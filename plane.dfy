/**
 * The per-tick flight-force rules of the aircraft.
 *
 * The aircraft entity's components (control deflections, thrust, airspeed,
 * the flight readout and the accumulated external force) are the fields of
 * the class `Aircraft`; its airfoil child entities are the records of the
 * array `airfoils`. Each engine system is a method that overwrites those
 * fields, proved equal to a function of the old state; the flight-model
 * properties are lemmas about those functions.
 */
module Plane {
  import opened Vectors

  datatype Side = Left | Right

  /** Where an airfoil sits on the airframe. */
  datatype AirfoilPosition =
    | WingLeft
    | WingRight
    | Aileron(side: Side)
    | HorizontalTailLeft
    | HorizontalTailRight
    | VerticalTail

  /** `Airfoil`: a lifting surface with its sampled lift-coefficient table. */
  datatype Airfoil = Airfoil(position: AirfoilPosition, area: real, liftCoefficientSamples: seq<real>)

  /** `PlaneControl`: the three control-surface deflections, in radians. */
  datatype PlaneControl = PlaneControl(ailerons: real, elevators: real, rudder: real)

  const NeutralControl := PlaneControl(0.0, 0.0, 0.0)

  /** `PlaneFlight`: readouts for the instruments. */
  datatype PlaneFlight = PlaneFlight(angleOfAttack: real, weight: real, drag: real)

  const DefaultFlight := PlaneFlight(0.0, 0.0, 0.0)

  /** `PlaneLimits`: the parts of the design the per-tick rules read. */
  datatype PlaneLimits = PlaneLimits(
    thrust: real,
    fuselage: Vec3,
    wingSpan: real,
    wingChord: real,
    wingOffsetZ: real,
    liftCoefficientSamples: seq<real>)

  /**
   * A local `Transform.rotation` as the systems set it: unrotated, or a
   * rotation by an angle about the local X or Y axis. Building the
   * quaternion itself is foreign code.
   */
  datatype Rotation = Unrotated | AboutX(angle: real) | AboutY(angle: real)

  /**
   * An airfoil child entity: the `Airfoil` component, its `GlobalTransform`
   * (computed by the engine before the tick), its local rotation, and its
   * `AngleOfAttack` and `Lift` components.
   */
  datatype AirfoilEntity = AirfoilEntity(
    airfoil: Airfoil,
    globalTransform: Pose,
    rotation: Rotation,
    angleOfAttack: real,
    lift: real)

  /** Sea-level air density, kg/m^3. */
  const AirDensity: real := 1.225

  /** The drag coefficient used for every airfoil. */
  const DragCoefficient: real := 0.032

  /** `f32::to_degrees` multiplies by this constant. */
  const DegreesPerRadian: real := 57.2957795130823208767981548141051703

  /** The largest `usize` on a 64-bit target. */
  const UsizeMax: nat := 0xFFFF_FFFF_FFFF_FFFF

  // ---------------------------------------------------------------------
  // Pure rules
  // ---------------------------------------------------------------------

  /** `Airfoil::up`: the local axis an airfoil lifts along. */
  function Up(a: Airfoil): Vec3 {
    match a.position
    case VerticalTail => UnitX
    case _ => UnitY
  }

  /** `Airfoil::force_base_dir`: the world direction an airfoil lifts along. */
  function ForceBaseDir(a: Airfoil, tx: Pose): Vec3 {
    match a.position
    case VerticalTail => tx.right
    case _ => tx.up
  }

  /**
   * The vertical tail lifts along X (the body's right vector), every other
   * airfoil along Y (the body's up vector); at the identity transform the
   * world direction is the local axis.
   */
  lemma LiftAxes(a: Airfoil, tx: Pose)
    ensures a.position == VerticalTail ==> Up(a) == UnitX && ForceBaseDir(a, tx) == tx.right
    ensures a.position != VerticalTail ==> Up(a) == UnitY && ForceBaseDir(a, tx) == tx.up
    ensures ForceBaseDir(a, IdentityPose) == Up(a)
  {
  }

  /**
   * `angle_of_attack`: the angle from the reference axis to the flight path
   * minus the angle from it to the nose.
   */
  function AngleOfAttack(m: ForeignMath, velocity: Vec3, up: Vec3, forward: Vec3): (r: real)
    ensures m.normalize(velocity) == forward ==> r == 0.0
    ensures r + m.angleBetween(up, forward) == m.angleBetween(up, m.normalize(velocity))
  {
    var a1 := m.angleBetween(up, forward);
    var a2 := m.angleBetween(up, m.normalize(velocity));
    a2 - a1
  }

  /** The airspeed read from a velocity: the translation cancels out. */
  function AirspeedOf(tx: Pose, linvel: Vec3): (r: real)
    ensures r == -linvel.z
  {
    var localVelocity := Sub(Add(tx.translation, linvel), tx.translation);
    -localVelocity.z
  }

  /** `as usize` on a float: truncation, with saturation at both ends. */
  function CastToUsize(x: real): (r: nat)
    ensures x <= 0.0 ==> r == 0
    ensures 0.0 <= x < UsizeMax as real ==> r as real <= x < r as real + 1.0
    ensures x >= UsizeMax as real ==> r == UsizeMax
    ensures r <= UsizeMax
  {
    if x < 0.0 then 0
    else if x >= UsizeMax as real then UsizeMax
    else x.Floor
  }

  /** The table index for an angle of attack (radians): degrees shifted by 90. */
  function LiftCoefficientIndex(angleOfAttack: real): nat {
    CastToUsize(angleOfAttack * DegreesPerRadian + 90.0)
  }

  /** Table lookup; an index past the end gives 0.0, not the last entry. */
  function LiftCoefficient(samples: seq<real>, index: nat): (r: real)
    ensures index < |samples| ==> r == samples[index]
    ensures index >= |samples| ==> r == 0.0
  {
    if index < |samples| then samples[index] else 0.0
  }

  /** `0.5 * rho * v^2`. */
  function DynamicPressure(airspeed: real): real {
    0.5 * AirDensity * airspeed * airspeed
  }

  function AirfoilAngleOfAttack(m: ForeignMath, e: AirfoilEntity, linvel: Vec3): real {
    AngleOfAttack(m, linvel, ForceBaseDir(e.airfoil, e.globalTransform), e.globalTransform.forward)
  }

  /** The lift magnitude of one airfoil: coefficient times pressure times area. */
  function AirfoilLift(m: ForeignMath, e: AirfoilEntity, linvel: Vec3, q: real): real {
    var index := LiftCoefficientIndex(AirfoilAngleOfAttack(m, e, linvel));
    LiftCoefficient(e.airfoil.liftCoefficientSamples, index) * q * e.airfoil.area
  }

  function AirfoilDrag(e: AirfoilEntity, q: real): real {
    DragCoefficient * q * e.airfoil.area
  }

  /** The drag force: against the flight path, and zero when standing still. */
  function DragForce(m: ForeignMath, linvel: Vec3, drag: real): (f: Vec3)
    ensures linvel == Zero || drag == 0.0 ==> f == Zero
  {
    Scale(Neg(NormalizeOrZero(m, linvel)), drag)
  }

  /** The lift of one airfoil as a force/torque pair about the centre of gravity. */
  function LiftWrench(m: ForeignMath, e: AirfoilEntity, linvel: Vec3, q: real, cog: Vec3): Wrench {
    var lift := AirfoilLift(m, e, linvel, q);
    AtPoint(Scale(ForceBaseDir(e.airfoil, e.globalTransform), lift), e.globalTransform.translation, cog)
  }

  /** What one airfoil adds: its lift wrench, and its drag to the force only. */
  function AirfoilWrench(m: ForeignMath, e: AirfoilEntity, linvel: Vec3, q: real, cog: Vec3): Wrench {
    AddWrench(LiftWrench(m, e, linvel, q, cog), Wrench(DragForce(m, linvel, AirfoilDrag(e, q)), Zero))
  }

  /** The wrench after adding every airfoil's contribution, in order, to `start`. */
  function AccumulateAirfoils(m: ForeignMath, start: Wrench, es: seq<AirfoilEntity>,
                              linvel: Vec3, q: real, cog: Vec3): Wrench
  {
    if es == [] then start
    else AddWrench(AccumulateAirfoils(m, start, es[..|es| - 1], linvel, q, cog),
                   AirfoilWrench(m, es[|es| - 1], linvel, q, cog))
  }

  /** Extending the prefix by one airfoil adds that airfoil's wrench. */
  lemma AccumulateStep(m: ForeignMath, start: Wrench, es: seq<AirfoilEntity>, i: nat,
                       linvel: Vec3, q: real, cog: Vec3)
    requires i < |es|
    ensures AccumulateAirfoils(m, start, es[..i + 1], linvel, q, cog)
      == AddWrench(AccumulateAirfoils(m, start, es[..i], linvel, q, cog), AirfoilWrench(m, es[i], linvel, q, cog))
  {
    assert es[..i + 1][..i] == es[..i];
    assert es[..i + 1][i] == es[i];
  }

  /** The same sum without drag: lift wrenches only. */
  function AccumulateLift(m: ForeignMath, start: Wrench, es: seq<AirfoilEntity>,
                          linvel: Vec3, q: real, cog: Vec3): Wrench
  {
    if es == [] then start
    else AddWrench(AccumulateLift(m, start, es[..|es| - 1], linvel, q, cog),
                   LiftWrench(m, es[|es| - 1], linvel, q, cog))
  }

  /** The summed drag magnitudes of the airfoils. */
  function TotalDrag(es: seq<AirfoilEntity>, q: real): real {
    if es == [] then 0.0 else TotalDrag(es[..|es| - 1], q) + AirfoilDrag(es[|es| - 1], q)
  }

  /** An airfoil entity after the force step has written its angle of attack and lift. */
  function Measured(m: ForeignMath, e: AirfoilEntity, linvel: Vec3, q: real): AirfoilEntity {
    e.(angleOfAttack := AirfoilAngleOfAttack(m, e, linvel), lift := AirfoilLift(m, e, linvel, q))
  }

  /** The thrust force/torque: along the nose, applied half a fuselage ahead of the origin. */
  function ThrustWrench(limits: PlaneLimits, thrust: real, tx: Pose, cog: Vec3): Wrench {
    var reset := NoWrench;
    AddWrench(reset, AtPoint(
      Scale(tx.forward, thrust),
      Add(tx.translation, Scale(tx.forward, limits.fuselage.z * 0.5)),
      cog))
  }

  /** `update_airfoil_rotations` for one child: tails follow elevators and rudder. */
  function ControlSurfaceRotated(e: AirfoilEntity, c: PlaneControl): AirfoilEntity {
    match e.airfoil.position
    case HorizontalTailLeft => e.(rotation := AboutX(c.elevators))
    case HorizontalTailRight => e.(rotation := AboutX(c.elevators))
    case VerticalTail => e.(rotation := AboutY(c.rudder))
    case _ => e
  }

  /** `update_ailerons` for one airfoil: the left aileron turns the opposite way. */
  function AileronRotated(e: AirfoilEntity, c: PlaneControl): AirfoilEntity {
    match e.airfoil.position
    case Aileron(Left) => e.(rotation := AboutX(-c.ailerons))
    case Aileron(Right) => e.(rotation := AboutX(c.ailerons))
    case _ => e
  }

  // ---------------------------------------------------------------------
  // The aircraft entity and its systems
  // ---------------------------------------------------------------------

  class Aircraft {
    var control: PlaneControl
    var thrust: real
    var airspeed: real
    var flight: PlaneFlight
    var externalForce: Wrench
    /** `GlobalTransform`, `Velocity::linvel` and `CentreOfGravity::global`: engine inputs. */
    var globalTransform: Pose
    var linvel: Vec3
    var centreOfGravity: Vec3
    const limits: PlaneLimits
    const airfoils: array<AirfoilEntity>

    /** The components `setup_plane` spawns the aircraft with. */
    constructor (limits: PlaneLimits, children: seq<AirfoilEntity>, tx: Pose)
      ensures this.limits == limits && airfoils[..] == children && fresh(airfoils)
      ensures control == NeutralControl && thrust == 0.0 && airspeed == 0.0
      ensures flight == DefaultFlight && externalForce == NoWrench
      ensures globalTransform == tx && linvel == Zero && centreOfGravity == Zero
    {
      this.limits := limits;
      airfoils := new AirfoilEntity[|children|](i requires 0 <= i < |children| => children[i]);
      control := NeutralControl;
      thrust := 0.0;
      airspeed := 0.0;
      flight := DefaultFlight;
      externalForce := NoWrench;
      globalTransform := tx;
      linvel := Zero;
      centreOfGravity := Zero;
    }

    /** `PlaneControl::clear`: all three deflections back to 0. */
    method ClearControl()
      modifies this`control
      ensures control == NeutralControl
    {
      control := PlaneControl(0.0, 0.0, 0.0);
    }

    method UpdateAirfoilRotations()
      modifies airfoils
      ensures forall i :: 0 <= i < airfoils.Length ==>
        airfoils[i] == ControlSurfaceRotated(old(airfoils[i]), control)
    {
      var i := 0;
      while i < airfoils.Length
        invariant i <= airfoils.Length
        invariant forall j :: 0 <= j < i ==> airfoils[j] == ControlSurfaceRotated(old(airfoils[j]), control)
        invariant forall j :: i <= j < airfoils.Length ==> airfoils[j] == old(airfoils[j])
      {
        var e := airfoils[i];
        match e.airfoil.position {
          case HorizontalTailLeft =>
            airfoils[i] := e.(rotation := AboutX(control.elevators));
          case HorizontalTailRight =>
            airfoils[i] := e.(rotation := AboutX(control.elevators));
          case VerticalTail =>
            airfoils[i] := e.(rotation := AboutY(control.rudder));
          case _ =>
        }
        i := i + 1;
      }
    }

    method UpdateAilerons()
      modifies airfoils
      ensures forall i :: 0 <= i < airfoils.Length ==>
        airfoils[i] == AileronRotated(old(airfoils[i]), control)
    {
      var i := 0;
      while i < airfoils.Length
        invariant i <= airfoils.Length
        invariant forall j :: 0 <= j < i ==> airfoils[j] == AileronRotated(old(airfoils[j]), control)
        invariant forall j :: i <= j < airfoils.Length ==> airfoils[j] == old(airfoils[j])
      {
        var e := airfoils[i];
        match e.airfoil.position {
          case Aileron(side) =>
            match side {
              case Left => airfoils[i] := e.(rotation := AboutX(-control.ailerons));
              case Right => airfoils[i] := e.(rotation := AboutX(control.ailerons));
            }
          case _ =>
        }
        i := i + 1;
      }
    }

    method UpdateAirspeed()
      modifies this`airspeed
      ensures airspeed == AirspeedOf(globalTransform, linvel)
      ensures airspeed == -linvel.z
    {
      airspeed := AirspeedOf(globalTransform, linvel);
    }

    method UpdateThrustForces()
      modifies this`externalForce
      ensures externalForce == ThrustWrench(limits, thrust, globalTransform, centreOfGravity)
      ensures externalForce.force == Scale(globalTransform.forward, thrust)
    {
      externalForce := externalForce.(force := Zero);
      externalForce := externalForce.(torque := Zero);
      externalForce := AddWrench(externalForce, AtPoint(
        Scale(globalTransform.forward, thrust),
        Add(globalTransform.translation, Scale(globalTransform.forward, limits.fuselage.z * 0.5)),
        centreOfGravity));
    }

    method UpdateAirfoilForces(m: ForeignMath)
      modifies this`externalForce, this`flight, airfoils
      ensures var q := DynamicPressure(airspeed);
        externalForce == AccumulateAirfoils(m, old(externalForce), old(airfoils[..]), linvel, q, centreOfGravity)
      ensures forall i :: 0 <= i < airfoils.Length ==>
        airfoils[i] == Measured(m, old(airfoils[i]), linvel, DynamicPressure(airspeed))
      ensures flight == if airfoils.Length == 0 then old(flight)
        else old(flight).(drag := AirfoilDrag(old(airfoils[airfoils.Length - 1]), DynamicPressure(airspeed)))
    {
      var airDensity := 1.225;
      var dynamicPressure := 0.5 * airDensity * airspeed * airspeed;
      assert dynamicPressure == DynamicPressure(airspeed);
      ghost var es := airfoils[..];
      var i := 0;
      while i < airfoils.Length
        invariant i <= airfoils.Length
        invariant externalForce == AccumulateAirfoils(m, old(externalForce), es[..i], linvel, dynamicPressure, centreOfGravity)
        invariant forall j :: 0 <= j < i ==> airfoils[j] == Measured(m, es[j], linvel, dynamicPressure)
        invariant forall j :: i <= j < airfoils.Length ==> airfoils[j] == es[j]
        invariant flight == if i == 0 then old(flight) else old(flight).(drag := AirfoilDrag(es[i - 1], dynamicPressure))
      {
        var measured, force, drag := AirfoilForces(m, airfoils[i], externalForce, linvel, dynamicPressure, centreOfGravity);
        airfoils[i] := measured;
        externalForce := force;
        flight := flight.(drag := drag);
        AccumulateStep(m, old(externalForce), es, i, linvel, dynamicPressure, centreOfGravity);
        i := i + 1;
      }
      assert es[..i] == es;
    }

    /** The body of the force loop for one airfoil. */
    static method AirfoilForces(m: ForeignMath, e: AirfoilEntity, externalForce: Wrench, linvel: Vec3,
                                dynamicPressure: real, centreOfGravity: Vec3)
      returns (measured: AirfoilEntity, force: Wrench, drag: real)
      ensures measured == Measured(m, e, linvel, dynamicPressure)
      ensures force == AddWrench(externalForce, AirfoilWrench(m, e, linvel, dynamicPressure, centreOfGravity))
      ensures drag == AirfoilDrag(e, dynamicPressure)
    {
      var angleOfAttack := AngleOfAttack(m, linvel, ForceBaseDir(e.airfoil, e.globalTransform), e.globalTransform.forward);
      var index := CastToUsize(angleOfAttack * DegreesPerRadian + 90.0);
      var liftCoefficient := LiftCoefficient(e.airfoil.liftCoefficientSamples, index);
      var lift := liftCoefficient * dynamicPressure * e.airfoil.area;
      measured := e.(angleOfAttack := angleOfAttack, lift := lift);

      assert lift == AirfoilLift(m, e, linvel, dynamicPressure);
      force := AddWrench(externalForce, AtPoint(
        Scale(ForceBaseDir(e.airfoil, e.globalTransform), lift),
        e.globalTransform.translation,
        centreOfGravity));

      var dragCoefficient := 0.032;
      drag := dragCoefficient * dynamicPressure * e.airfoil.area;
      assert drag == AirfoilDrag(e, dynamicPressure);
      force := force.(force := Add(force.force, Scale(Neg(NormalizeOrZero(m, linvel)), drag)));
      AirfoilStep(m, externalForce, e, linvel, dynamicPressure, centreOfGravity, lift, drag);
    }

    /**
     * One tick of the chained flight systems, in their registered order
     * (the cosmetic propeller spin is left out).
     */
    method Tick(m: ForeignMath)
      modifies this`externalForce, this`flight, this`airspeed, airfoils
      ensures airspeed == -linvel.z
      ensures externalForce == AccumulateAirfoils(m,
        ThrustWrench(limits, thrust, globalTransform, centreOfGravity),
        Rotated(old(airfoils[..]), control), linvel, DynamicPressure(-linvel.z), centreOfGravity)
      ensures forall i :: 0 <= i < airfoils.Length ==>
        airfoils[i] == Measured(m, Rotated(old(airfoils[..]), control)[i], linvel, DynamicPressure(-linvel.z))
      ensures flight == if airfoils.Length == 0 then old(flight)
        else old(flight).(drag := AirfoilDrag(Rotated(old(airfoils[..]), control)[airfoils.Length - 1],
                                              DynamicPressure(-linvel.z)))
    {
      UpdateAirfoilRotations();
      UpdateAilerons();
      assert airfoils[..] == Rotated(old(airfoils[..]), control);
      UpdateAirspeed();
      UpdateThrustForces();
      UpdateAirfoilForces(m);
    }
  }

  /**
   * One pass of the force loop body, as written (lift at the airfoil, then
   * drag added to the force only), adds exactly that airfoil's wrench.
   */
  lemma AirfoilStep(m: ForeignMath, w: Wrench, e: AirfoilEntity, linvel: Vec3, q: real, cog: Vec3,
                    lift: real, drag: real)
    requires lift == AirfoilLift(m, e, linvel, q) && drag == AirfoilDrag(e, q)
    ensures var lifted := AddWrench(w, AtPoint(Scale(ForceBaseDir(e.airfoil, e.globalTransform), lift),
                                               e.globalTransform.translation, cog));
      lifted.(force := Add(lifted.force, Scale(Neg(NormalizeOrZero(m, linvel)), drag)))
        == AddWrench(w, AirfoilWrench(m, e, linvel, q, cog))
  {
  }

  /** Both rotation systems applied to every child. */
  function Rotated(es: seq<AirfoilEntity>, c: PlaneControl): (r: seq<AirfoilEntity>)
    ensures |r| == |es|
  {
    seq(|es|, i requires 0 <= i < |es| => AileronRotated(ControlSurfaceRotated(es[i], c), c))
  }

  // ---------------------------------------------------------------------
  // Properties
  // ---------------------------------------------------------------------

  /**
   * The rotation systems set rotations rather than accumulate them: each
   * controlled surface's rotation is a function of the control alone, the
   * left and right ailerons turn by opposite angles, applying the systems
   * twice is the same as once, and other airfoils are left untouched.
   */
  lemma RotationsFollowControl(e: AirfoilEntity, c: PlaneControl)
    ensures var r := AileronRotated(ControlSurfaceRotated(e, c), c);
      && r.airfoil == e.airfoil && r.globalTransform == e.globalTransform
      && r.angleOfAttack == e.angleOfAttack && r.lift == e.lift
      && (e.airfoil.position in {HorizontalTailLeft, HorizontalTailRight} ==> r.rotation == AboutX(c.elevators))
      && (e.airfoil.position == VerticalTail ==> r.rotation == AboutY(c.rudder))
      && (e.airfoil.position == Aileron(Left) ==> r.rotation == AboutX(-c.ailerons))
      && (e.airfoil.position == Aileron(Right) ==> r.rotation == AboutX(c.ailerons))
      && (e.airfoil.position in {WingLeft, WingRight} ==> r == e)
      && AileronRotated(ControlSurfaceRotated(r, c), c) == r
  {
  }

  /** One airfoil's contribution is its lift wrench plus a torque-free drag force. */
  lemma AirfoilWrenchSplit(m: ForeignMath, e: AirfoilEntity, linvel: Vec3, q: real, cog: Vec3)
    ensures AirfoilWrench(m, e, linvel, q, cog)
      == AddWrench(LiftWrench(m, e, linvel, q, cog),
                   Wrench(Scale(Neg(NormalizeOrZero(m, linvel)), AirfoilDrag(e, q)), Zero))
  {
  }

  /** Drag never adds torque: the accumulated torque is that of the lift forces alone. */
  lemma {:induction false} AccumulatedTorque(m: ForeignMath, start: Wrench, es: seq<AirfoilEntity>,
                                             linvel: Vec3, q: real, cog: Vec3)
    ensures AccumulateAirfoils(m, start, es, linvel, q, cog).torque
      == AccumulateLift(m, start, es, linvel, q, cog).torque
  {
    if es != [] {
      AccumulatedTorque(m, start, es[..|es| - 1], linvel, q, cog);
      AirfoilWrenchSplit(m, es[|es| - 1], linvel, q, cog);
    }
  }

  /**
   * The accumulated force is the sum of the lift forces plus one drag force,
   * against the flight path, whose magnitude is the sum of the airfoils' drags.
   */
  lemma {:induction false} AccumulatedForce(m: ForeignMath, start: Wrench, es: seq<AirfoilEntity>,
                                            linvel: Vec3, q: real, cog: Vec3)
    ensures AccumulateAirfoils(m, start, es, linvel, q, cog).force
      == Add(AccumulateLift(m, start, es, linvel, q, cog).force,
             DragForce(m, linvel, TotalDrag(es, q)))
  {
    if es != [] {
      AccumulatedForce(m, start, es[..|es| - 1], linvel, q, cog);
      AccumulatedTorque(m, start, es[..|es| - 1], linvel, q, cog);
      AirfoilWrenchSplit(m, es[|es| - 1], linvel, q, cog);
      StepSplit(AccumulateAirfoils(m, start, es[..|es| - 1], linvel, q, cog),
                AccumulateLift(m, start, es[..|es| - 1], linvel, q, cog),
                LiftWrench(m, es[|es| - 1], linvel, q, cog),
                Neg(NormalizeOrZero(m, linvel)),
                TotalDrag(es[..|es| - 1], q),
                AirfoilDrag(es[|es| - 1], q));
    }
  }

  lemma StepSplit(all: Wrench, lifts: Wrench, lw: Wrench, n: Vec3, a: real, b: real)
    requires all.force == Add(lifts.force, Scale(n, a)) && all.torque == lifts.torque
    ensures AddWrench(all, AddWrench(lw, Wrench(Scale(n, b), Zero))).force
      == Add(AddWrench(lifts, lw).force, Scale(n, a + b))
    ensures AddWrench(all, AddWrench(lw, Wrench(Scale(n, b), Zero))).torque
      == AddWrench(lifts, lw).torque
  {
    ScaleAdd(n, a, b);
  }

  lemma ScaleAdd(n: Vec3, a: real, b: real)
    ensures Add(Scale(n, a), Scale(n, b)) == Scale(n, a + b)
  {
    assert n.x * a + n.x * b == n.x * (a + b);
    assert n.y * a + n.y * b == n.y * (a + b);
    assert n.z * a + n.z * b == n.z * (a + b);
  }

  function SumArea(es: seq<AirfoilEntity>): real {
    if es == [] then 0.0 else SumArea(es[..|es| - 1]) + es[|es| - 1].airfoil.area
  }

  /** The total drag is the drag of one airfoil with the summed area of all of them. */
  lemma {:induction false} TotalDragByArea(es: seq<AirfoilEntity>, q: real)
    ensures TotalDrag(es, q) == DragCoefficient * q * SumArea(es)
  {
    if es != [] {
      TotalDragByArea(es[..|es| - 1], q);
      DragDistributes(DragCoefficient * q, SumArea(es[..|es| - 1]), es[|es| - 1].airfoil.area);
    }
  }

  lemma DragDistributes(k: real, s: real, a: real)
    ensures k * s + k * a == k * (s + a)
  {
  }

  lemma ZeroProduct(a: real, b: real)
    ensures a * 0.0 * b == 0.0
  {
  }

  /** With no dynamic pressure an airfoil produces no lift, no drag and no torque. */
  lemma NoPressureAirfoil(m: ForeignMath, e: AirfoilEntity, linvel: Vec3, cog: Vec3)
    ensures AirfoilLift(m, e, linvel, 0.0) == 0.0
    ensures AirfoilDrag(e, 0.0) == 0.0
  {
    ZeroProduct(LiftCoefficient(e.airfoil.liftCoefficientSamples, LiftCoefficientIndex(AirfoilAngleOfAttack(m, e, linvel))),
                e.airfoil.area);
    ZeroProduct(DragCoefficient, e.airfoil.area);
  }

  /** With no dynamic pressure an airfoil adds no force and no torque. */
  lemma NoPressureWrench(m: ForeignMath, e: AirfoilEntity, linvel: Vec3, cog: Vec3)
    ensures AirfoilWrench(m, e, linvel, 0.0, cog) == NoWrench
  {
    NoPressureAirfoil(m, e, linvel, cog);
    assert Scale(ForceBaseDir(e.airfoil, e.globalTransform), 0.0) == Zero;
    assert Scale(Neg(NormalizeOrZero(m, linvel)), 0.0) == Zero;
  }

  /** With no dynamic pressure the airfoils add nothing to the accumulated wrench. */
  lemma {:induction false} NoPressureNoAerodynamics(m: ForeignMath, start: Wrench, es: seq<AirfoilEntity>,
                                                    linvel: Vec3, cog: Vec3)
    ensures AccumulateAirfoils(m, start, es, linvel, 0.0, cog) == start
  {
    if es != [] {
      NoPressureNoAerodynamics(m, start, es[..|es| - 1], linvel, cog);
      NoPressureWrench(m, es[|es| - 1], linvel, cog);
    }
  }

  /**
   * The thrust step leaves exactly one contribution: the force
   * `forward * thrust`; its torque vanishes whenever the centre of gravity
   * lies on the thrust line, and no thrust means no force and no torque.
   */
  lemma ThrustOnAxis(limits: PlaneLimits, thrust: real, tx: Pose, s: real)
    ensures var w := ThrustWrench(limits, thrust, tx, Add(tx.translation, Scale(tx.forward, s)));
      w.force == Scale(tx.forward, thrust) && w.torque == Zero
    ensures ThrustWrench(limits, 0.0, tx, Add(tx.translation, Scale(tx.forward, s))) == NoWrench
  {
    var p := Add(tx.translation, Scale(tx.forward, limits.fuselage.z * 0.5));
    var c := Add(tx.translation, Scale(tx.forward, s));
    assert Sub(p, c) == Scale(tx.forward, limits.fuselage.z * 0.5 - s);
    CrossParallel(tx.forward, limits.fuselage.z * 0.5 - s, thrust);
  }

  /**
   * The table index is the angle in degrees plus 90, truncated: angles below
   * -90 degrees read entry 0, and any index at or past the end of the table
   * reads 0.0 rather than the last entry.
   */
  lemma LiftTableLookup(samples: seq<real>, angleOfAttack: real)
    ensures var d := angleOfAttack * DegreesPerRadian + 90.0; var i := LiftCoefficientIndex(angleOfAttack);
      && (d <= 0.0 ==> i == 0)
      && (0.0 <= d < UsizeMax as real ==> i as real <= d < i as real + 1.0)
      && (i >= |samples| ==> LiftCoefficient(samples, i) == 0.0)
      && (0.0 <= d < 180.0 && |samples| == 180 ==> i < 180 && LiftCoefficient(samples, i) == samples[i])
  {
  }

  /**
   * The end-to-end scenario: an airfoil flying straight along its nose at
   * 60 m/s, with 0.35 at table index 90 and an area of 8.25 m^2, lifts
   * 0.35 * 0.5 * 1.225 * 60^2 * 8.25 = 6366.9375 N.
   */
  lemma LiftScenario(m: ForeignMath, e: AirfoilEntity, linvel: Vec3)
    requires m.normalize(linvel) == e.globalTransform.forward
    requires |e.airfoil.liftCoefficientSamples| == 180 && e.airfoil.liftCoefficientSamples[90] == 0.35
    requires e.airfoil.area == 8.25
    ensures AirfoilLift(m, e, linvel, DynamicPressure(60.0)) == 6366.9375
  {
    assert AirfoilAngleOfAttack(m, e, linvel) == 0.0;
    assert LiftCoefficientIndex(0.0) == 90;
  }

  /**
   * A tick at rest: with zero velocity the only force and torque left are
   * the thrust's.
   */
  lemma AtRestOnlyThrust(m: ForeignMath, limits: PlaneLimits, thrust: real, tx: Pose, cog: Vec3,
                         es: seq<AirfoilEntity>)
    ensures AccumulateAirfoils(m, ThrustWrench(limits, thrust, tx, cog), es, Zero, DynamicPressure(-Zero.z), cog)
      == ThrustWrench(limits, thrust, tx, cog)
  {
    assert DynamicPressure(-Zero.z) == 0.0;
    NoPressureNoAerodynamics(m, ThrustWrench(limits, thrust, tx, cog), es, Zero, cog);
  }
}
