/**
 * Three-dimensional vectors over the reals, world poses and force/torque
 * pairs: the small part of the engine's math library that the flight model
 * relies on. `f32` is modelled as `real`; rounding and NaN are not modelled.
 */
module Vectors {

  datatype Vec3 = Vec3(x: real, y: real, z: real)

  const Zero := Vec3(0.0, 0.0, 0.0)
  const UnitX := Vec3(1.0, 0.0, 0.0)
  const UnitY := Vec3(0.0, 1.0, 0.0)

  function Add(a: Vec3, b: Vec3): Vec3 {
    Vec3(a.x + b.x, a.y + b.y, a.z + b.z)
  }

  function Sub(a: Vec3, b: Vec3): Vec3 {
    Vec3(a.x - b.x, a.y - b.y, a.z - b.z)
  }

  function Neg(a: Vec3): Vec3 {
    Vec3(-a.x, -a.y, -a.z)
  }

  function Scale(a: Vec3, s: real): Vec3 {
    Vec3(a.x * s, a.y * s, a.z * s)
  }

  function Cross(a: Vec3, b: Vec3): Vec3 {
    Vec3(a.y * b.z - a.z * b.y, a.z * b.x - a.x * b.z, a.x * b.y - a.y * b.x)
  }

  /**
   * The operations the flight model takes from foreign code and does not
   * define: `Vec3::angle_between` (an arccosine) and `Vec3::normalize`.
   * They are passed as parameters and nothing is assumed about them.
   */
  datatype ForeignMath = ForeignMath(angleBetween: (Vec3, Vec3) -> real, normalize: Vec3 -> Vec3)

  /** `Vec3::normalize_or_zero`: the zero vector stays zero instead of becoming NaN. */
  function NormalizeOrZero(m: ForeignMath, v: Vec3): (r: Vec3)
    ensures v == Zero ==> r == Zero
    ensures v != Zero ==> r == m.normalize(v)
  {
    if v == Zero then Zero else m.normalize(v)
  }

  /**
   * A `GlobalTransform` as the flight model sees it: its translation and the
   * world-space directions of the local -Z (forward), +Y (up) and +X (right)
   * axes. How these are derived from a rotation is foreign code.
   */
  datatype Pose = Pose(translation: Vec3, forward: Vec3, up: Vec3, right: Vec3)

  /** The identity transform: forward is -Z, up is +Y and right is +X. */
  const IdentityPose := Pose(Zero, Vec3(0.0, 0.0, -1.0), UnitY, UnitX)

  /** Rapier's `ExternalForce`: a force and a torque about the centre of mass. */
  datatype Wrench = Wrench(force: Vec3, torque: Vec3)

  const NoWrench := Wrench(Zero, Zero)

  /** `ExternalForce::add_assign`: forces and torques add separately. */
  function AddWrench(a: Wrench, b: Wrench): Wrench {
    Wrench(Add(a.force, b.force), Add(a.torque, b.torque))
  }

  /**
   * `ExternalForce::at_point`: a force applied at `point` is equivalent to the
   * same force at the centre of mass plus the torque `(point - centre) x force`.
   */
  function AtPoint(force: Vec3, point: Vec3, centre: Vec3): (w: Wrench)
    ensures w.force == force
    ensures point == centre ==> w.torque == Zero
    ensures force == Zero ==> w.torque == Zero
  {
    Wrench(force, Cross(Sub(point, centre), force))
  }

  /** Cross product distributes over addition on the right. */
  lemma CrossAddRight(r: Vec3, f: Vec3, g: Vec3)
    ensures Cross(r, Add(f, g)) == Add(Cross(r, f), Cross(r, g))
  {
  }

  /** A force parallel to its lever arm produces no torque. */
  lemma CrossParallel(d: Vec3, s: real, t: real)
    ensures Cross(Scale(d, s), Scale(d, t)) == Zero
  {
    assert d.y * s * (d.z * t) == d.z * s * (d.y * t);
    assert d.z * s * (d.x * t) == d.x * s * (d.z * t);
    assert d.x * s * (d.y * t) == d.y * s * (d.x * t);
  }

  /**
   * Point-force decomposition is linear: two forces applied at the same point
   * add up to the decomposition of their sum, so applying `f` twice at `p`
   * is the same as applying `2 f` at `p`.
   */
  lemma AtPointLinear(f: Vec3, g: Vec3, p: Vec3, c: Vec3)
    ensures AddWrench(AtPoint(f, p, c), AtPoint(g, p, c)) == AtPoint(Add(f, g), p, c)
    ensures AddWrench(AtPoint(f, p, c), AtPoint(f, p, c)) == AtPoint(Scale(f, 2.0), p, c)
  {
    CrossAddRight(Sub(p, c), f, g);
    CrossAddRight(Sub(p, c), f, f);
    assert Add(f, f) == Scale(f, 2.0);
  }
}
