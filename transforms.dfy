/**
 Rigid transforms as the scene source and the viewer exchange them: a
 translation and a unit quaternion (x, y, z, w), the layout of a ROS
 `geometry_msgs/Pose`. Composition follows Drake's `RigidTransform`
 product: `Compose(X_AB, X_BC)` is `X_AC`.
 */
module Transforms {

  datatype Vector3 = Vector3(x: real, y: real, z: real)

  datatype Quaternion = Quaternion(x: real, y: real, z: real, w: real)

  datatype Pose = Pose(position: Vector3, orientation: Quaternion)

  const Zero: Vector3 := Vector3(0.0, 0.0, 0.0)

  const IdentityRotation: Quaternion := Quaternion(0.0, 0.0, 0.0, 1.0)

  /** The identity transform: no translation, no rotation. */
  const Identity: Pose := Pose(Zero, IdentityRotation)

  function Add(u: Vector3, v: Vector3): Vector3 {
    Vector3(u.x + v.x, u.y + v.y, u.z + v.z)
  }

  function Scale(k: real, v: Vector3): Vector3 {
    Vector3(k * v.x, k * v.y, k * v.z)
  }

  function Cross(u: Vector3, v: Vector3): Vector3 {
    Vector3(u.y * v.z - u.z * v.y, u.z * v.x - u.x * v.z, u.x * v.y - u.y * v.x)
  }

  /** The vector part of a quaternion. */
  function Axis(q: Quaternion): Vector3 {
    Vector3(q.x, q.y, q.z)
  }

  predicate IsUnit(q: Quaternion) {
    q.x * q.x + q.y * q.y + q.z * q.z + q.w * q.w == 1.0
  }

  /** Hamilton product `p * q`: the rotation `q` followed by `p`. */
  function Multiply(p: Quaternion, q: Quaternion): Quaternion {
    Quaternion(
      p.w * q.x + p.x * q.w + p.y * q.z - p.z * q.y,
      p.w * q.y - p.x * q.z + p.y * q.w + p.z * q.x,
      p.w * q.z + p.x * q.y - p.y * q.x + p.z * q.w,
      p.w * q.w - p.x * q.x - p.y * q.y - p.z * q.z)
  }

  /** Rotates `v` by the unit quaternion `q`: v + 2w(u x v) + 2u x (u x v). */
  function Rotate(q: Quaternion, v: Vector3): Vector3 {
    var u := Axis(q);
    Add(v, Add(Scale(2.0 * q.w, Cross(u, v)), Scale(2.0, Cross(u, Cross(u, v)))))
  }

  /** The rigid transform `a * b`: first `b`, then `a`. */
  function Compose(a: Pose, b: Pose): Pose {
    Pose(Add(a.position, Rotate(a.orientation, b.position)),
         Multiply(a.orientation, b.orientation))
  }

  /** A pure translation by `d` along the z axis. */
  function TranslateZ(d: real): Pose {
    Pose(Vector3(0.0, 0.0, d), IdentityRotation)
  }

  /**
   The local z axis of the frame rotated by `q`, written out as the third
   column of the rotation matrix of a unit quaternion. An independent
   reference for `Rotate(q, (0, 0, 1))`.
   */
  function LocalZAxis(q: Quaternion): Vector3 {
    Vector3(2.0 * (q.x * q.z + q.w * q.y),
            2.0 * (q.y * q.z - q.w * q.x),
            1.0 - 2.0 * (q.x * q.x + q.y * q.y))
  }

  /**
   The pose `p` moved by `d` along its own z axis, written with the
   closed-form axis; `OffsetZIsCompose` shows it is `p * TranslateZ(d)`.
   */
  function OffsetZ(p: Pose, d: real): Pose {
    Pose(Add(p.position, Scale(d, LocalZAxis(p.orientation))), p.orientation)
  }

  function Dot(u: Vector3, v: Vector3): real {
    u.x * v.x + u.y * v.y + u.z * v.z
  }

  function Sub(u: Vector3, v: Vector3): Vector3 {
    Vector3(u.x - v.x, u.y - v.y, u.z - v.z)
  }

  lemma MultiplyIdentityRight(q: Quaternion)
    ensures Multiply(q, IdentityRotation) == q
  {
  }

  /** Rotating a vector along z gives that multiple of the local z axis. */
  lemma RotateAlongZ(q: Quaternion, d: real)
    ensures Rotate(q, Vector3(0.0, 0.0, d)) == Scale(d, LocalZAxis(q))
  {
    RotateAlongZExpanded(q, d);
    RotateAlongZComponents(q, d);
  }

  /** `Rotate` unfolded for a vector along z into the `AlongZ` polynomials. */
  lemma RotateAlongZExpanded(q: Quaternion, d: real)
    ensures Rotate(q, Vector3(0.0, 0.0, d)) == AlongZ(q, d)
  {
    var v := Vector3(0.0, 0.0, d);
    var u := Axis(q);
    var c := Vector3(q.y * d, -(q.x * d), 0.0);
    assert Cross(u, v) == c;
    var cc := Vector3(q.z * q.x * d, q.z * q.y * d, -(q.x * q.x * d) - q.y * q.y * d);
    assert Cross(u, c) == cc;
  }

  /** The coordinates of `Rotate(q, (0, 0, d))` as `Rotate` computes them. */
  function AlongZ(q: Quaternion, d: real): Vector3 {
    Vector3(0.0 + (2.0 * q.w * (q.y * d) + 2.0 * (q.z * q.x * d)),
            0.0 + (2.0 * q.w * -(q.x * d) + 2.0 * (q.z * q.y * d)),
            d + (2.0 * q.w * 0.0 + 2.0 * (-(q.x * q.x * d) - q.y * q.y * d)))
  }

  /** The polynomial identities behind `RotateAlongZ`, one per coordinate. */
  lemma RotateAlongZComponents(q: Quaternion, d: real)
    ensures AlongZ(q, d) == Scale(d, LocalZAxis(q))
  {
    var e, s := AlongZ(q, d), Scale(d, LocalZAxis(q));
    assert e.x == s.x by { CoordinateX(q.x, q.y, q.z, q.w, d); }
    assert e.y == s.y by { CoordinateY(q.x, q.y, q.z, q.w, d); }
    assert e.z == s.z by { CoordinateZ(q.x, q.y, d); }
  }

  lemma CoordinateX(x: real, y: real, z: real, w: real, d: real)
    ensures 0.0 + (2.0 * w * (y * d) + 2.0 * (z * x * d)) == d * (2.0 * (x * z + w * y))
  {
  }

  lemma CoordinateY(x: real, y: real, z: real, w: real, d: real)
    ensures 0.0 + (2.0 * w * -(x * d) + 2.0 * (z * y * d)) == d * (2.0 * (y * z - w * x))
  {
  }

  lemma CoordinateZ(x: real, y: real, d: real)
    ensures d + (2.0 * 0.0 + 2.0 * (-(x * x * d) - y * y * d)) == d * (1.0 - 2.0 * (x * x + y * y))
  {
  }

  /**
   Offsetting a pose by `d` along its own z axis is composing it with a
   translation by `d` along z: the orientation is kept and the position moves
   by `d` times the local z axis.
   */
  lemma OffsetZIsCompose(p: Pose, d: real)
    ensures OffsetZ(p, d) == Compose(p, TranslateZ(d))
  {
    RotateAlongZ(p.orientation, d);
    MultiplyIdentityRight(p.orientation);
  }

  /** From the identity pose, an offset along z is that translation alone. */
  lemma OffsetZFromIdentity(d: real)
    ensures OffsetZ(Identity, d) == TranslateZ(d)
  {
  }

  /** Opposite offsets along the local z axis are mirror images about the pose's own position. */
  lemma OppositeOffsetsMirror(p: Pose, d: real)
    ensures OffsetZ(p, d).orientation == OffsetZ(p, -d).orientation == p.orientation
    ensures Add(OffsetZ(p, d).position, OffsetZ(p, -d).position) == Scale(2.0, p.position)
  {
  }

  /** The local z axis of a unit quaternion has length 1. */
  lemma LocalZAxisIsUnit(q: Quaternion)
    requires IsUnit(q)
    ensures Dot(LocalZAxis(q), LocalZAxis(q)) == 1.0
  {
    var s := q.x * q.x + q.y * q.y;
    var a, b := q.x * q.z + q.w * q.y, q.y * q.z - q.w * q.x;
    assert a * a + b * b == s * (q.z * q.z + q.w * q.w) by {
      assert a * a == q.x * q.x * (q.z * q.z) + 2.0 * (q.x * q.z * (q.w * q.y)) + q.w * q.w * (q.y * q.y);
      assert b * b == q.y * q.y * (q.z * q.z) - 2.0 * (q.y * q.z * (q.w * q.x)) + q.w * q.w * (q.x * q.x);
    }
    assert q.z * q.z + q.w * q.w == 1.0 - s;
    assert (1.0 - 2.0 * s) * (1.0 - 2.0 * s) == 1.0 - 4.0 * s + 4.0 * (s * s);
  }

  /**
   Offsets of `d` and `-d` along the local z axis of a unit orientation are
   exactly `2d` apart.
   */
  lemma OppositeOffsetsDistance(p: Pose, d: real)
    requires IsUnit(p.orientation)
    ensures var gap := Sub(OffsetZ(p, d).position, OffsetZ(p, -d).position);
      Dot(gap, gap) == 4.0 * d * d
  {
    var z := LocalZAxis(p.orientation);
    LocalZAxisIsUnit(p.orientation);
    var gap := Sub(OffsetZ(p, d).position, OffsetZ(p, -d).position);
    assert gap == Scale(2.0 * d, z);
    assert Dot(Scale(2.0 * d, z), Scale(2.0 * d, z)) == (2.0 * d) * (2.0 * d) * Dot(z, z);
  }
}
