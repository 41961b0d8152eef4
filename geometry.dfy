/**
 Vectors, axis-aligned boxes and rays in 3-space, as used by the scale tool.
 The editor computes with floating-point coordinates; this model uses reals,
 and vector equality and the zero test are exact.
 */
module Geometry {

  /** A point or direction in 3-space (the editor's `Vec3`). */
  datatype Vec3 = Vec3(x: real, y: real, z: real) {

    /** Component `i`, as `v[i]` in the editor. */
    function At(i: int): real
      requires 0 <= i < 3
    {
      if i == 0 then x else if i == 1 then y else z
    }

    /** This vector with component `i` replaced by `v`. */
    function With(i: int, v: real): (r: Vec3)
      requires 0 <= i < 3
      ensures r.At(i) == v
      ensures forall j :: 0 <= j < 3 && j != i ==> r.At(j) == At(j)
    {
      if i == 0 then Vec3(v, y, z) else if i == 1 then Vec3(x, v, z) else Vec3(x, y, v)
    }
  }

  const Null := Vec3(0.0, 0.0, 0.0)
  const PosX := Vec3(1.0, 0.0, 0.0)
  const PosY := Vec3(0.0, 1.0, 0.0)
  const PosZ := Vec3(0.0, 0.0, 1.0)
  const NegX := Vec3(-1.0, 0.0, 0.0)
  const NegY := Vec3(0.0, -1.0, 0.0)
  const NegZ := Vec3(0.0, 0.0, -1.0)

  function Add(a: Vec3, b: Vec3): Vec3 {
    Vec3(a.x + b.x, a.y + b.y, a.z + b.z)
  }

  function Sub(a: Vec3, b: Vec3): Vec3 {
    Vec3(a.x - b.x, a.y - b.y, a.z - b.z)
  }

  function Neg(a: Vec3): Vec3 {
    Vec3(-a.x, -a.y, -a.z)
  }

  function Scale(s: real, a: Vec3): Vec3 {
    Vec3(s * a.x, s * a.y, s * a.z)
  }

  function Dot(a: Vec3, b: Vec3): real {
    a.x * b.x + a.y * b.y + a.z * b.z
  }

  /** The editor's `Vec3::null()`. */
  predicate IsNull(v: Vec3) {
    v == Null
  }

  /** One of the six unit directions along the coordinate axes. */
  predicate IsAxisNormal(n: Vec3) {
    n == PosX || n == PosY || n == PosZ || n == NegX || n == NegY || n == NegZ
  }

  /** The index of the axis an axis direction points along. */
  function Axis(n: Vec3): (k: int)
    requires IsAxisNormal(n)
    ensures 0 <= k < 3
    ensures n.At(k) == 1.0 || n.At(k) == -1.0
    ensures forall j :: 0 <= j < 3 && j != k ==> n.At(j) == 0.0
  {
    if n.x != 0.0 then 0 else if n.y != 0.0 then 1 else 2
  }

  /** A vector whose components are all 1 or -1: a vertex of the cube [-1, 1]^3. */
  predicate IsSignVector(v: Vec3) {
    (v.x == 1.0 || v.x == -1.0) && (v.y == 1.0 || v.y == -1.0) && (v.z == 1.0 || v.z == -1.0)
  }

  /** A vector with no component off axis `k`. */
  predicate AlongAxis(d: Vec3, k: int)
    requires 0 <= k < 3
  {
    forall j :: 0 <= j < 3 && j != k ==> d.At(j) == 0.0
  }

  /** A vector along one axis is zero exactly when its component on that axis is. */
  lemma AlongAxisNull(d: Vec3, k: int)
    requires 0 <= k < 3 && AlongAxis(d, k)
    ensures IsNull(d) <==> d.At(k) == 0.0
  {
    assert d.At(0) == d.x && d.At(1) == d.y && d.At(2) == d.z;
  }

  /** An axis-aligned bounding box (the editor's `BBox3`). */
  datatype BBox3 = BBox3(min: Vec3, max: Vec3)

  /** A box whose minimum does not exceed its maximum on any axis. */
  predicate IsValidBox(b: BBox3) {
    b.min.x <= b.max.x && b.min.y <= b.max.y && b.min.z <= b.max.z
  }

  /** A box with positive extent on every axis. */
  predicate IsStrictBox(b: BBox3) {
    b.min.x < b.max.x && b.min.y < b.max.y && b.min.z < b.max.z
  }

  /** The editor's `BBox3::contains(point)`: inclusive on both ends of every axis. */
  predicate Contains(b: BBox3, p: Vec3) {
    b.min.x <= p.x <= b.max.x && b.min.y <= p.y <= b.max.y && b.min.z <= p.z <= b.max.z
  }

  /** The size of the box along each axis. */
  function Extent(b: BBox3): Vec3 {
    Sub(b.max, b.min)
  }

  /** A point `p` that is one of the 8 vertices of `b`: every coordinate is the box's min or max. */
  predicate IsVertex(p: Vec3, b: BBox3) {
    (p.x == b.min.x || p.x == b.max.x) &&
    (p.y == b.min.y || p.y == b.max.y) &&
    (p.z == b.min.z || p.z == b.max.z)
  }

  /** A half-line from `origin` along `direction` (the editor's `Ray3`). */
  datatype Ray3 = Ray3(origin: Vec3, direction: Vec3)

  /** The result of `Ray3::distanceToLine`: either the ray is parallel to the line,
      or the signed distance along the line of the point closest to the ray. */
  datatype LineDistance = Parallel | Distance(lineDistance: real)
}
