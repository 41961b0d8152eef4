/**
 The features of a bounding box that the scale tool offers as handles: its 6 sides,
 12 edges and 8 corners. Each feature is described once on the cube [-1, 1]^3
 (a side by its outward normal, a corner by its sign vector, an edge by the sign
 vectors of its two end corners) and is mapped onto a concrete box on demand.
 */
module BBoxFeatures {
  import opened Geometry

  /** A side of the box, identified by its outward normal. */
  datatype BBoxSide = BBoxSide(normal: Vec3)

  /** An edge of the box, identified by the sign vectors of its two end corners. */
  datatype BBoxEdge = BBoxEdge(point0: Vec3, point1: Vec3)

  /** A corner of the box, identified by its sign vector. */
  datatype BBoxCorner = BBoxCorner(corner: Vec3)

  /** A line segment between two points (the editor's `Edge3`). */
  datatype Edge3 = Edge3(point0: Vec3, point1: Vec3)

  // ---------------------------------------------------------------------------
  // Index encodings. The editor fills its catalogues in whatever order its box
  // visitors produce; this model fixes an order of its own, and nothing below
  // depends on it beyond size, distinctness and completeness.
  // ---------------------------------------------------------------------------

  function SignOf(b: bool): real {
    if b then 1.0 else -1.0
  }

  function Bit(s: real): int {
    if s == 1.0 then 1 else 0
  }

  /** The sign vector with bit 0, 1, 2 of `i` giving the sign of x, y, z. */
  function CornerAt(i: int): (c: Vec3)
    requires 0 <= i < 8
    ensures IsSignVector(c)
  {
    Vec3(SignOf(i % 2 == 1), SignOf(i / 2 % 2 == 1), SignOf(i / 4 == 1))
  }

  function CornerIndex(c: Vec3): int {
    Bit(c.x) + 2 * Bit(c.y) + 4 * Bit(c.z)
  }

  lemma CornerIndexInverse(c: Vec3)
    requires IsSignVector(c)
    ensures 0 <= CornerIndex(c) < 8 && CornerAt(CornerIndex(c)) == c
  {
  }

  lemma CornerAtInverse(i: int)
    requires 0 <= i < 8
    ensures CornerIndex(CornerAt(i)) == i
  {
  }

  /** The unit vector along axis `k`. */
  function UnitAxis(k: int): Vec3
    requires 0 <= k < 3
  {
    Null.With(k, 1.0)
  }

  /** Side `i` has its normal along axis `i / 2`, pointing positive when `i` is odd. */
  function SideAt(i: int): (n: Vec3)
    requires 0 <= i < 6
    ensures IsAxisNormal(n)
  {
    Scale(SignOf(i % 2 == 1), UnitAxis(i / 2))
  }

  function SideIndex(n: Vec3): int
    requires IsAxisNormal(n)
  {
    2 * Axis(n) + (if n.At(Axis(n)) > 0.0 then 1 else 0)
  }

  lemma SideIndexInverse(n: Vec3)
    requires IsAxisNormal(n)
    ensures 0 <= SideIndex(n) < 6 && SideAt(SideIndex(n)) == n
  {
    if n == PosX {
      assert SideIndex(n) == 1;
    } else if n == PosY {
      assert SideIndex(n) == 3;
    } else if n == PosZ {
      assert SideIndex(n) == 5;
    } else if n == NegX {
      assert SideIndex(n) == 0;
    } else if n == NegY {
      assert SideIndex(n) == 2;
    } else {
      assert SideIndex(n) == 4;
    }
  }

  lemma SideAtInverse(i: int)
    requires 0 <= i < 6
    ensures SideIndex(SideAt(i)) == i
  {
    var k := i / 2;
    assert Axis(SideAt(i)) == k by {
      assert SideAt(i).At(k) != 0.0;
    }
  }

  /** The number of axes on which two vectors differ. */
  function DiffCount(a: Vec3, b: Vec3): int {
    (if a.x != b.x then 1 else 0) + (if a.y != b.y then 1 else 0) + (if a.z != b.z then 1 else 0)
  }

  /** Two vertices of the cube [-1, 1]^3 joined by one of its edges. */
  predicate IsAdjacent(a: Vec3, b: Vec3) {
    IsSignVector(a) && IsSignVector(b) && DiffCount(a, b) == 1
  }

  /** The axis along which two adjacent vertices differ. */
  function EdgeAxis(a: Vec3, b: Vec3): int {
    if a.x != b.x then 0 else if a.y != b.y then 1 else 2
  }

  /** The vector with `sk` on axis `k` and `s1`, `s2` on the other two axes in increasing order. */
  function Place(k: int, sk: real, s1: real, s2: real): Vec3
    requires 0 <= k < 3
  {
    if k == 0 then Vec3(sk, s1, s2) else if k == 1 then Vec3(s1, sk, s2) else Vec3(s1, s2, sk)
  }

  function OtherLow(k: int, v: Vec3): real {
    if k == 0 then v.y else v.x
  }

  function OtherHigh(k: int, v: Vec3): real {
    if k == 2 then v.y else v.z
  }

  /** Edge `i` runs along axis `i / 4` from its negative to its positive end; bits 0 and 1
      of `i` give the signs of the other two coordinates. */
  function EdgeAt(i: int): (e: BBoxEdge)
    requires 0 <= i < 12
    ensures IsAdjacent(e.point0, e.point1)
    ensures e.point0.At(i / 4) == -1.0 && e.point1.At(i / 4) == 1.0
  {
    var k := i / 4;
    var s1 := SignOf(i % 2 == 1);
    var s2 := SignOf(i / 2 % 2 == 1);
    BBoxEdge(Place(k, -1.0, s1, s2), Place(k, 1.0, s1, s2))
  }

  function EdgeIndex(e: BBoxEdge): int {
    var k := EdgeAxis(e.point0, e.point1);
    4 * k + Bit(OtherLow(k, e.point0)) + 2 * Bit(OtherHigh(k, e.point0))
  }

  lemma EdgeAtInverse(i: int)
    requires 0 <= i < 12
    ensures EdgeAxis(EdgeAt(i).point0, EdgeAt(i).point1) == i / 4
    ensures EdgeIndex(EdgeAt(i)) == i
  {
  }

  lemma EdgeIndexInverse(e: BBoxEdge)
    requires IsAdjacent(e.point0, e.point1)
    requires e.point0.At(EdgeAxis(e.point0, e.point1)) == -1.0
    ensures 0 <= EdgeIndex(e) < 12 && EdgeAt(EdgeIndex(e)) == e
  {
  }

  /** Two edge descriptions denoting the same segment, in either direction. */
  predicate SameSegment(e: BBoxEdge, f: BBoxEdge) {
    (e.point0 == f.point0 && e.point1 == f.point1) || (e.point0 == f.point1 && e.point1 == f.point0)
  }

  // ---------------------------------------------------------------------------
  // The catalogues.
  // ---------------------------------------------------------------------------

  /** The six sides of the unit cube. */
  function AllSides(): (r: seq<BBoxSide>)
    ensures |r| == 6
    ensures forall i :: 0 <= i < |r| ==> IsAxisNormal(r[i].normal)
  {
    seq(6, i requires 0 <= i < 6 => BBoxSide(SideAt(i)))
  }

  /** The twelve edges of the unit cube, each joining two adjacent vertices. */
  function AllEdges(): (r: seq<BBoxEdge>)
    ensures |r| == 12
    ensures forall i :: 0 <= i < |r| ==> IsAdjacent(r[i].point0, r[i].point1)
  {
    seq(12, i requires 0 <= i < 12 => EdgeAt(i))
  }

  /** The eight corners of the unit cube. */
  function AllCorners(): (r: seq<BBoxCorner>)
    ensures |r| == 8
    ensures forall i :: 0 <= i < |r| ==> IsSignVector(r[i].corner)
  {
    seq(8, i requires 0 <= i < 8 => BBoxCorner(CornerAt(i)))
  }

  /** Every axis direction is a side of the catalogue, and no side is listed twice. */
  lemma AllSidesExactly(n: Vec3)
    ensures IsAxisNormal(n) <==> BBoxSide(n) in AllSides()
    ensures forall i, j :: 0 <= i < j < |AllSides()| ==> AllSides()[i] != AllSides()[j]
  {
    if IsAxisNormal(n) {
      SideIndexInverse(n);
      assert AllSides()[SideIndex(n)] == BBoxSide(n);
    }
    forall i, j | 0 <= i < j < |AllSides()|
      ensures AllSides()[i] != AllSides()[j]
    {
      SideAtInverse(i);
      SideAtInverse(j);
    }
  }

  /** Every sign vector is a corner of the catalogue, and no corner is listed twice. */
  lemma AllCornersExactly(c: Vec3)
    ensures IsSignVector(c) <==> BBoxCorner(c) in AllCorners()
    ensures forall i, j :: 0 <= i < j < |AllCorners()| ==> AllCorners()[i] != AllCorners()[j]
  {
    if IsSignVector(c) {
      CornerIndexInverse(c);
      assert AllCorners()[CornerIndex(c)] == BBoxCorner(c);
    }
    forall i, j | 0 <= i < j < |AllCorners()|
      ensures AllCorners()[i] != AllCorners()[j]
    {
      CornerAtInverse(i);
      CornerAtInverse(j);
    }
  }

  /** Every pair of adjacent vertices is an edge of the catalogue in one direction,
      and no segment is listed twice in either direction. */
  lemma AllEdgesExactly(a: Vec3, b: Vec3)
    ensures IsAdjacent(a, b) <==> (BBoxEdge(a, b) in AllEdges() || BBoxEdge(b, a) in AllEdges())
    ensures forall i, j :: 0 <= i < j < |AllEdges()| ==> !SameSegment(AllEdges()[i], AllEdges()[j])
  {
    if IsAdjacent(a, b) {
      var k := EdgeAxis(a, b);
      if a.At(k) == -1.0 {
        EdgeIndexInverse(BBoxEdge(a, b));
        assert AllEdges()[EdgeIndex(BBoxEdge(a, b))] == BBoxEdge(a, b);
      } else {
        assert EdgeAxis(b, a) == k;
        EdgeIndexInverse(BBoxEdge(b, a));
        assert AllEdges()[EdgeIndex(BBoxEdge(b, a))] == BBoxEdge(b, a);
      }
    }
    forall i, j | 0 <= i < j < |AllEdges()|
      ensures !SameSegment(AllEdges()[i], AllEdges()[j])
    {
      EdgeAtInverse(i);
      EdgeAtInverse(j);
    }
  }

  // ---------------------------------------------------------------------------
  // Mapping features onto a concrete box.
  // ---------------------------------------------------------------------------

  /** The drag axis of a side: its outward normal, a unit vector for every catalogue side. */
  function NormalForBBoxSide(side: BBoxSide): (n: Vec3)
    ensures IsAxisNormal(side.normal) ==> Dot(n, n) == 1.0 && IsAxisNormal(n)
  {
    side.normal
  }

  /** The coordinate a corner sign selects: the box's maximum for +1, its minimum otherwise. */
  function Select(sign: real, lo: real, hi: real): real {
    if sign == 1.0 then hi else lo
  }

  /** The vertex of `box` that `corner` names (specification of `PointForBBoxCorner`). */
  function CornerPoint(box: BBox3, corner: BBoxCorner): (p: Vec3)
    requires IsSignVector(corner.corner)
    ensures IsVertex(p, box)
    ensures IsValidBox(box) ==> Contains(box, p)
  {
    var c := corner.corner;
    Vec3(Select(c.x, box.min.x, box.max.x), Select(c.y, box.min.y, box.max.y), Select(c.z, box.min.z, box.max.z))
  }

  /** The editor's `pointForBBoxCorner`, step by step: fills the result one axis at a time.
      Nothing calls it; it shows that the editor's three-step loop computes `CornerPoint`,
      which the rest of the model uses. */
  method PointForBBoxCorner(box: BBox3, corner: BBoxCorner) returns (res: Vec3)
    requires IsSignVector(corner.corner)
    ensures res == CornerPoint(box, corner)
  {
    res := Null;
    for i := 0 to 3
      invariant forall j :: 0 <= j < i ==> res.At(j) == Select(corner.corner.At(j), box.min.At(j), box.max.At(j))
    {
      res := res.With(i, if corner.corner.At(i) == 1.0 then box.max.At(i) else box.min.At(i));
    }
    assert res.At(0) == CornerPoint(box, corner).x;
    assert res.At(1) == CornerPoint(box, corner).y;
    assert res.At(2) == CornerPoint(box, corner).z;
  }

  /** The sign vector of a vertex: +1 on the axes where it sits at the box's maximum. */
  function CornerOfVertex(box: BBox3, p: Vec3): Vec3 {
    Vec3(if p.x == box.max.x then 1.0 else -1.0,
         if p.y == box.max.y then 1.0 else -1.0,
         if p.z == box.max.z then 1.0 else -1.0)
  }

  /** On a box with positive extent, distinct corners name distinct vertices:
      the corner can be read back from its point. */
  lemma CornerPointRecoversCorner(box: BBox3, corner: BBoxCorner)
    requires IsStrictBox(box) && IsSignVector(corner.corner)
    ensures CornerOfVertex(box, CornerPoint(box, corner)) == corner.corner
  {
  }

  /** Every vertex of any box is the point of some corner of the catalogue. */
  lemma EveryVertexIsACornerPoint(box: BBox3, p: Vec3)
    requires IsVertex(p, box)
    ensures exists c :: c in AllCorners() && CornerPoint(box, c) == p
  {
    var c := BBoxCorner(CornerOfVertex(box, p));
    AllCornersExactly(c.corner);
    assert CornerPoint(box, c) == p;
  }

  /** The editor's `pointsForBBoxEdge`: the points of the edge's two end corners, in order. */
  function PointsForBBoxEdge(box: BBox3, edge: BBoxEdge): (r: Edge3)
    requires IsSignVector(edge.point0) && IsSignVector(edge.point1)
    ensures r.point0 == CornerPoint(box, BBoxCorner(edge.point0))
    ensures r.point1 == CornerPoint(box, BBoxCorner(edge.point1))
    ensures forall j :: 0 <= j < 3 && edge.point0.At(j) == edge.point1.At(j) ==> r.point0.At(j) == r.point1.At(j)
    ensures IsValidBox(box) ==> Contains(box, r.point0) && Contains(box, r.point1)
  {
    Edge3(CornerPoint(box, BBoxCorner(edge.point0)), CornerPoint(box, BBoxCorner(edge.point1)))
  }

  /** The editor's `moveBBoxFace`: moves the one face whose outward normal is `side.normal`
      by the matching component of `delta`; a positive side moves `max`, a negative side `min`. */
  function MoveBBoxFace(box: BBox3, side: BBoxSide, delta: Vec3): (r: BBox3)
    requires IsAxisNormal(side.normal)
    ensures var k := Axis(side.normal);
      if side.normal.At(k) > 0.0 then
        r.min == box.min && r.max == box.max.With(k, box.max.At(k) + delta.At(k))
      else
        r.max == box.max && r.min == box.min.With(k, box.min.At(k) + delta.At(k))
  {
    var n := side.normal;
    if n == PosX then BBox3(box.min, Add(box.max, Vec3(delta.x, 0.0, 0.0)))
    else if n == PosY then BBox3(box.min, Add(box.max, Vec3(0.0, delta.y, 0.0)))
    else if n == PosZ then BBox3(box.min, Add(box.max, Vec3(0.0, 0.0, delta.z)))
    else if n == NegX then BBox3(Add(box.min, Vec3(delta.x, 0.0, 0.0)), box.max)
    else if n == NegY then BBox3(Add(box.min, Vec3(0.0, delta.y, 0.0)), box.max)
    else BBox3(Add(box.min, Vec3(0.0, 0.0, delta.z)), box.max)
  }

  /** Moving a face leaves the box unchanged exactly when the delta has no component
      along the face's axis; in particular a zero delta changes nothing. */
  lemma MoveBBoxFaceUnchanged(box: BBox3, side: BBoxSide, delta: Vec3)
    requires IsAxisNormal(side.normal)
    ensures MoveBBoxFace(box, side, delta) == box <==> delta.At(Axis(side.normal)) == 0.0
    ensures MoveBBoxFace(box, side, Null) == box
  {
  }

  /** Two successive moves of the same face add up; moving back by the negated delta
      restores the box. */
  lemma MoveBBoxFaceCompose(box: BBox3, side: BBoxSide, d1: Vec3, d2: Vec3)
    requires IsAxisNormal(side.normal)
    ensures MoveBBoxFace(MoveBBoxFace(box, side, d1), side, d2) == MoveBBoxFace(box, side, Add(d1, d2))
    ensures MoveBBoxFace(MoveBBoxFace(box, side, d1), side, Neg(d1)) == box
  {
  }

  /** Dragging a face by `t` along its outward normal (the delta the resize step forms)
      grows the box by `t` on that axis and leaves the other extents alone; the box stays
      valid exactly when `t` does not exceed its extent inwards. */
  lemma DragFaceAlongNormal(box: BBox3, side: BBoxSide, t: real)
    requires IsAxisNormal(side.normal)
    ensures var k := Axis(side.normal);
      var r := MoveBBoxFace(box, side, Scale(t, side.normal));
      && Extent(r).At(k) == Extent(box).At(k) + t
      && (forall j :: 0 <= j < 3 && j != k ==> Extent(r).At(j) == Extent(box).At(j))
      && (IsValidBox(box) ==> (IsValidBox(r) <==> t >= -Extent(box).At(k)))
  {
  }
}
