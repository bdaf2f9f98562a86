/**
 * The part of a branch's geometry the model can see without a geometry kernel.
 *
 * A plane is the kernel's frame (`Pose`, never looked inside) plus the number of
 * quarter turns it has been rotated about its own Y axis, pivoted at its own origin.
 * Rotations about one fixed axis compose by adding angles, so this pair is exact for the
 * only rotation the branch ever applies. The side rectangles, the box and the one-cell
 * meshes are recorded by the plane and intervals they are built from.
 */
module Geometry {

  /** An oriented frame (origin and three axes in double precision) held by the kernel. */
  type Pose(==)

  type QuarterTurns = k: int | 0 <= k < 4

  datatype Plane = Plane(pose: Pose, turns: QuarterTurns)

  /** `plane.Rotate(k * Math.PI / 2, plane.YAxis, plane.Origin)` */
  function RotateY(p: Plane, k: nat): (q: Plane)
    ensures q.pose == p.pose
  {
    Plane(p.pose, (p.turns + k) % 4)
  }

  lemma RotateYCompose(p: Plane, a: nat, b: nat)
    ensures RotateY(RotateY(p, a), b) == RotateY(p, a + b)
  {
  }

  /** Four quarter turns bring a plane back to itself. */
  lemma RotateYFullTurn(p: Plane)
    ensures RotateY(p, 4) == p
  {
  }

  /**
   * The four planes a branch offers for its sides: entry `i` is the placement plane turned
   * `i` quarter turns about its Y axis.
   */
  function OrientablePlanes(p: Plane): seq<Plane> {
    seq(4, i requires 0 <= i < 4 => RotateY(p, i))
  }

  /**
   * There are four of them, the first is the placement plane itself, they are pairwise
   * distinct, and a further quarter turn maps each to the next, the last back to the first.
   */
  lemma OrientablePlanesCycle(p: Plane)
    ensures |OrientablePlanes(p)| == 4 && OrientablePlanes(p)[0] == p
    ensures forall i, j :: 0 <= i < j < 4 ==> OrientablePlanes(p)[i] != OrientablePlanes(p)[j]
    ensures forall i :: 0 <= i < 4 ==> RotateY(OrientablePlanes(p)[i], 1) == OrientablePlanes(p)[(i + 1) % 4]
  {
  }

  datatype Interval = Interval(lo: real, hi: real)

  /** `new Interval(-extent / 2, extent / 2)` */
  function Centered(extent: real): (iv: Interval)
    ensures iv.hi - iv.lo == extent && iv.lo == -iv.hi
  {
    Interval(-extent / 2.0, extent / 2.0)
  }

  /**
   * `Rectangle3d(plane, x, y)` moved by `zOffset` along the plane's Z axis; `x`, `y` and
   * `zOffset` are in the plane's own coordinates.
   */
  datatype Rectangle = Rectangle(plane: Plane, x: Interval, y: Interval, zOffset: real)

  /** `Box(plane, x, y, z).ToBrep()` */
  datatype Brep = Box(plane: Plane, x: Interval, y: Interval, z: Interval)

  /** `Mesh.CreateFromPlanarBoundary(border, parameters, tolerance)` with one grid cell. */
  datatype Patch = Patch(border: Rectangle, tolerance: real)

  /**
   * The static `GetBorderFace(plane, width, length, thickness)`: the width-by-length
   * rectangle centred on the plane's origin, pushed half the thickness down its Z axis.
   */
  function GetBorderFaceOn(plane: Plane, width: real, length: real, thickness: real): (r: Rectangle)
    ensures r.plane == plane
    ensures r.x.hi - r.x.lo == width && r.x.lo == -r.x.hi
    ensures r.y.hi - r.y.lo == length && r.y.lo == -r.y.hi
    ensures 2.0 * r.zOffset == -thickness
  {
    Rectangle(plane, Centered(width), Centered(length), -thickness / 2.0)
  }

  /** The solid box both constructors build on the placement plane. */
  function BoxOn(plane: Plane, width: real, length: real, thickness: real): (b: Brep)
    ensures b.plane == plane
    ensures b.x.hi - b.x.lo == width && b.x.lo == -b.x.hi
    ensures b.y.hi - b.y.lo == length && b.y.lo == -b.y.hi
    ensures b.z.hi - b.z.lo == thickness && b.z.lo == -b.z.hi
  {
    Box(plane, Centered(width), Centered(length), Centered(thickness))
  }

  /** The four side meshes, in the order the constructors append them. */
  function SidePatches(p: Plane, width: real, length: real, thickness: real, tolerance: real): seq<Patch> {
    seq(4, i requires 0 <= i < 4 => Patch(GetBorderFaceOn(RotateY(p, i), width, length, thickness), tolerance))
  }

  /** The kernel can mesh every side. */
  predicate SidesTessellate(p: Plane, width: real, length: real, thickness: real, tessellates: Rectangle -> bool) {
    forall i :: 0 <= i < 4 ==> tessellates(GetBorderFaceOn(RotateY(p, i), width, length, thickness))
  }

  /**
   * The patches that reach the mesh when the kernel throws on the first side it cannot mesh:
   * the longest prefix whose borders all tessellate.
   */
  function TessellatedPrefix(ps: seq<Patch>, tessellates: Rectangle -> bool): (r: seq<Patch>)
    ensures r <= ps
    ensures forall i :: 0 <= i < |r| ==> tessellates(r[i].border)
    ensures |r| < |ps| ==> !tessellates(ps[|r|].border)
  {
    if ps == [] || !tessellates(ps[0].border) then []
    else [ps[0]] + TessellatedPrefix(ps[1..], tessellates)
  }

  /** The whole mesh is built exactly when every side tessellates. */
  lemma TessellatedPrefixComplete(p: Plane, width: real, length: real, thickness: real, tolerance: real,
                                  tessellates: Rectangle -> bool)
    ensures var ps := SidePatches(p, width, length, thickness, tolerance);
      TessellatedPrefix(ps, tessellates) == ps <==> SidesTessellate(p, width, length, thickness, tessellates)
  {
    var ps := SidePatches(p, width, length, thickness, tolerance);
    var r := TessellatedPrefix(ps, tessellates);
    if !SidesTessellate(p, width, length, thickness, tessellates) && r == ps {
      forall i | 0 <= i < 4
        ensures tessellates(GetBorderFaceOn(RotateY(p, i), width, length, thickness))
      {
        assert r[i].border == GetBorderFaceOn(RotateY(p, i), width, length, thickness);
      }
    }
  }

  /**
   * The `for (int i = 0; i < 4; i++)` loop both constructors run: for each quarter turn it
   * adds the rotated plane to `planes`, builds that side's border and appends its mesh.
   * `completed` is false when the kernel threw on a side; `patches` then holds what had been
   * appended to the mesh before the throw.
   */
  method BuildSides(p: Plane, width: real, length: real, thickness: real, tolerance: real,
                    tessellates: Rectangle -> bool)
    returns (planes: seq<Plane>, patches: seq<Patch>, completed: bool)
    ensures completed == SidesTessellate(p, width, length, thickness, tessellates)
    ensures patches == TessellatedPrefix(SidePatches(p, width, length, thickness, tolerance), tessellates)
    ensures completed ==> planes == OrientablePlanes(p)
  {
    ghost var all := SidePatches(p, width, length, thickness, tolerance);
    planes, patches := [], [];
    var i := 0;
    while i < 4
      invariant 0 <= i <= 4
      invariant planes == OrientablePlanes(p)[..i]
      invariant patches == all[..i]
      invariant forall j :: 0 <= j < i ==> tessellates(all[j].border)
    {
      var plane := RotateY(p, i);
      planes := planes + [plane];
      var border := GetBorderFaceOn(plane, width, length, thickness);
      if !tessellates(border) {
        completed := false;
        PrefixUpToFailure(all, tessellates, i);
        return;
      }
      patches := patches + [Patch(border, tolerance)];
      i := i + 1;
    }
    completed := true;
    assert planes == OrientablePlanes(p);
    PrefixUpToFailure(all, tessellates, 4);
    TessellatedPrefixComplete(p, width, length, thickness, tolerance, tessellates);
  }

  /** A prefix that tessellates, followed by the end or by a side that does not, is the tessellated prefix. */
  lemma {:induction false} PrefixUpToFailure(ps: seq<Patch>, tessellates: Rectangle -> bool, k: nat)
    requires k <= |ps|
    requires forall j :: 0 <= j < k ==> tessellates(ps[j].border)
    requires k < |ps| ==> !tessellates(ps[k].border)
    ensures TessellatedPrefix(ps, tessellates) == ps[..k]
  {
    if k > 0 {
      PrefixUpToFailure(ps[1..], tessellates, k - 1);
      assert ps[..k] == [ps[0]] + ps[1..][..k - 1];
    }
  }

  // Corners, in the placement plane's own coordinates.

  datatype Vec3 = Vec3(x: real, y: real, z: real)

  /** A point given in the coordinates of the plane turned `k` quarter turns about Y. */
  function QuarterTurnY(v: Vec3, k: QuarterTurns): Vec3 {
    if k == 0 then v
    else if k == 1 then Vec3(v.z, v.y, -v.x)
    else if k == 2 then Vec3(-v.x, v.y, -v.z)
    else Vec3(-v.z, v.y, v.x)
  }

  /**
   * The corners of a border rectangle, in the coordinates of `base`, a plane with the same
   * pose: the rectangle's own corners turned by the quarter turns separating the two planes.
   */
  function CornersIn(r: Rectangle, base: Plane): seq<Vec3>
    requires r.plane.pose == base.pose
  {
    var k: QuarterTurns := (r.plane.turns - base.turns) % 4;
    [QuarterTurnY(Vec3(r.x.lo, r.y.lo, r.zOffset), k), QuarterTurnY(Vec3(r.x.hi, r.y.lo, r.zOffset), k),
     QuarterTurnY(Vec3(r.x.hi, r.y.hi, r.zOffset), k), QuarterTurnY(Vec3(r.x.lo, r.y.hi, r.zOffset), k)]
  }

  predicate IsBoxCorner(v: Vec3, width: real, length: real, thickness: real) {
    (v.x == width / 2.0 || v.x == -width / 2.0) &&
    (v.y == length / 2.0 || v.y == -length / 2.0) &&
    (v.z == thickness / 2.0 || v.z == -thickness / 2.0)
  }

  /**
   * Side `k`'s border sits on the box exactly when `k` is even or the cross-section is
   * square: the odd sides use the width across the thickness direction and the thickness
   * across the width direction.
   */
  lemma SideOnBox(p: Plane, k: QuarterTurns, width: real, length: real, thickness: real)
    requires width > 0.0 && length > 0.0 && thickness > 0.0
    ensures var cs := CornersIn(GetBorderFaceOn(RotateY(p, k), width, length, thickness), p);
      (forall c :: c in cs ==> IsBoxCorner(c, width, length, thickness)) <==> (k % 2 == 0 || width == thickness)
  {
    var r := GetBorderFaceOn(RotateY(p, k), width, length, thickness);
    assert (r.plane.turns - p.turns) % 4 == k;
    var cs := CornersIn(r, p);
    if k % 2 == 1 && width != thickness {
      assert !IsBoxCorner(cs[0], width, length, thickness);
    }
  }
}
