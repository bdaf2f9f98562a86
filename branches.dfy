/**
 * `TimberBranch`: one timber element of the installation, with its identity, placement,
 * derived geometry, parent/child id lists, selection colour and lifecycle stamps.
 *
 * What the host supplies becomes a parameter: the fresh id (`Guid.NewGuid()`), the clock
 * reading (`DateTime.Now`), the document's meshing tolerance, and whether the kernel can
 * mesh a given border (`tessellates`).
 */
module Branches {
  import opened Wrappers
  import opened Identity
  import opened Colors
  import opened TimeStamps
  import opened Geometry

  /** The field initialisers of `width`, `length` and `thickness`. */
  const DefaultWidth: real := 18.0
  const DefaultLength: real := 300.0
  const DefaultThickness: real := 18.0

  /** The state the plane-taking `BuildOn` forces on the branch it creates. */
  const VirtualState: string := "virtual"

  class TimberBranch {
    var id: Guid
    var placementPlane: Plane
    var duplicatePlane: Plane
    var orientablePlanes: seq<Plane>
    var meshBox: seq<Patch>
    var width: real
    var length: real
    var thickness: real
    var user: string
    var color: Color
    var state: string
    var parentIDs: seq<Guid>
    var childIDs: seq<Guid>
    var brep: Brep
    var selected: bool
    var buildOnPlane: Plane
    var message: Option<string>
    var designTimeStamp: string
    var modificationTimeStamp: string
    var physicalTimeStamp: string
    var fabricatedTimeStamp: Option<string>
    var fabricationFail: Option<string>
    var placementGlueShift: Option<string>
    var placementShift: Option<string>

    /**
     * The derived geometry agrees with the placement plane and dimensions: the box is built
     * on the placement plane, and when the side planes exist they are the four quarter turns
     * of the placement plane, each with its side mesh in the same position.
     */
    predicate GeometryConsistent()
      reads this
    {
      brep == BoxOn(placementPlane, width, length, thickness) &&
      (orientablePlanes != [] ==>
        orientablePlanes == OrientablePlanes(placementPlane) && |meshBox| == 4 &&
        forall i :: 0 <= i < 4 ==> meshBox[i].border == GetBorderFaceOn(orientablePlanes[i], width, length, thickness))
    }

    /** The fields the C# runtime leaves at their defaults in both constructors. */
    predicate UntouchedDefaults()
      reads this
    {
      !selected && message == None && fabricatedTimeStamp == None && fabricationFail == None &&
      placementGlueShift == None && placementShift == None
    }

    /**
     * The state the fresh constructor leaves behind, apart from the id lists. The id is the
     * fresh one when every side meshes and `Guid.Empty` when the kernel threw; after a throw
     * the side planes stay empty and the mesh keeps the sides appended before it.
     */
    predicate Designed(placement: Plane, user: string, color: Color, state: string,
                       tolerance: real, newId: Guid, now: DateTime, tessellates: Rectangle -> bool)
      reads this
    {
      var ok := SidesTessellate(placement, DefaultWidth, DefaultLength, DefaultThickness, tessellates);
      ValidDateTime(now) &&
      id == (if ok then newId else EmptyGuid) &&
      placementPlane == placement && duplicatePlane == placement && buildOnPlane == placement &&
      width == DefaultWidth && length == DefaultLength && thickness == DefaultThickness &&
      this.user == user && this.color == color && this.state == state &&
      designTimeStamp == GetTimeStamp(now) && modificationTimeStamp == "" && physicalTimeStamp == "" &&
      brep == BoxOn(placement, DefaultWidth, DefaultLength, DefaultThickness) &&
      meshBox == TessellatedPrefix(SidePatches(placement, DefaultWidth, DefaultLength, DefaultThickness, tolerance), tessellates) &&
      orientablePlanes == (if ok then OrientablePlanes(placement) else []) &&
      UntouchedDefaults()
    }

    /**
     * `TimberBranch(Plane placementPlane, string user, Color color, string state)`: any
     * exception from the kernel is caught and leaves the branch with `Guid.Empty`.
     */
    constructor (placementPlane: Plane, user: string, color: Color, state: string,
                 tolerance: real, newId: Guid, now: DateTime, tessellates: Rectangle -> bool)
      requires newId != EmptyGuid
      requires ValidDateTime(now)
      ensures Designed(placementPlane, user, color, state, tolerance, newId, now, tessellates)
      ensures parentIDs == [] && childIDs == []
      ensures GeometryConsistent()
    {
      width, length, thickness := DefaultWidth, DefaultLength, DefaultThickness;
      selected := false;
      message, fabricatedTimeStamp, fabricationFail := None, None, None;
      placementGlueShift, placementShift := None, None;

      id := newId;
      this.placementPlane := placementPlane;
      duplicatePlane := placementPlane;
      buildOnPlane := placementPlane;
      orientablePlanes := [];
      this.user := user;
      this.color := color;
      this.state := state;
      parentIDs := [];
      childIDs := [];

      designTimeStamp := GetTimeStamp(now);
      modificationTimeStamp := "";
      physicalTimeStamp := "";

      brep := BoxOn(placementPlane, DefaultWidth, DefaultLength, DefaultThickness);

      var planes, patches, completed := BuildSides(placementPlane, DefaultWidth, DefaultLength, DefaultThickness,
                                                   tolerance, tessellates);
      meshBox := patches;
      if completed {
        orientablePlanes := planes;
        TessellatedPrefixComplete(placementPlane, DefaultWidth, DefaultLength, DefaultThickness, tolerance, tessellates);
      } else {
        id := EmptyGuid;
      }
    }

    /**
     * `TimberBranch(TimberBranch branch, Plane placementPlane)`: the same branch moved to a new
     * plane. Identity, owner, colour, state, dimensions, design stamp and both id lists carry
     * over; the geometry is rebuilt, the move is stamped and any physical confirmation is
     * cleared. The selection flag, message, fabrication fields and shifts are not copied.
     */
    constructor Reposition(branch: TimberBranch, placementPlane: Plane, tolerance: real, now: DateTime,
                           tessellates: Rectangle -> bool)
      requires ValidDateTime(now)
      requires SidesTessellate(placementPlane, branch.width, branch.length, branch.thickness, tessellates)
      ensures id == branch.id
      ensures this.placementPlane == placementPlane && duplicatePlane == placementPlane && buildOnPlane == placementPlane
      ensures user == branch.user && color == branch.color && state == branch.state
      ensures parentIDs == branch.parentIDs && childIDs == branch.childIDs
      ensures width == branch.width && length == branch.length && thickness == branch.thickness
      ensures designTimeStamp == branch.designTimeStamp
      ensures modificationTimeStamp == GetTimeStamp(now) && physicalTimeStamp == ""
      ensures orientablePlanes == OrientablePlanes(placementPlane)
      ensures meshBox == SidePatches(placementPlane, width, length, thickness, tolerance)
      ensures UntouchedDefaults()
      ensures GeometryConsistent()
    {
      selected := false;
      message, fabricatedTimeStamp, fabricationFail := None, None, None;
      placementGlueShift, placementShift := None, None;

      id := branch.id;
      this.placementPlane := placementPlane;
      duplicatePlane := placementPlane;
      buildOnPlane := placementPlane;
      orientablePlanes := [];
      user := branch.user;
      color := branch.color;
      state := branch.state;
      parentIDs := [] + branch.parentIDs;
      childIDs := [] + branch.childIDs;

      width := branch.width;
      length := branch.length;
      thickness := branch.thickness;

      designTimeStamp := branch.designTimeStamp;
      modificationTimeStamp := GetTimeStamp(now);
      physicalTimeStamp := "";

      brep := BoxOn(placementPlane, branch.width, branch.length, branch.thickness);

      var planes, patches, completed := BuildSides(placementPlane, branch.width, branch.length, branch.thickness,
                                                   tolerance, tessellates);
      TessellatedPrefixComplete(placementPlane, branch.width, branch.length, branch.thickness, tolerance, tessellates);
      meshBox := patches;
      orientablePlanes := planes;
    }

    /** Marks the branch selected and draws it opaque; R, G and B stay. */
    method Select()
      modifies this`selected, this`color
      ensures selected && color == WithAlpha(old(color), SelectedAlpha)
      ensures SameRgb(color, old(color)) && AlphaAgrees(selected, color)
    {
      selected := true;
      color := WithAlpha(color, SelectedAlpha);
    }

    /** Marks the branch unselected and draws it translucent; R, G and B stay. */
    method UnSelect()
      modifies this`selected, this`color
      ensures !selected && color == WithAlpha(old(color), UnselectedAlpha)
      ensures SameRgb(color, old(color)) && AlphaAgrees(selected, color)
    {
      selected := false;
      color := WithAlpha(color, UnselectedAlpha);
    }

    /** Appends `parentID`, even when it is already listed. */
    method AddParentID(parentID: Guid)
      modifies this`parentIDs
      ensures parentIDs == old(parentIDs) + [parentID]
    {
      parentIDs := parentIDs + [parentID];
    }

    /** Appends `childID`, even when it is already listed. */
    method AddChildID(childID: Guid)
      modifies this`childIDs
      ensures childIDs == old(childIDs) + [childID]
    {
      childIDs := childIDs + [childID];
    }

    /** Drops the first occurrence of `parentID`; a missing id leaves the list alone. */
    method RemoveParentID(parentID: Guid)
      modifies this`parentIDs
      ensures parentIDs == RemoveFirst(old(parentIDs), parentID)
      ensures parentID !in old(parentIDs) ==> parentIDs == old(parentIDs)
      ensures parentID in old(parentIDs) ==>
        var i := IndexOf(old(parentIDs), parentID);
        parentIDs == old(parentIDs)[..i] + old(parentIDs)[i + 1..]
    {
      if parentID in parentIDs {
        RemoveFirstPresent(parentIDs, parentID);
      } else {
        RemoveFirstAbsent(parentIDs, parentID);
      }
      parentIDs := RemoveFirst(parentIDs, parentID);
    }

    /** Drops the first occurrence of `childID`; a missing id leaves the list alone. */
    method RemoveChildID(childID: Guid)
      modifies this`childIDs
      ensures childIDs == RemoveFirst(old(childIDs), childID)
      ensures childID !in old(childIDs) ==> childIDs == old(childIDs)
      ensures childID in old(childIDs) ==>
        var i := IndexOf(old(childIDs), childID);
        childIDs == old(childIDs)[..i] + old(childIDs)[i + 1..]
    {
      if childID in childIDs {
        RemoveFirstPresent(childIDs, childID);
      } else {
        RemoveFirstAbsent(childIDs, childID);
      }
      childIDs := RemoveFirst(childIDs, childID);
    }

    /**
     * `BuildOn(user, color, state, ignoreHeirarchy)`: a fresh branch on this branch's
     * build-on plane. Unless the hierarchy is ignored, the two are linked both ways, even
     * when the new branch failed and carries `Guid.Empty`.
     */
    method BuildOn(user: string, color: Color, state: string, ignoreHierarchy: bool,
                   tolerance: real, newId: Guid, now: DateTime, tessellates: Rectangle -> bool)
      returns (child: TimberBranch)
      requires newId != EmptyGuid
      requires ValidDateTime(now)
      modifies this`childIDs
      ensures fresh(child)
      ensures child.Designed(buildOnPlane, user, color, state, tolerance, newId, now, tessellates)
      ensures child.GeometryConsistent() && child.childIDs == []
      ensures ignoreHierarchy ==> child.parentIDs == [] && childIDs == old(childIDs)
      ensures !ignoreHierarchy ==> child.parentIDs == [id] && childIDs == old(childIDs) + [child.id]
      ensures !ignoreHierarchy ==> Linked(this, child)
    {
      var plane := buildOnPlane;
      child := new TimberBranch(plane, user, color, state, tolerance, newId, now, tessellates);
      if ignoreHierarchy {
        return;
      }
      child.AddParentID(id);
      AddChildID(child.id);
    }

    /**
     * `BuildOn(plane, user, color, ignoreHeirarchy)`: as `BuildOn`, but at the given plane and
     * always in the state "virtual".
     */
    method BuildOnPlane(plane: Plane, user: string, color: Color, ignoreHierarchy: bool,
                        tolerance: real, newId: Guid, now: DateTime, tessellates: Rectangle -> bool)
      returns (child: TimberBranch)
      requires newId != EmptyGuid
      requires ValidDateTime(now)
      modifies this`childIDs
      ensures fresh(child)
      ensures child.Designed(plane, user, color, VirtualState, tolerance, newId, now, tessellates)
      ensures child.GeometryConsistent() && child.childIDs == []
      ensures ignoreHierarchy ==> child.parentIDs == [] && childIDs == old(childIDs)
      ensures !ignoreHierarchy ==> child.parentIDs == [id] && childIDs == old(childIDs) + [child.id]
      ensures !ignoreHierarchy ==> Linked(this, child)
    {
      child := new TimberBranch(plane, user, color, VirtualState, tolerance, newId, now, tessellates);
      if ignoreHierarchy {
        return;
      }
      child.AddParentID(id);
      AddChildID(child.id);
    }

    /**
     * `GetBorderFace(int side)`: side `side`'s border rectangle, rebuilt from the side plane
     * and the current dimensions. Indexing the list demands a valid side; a branch whose
     * construction failed has none.
     */
    function GetBorderFace(side: int): (r: Rectangle)
      reads this
      requires 0 <= side < |orientablePlanes|
      ensures GeometryConsistent() ==> r == meshBox[side].border && r.plane == RotateY(placementPlane, side)
    {
      GetBorderFaceOn(orientablePlanes[side], width, length, thickness)
    }
  }

  /**
   * A freshly built branch has side planes exactly when it has a real id: four of them,
   * so `GetBorderFace` accepts the sides 0 to 3, or none at all after a failure.
   */
  lemma DesignedSides(b: TimberBranch, placement: Plane, user: string, color: Color, state: string,
                      tolerance: real, newId: Guid, now: DateTime, tessellates: Rectangle -> bool)
    requires newId != EmptyGuid
    requires b.Designed(placement, user, color, state, tolerance, newId, now, tessellates)
    ensures b.id != EmptyGuid <==> |b.orientablePlanes| == 4
    ensures b.id == EmptyGuid <==> b.orientablePlanes == []
    ensures b.id != EmptyGuid ==> b.id == newId && |b.meshBox| == 4
    ensures b.id == EmptyGuid ==> |b.meshBox| < 4
  {
    TessellatedPrefixComplete(placement, DefaultWidth, DefaultLength, DefaultThickness, tolerance, tessellates);
  }

  /**
   * With the default 18 by 300 by 18 section every side border lies on the box, because the
   * cross-section is square.
   */
  lemma DefaultSidesOnBox(p: Plane, k: QuarterTurns)
    ensures forall c :: c in CornersIn(GetBorderFaceOn(RotateY(p, k), DefaultWidth, DefaultLength, DefaultThickness), p) ==>
      IsBoxCorner(c, DefaultWidth, DefaultLength, DefaultThickness)
  {
    SideOnBox(p, k, DefaultWidth, DefaultLength, DefaultThickness);
  }

  /**
   * Branch A at some plane, then B built on A with the hierarchy kept: B is A's only child,
   * A is B's only parent, and B sits on A's build-on plane.
   */
  method BuildOnScenario(pose: Pose, idA: Guid, idB: Guid, now: DateTime) returns (a: TimberBranch, b: TimberBranch)
    requires idA != EmptyGuid && idB != EmptyGuid
    requires ValidDateTime(now)
    ensures a.id == idA && b.id == idB
    ensures b.parentIDs == [a.id] && a.childIDs == [b.id] && a.parentIDs == [] && b.childIDs == []
    ensures b.placementPlane == a.buildOnPlane == a.placementPlane
    ensures b.state == "design" && b.color == Color(255, 200, 50, 50)
  {
    var meshable := (r: Rectangle) => true;
    a := new TimberBranch(Plane(pose, 0), "u0", Color(255, 128, 128, 128), "design", 0.001, idA, now, meshable);
    b := a.BuildOn("u1", Color(255, 200, 50, 50), "design", false, 0.001, idB, now, meshable);
  }

  /** `parent` lists `child` as a child and `child` lists `parent` as a parent. */
  predicate Linked(parent: TimberBranch, child: TimberBranch)
    reads parent, child
  {
    child.id in parent.childIDs && parent.id in child.parentIDs
  }
}
