# TimberBranch bookkeeping, modelled in Dafny

This project models `TimberBranch`, the element class of the Bonsai timber installation
(`Bonsai.cs`). A branch is one timber piece. It has a `Guid` identity (`Guid.Empty` marks a
branch whose construction failed), a placement plane, derived geometry (four side planes,
four side meshes and a box), a colour whose alpha channel encodes selection, parent and
child id lists, and lifecycle time stamps. New branches are spawned from existing ones with
`BuildOn`.

Modules:

- `Identity`: `Guid` (128-bit, `EmptyGuid` = `Guid.Empty`) and `RemoveFirst`, which is
  `List<T>.Remove`.
- `Colors`: ARGB colours and the selection alpha convention (255 selected, 70 not).
- `TimeStamps`: the `yyyy-MM-dd-HH-mm-ss` stamp and a parser proved to be its exact inverse.
- `Geometry`: planes as an opaque kernel pose plus quarter turns about the plane's own Y
  axis. It also holds the side rectangles, the box, the one-cell meshes and the four-sides
  loop the constructors run.
- `Branches`: the class `TimberBranch` with both constructors, selection, the four id-list
  primitives, both `BuildOn` overloads and `GetBorderFace`.

What the host supplies becomes a parameter:

- the fresh id from `Guid.NewGuid()`
- the clock reading from `DateTime.Now`
- the meshing tolerance from the active document
- whether the kernel can mesh a given border rectangle (`tessellates`)

The model follows the code in these respects:

- Parent and child links are ordered lists that allow duplicates.
- The reposition constructor has no `try`/`catch`, so a kernel failure there escapes
  instead of producing `Guid.Empty`.
- Time stamps are strings (`""` when cleared, `null` when never set).
- The class has no graph container. Only `BuildOn` links two branches in both directions;
  the four id-list methods each touch one list of one branch.

## Model

| member | source | states |
|---|---|---|
| `Identity.RemoveFirst` | Bonsai.cs:187-195 | removing an id takes exactly one copy of it out of the list's multiset when present and none otherwise; the length drops by one exactly when the id was present |
| `Identity.RemoveFirstAbsent` | Bonsai.cs:187-195 | removing an id that is not listed leaves the list unchanged |
| `Identity.RemoveFirstPresent` | Bonsai.cs:187-195 | removing a listed id deletes only its first occurrence; every other element, including later copies, stays in order |
| `Identity.RemoveAfterAppendFresh` | Bonsai.cs:177-195 | adding and then removing an id not yet listed restores the list |
| `Identity.RemoveAfterAppendListed` | Bonsai.cs:177-195 | adding and then removing an id already listed removes the earlier copy: the result is the list with its first copy removed and the new copy at the end |
| `Identity.RemoveAfterAppendRestores` | Bonsai.cs:177-195 | adding and then removing an id already listed restores the list exactly when every element from its first copy onwards is that id |
| `Colors.WithAlpha` | Bonsai.cs:168 | `Color.FromArgb(alpha, R, G, B)` keeps R, G and B and has exactly the given alpha |
| `Colors.SelectionIdempotent` | Bonsai.cs:165-175 | repeating `Select` or `UnSelect` gives the same colour as calling it once |
| `Colors.SelectThenUnselect` | Bonsai.cs:165-175 | `Select` then `UnSelect` gives the original RGB with alpha 70 |
| `Colors.SelectionsPreserveRgb` | Bonsai.cs:165-175 | any sequence of selections leaves R, G and B unchanged |
| `Colors.SelectionsLastWins` | Bonsai.cs:165-175 | after a non-empty sequence of selections the alpha matches the last call's flag (255 or 70) |
| `TimeStamps.Digits` | Bonsai.cs:266 | zero-padded fields have exactly the field width and contain only decimal digits |
| `TimeStamps.DigitsValueOfDigits` | Bonsai.cs:266 | a zero-padded field reads back as its number |
| `TimeStamps.DigitsOfDigitsValue` | Bonsai.cs:266 | every digit string is the zero-padded field of its own value |
| `TimeStamps.GetTimeStamp` | Bonsai.cs:264-267 | a stamp has 19 characters, '-' at positions 4, 7, 10, 13 and 16, and decimal digits everywhere else |
| `TimeStamps.ParseTimeStamp` | Bonsai.cs:264-267 | a string is accepted only if it has stamp shape and names a valid instant |
| `TimeStamps.ParseOfStamp` | Bonsai.cs:264-267 | every instant's stamp parses back to that instant |
| `TimeStamps.StampOfParse` | Bonsai.cs:264-267 | every string that parses is the stamp of the instant it parses to |
| `TimeStamps.StampInjective` | Bonsai.cs:264-267 | two different instants never produce the same stamp |
| `Geometry.RotateY` | Bonsai.cs:87 | a rotation about the plane's own Y axis keeps the plane's kernel pose |
| `Geometry.RotateYCompose` | Bonsai.cs:87 | quarter turns about the same axis add up |
| `Geometry.RotateYFullTurn` | Bonsai.cs:84-88 | four quarter turns return the original plane |
| `Geometry.OrientablePlanesCycle` | Bonsai.cs:84-88 | there are four orientable planes; the first is the placement plane; all four differ; one more quarter turn maps each plane to the next and the last back to the first |
| `Geometry.Centered` | Bonsai.cs:78-80 | each interval is centred on zero and as long as its extent |
| `Geometry.GetBorderFaceOn` | Bonsai.cs:240-247 | a side's border lies on the given plane, is centred, spans the width by the length, and sits half the thickness down the plane's Z axis |
| `Geometry.BoxOn` | Bonsai.cs:78-81 | the box lies on the placement plane, is centred, and spans width by length by thickness |
| `Geometry.TessellatedPrefix` | Bonsai.cs:84-107 | the meshes left after a throw form a prefix of the side meshes; every border in it meshed, and the first border after it did not |
| `Geometry.TessellatedPrefixComplete` | Bonsai.cs:84-102 | all four side meshes are present exactly when every side meshes |
| `Geometry.BuildSides` | Bonsai.cs:83-102 | the loop completes exactly when every side meshes; it appends exactly the meshes made before any throw; on completion it returns the four quarter-turned planes |
| `Geometry.SideOnBox` | Bonsai.cs:84-98 | the corners of the border rectangle built on the plane turned k quarter turns, read in the placement plane's coordinates, are all corners of the box exactly when k is even or width equals thickness |
| `Branches.TimberBranch.constructor` | Bonsai.cs:55-109 | fresh branch: new id if every side meshes, otherwise `Guid.Empty` with no side planes and a partial mesh; all three planes equal the placement plane; dimensions 18/300/18; empty id lists; design stamp is now; other stamps ""; remaining fields at defaults; geometry consistent |
| `Branches.TimberBranch.Reposition` | Bonsai.cs:112-162 | moved copy: keeps id, user, colour, state, dimensions, design stamp and both id lists; planes are the new plane; modification stamp is now; physical stamp ""; selection, message, fabrication fields and shifts reset; geometry rebuilt |
| `Branches.TimberBranch.Select` | Bonsai.cs:165-169 | sets `selected` and alpha 255, keeps RGB, changes no other field |
| `Branches.TimberBranch.UnSelect` | Bonsai.cs:171-175 | clears `selected` and sets alpha 70, keeps RGB, changes no other field |
| `Branches.TimberBranch.AddParentID` | Bonsai.cs:177-180 | appends exactly the given id to `parentIDs` (duplicates allowed) and changes no other field |
| `Branches.TimberBranch.AddChildID` | Bonsai.cs:182-185 | appends exactly the given id to `childIDs` (duplicates allowed) and changes no other field |
| `Branches.TimberBranch.RemoveParentID` | Bonsai.cs:187-190 | deletes only the first occurrence from `parentIDs`, leaves it unchanged when absent, changes no other field |
| `Branches.TimberBranch.RemoveChildID` | Bonsai.cs:192-195 | deletes only the first occurrence from `childIDs`, leaves it unchanged when absent, changes no other field |
| `Branches.TimberBranch.BuildOn` | Bonsai.cs:210-218 | the new branch is a fresh branch on this branch's build-on plane with the caller's state; linked: child's parents = [this id] and this id's children gain the child's id (even `Guid.Empty`); ignored: both lists untouched |
| `Branches.TimberBranch.BuildOnPlane` | Bonsai.cs:219-227 | as `BuildOn`, but at the caller's plane and always in state "virtual" |
| `Branches.TimberBranch.GetBorderFace` | Bonsai.cs:229-238 | only an existing side index is accepted; on a consistent branch the border equals that side's cached mesh border and lies on the placement plane turned that many quarter turns |
| `Branches.DesignedSides` | Bonsai.cs:55-109 | after fresh construction the branch has a real id exactly when it has four side planes (and four meshes); with `Guid.Empty` it has none and fewer than four meshes |
| `Branches.DefaultSidesOnBox` | Bonsai.cs:23-25 | with the default 18/300/18 section every side border lies on the box |
| `Branches.BuildOnScenario` | Bonsai.cs:210-218 | building B on A with the hierarchy kept gives B.parentIDs = [A.id], A.childIDs = [B.id], and B on A's build-on plane |

## Left out

- `ToJson`, `FromJson`, `ListToJson` and `FromJsonToList` (Bonsai.cs:199-207, 255-262) are
  calls into Newtonsoft.Json, whose behaviour is not part of this model. The same goes for
  the parameterless constructor (Bonsai.cs:52), which exists only for deserialization and
  leaves the lists `null`.
- `PlanePointZValue` (Bonsai.cs:249-253) is a call into the geometry kernel
  (`RemapToPlaneSpace`).
- The geometry kernel itself is kept opaque:
  - Planes hold an opaque pose.
  - Rectangles, boxes and meshes are recorded by the plane and intervals they are built
    from, not by vertices.
  - Rotations are exact quarter turns. In double precision `cos(π/2)` is not exactly 0, so
    the kernel's rotated planes are only close to these.
  - Dimensions are exact reals rather than doubles. Halving 18 and 300 is exact in
    doubles anyway.
- Two planes reached by different poses are distinct values in the model even if they
  coincide in space.
- `Rhino.RhinoDoc.ActiveDoc` (Bonsai.cs:59, 157) is not modelled. The tolerance is a
  parameter, so the `NullReferenceException` when no document is open is not modelled.
- `Box.ToBrep` (Bonsai.cs:81, 140) is taken not to throw. The only kernel failure modelled
  is a side that cannot be meshed. It is assumed to throw out of the loop body.
- `Geometry.TessellatedPrefix`, `Branches.DesignedSides` and the fresh constructor model only a
  meshing failure that throws. `Mesh.CreateFromPlanarBoundary` (Bonsai.cs:98) may instead
  return `null`. If `Mesh.Append` then ignores it, the branch keeps its fresh id and all four
  side planes while `meshBox` has fewer than four parts. That case is not modelled, so
  "real id exactly when four meshes" and the match between `GetBorderFace` and `meshBox` do
  not cover it.
- `Branches.TimberBranch.Reposition`: the source constructor throws when a side cannot be
  meshed (it has no `try`/`catch`), so no object results. The model takes "every side
  meshes" as a precondition instead of modelling the exception.
- `Branches.TimberBranch.constructor` and the `BuildOn` overloads require the fresh id to
  differ from `Guid.Empty`. `Guid.NewGuid()` produces version-4 ids, whose version bits are
  never all zero.
- `TimeStamps.GetTimeStamp` assumes the current culture uses the Gregorian calendar. The
  source formats with the culture's calendar (Bonsai.cs:266), so under a Buddhist-era or Hijri
  culture the year, month and day differ from the model's. `ValidDateTime` applies Gregorian
  leap years.
- `null` strings passed as `user` or `state` are not modelled. Fields that C# leaves `null`
  are `None`.
- `System.Drawing.Color` equality also compares known-colour names. The model compares the
  four channels only.
- The id lists are sequence values. So the reposition constructor's fresh lists, and the
  independence of the two branches' lists afterwards, hold by construction rather than
  through `List<Guid>` object identity.
- `TimberBranch` keeps no collection of branches. Links between two branches are recorded only
  by `BuildOn` (`Linked`); no other operation reaches a second branch.
- `placementGlueShift` and `placementShift` (Bonsai.cs:47-49) are carried as fields. No code
  in the class reads or writes them.
