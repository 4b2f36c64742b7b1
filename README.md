# labelCloud bounding boxes and label files, in Dafny

This project models two parts of labelCloud, a tool for labelling 3D point clouds.

- **The oriented bounding box** (`BBox`, module `BBoxes`). A box has:
  - a centre;
  - a length, width and height along x, y and z;
  - three rotation angles in degrees;
  - a class name;
  - a cache `verticies` of its eight axis-aligned corners relative to the centre.

  The box is modelled as a class whose methods update these fields in place. Each method is specified by a step function on a `BoxState` value, and the lemmas about the step functions carry the properties. The model covers:
  - the validating dimension setters;
  - the rotation setters, which reduce angles with Python's floor `% 360`;
  - translation;
  - the corner table;
  - `change_side`, the asymmetric extrude of one face;
  - the geometry of `draw_bbox` and `draw_relationship`: face centroids, the first-closest-pair search over 6×6 face pairs, and the edge sequences handed to the renderer.
- **The label-format base class** (`BaseLabelFormat`, module `LabelFormats`). It covers:
  - the paths of the label file and the relationship file of a point cloud, computed with pathlib's stem/suffix rules;
  - `save_stuff_to_file`, modelled over a label folder that maps paths to stored files;
  - the relationship record `export_rels` writes and `import_rels` reads back;
  - the degrees/radians rotation conversions.

The remaining modules:
- `Vectors`: points and vector arithmetic.
- `Definitions`: the face table `BBOX_SIDES` and the twelve wireframe edges `BBOX_EDGES`.
- `Faces`: the face geometry.
- `Wrappers`: `Option` and `Result`.

The numeric collaborators are parameters, bundled in a `Numerics` value:
- the Euler rotation of `math3d`;
- `np.linalg.norm`.

Lemmas that need a property of the rotation routine assume only what its name promises. `AboutCentre`: where a point ends up relative to the centre depends only on where it was relative to the centre. Lemmas about the world corners of a box with zero angles require only `IdentityAtZero`: the rotation routine leaves every point in place at the angles (0, 0, 0), whatever it does at other angles. Lemmas about the faces of a box at any angles require `IsRigidRotation`: the routine rotates about the centre, and about the origin it is linear (it keeps sums and multiples of vectors) and keeps lengths, as an exact rotation by Euler angles does. Lemmas that need a concrete norm require `IsEuclideanNorm`: the norm is non-negative and its square is the squared length.

The model follows five behaviours of the code that a reader might not expect:
- The constructor uses Python's `length or default`, so a negative extent is stored as given. Only `None` and `0` fall back to the configured default.
- `set_rotations` stores its angles unreduced. Only the per-axis setters reduce modulo 360.
- The corner cache is rebuilt only by `set_axis_aligned_verticies`, which `__init__`, `draw_bbox` and `draw_relationship` call. The dimension setters and `change_side` leave it stale (`ResizeMakesCacheStale`). Because of this, a second `change_side` reads its corners from the old cache; `RightThenLeftKeepsCentre` shows that a right extrude followed by a left one still returns the centre to where it was.
- `change_side` accepts a change when the grown extent exceeds `MIN_DIMENSION`, which may be zero. It runs six sequential `if`s, so each side's test reads the state left by the tests before it.
- For the relationship connector, only the first of the four vertex lists is drawn (`range(1)`). The three cyclic shifts are computed but never drawn.

## Model

| member | source | states |
|---|---|---|
| Vectors.SqDistance | labelCloud/model/bbox.py:37-38 | the squared distance is never negative, and it is zero between a point and itself |
| Definitions.SIDES | labelCloud/model/bbox.py:190 | the keys of BBOX_SIDES in the order the loops over the face dictionaries meet them (assumed, see Left out) |
| Definitions.BBOX_EDGES | labelCloud/model/bbox.py:228 | the twelve wireframe edges as corner-index pairs (assumed, see Left out) |
| Definitions.SideVertices | labelCloud/model/bbox.py:190-193 | every face lists four distinct corner indices |
| Definitions.Outward | labelCloud/model/bbox.py:292-310 | each face's normal is a unit vector along the face's axis, pointing to + or − |
| Definitions.OppositeFacesPartitionCorners | labelCloud/model/bbox.py:190-193 | opposite faces share an axis and have opposite normals; every corner lies on exactly one of the two faces |
| Definitions.EdgesJoinLayers | labelCloud/model/bbox.py:164-168 | the wireframe joins each lower corner to the one above it, and each layer's corners in a cycle |
| Faces.FaceCentroid | labelCloud/model/bbox.py:191-194 | a face centre is the mean of the face's four corners, coordinate by coordinate; its properties are stated by FaceCentroids and PlacedFaceCentroid |
| Faces.FaceCentroids | labelCloud/model/bbox.py:188-199 | both dictionaries have a key for every side, mapped to the mean of that face's four corners |
| Faces.TakeCloserPair | labelCloud/model/bbox.py:208-210 | a visited pair strictly closer than the best so far (or the first pair) becomes the best of the pairs visited |
| Faces.KeepBestPair | labelCloud/model/bbox.py:208-210 | a visited pair that is not strictly closer leaves the best so far the best of the pairs visited, itself included |
| Faces.FirstClosestPair | labelCloud/model/bbox.py:201-210 | the nested strict-`<` loop returns a pair that no other pair beats, and every pair met earlier is strictly farther (first found wins ties) |
| Faces.DictDistance | labelCloud/model/bbox.py:206-207 | sq_distance between the entries of faces1 and faces2; DictDistanceIsFaceDistance states it |
| Faces.DictDistanceIsFaceDistance | labelCloud/model/bbox.py:206-207 | distances read from the centroid dictionaries equal the face-centroid distances of the two boxes |
| Faces.FirstMinimumIsUnique | labelCloud/model/bbox.py:201-210 | at most one pair is the first closest, so the search is deterministic |
| Faces.FirstMinimumOfEqualTables | labelCloud/model/bbox.py:201-210 | the first closest pair depends only on the distance values |
| Faces.PairRankInjective | labelCloud/model/bbox.py:204-205 | the nested loop visits each pair of faces at a distinct step |
| Faces.ClosestFaces | labelCloud/model/bbox.py:188-210 | the returned faces are the first closest pair of the two boxes by squared centroid distance |
| Faces.FaceVertices | labelCloud/model/bbox.py:212-214 | the chosen vertices of a face are four points |
| Faces.CyclicShifts | labelCloud/model/bbox.py:216-219 | the three permutations are the cyclic shifts of the face starting at its second, third and fourth corner |
| Faces.VerticePairs | labelCloud/model/bbox.py:221-224 | the four vertex lists: the first face's corners followed by the second face's corners, or by one of its cyclic shifts; ConnectorSequence states how they are used |
| Faces.DrawingSequence | labelCloud/model/bbox.py:164-168 | the sequence holds two points per edge: the vertices at both ends of each of the twelve edges, in edge order |
| Faces.ConnectorSequence | labelCloud/model/bbox.py:226-231 | the sequence holds two points per edge, taken from the first vertex list only |
| Vectors.TranslatePoint | labelCloud/model/bbox.py:74 | math3d.translate_point: adds (dx, dy, dz) to a point; Translated and TranslationsCompose state its effect on the box |
| Vectors.RotateAroundCenter | labelCloud/model/bbox.py:64-68 | math3d.rotate_bbox_around_center: the rotation parameter applied to each point about the centre by the three angles; UnrotatedWorldVertices states it at zero angles |
| BBoxes.Corners | labelCloud/model/bbox.py:137-148 | the corner table over (length, width, height); CornerIndex, CornersAreHalfExtents and FacesOfCorners state its shape |
| BBoxes.OrDefault | labelCloud/model/bbox.py:26-28 | Python's `value or default` for an optional extent; Initial states its effect |
| BBoxes.CornerIndex | labelCloud/model/bbox.py:136-148 | the index convention gives each sign pattern (±x, ±y, ±z) exactly one corner |
| BBoxes.CornersAreHalfExtents | labelCloud/model/bbox.py:136-148 | corner i is (±l/2, ±w/2, ±h/2) with the signs of its index pattern; every sign pattern occurs once |
| BBoxes.EdgesAreAxisParallel | labelCloud/model/bbox.py:164-168 | for positive extents, every wireframe edge joins corners that differ in exactly one coordinate |
| BBoxes.FacesOfCorners | labelCloud/model/bbox.py:136-148 | the corners of each face lie half an extent out along that face's normal |
| BBoxes.Refreshed | labelCloud/model/bbox.py:136-148 | rebuilding the cache makes it match the current extents and changes nothing else |
| BBoxes.RefreshIdempotent | labelCloud/model/bbox.py:136-148 | rebuilding twice equals rebuilding once, and rebuilding a fresh cache changes nothing |
| BBoxes.Initial | labelCloud/model/bbox.py:25-34 | the centre is as given, the rotation is zero, the class is configured, the cache is fresh; each extent is the given value unless it is None or 0, when the configured default is used |
| BBoxes.WithDimension | labelCloud/model/bbox.py:293-310 | the extent along one axis is replaced; all other fields are kept |
| BBoxes.DimensionSet | labelCloud/model/bbox.py:86-102 | a positive value replaces the axis's extent and any other value is ignored; the other extents, centre, rotation, class and cache are kept |
| BBoxes.DimensionsSet | labelCloud/model/bbox.py:104-110 | when all three values are positive each extent takes its value, otherwise every extent is kept; the centre, rotation, class and cache are always kept |
| BBoxes.DimensionSettersValidate | labelCloud/model/bbox.py:86-110 | the setters keep positive extents positive; a setter changes the box exactly when given positive values that differ from the current ones |
| BBoxes.ResizeMakesCacheStale | labelCloud/model/bbox.py:86-102 | a real resize keeps the old cache, which then no longer matches the extents until it is rebuilt |
| BBoxes.ClassnameSet | labelCloud/model/bbox.py:82-84 | a non-empty name replaces the class; an empty name and None are ignored; nothing else changes |
| BBoxes.Volume | labelCloud/model/bbox.py:77-78 | length × width × height; VolumeOfCache relates it to the corner cache |
| BBoxes.VolumeOfCache | labelCloud/model/bbox.py:77-78 | with a fresh cache, the volume is the product of the corner spans along the three axes, and it is positive for positive extents |
| BBoxes.Mod360 | labelCloud/model/bbox.py:112-119 | the floor remainder lies in [0, 360), and it equals the angle exactly when the angle is already in that range |
| BBoxes.Mod360Periodic | labelCloud/model/bbox.py:112-119 | angles a whole number of turns apart are stored alike |
| BBoxes.Mod360IsWholeTurns | labelCloud/model/bbox.py:112-119 | reducing twice equals reducing once, and the reduction removes a whole number of turns |
| BBoxes.Mod360Examples | labelCloud/model/bbox.py:112-113 | 370 is stored as 10, −10 as 350, and 720 as 0 |
| BBoxes.RotationSet | labelCloud/model/bbox.py:112-119 | one angle becomes the given angle mod 360; the other angles and fields are kept |
| BBoxes.RotationsSet | labelCloud/model/bbox.py:121-124 | the three angles are stored as given; all other fields are kept |
| BBoxes.RotationSettersNormalise | labelCloud/model/bbox.py:112-124 | the per-axis setters keep all angles in [0, 360); set_rotations leaves them in range exactly when its arguments already are |
| BBoxes.TranslationSet | labelCloud/model/bbox.py:126-133 | one centre coordinate is replaced; the other coordinates and fields are kept |
| BBoxes.Translated | labelCloud/model/bbox.py:280-281 | the centre moves by exactly (dx, dy, dz); nothing else changes |
| BBoxes.TranslationsCompose | labelCloud/model/bbox.py:280-281 | translations add up; the opposite translation undoes one; setting x to x + dx equals translating by (dx, 0, 0) |
| BBoxes.AxisAlignedVertices | labelCloud/model/bbox.py:71-75 | the cached corners placed at the centre; BBox.GetAxisAlignedVertices is proved against it |
| BBoxes.WorldVertices | labelCloud/model/bbox.py:63-69 | the axis-aligned corners rotated about the centre; BBox.GetVertices is proved against it and UnrotatedWorldVertices states it at zero angles |
| BBoxes.Placed | labelCloud/model/bbox.py:71-75 | each translated corner minus the centre is the cached corner |
| BBoxes.UnrotatedWorldVertices | labelCloud/model/bbox.py:63-69 | for a box with zero angles and a rotation routine that is the identity at zero angles, the world vertices are the axis-aligned ones |
| BBoxes.PlacedFaceCentroid | labelCloud/model/bbox.py:188-199 | a face centre of a placed box lies half the extent from the centre along the face's outward normal |
| BBoxes.MovingPairSpansBox | labelCloud/model/bbox.py:292-310 | each side's moving corner is on that face and its anchor is on the opposite face, joined by a wireframe edge |
| BBoxes.MovingPair | labelCloud/model/bbox.py:293-310 | the (moving, anchor) corner pair each `if` of change_side passes to translate_side; MovingPairSpansBox states its geometry |
| BBoxes.StepAlong | labelCloud/model/bbox.py:288 | direction / norm × (distance / 2), with zero for a zero norm; StepAlongLength and StepAlongAxis state its length and direction |
| BBoxes.CornerDirection | labelCloud/model/bbox.py:285-287 | the `direction` of translate_side: the moving world corner minus the anchor; PairDirection and ReversedDirection state it |
| BBoxes.HalfStep | labelCloud/model/bbox.py:285-289 | translate_side's vector from the world corners of the current state; HalfStepLength and AxisHalfStep state it |
| BBoxes.StepAlongLength | labelCloud/model/bbox.py:288 | dividing by the true norm gives a vector parallel to the direction, half the distance long |
| BBoxes.StepAlongAxis | labelCloud/model/bbox.py:288 | for any vector u scaled by a positive e with norm e, the step is u times half the distance |
| BBoxes.HalfStepLength | labelCloud/model/bbox.py:284-289 | for a Euclidean norm and distinct corners, translate_side's vector points from anchor to moving corner and is half the distance long |
| BBoxes.SideTranslated | labelCloud/model/bbox.py:284-289 | the centre moves by the translation vector computed from the current world corners; nothing else changes |
| BBoxes.SideNamed | labelCloud/model/bbox.py:292-310 | a BBOX_SIDES key names exactly one side; any other string names none |
| BBoxes.NamesDiffer | labelCloud/model/bbox.py:292-310 | distinct sides have distinct names, so at most one `if` of change_side matches |
| BBoxes.ExtrudeStep | labelCloud/model/bbox.py:293-295 | one `if` of change_side: when the name matches and the grown extent exceeds the minimum, grow the extent and translate the centre; ExtrudeStepIdle and ChangeSideIsOneStep state it |
| BBoxes.SideExtruded | labelCloud/model/bbox.py:293-310 | the six `if`s in source order, each on the state the previous left; ChangeSideAccepts and ChangeSideRejects state it |
| BBoxes.ChangeSideIsOneStep | labelCloud/model/bbox.py:293-310 | for a known side, the six tests reduce to that side's own `if`: the others leave the box unchanged |
| BBoxes.ExtrudeStepIdle | labelCloud/model/bbox.py:293-294 | an `if` whose name or minimum test fails leaves the box unchanged |
| BBoxes.ChangeSideRejects | labelCloud/model/bbox.py:292-310 | an unknown side, or an extent that would not exceed the minimum, leaves the box unchanged, centre included |
| BBoxes.ChangeSideAccepts | labelCloud/model/bbox.py:292-310 | an accepted change grows exactly that side's extent by the distance and moves the centre by translate_side's vector computed before the change; rotation, class and cache are kept |
| BBoxes.ChangeSideKeepsDimsPositive | labelCloud/model/bbox.py:292-310 | with a non-negative minimum, change_side keeps the extents positive |
| BBoxes.PairDirection | labelCloud/model/bbox.py:285-287 | for a box with zero angles and a rotation routine that is the identity at zero angles, a side's corner-pair direction is the side's outward normal times the cached extent |
| BBoxes.AxisHalfStep | labelCloud/model/bbox.py:284-289 | for a box with zero angles whose cache is the corner table of extents (l, w, h), positive along the side's axis, a rotation routine that is the identity at zero angles and a Euclidean norm, translate_side moves the centre half the distance along the side's outward normal |
| BBoxes.ExtrudedFaces | labelCloud/model/bbox.py:292-310 | moving the centre half the distance while the extent grows by the full distance moves the chosen face by the distance and keeps the opposite face fixed |
| BBoxes.UnrotatedFaceCentroid | labelCloud/model/bbox.py:188-199 | for a box with zero angles and a fresh cache, and a rotation routine that is the identity at zero angles, each face centre is the centre plus half the extent along the normal |
| BBoxes.UnrotatedExtrudeMovesOneFace | labelCloud/model/bbox.py:292-310 | for a box with zero angles, a fresh cache and a positive extent along the side's axis, a rotation routine that is the identity at zero angles and a Euclidean norm, an accepted change_side moves the chosen face by the distance along its normal and keeps the opposite face in place once the cache is rebuilt |
| BBoxes.ExtrudedFromState | labelCloud/model/bbox.py:292-310 | for boxes with zero angles and fresh caches, and a rotation routine that is the identity at zero angles: a box with the centre and extents of an accepted extrude has the chosen face moved and the opposite face kept |
| BBoxes.RotatedCorner | labelCloud/model/bbox.py:63-69 | for a rotation routine that rotates about the centre, each world corner is the centre plus the cached corner rotated about the origin by the box's angles |
| BBoxes.FaceMean | labelCloud/model/bbox.py:188-199 | a face centre is a quarter of the sum of its four corners |
| BBoxes.RotatedMean | labelCloud/model/bbox.py:63-69 | a linear rotation maps the mean of four points to the mean of the rotated points |
| BBoxes.RotatedFaceCentroid | labelCloud/model/bbox.py:63-69 | at any angles, for a rotation routine that rotates about the centre and is linear, each world face centre is the centre plus the rotated face centre of the cached corners |
| BBoxes.CornerFaceCentroid | labelCloud/model/bbox.py:136-148 | the face centres of the corner table of extents (l, w, h) are the face offsets: half the extent along each face's normal |
| BBoxes.RotatedOffsetFace | labelCloud/model/bbox.py:63-69 | at any angles, with a fresh cache and a rotation routine as above, each world face centre is the centre plus the rotated face offset |
| BBoxes.CornerPairSpan | labelCloud/model/bbox.py:292-310 | in the corner table, each side's moving corner lies the side's extent from its anchor along the side's outward normal |
| BBoxes.RotatedDirection | labelCloud/model/bbox.py:285-287 | at any angles, for a rotation routine that rotates about the centre and is linear, the corner direction is the difference of the two cached corners, rotated |
| BBoxes.RotatedHalfStep | labelCloud/model/bbox.py:284-289 | at any angles, with the cache the corner table of extents positive along the side's axis, a rigid rotation and a Euclidean norm, translate_side moves the centre half the distance along the side's rotated outward normal |
| BBoxes.GrownOffsets | labelCloud/model/bbox.py:292-310 | growing a side's extent by the distance moves that side's offset half the distance along its normal and the opposite side's offset half the distance back |
| BBoxes.RotatedMovedFace | labelCloud/model/bbox.py:292-310 | at any angles, for boxes with fresh caches related as an accepted extrude relates them, the chosen face centre moves the whole distance along the rotated normal |
| BBoxes.RotatedKeptFace | labelCloud/model/bbox.py:292-310 | under the same conditions, the face centre opposite the chosen side stays where it was |
| BBoxes.GrownExtents | labelCloud/model/bbox.py:292-310 | a state with the side's extent set to v and the other extents of s has the extents of s with that component set to v |
| BBoxes.GrownIsRotatedExtrude | labelCloud/model/bbox.py:292-310 | a state with the side's extent grown by the distance, the other extents and the angles kept, and the centre moved half the distance along the rotated normal is, with its cache rebuilt, related to s as an accepted extrude |
| BBoxes.AcceptedIsRotatedExtrude | labelCloud/model/bbox.py:284-310 | at any angles, with a fresh cache, a positive extent along the side's axis, a rigid rotation and a Euclidean norm, an accepted change_side moves the centre half the distance along the rotated normal, grows that extent by the distance and keeps the angles |
| BBoxes.ExtrudeMovesOneFace | labelCloud/model/bbox.py:284-310 | at any angles, with a fresh cache, a positive extent along the side's axis, a rigid rotation and a Euclidean norm, an accepted change_side moves the chosen face by the distance along its rotated outward normal and keeps the opposite face in place once the cache is rebuilt |
| BBoxes.ReversedDirection | labelCloud/model/bbox.py:285-287 | for a rotation about the centre, moving only the centre of a box leaves its corner directions as they were, so reading a pair in the opposite order gives the negated direction |
| BBoxes.RightThenLeftKeepsCentre | labelCloud/model/bbox.py:293-298 | for any box (any angles, any cache), a rotation about the centre and a Euclidean norm, extruding right and then left by the same distance keeps the centre, rotation and cache, grows the length by twice the distance and keeps the width and height |
| BBoxes.SideBySideGap | labelCloud/model/bbox.py:188-199 | for boxes of extents e1 and e2 with positive lengths, centred at c and g further along x, the facing centres (right, left) differ only in x, by the room g − (e1.x + e2.x)/2 between the boxes, and every other pair is farther apart than that in x |
| BBoxes.SideBySideFacing | labelCloud/model/bbox.py:201-210 | the facing pair's squared distance is the room between the boxes, squared |
| BBoxes.SideBySideDistances | labelCloud/model/bbox.py:201-210 | for two boxes as above with non-negative room m between them, no pair of faces is closer than m², the facing pair's squared distance, and every other pair is strictly farther |
| BBoxes.SideBySideBoxesPickRightLeft | labelCloud/model/bbox.py:175-214 | for two boxes side by side along x, of any extents with positive lengths, the first centred anywhere and the second g further along x with g at least the sum of the half lengths, draw_relationship connects the right face of the first to the left face of the second |
| BBoxes.BBox.constructor | labelCloud/model/bbox.py:16-34 | the new box is the initial state: given or default extents, zero rotation, the configured class, a fresh cache |
| BBoxes.BBox.SetClassname | labelCloud/model/bbox.py:82-84 | the new state is ClassnameSet of the old one |
| BBoxes.BBox.SetLength | labelCloud/model/bbox.py:86-90 | the new state is DimensionSet of the old one along x |
| BBoxes.BBox.SetWidth | labelCloud/model/bbox.py:92-96 | the new state is DimensionSet of the old one along y |
| BBoxes.BBox.SetHeight | labelCloud/model/bbox.py:98-102 | the new state is DimensionSet of the old one along z |
| BBoxes.BBox.SetDimensions | labelCloud/model/bbox.py:104-110 | the new state is DimensionsSet of the old one |
| BBoxes.BBox.SetXRotation | labelCloud/model/bbox.py:112-113 | the new state is RotationSet of the old one about x |
| BBoxes.BBox.SetYRotation | labelCloud/model/bbox.py:115-116 | the new state is RotationSet of the old one about y |
| BBoxes.BBox.SetZRotation | labelCloud/model/bbox.py:118-119 | the new state is RotationSet of the old one about z |
| BBoxes.BBox.SetRotations | labelCloud/model/bbox.py:121-124 | the new state is RotationsSet of the old one |
| BBoxes.BBox.SetXTranslation | labelCloud/model/bbox.py:126-127 | the new state is TranslationSet of the old one along x |
| BBoxes.BBox.SetYTranslation | labelCloud/model/bbox.py:129-130 | the new state is TranslationSet of the old one along y |
| BBoxes.BBox.SetZTranslation | labelCloud/model/bbox.py:132-133 | the new state is TranslationSet of the old one along z |
| BBoxes.BBox.SetAxisAlignedVerticies | labelCloud/model/bbox.py:136-148 | the new state is the old one with the cache rebuilt |
| BBoxes.BBox.GetAxisAlignedVertices | labelCloud/model/bbox.py:71-75 | the loop returns the cached corners translated to the centre, in index order |
| BBoxes.BBox.GetVertices | labelCloud/model/bbox.py:63-69 | the result is the axis-aligned corners rotated about the centre by the stored angles |
| BBoxes.BBox.TranslateBBox | labelCloud/model/bbox.py:280-281 | the new state is the old one translated |
| BBoxes.BBox.TranslateSide | labelCloud/model/bbox.py:284-289 | the new state is SideTranslated of the old one |
| BBoxes.BBox.ExtrudeIf | labelCloud/model/bbox.py:293-295 | one `if` of change_side: the new state is that side's ExtrudeStep of the old one |
| BBoxes.BBox.ChangeSide | labelCloud/model/bbox.py:292-310 | the new state is SideExtruded of the old one: the six tests in source order |
| BBoxes.BBox.DrawBBox | labelCloud/model/bbox.py:151-171 | the cache is rebuilt, and the sequence lists both ends of every edge over the world vertices |
| BBoxes.BBox.DrawRelationship | labelCloud/model/bbox.py:175-234 | the cache is rebuilt; the keys are the first closest faces; the chosen vertices are those faces' corners; the sequence follows the edges over chosen1 + chosen2 |
| LabelFormats.Name | labelCloud/io/labels/base.py:44 | pathlib's Path.name: the final part, or empty |
| LabelFormats.ParentName | labelCloud/io/labels/base.py:66 | Path.parent.name: the part before the final one, or empty |
| LabelFormats.JoinParts | labelCloud/io/labels/base.py:68 | the parts of a path joined by '/', as str(path) writes them; RecordHeader states it |
| LabelFormats.PathString | labelCloud/io/labels/base.py:68 | str(path): the parts joined by '/', with a leading '/' when absolute and "." for an empty relative path; RecordHeader states it |
| LabelFormats.HasSuffix | labelCloud/io/labels/base.py:54 | pathlib's rule: a name has a suffix when its last dot is neither its first nor its last character; StemAndSuffix and EmptyStemLabelHasNoSuffix state it |
| LabelFormats.Suffix | labelCloud/io/labels/base.py:54 | Path.suffix: from the last dot, when that dot is neither the first character nor the last; StemAndSuffix states it |
| LabelFormats.Stem | labelCloud/io/labels/base.py:44 | Path.stem: the name without its suffix; StemAndSuffix states it |
| LabelFormats.FILE_ENDING | labelCloud/io/labels/base.py:13 | BaseLabelFormat.FILE_ENDING, ".json" |
| LabelFormats.LabelPath | labelCloud/io/labels/base.py:44 | the label folder joined with the stem and ".json"; LabelAndRelPaths states it |
| LabelFormats.RelPath | labelCloud/io/labels/base.py:48 | the label folder joined with the stem, "_rels" and ".json"; LabelAndRelPaths states it |
| LabelFormats.JoinPath | labelCloud/io/labels/base.py:44 | joining keeps the folder's parts and appends the name, which becomes the path's final name |
| LabelFormats.LastDot | labelCloud/io/labels/base.py:44 | the result is the index of the last '.', or None when the name has no dot |
| LabelFormats.StemAndSuffix | labelCloud/io/labels/base.py:44 | stem + suffix is the name; the suffix is empty or a dot followed by at least one non-dot character |
| LabelFormats.LastDotOfExtension | labelCloud/io/labels/base.py:44 | the last dot of stem + ".ext" is at the start of the extension |
| LabelFormats.LabelAndRelPaths | labelCloud/io/labels/base.py:43-49 | a point cloud's label file and relationship file differ; the relationship file always has the .json suffix, and the label file does when the stem is non-empty |
| LabelFormats.EmptyStemLabelHasNoSuffix | labelCloud/io/labels/base.py:43-45 | with an empty stem the label file is ".json", which pathlib gives no suffix, so it would be written as raw text |
| LabelFormats.LabelPathMeetsRelPath | labelCloud/io/labels/base.py:43-49 | for a non-empty t and an extension of a dot and at least one non-dot character, the label file of t + "_rels" + ext is the relationship file of t + ext in the same directory |
| LabelFormats.ScanRelsMeetsScan | labelCloud/io/labels/base.py:43-49 | the instance: the label file of "scan_rels.pcd" is the relationship file of "scan.pcd" |
| LabelFormats.StuffSaved | labelCloud/io/labels/base.py:51-60 | only the target path changes; a .json path holds the data as JSON |
| LabelFormats.SaveResult | labelCloud/io/labels/base.py:51-60 | saving fails exactly when the path is not .json and the data is not a string |
| LabelFormats.Entries | labelCloud/io/labels/base.py:71-76 | there is one entry per relationship, in order, holding its name and its two box indices |
| LabelFormats.RelRecordFor | labelCloud/io/labels/base.py:64-79 | the dictionary export_rels writes: folder, filename, path and the entries; RecordHeader and ExportThenImport state it |
| LabelFormats.Exported | labelCloud/io/labels/base.py:63-82 | the label folder after export_rels saves the record at the relationship path; ExportTouchesOnlyRelFile and ExportThenImport state it |
| LabelFormats.ImportedRelations | labelCloud/io/labels/base.py:84-98 | import_rels on the label folder; ExportThenImport and LabelFormat.ImportRels state it |
| LabelFormats.DecodeEntries | labelCloud/io/labels/base.py:92-94 | success happens exactly when every entry has at least two boxes, and then relationship i is (bboxes[0], bboxes[1], name) of entry i; a failure names the first entry with fewer than two boxes |
| LabelFormats.EntriesPrefix | labelCloud/io/labels/base.py:71-76 | the entries of a prefix are the prefix of the entries |
| LabelFormats.DecodeEntriesOfEntries | labelCloud/io/labels/base.py:63-98 | decoding the exported entries returns the relationships in order |
| LabelFormats.DecodeFailureStops | labelCloud/io/labels/base.py:92-94 | once a prefix fails to decode, the whole list fails with the same error |
| LabelFormats.ExportThenImport | labelCloud/io/labels/base.py:63-98 | importing after export_rels returns exactly the exported relationships |
| LabelFormats.ExportTouchesOnlyRelFile | labelCloud/io/labels/base.py:63-82 | export_rels adds or replaces only the relationship file; the label file and all other files are kept |
| LabelFormats.ExportReplaces | labelCloud/io/labels/base.py:51-60 | a second export overwrites the first |
| LabelFormats.RecordHeader | labelCloud/io/labels/base.py:64-68 | for any absolute point-cloud path dir/folder/name, the record's folder is folder, its filename is name, and its path is str(dir/folder) + "/" + name |
| LabelFormats.LabelFormat.constructor | labelCloud/io/labels/base.py:15-32 | the folder, precision and rotation mode are as given, the rotation mode absolute (false) when it is not given; the file ending is ".json" |
| LabelFormats.LabelFormat.UpdateLabelFolder | labelCloud/io/labels/base.py:34-36 | the label folder is replaced |
| LabelFormats.LabelFormat.SaveStuffToFile | labelCloud/io/labels/base.py:51-60 | the folder becomes StuffSaved of the old folder and the result is SaveResult: non-string data at a non-.json path leaves an emptied file |
| LabelFormats.LabelFormat.SaveLabelToFile | labelCloud/io/labels/base.py:43-45 | the data is saved at the stem + ".json" path |
| LabelFormats.LabelFormat.SaveRelToFile | labelCloud/io/labels/base.py:47-49 | the data is saved at the stem + "_rels.json" path |
| LabelFormats.LabelFormat.ExportRels | labelCloud/io/labels/base.py:63-82 | the loop builds the entries, and the folder becomes the exported folder |
| LabelFormats.LabelFormat.ImportRels | labelCloud/io/labels/base.py:84-98 | no file gives no relationships; a relationship record gives its decoded entries; anything else is an error |
| LabelFormats.ExportImportRoundTrip | labelCloud/io/labels/base.py:63-98 | exporting then importing through one format returns Success of the relationships |
| LabelFormats.PI | labelCloud/io/labels/base.py:121-122 | np.pi, as the decimal 3.141592653589793 (see Left out) |
| LabelFormats.Abs2RelRotation | labelCloud/io/labels/base.py:114-123 | an angle in [0, 360) degrees maps into (−π, π] |
| LabelFormats.Rel2AbsRotation | labelCloud/io/labels/base.py:126-135 | an angle in (−π, π] maps into [0, 360) degrees |
| LabelFormats.RotationRoundTrips | labelCloud/io/labels/base.py:114-135 | the two conversions are inverse on their ranges, in both directions |

## Left out

- OpenGL drawing is not modelled, and neither is `draw_orientation`. This covers the matrix stack, colours, line widths and `oglhelper.draw_lines`. The model keeps only the point sequences that are handed to the renderer.
- In `draw_relationship`, `bbox_color` is unbound when `highlighted` is 0, so the call would fail at `draw_lines`. This colour handling is not modelled, because the model stops before the renderer.
- The trigonometry of `math3d.rotate_bbox_around_center`, which get_vertices calls, is out of scope: floating-point trigonometry is an abstract parameter (`Numerics.rotate`). `Vectors.RotateAroundCenter` splits that call into one call of `Numerics.rotate` per point; this is an assumption about math3d, whose code is not part of this model. Lemmas proved at any angles: HalfStepLength, ChangeSideAccepts and RightThenLeftKeepsCentre (for a routine that rotates about the centre), and RotatedHalfStep, AcceptedIsRotatedExtrude and ExtrudeMovesOneFace (for a rigid rotation). Lemmas limited to zero angles, for any routine that leaves points in place there (`IdentityAtZero`): UnrotatedWorldVertices, PairDirection, AxisHalfStep, UnrotatedFaceCentroid, ExtrudedFromState and UnrotatedExtrudeMovesOneFace.
- BBoxes.StepAlong: `np.linalg.norm` is an abstract parameter. When the norm is zero, numpy divides by zero and produces NaN coordinates. The model instead leaves the centre unchanged in that case, because reals have no NaN.
- Floating-point rounding is not modelled: `% 360`, the degree/radian conversions and the sums are exact real arithmetic. Consequently, RotationRoundTrips holds exactly rather than within a floating tolerance.
- LabelFormats.PI: the model's PI is the decimal 3.141592653589793, the shortest decimal that prints as np.pi. np.pi itself is the binary double nearest π, and neither of them is π.
- `round_dec` is not modelled: it is numpy rounding of floats, used only by the concrete formats.
- JSON encoding and decoding are not modelled: a `.json` file holds the data value itself. So `import_rels` on a raw-text file, or on a record written by another format, is modelled as a failure, without parsing.
- Label dictionaries from the concrete formats are opaque (`Labels`). The abstract `import_labels` and `export_labels` are implemented by the concrete format modules.
- Logging calls are left out, because they have no effect on state.
- The getters (`get_center`, `get_dimensions`, `get_rotations` and the per-axis ones) are plain field reads of `State()`.
- `labelCloud/definitions` is not part of this model. The tables `BBOX_SIDES` and `BBOX_EDGES` in module `Definitions` are assumed values, not derived: `bbox.py` fixes only each side's axis (through the corner pairs of `change_side`, bbox.py:295-310) and that "right" is a key (bbox.py:269). The key order decides ties in the closest-face search (bbox.py:204-210), and the corner order within faces and the edge list decide the connector segments (bbox.py:213-231).
- The configuration (`MIN_BOUNDINGBOX_DIMENSION`, the standard extents and class) is passed in as a `Config`.
- `labelCloud/view/viewer.py` and `experiments/cloud_to_bbox.py` are callers of BBox and the label formats, and are not modelled.
- `is_file` on a directory and I/O errors from `open` are not modelled. Only the `TypeError` that `write` raises on non-string data is.
