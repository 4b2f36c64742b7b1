/** The oriented bounding box of labelCloud (class BBox): a centre, three
    extents (length along x, width along y, height along z), three rotation
    angles in degrees and a class name, together with a cache `verticies` of
    the eight axis-aligned corners relative to the centre. The cache is rebuilt
    only by set_axis_aligned_verticies; the dimension setters and change_side
    leave it as it was.

    Every mutating operation of the class is specified by a step function on a
    BoxState value; the lemmas about the step functions carry the properties. */
module BBoxes {
  import opened Wrappers
  import opened Vectors
  import opened Definitions
  import opened Faces

  /** The LABEL section of the configuration that a box reads. */
  datatype Config = Config(
    minDimension: real,
    stdLength: real,
    stdWidth: real,
    stdHeight: real,
    stdClass: string)

  /** The fields of a BBox; `rotation` holds (x_rotation, y_rotation, z_rotation). */
  datatype BoxState = BoxState(
    center: Vec3,
    length: real,
    width: real,
    height: real,
    rotation: Vec3,
    classname: string,
    verticies: Octet)

  // ---------------------------------------------------------------------
  // The corner table and the cache
  // ---------------------------------------------------------------------

  /** The table of set_axis_aligned_verticies: corner i of a box of extents
      (l, w, h) about the origin. */
  function Corners(l: real, w: real, h: real): Octet
  {
    [Vec3(-l / 2.0, -w / 2.0, -h / 2.0),
     Vec3(-l / 2.0, w / 2.0, -h / 2.0),
     Vec3(l / 2.0, w / 2.0, -h / 2.0),
     Vec3(l / 2.0, -w / 2.0, -h / 2.0),
     Vec3(-l / 2.0, -w / 2.0, h / 2.0),
     Vec3(-l / 2.0, w / 2.0, h / 2.0),
     Vec3(l / 2.0, w / 2.0, h / 2.0),
     Vec3(l / 2.0, -w / 2.0, h / 2.0)]
  }

  /** The sign pattern of the index convention: which corners lie on the +x,
      +y and +z halves of the box. */
  predicate HighX(i: VertexId) { i == 2 || i == 3 || i == 6 || i == 7 }
  predicate HighY(i: VertexId) { i == 1 || i == 2 || i == 5 || i == 6 }
  predicate HighZ(i: VertexId) { i >= 4 }

  /** The corner with the given sign pattern. */
  function CornerIndex(px: bool, py: bool, pz: bool): (i: VertexId)
    ensures HighX(i) == px && HighY(i) == py && HighZ(i) == pz
  {
    (if pz then 4 else 0) + (if px then (if py then 2 else 3) else (if py then 1 else 0))
  }

  function HalfOrMinusHalf(high: bool, extent: real): real
  {
    if high then extent / 2.0 else -extent / 2.0
  }

  /** The eight corners are exactly the points (±l/2, ±w/2, ±h/2), each sign
      pattern once, at the index CornerIndex gives it. */
  lemma CornersAreHalfExtents(l: real, w: real, h: real)
    ensures forall i: VertexId ::
              Corners(l, w, h)[i] ==
              Vec3(HalfOrMinusHalf(HighX(i), l), HalfOrMinusHalf(HighY(i), w), HalfOrMinusHalf(HighZ(i), h))
    ensures forall px, py, pz ::
              Corners(l, w, h)[CornerIndex(px, py, pz)] ==
              Vec3(HalfOrMinusHalf(px, l), HalfOrMinusHalf(py, w), HalfOrMinusHalf(pz, h))
    ensures forall i: VertexId :: CornerIndex(HighX(i), HighY(i), HighZ(i)) == i
  {
  }

  /** The wireframe edges of the table join corners that differ in exactly one
      coordinate: every edge is parallel to one axis. */
  lemma EdgesAreAxisParallel(l: real, w: real, h: real)
    requires l > 0.0 && w > 0.0 && h > 0.0
    ensures forall k :: 0 <= k < |BBOX_EDGES| ==>
      var a, b := Corners(l, w, h)[BBOX_EDGES[k].0], Corners(l, w, h)[BBOX_EDGES[k].1];
      (if a.x != b.x then 1 else 0) + (if a.y != b.y then 1 else 0) + (if a.z != b.z then 1 else 0) == 1
  {
  }

  /** The corners of every face of the table lie on that face's side of the
      box: their coordinate along the face's axis is half the extent in the
      outward direction. */
  lemma FacesOfCorners(l: real, w: real, h: real, s: Side)
    ensures forall k :: 0 <= k < 4 ==>
      Component(Corners(l, w, h)[SideVertices(s)[k]], SideAxis(s)) ==
      Component(Outward(s), SideAxis(s)) * Component(Vec3(l, w, h), SideAxis(s)) / 2.0
  {
  }

  /** The cache holds the corner table of the current extents. */
  ghost predicate CacheFresh(s: BoxState)
  {
    s.verticies == Corners(s.length, s.width, s.height)
  }

  /** set_axis_aligned_verticies: the cache is rebuilt from the current
      extents; nothing else changes. */
  function Refreshed(s: BoxState): (r: BoxState)
    ensures CacheFresh(r)
    ensures r.(verticies := s.verticies) == s
  {
    s.(verticies := Corners(s.length, s.width, s.height))
  }

  /** A fresh cache is its own refresh, so refreshing twice is refreshing once. */
  lemma RefreshIdempotent(s: BoxState)
    ensures Refreshed(Refreshed(s)) == Refreshed(s)
    ensures CacheFresh(s) ==> Refreshed(s) == s
  {
  }

  // ---------------------------------------------------------------------
  // Construction
  // ---------------------------------------------------------------------

  /** Python's `value or default` on an optional float: None and 0 are falsy. */
  function OrDefault(value: Option<real>, default: real): real
  {
    if value.Some? && value.value != 0.0 then value.value else default
  }

  /** BBox.__init__: the given centre, the given extents where they are truthy
      and the configured ones otherwise, no rotation, the configured class and
      a fresh cache. */
  function Initial(cfg: Config, cx: real, cy: real, cz: real,
                   length: Option<real>, width: Option<real>, height: Option<real>): (s: BoxState)
    ensures s.center == Vec3(cx, cy, cz)
    ensures s.rotation == Origin
    ensures s.classname == cfg.stdClass
    ensures length == None || length == Some(0.0) ==> s.length == cfg.stdLength
    ensures width == None || width == Some(0.0) ==> s.width == cfg.stdWidth
    ensures height == None || height == Some(0.0) ==> s.height == cfg.stdHeight
    ensures length.Some? && length.value != 0.0 ==> s.length == length.value
    ensures width.Some? && width.value != 0.0 ==> s.width == width.value
    ensures height.Some? && height.value != 0.0 ==> s.height == height.value
    ensures CacheFresh(s)
  {
    var l := OrDefault(length, cfg.stdLength);
    var w := OrDefault(width, cfg.stdWidth);
    var h := OrDefault(height, cfg.stdHeight);
    Refreshed(BoxState(Vec3(cx, cy, cz), l, w, h, Origin, cfg.stdClass, Corners(l, w, h)))
  }

  // ---------------------------------------------------------------------
  // Dimensions, class name, volume
  // ---------------------------------------------------------------------

  /** The extent along an axis: length, width or height. */
  function Dimension(s: BoxState, a: Axis): real
  {
    match a
    case X => s.length
    case Y => s.width
    case Z => s.height
  }

  function WithDimension(s: BoxState, a: Axis, v: real): (r: BoxState)
    ensures Dimension(r, a) == v
    ensures forall b :: b != a ==> Dimension(r, b) == Dimension(s, b)
    ensures r.center == s.center && r.rotation == s.rotation
    ensures r.classname == s.classname && r.verticies == s.verticies
  {
    match a
    case X => s.(length := v)
    case Y => s.(width := v)
    case Z => s.(height := v)
  }

  /** set_length, set_width, set_height: a positive value replaces the extent
      along the axis, any other value changes nothing. The cache is left as
      it was. */
  function DimensionSet(s: BoxState, a: Axis, v: real): (r: BoxState)
    ensures Dimension(r, a) == (if v > 0.0 then v else Dimension(s, a))
    ensures forall b :: b != a ==> Dimension(r, b) == Dimension(s, b)
    ensures r.center == s.center && r.rotation == s.rotation
    ensures r.classname == s.classname && r.verticies == s.verticies
  {
    if v > 0.0 then WithDimension(s, a, v) else s
  }

  /** set_dimensions: all three extents are replaced when all are positive,
      otherwise none is. */
  function DimensionsSet(s: BoxState, l: real, w: real, h: real): (r: BoxState)
    ensures var ok := l > 0.0 && w > 0.0 && h > 0.0;
      && Dimension(r, X) == (if ok then l else Dimension(s, X))
      && Dimension(r, Y) == (if ok then w else Dimension(s, Y))
      && Dimension(r, Z) == (if ok then h else Dimension(s, Z))
    ensures r.center == s.center && r.rotation == s.rotation
    ensures r.classname == s.classname && r.verticies == s.verticies
  {
    if l > 0.0 && w > 0.0 && h > 0.0 then s.(length := l, width := w, height := h) else s
  }

  ghost predicate DimsPositive(s: BoxState)
  {
    s.length > 0.0 && s.width > 0.0 && s.height > 0.0
  }

  /** The validating setters keep the extents positive, and change the box
      exactly when they are given a positive value different from the
      current one. */
  lemma DimensionSettersValidate(s: BoxState, a: Axis, v: real, l: real, w: real, h: real)
    ensures DimsPositive(s) ==> DimsPositive(DimensionSet(s, a, v)) && DimsPositive(DimensionsSet(s, l, w, h))
    ensures DimensionSet(s, a, v) != s <==> v > 0.0 && v != Dimension(s, a)
    ensures DimensionsSet(s, l, w, h) != s <==>
      l > 0.0 && w > 0.0 && h > 0.0 && (l, w, h) != (s.length, s.width, s.height)
  {
    if v > 0.0 && v != Dimension(s, a) {
      assert Dimension(DimensionSet(s, a, v), a) != Dimension(s, a);
    }
    if l > 0.0 && w > 0.0 && h > 0.0 && (l, w, h) != (s.length, s.width, s.height) {
      var r := DimensionsSet(s, l, w, h);
      assert (r.length, r.width, r.height) != (s.length, s.width, s.height);
    }
  }

  /** A resize leaves the cache stale: after a real change of an extent the
      cache no longer matches the box until it is refreshed. */
  lemma ResizeMakesCacheStale(s: BoxState, a: Axis, v: real)
    requires CacheFresh(s)
    requires v > 0.0 && v != Dimension(s, a)
    ensures DimensionSet(s, a, v).verticies == s.verticies
    ensures !CacheFresh(DimensionSet(s, a, v))
    ensures CacheFresh(Refreshed(DimensionSet(s, a, v)))
  {
    var r := DimensionSet(s, a, v);
    var corner := Corners(r.length, r.width, r.height)[6];
    assert corner == Vec3(r.length / 2.0, r.width / 2.0, r.height / 2.0);
    assert s.verticies[6] == Vec3(s.length / 2.0, s.width / 2.0, s.height / 2.0);
    assert Component(corner, a) != Component(s.verticies[6], a);
  }

  /** set_classname: a non-empty name replaces the class; an empty name and
      None (both falsy in Python) are ignored. */
  function ClassnameSet(s: BoxState, name: Option<string>): (r: BoxState)
    ensures name.Some? && name.value != "" ==> r.classname == name.value
    ensures name.None? || name.value == "" ==> r.classname == s.classname
    ensures r.(classname := s.classname) == s
  {
    if name.Some? && name.value != "" then s.(classname := name.value) else s
  }

  /** get_volume. */
  function Volume(s: BoxState): real
  {
    s.length * s.width * s.height
  }

  /** With a fresh cache the volume is the product of the spans of the cached
      corners along the three axes, and it is positive for positive extents. */
  lemma VolumeOfCache(s: BoxState)
    requires CacheFresh(s)
    ensures Volume(s) ==
      (s.verticies[6].x - s.verticies[0].x) * (s.verticies[6].y - s.verticies[0].y) * (s.verticies[6].z - s.verticies[0].z)
    ensures DimsPositive(s) ==> Volume(s) > 0.0
  {
    assert s.verticies[6].x - s.verticies[0].x == s.length;
    assert s.verticies[6].y - s.verticies[0].y == s.width;
    assert s.verticies[6].z - s.verticies[0].z == s.height;
    if DimsPositive(s) {
      assert s.length * s.width > 0.0;
    }
  }

  // ---------------------------------------------------------------------
  // Rotation
  // ---------------------------------------------------------------------

  /** Python's `angle % 360` on a float: the floor remainder. */
  function Mod360(a: real): (r: real)
    ensures 0.0 <= r < 360.0
    ensures r == a <==> 0.0 <= a < 360.0
  {
    a - 360.0 * ((a / 360.0).Floor as real)
  }

  /** Angles a whole number of turns apart have the same remainder. */
  lemma Mod360Periodic(a: real, k: int)
    ensures Mod360(a + 360.0 * (k as real)) == Mod360(a)
  {
    var f := (a / 360.0).Floor;
    assert (a + 360.0 * (k as real)) / 360.0 == a / 360.0 + k as real;
    assert ((a + 360.0 * (k as real)) / 360.0).Floor == f + k;
  }

  /** The remainder differs from the angle by a whole number of turns. */
  lemma Mod360IsWholeTurns(a: real)
    ensures Mod360(Mod360(a)) == Mod360(a)
    ensures ((a - Mod360(a)) / 360.0).Floor as real == (a - Mod360(a)) / 360.0
  {
  }

  lemma Mod360Examples()
    ensures Mod360(370.0) == 10.0
    ensures Mod360(-10.0) == 350.0
    ensures Mod360(720.0) == 0.0
  {
    assert (370.0 / 360.0).Floor == 1;
    assert (-10.0 / 360.0).Floor == -1;
    assert (720.0 / 360.0).Floor == 2;
  }

  /** All three stored angles lie in [0, 360). */
  ghost predicate RotationsNormalised(s: BoxState)
  {
    forall a :: 0.0 <= Component(s.rotation, a) < 360.0
  }

  /** set_x_rotation, set_y_rotation, set_z_rotation: the angle about one axis
      becomes the given angle reduced mod 360; nothing else changes. */
  function RotationSet(s: BoxState, a: Axis, angle: real): (r: BoxState)
    ensures Component(r.rotation, a) == Mod360(angle)
    ensures forall b :: b != a ==> Component(r.rotation, b) == Component(s.rotation, b)
    ensures r.(rotation := s.rotation) == s
  {
    s.(rotation := WithComponent(s.rotation, a, Mod360(angle)))
  }

  /** set_rotations: the three angles are stored as given, without reduction. */
  function RotationsSet(s: BoxState, x: real, y: real, z: real): (r: BoxState)
    ensures Component(r.rotation, X) == x && Component(r.rotation, Y) == y && Component(r.rotation, Z) == z
    ensures r.(rotation := s.rotation) == s
  {
    s.(rotation := Vec3(x, y, z))
  }

  /** The per-axis setters keep the angles normalised; set_rotations does so
      exactly when its arguments already are. */
  lemma RotationSettersNormalise(s: BoxState, a: Axis, angle: real, x: real, y: real, z: real)
    ensures RotationsNormalised(s) ==> RotationsNormalised(RotationSet(s, a, angle))
    ensures RotationsNormalised(RotationsSet(s, x, y, z)) <==>
      0.0 <= x < 360.0 && 0.0 <= y < 360.0 && 0.0 <= z < 360.0
  {
    var r := RotationsSet(s, x, y, z);
    if RotationsNormalised(r) {
      assert 0.0 <= Component(r.rotation, X) < 360.0;
      assert 0.0 <= Component(r.rotation, Y) < 360.0;
      assert 0.0 <= Component(r.rotation, Z) < 360.0;
    }
  }

  // ---------------------------------------------------------------------
  // Translation
  // ---------------------------------------------------------------------

  /** set_x_translation, set_y_translation, set_z_translation: one coordinate
      of the centre is replaced; nothing else changes. */
  function TranslationSet(s: BoxState, a: Axis, t: real): (r: BoxState)
    ensures Component(r.center, a) == t
    ensures forall b :: b != a ==> Component(r.center, b) == Component(s.center, b)
    ensures r.(center := s.center) == s
  {
    s.(center := WithComponent(s.center, a, t))
  }

  /** translate_bbox: the centre moves by (dx, dy, dz); nothing else changes. */
  function Translated(s: BoxState, dx: real, dy: real, dz: real): (r: BoxState)
    ensures Subtract(r.center, s.center) == Vec3(dx, dy, dz)
    ensures r.(center := s.center) == s
  {
    s.(center := TranslatePoint(s.center, dx, dy, dz))
  }

  /** Translations compose additively, the opposite translation undoes one,
      and setting a coordinate to its translated value is that translation
      along one axis. */
  lemma TranslationsCompose(s: BoxState, dx: real, dy: real, dz: real, ex: real, ey: real, ez: real)
    ensures Translated(Translated(s, dx, dy, dz), ex, ey, ez) == Translated(s, dx + ex, dy + ey, dz + ez)
    ensures Translated(Translated(s, dx, dy, dz), -dx, -dy, -dz) == s
    ensures TranslationSet(s, X, s.center.x + dx) == Translated(s, dx, 0.0, 0.0)
  {
    var t := Translated(Translated(s, dx, dy, dz), -dx, -dy, -dz);
    assert t.center == s.center;
  }

  // ---------------------------------------------------------------------
  // Vertices
  // ---------------------------------------------------------------------

  /** The points v moved by the centre c. */
  function Placed(v: Octet, c: Vec3): (r: Octet)
    ensures forall i :: 0 <= i < 8 ==> Subtract(r[i], c) == v[i]
  {
    seq(8, i requires 0 <= i < 8 => TranslatePoint(v[i], c.x, c.y, c.z))
  }

  /** get_axis_aligned_vertices: the cached corners translated to the centre. */
  function AxisAlignedVertices(s: BoxState): Octet
  {
    Placed(s.verticies, s.center)
  }

  /** get_vertices: the axis-aligned corners rotated about the centre by the
      three stored angles. */
  function WorldVertices(s: BoxState, n: Numerics): Octet
  {
    RotateAroundCenter(n, AxisAlignedVertices(s), s.center, s.rotation)
  }

  /** A box whose three angles are zero has the axis-aligned corners as its
      world corners. */
  lemma UnrotatedWorldVertices(s: BoxState, n: Numerics)
    requires s.rotation == Origin && IdentityAtZero(n.rotate)
    ensures WorldVertices(s, n) == AxisAlignedVertices(s)
  {
    forall i | 0 <= i < 8
      ensures WorldVertices(s, n)[i] == AxisAlignedVertices(s)[i]
    {
      var p := AxisAlignedVertices(s)[i];
      assert n.rotate(p, s.center, Origin) == p;
    }
  }

  /** The offset of a face centre from the box centre. */
  function FaceOffset(l: real, w: real, h: real, side: Side): Vec3
  {
    match side
    case Right => Vec3(l / 2.0, 0.0, 0.0)
    case Left => Vec3(-l / 2.0, 0.0, 0.0)
    case Front => Vec3(0.0, w / 2.0, 0.0)
    case Back => Vec3(0.0, -w / 2.0, 0.0)
    case Top => Vec3(0.0, 0.0, h / 2.0)
    case Bottom => Vec3(0.0, 0.0, -h / 2.0)
  }

  /** Each face centre of a box placed at c lies half the extent away from c
      along the face's outward normal. */
  lemma PlacedFaceCentroid(c: Vec3, l: real, w: real, h: real, side: Side)
    ensures FaceCentroid(Placed(Corners(l, w, h), c), side) == Add(c, FaceOffset(l, w, h, side))
    ensures FaceOffset(l, w, h, side) == Scale(Outward(side), Component(Vec3(l, w, h), SideAxis(side)) / 2.0)
  {
  }

  // ---------------------------------------------------------------------
  // change_side and translate_side
  // ---------------------------------------------------------------------

  /** The (moving, anchor) corner pair that change_side passes to
      translate_side for each side. */
  function MovingPair(side: Side): (VertexId, VertexId)
  {
    match side
    case Right => (3, 0)
    case Left => (0, 3)
    case Front => (1, 0)
    case Back => (0, 1)
    case Top => (4, 0)
    case Bottom => (0, 4)
  }

  /** The moving corner lies on the extruded face, the anchor on the opposite
      face, and the two are joined by a wireframe edge along the face's axis. */
  lemma MovingPairSpansBox(side: Side)
    ensures MovingPair(side).0 in SideVertices(side)
    ensures MovingPair(side).1 in SideVertices(Opposite(side))
    ensures Joined(MovingPair(side).0, MovingPair(side).1)
  {
  }

  /** translate_side's division: a direction divided by its norm and scaled
      by half the distance. Where numpy's norm is zero the model does not move. */
  function StepAlong(direction: Vec3, norm: real, distance: real): Vec3
  {
    if norm == 0.0 then Origin
    else Scale(DivideBy(direction, norm), distance / 2.0)
  }

  /** A vector divided componentwise by a number, as numpy divides an array. */
  function DivideBy(v: Vec3, d: real): Vec3
    requires d != 0.0
  {
    Vec3(v.x / d, v.y / d, v.z / d)
  }

  /** The corner direction translate_side reads: from the anchor to the
      moving world corner. */
  function CornerDirection(s: BoxState, n: Numerics, pS: VertexId, pO: VertexId): Vec3
  {
    var w := WorldVertices(s, n);
    Subtract(w[pS], w[pO])
  }

  /** translate_side's translation vector. */
  function HalfStep(s: BoxState, n: Numerics, pS: VertexId, pO: VertexId, distance: real): Vec3
  {
    var direction := CornerDirection(s, n, pS, pO);
    StepAlong(direction, n.norm(direction), distance)
  }

  /** np.linalg.norm, characterised: non-negative with square the squared length. */
  ghost predicate IsEuclideanNorm(norm: Vec3 -> real)
  {
    forall v :: norm(v) >= 0.0 && norm(v) * norm(v) == SqNorm(v)
  }

  /** A non-negative number whose square is the square of a positive one is
      that number. */
  lemma NonNegativeSquareRoot(a: real, b: real)
    requires a >= 0.0 && b > 0.0 && a * a == b * b
    ensures a == b
  {
    assert (a - b) * (a + b) == a * a - b * b;
    ZeroProduct(a - b, a + b);
  }

  lemma ZeroProduct(x: real, y: real)
    requires y > 0.0 && x * y == 0.0
    ensures x == 0.0
  {
  }

  lemma SquareOfProduct(a: real, k: real)
    ensures (a * k) * (a * k) == (a * a) * (k * k)
  {
  }

  lemma DivideThenScale(x: real, d: real, h: real)
    requires d != 0.0
    ensures x / d * h == x * (h / d)
  {
  }

  lemma CancelFactor(x: real, e: real)
    requires e != 0.0
    ensures x * e / e == x
  {
  }

  lemma DivideThenScaleVec(v: Vec3, d: real, h: real)
    requires d != 0.0
    ensures Scale(DivideBy(v, d), h) == Scale(v, h / d)
  {
    DivideThenScale(v.x, d, h);
    DivideThenScale(v.y, d, h);
    DivideThenScale(v.z, d, h);
  }

  lemma DivideOutScale(u: Vec3, e: real)
    requires e != 0.0
    ensures DivideBy(Scale(u, e), e) == u
  {
    CancelFactor(u.x, e);
    CancelFactor(u.y, e);
    CancelFactor(u.z, e);
  }

  /** Scaling a vector by k scales its squared length by k * k. */
  lemma ScaleSqNorm(v: Vec3, k: real)
    ensures SqNorm(Scale(v, k)) == SqNorm(v) * (k * k)
  {
    SquareOfProduct(v.x, k);
    SquareOfProduct(v.y, k);
    SquareOfProduct(v.z, k);
    calc {
      SqNorm(Scale(v, k));
      (v.x * k) * (v.x * k) + (v.y * k) * (v.y * k) + (v.z * k) * (v.z * k);
      (v.x * v.x) * (k * k) + (v.y * v.y) * (k * k) + (v.z * v.z) * (k * k);
      (v.x * v.x + v.y * v.y + v.z * v.z) * (k * k);
    }
  }

  /** Dividing by the true norm and scaling by half the distance gives a
      vector half the distance long, parallel to the direction. */
  lemma StepAlongLength(direction: Vec3, norm: real, distance: real)
    requires norm > 0.0 && norm * norm == SqNorm(direction)
    ensures StepAlong(direction, norm, distance) == Scale(direction, distance / 2.0 / norm)
    ensures SqNorm(StepAlong(direction, norm, distance)) == distance * distance / 4.0
  {
    var h := distance / 2.0;
    var k := h / norm;
    DivideThenScaleVec(direction, norm, h);
    var step := Scale(direction, k);
    ScaleSqNorm(direction, k);
    LengthOfHalfStep(norm, k, h);
    calc {
      SqNorm(step);
      SqNorm(direction) * (k * k);
      (norm * norm) * (k * k);
      h * h;
      (2.0 * h) * (2.0 * h) / 4.0;
      { assert 2.0 * h == distance; }
      distance * distance / 4.0;
    }
  }

  lemma LengthOfHalfStep(norm: real, k: real, h: real)
    requires norm > 0.0 && k == h / norm
    ensures (norm * norm) * (k * k) == h * h
    ensures h * h == (2.0 * h) * (2.0 * h) / 4.0
  {
    assert norm * k == h;
    SquareOfProduct(norm, k);
  }

  /** Along a vector u scaled by a positive extent e, dividing by e and
      scaling by half the distance gives half the distance along u. */
  lemma StepAlongAxis(u: Vec3, e: real, distance: real)
    requires e > 0.0
    ensures StepAlong(Scale(u, e), e, distance) == Scale(u, distance / 2.0)
  {
    DivideOutScale(u, e);
  }

  /** The translation vector points along the corner direction and is half
      the distance long whenever the norm is the Euclidean one and the two
      corners differ. */
  lemma HalfStepLength(s: BoxState, n: Numerics, pS: VertexId, pO: VertexId, distance: real)
    requires IsEuclideanNorm(n.norm)
    requires n.norm(CornerDirection(s, n, pS, pO)) > 0.0
    ensures var direction := CornerDirection(s, n, pS, pO);
      HalfStep(s, n, pS, pO, distance) == Scale(direction, distance / 2.0 / n.norm(direction))
    ensures SqNorm(HalfStep(s, n, pS, pO, distance)) == distance * distance / 4.0
  {
    var direction := CornerDirection(s, n, pS, pO);
    StepAlongLength(direction, n.norm(direction), distance);
  }

  /** translate_side: the centre moves by the translation vector. */
  function SideTranslated(s: BoxState, n: Numerics, pS: VertexId, pO: VertexId, distance: real): (r: BoxState)
    ensures Subtract(r.center, s.center) == HalfStep(s, n, pS, pO, distance)
    ensures r.(center := s.center) == s
  {
    var t := HalfStep(s, n, pS, pO, distance);
    s.(center := TranslatePoint(s.center, t.x, t.y, t.z))
  }

  /** One `if` of change_side: when the side name matches and the grown
      extent stays above the minimum, the extent grows by the distance and
      the box is translated along its current (moving, anchor) pair. */
  function ExtrudeStep(s: BoxState, minDimension: real, n: Numerics, name: string, side: Side, distance: real): BoxState
  {
    var a := SideAxis(side);
    if name == SideName(side) && Dimension(s, a) + distance > minDimension then
      SideTranslated(WithDimension(s, a, Dimension(s, a) + distance), n, MovingPair(side).0, MovingPair(side).1, distance)
    else s
  }

  /** change_side: the six `if`s in the order the code tests them. */
  function SideExtruded(s: BoxState, minDimension: real, n: Numerics, name: string, distance: real): BoxState
  {
    var s1 := ExtrudeStep(s, minDimension, n, name, Right, distance);
    var s2 := ExtrudeStep(s1, minDimension, n, name, Left, distance);
    var s3 := ExtrudeStep(s2, minDimension, n, name, Front, distance);
    var s4 := ExtrudeStep(s3, minDimension, n, name, Back, distance);
    var s5 := ExtrudeStep(s4, minDimension, n, name, Top, distance);
    ExtrudeStep(s5, minDimension, n, name, Bottom, distance)
  }

  /** The side a BBOX_SIDES key names, if any. */
  function SideNamed(name: string): (r: Option<Side>)
    ensures r.Some? ==> SideName(r.value) == name
    ensures r.None? ==> forall side :: SideName(side) != name
  {
    if name == "top" then Some(Top)
    else if name == "bottom" then Some(Bottom)
    else if name == "left" then Some(Left)
    else if name == "right" then Some(Right)
    else if name == "front" then Some(Front)
    else if name == "back" then Some(Back)
    else None
  }

  /** Distinct sides have distinct names. */
  lemma NamesDiffer(side: Side)
    ensures forall other :: other != side ==> SideName(other) != SideName(side)
  {
  }

  /** An `if` of change_side whose test fails changes nothing. */
  lemma ExtrudeStepIdle(s: BoxState, minDimension: real, n: Numerics, name: string, side: Side, distance: real)
    requires name != SideName(side) || Dimension(s, SideAxis(side)) + distance <= minDimension
    ensures ExtrudeStep(s, minDimension, n, name, side, distance) == s
  {
  }

  /** The `if` of another side does nothing for this side's name. */
  lemma OtherStepIdle(t: BoxState, minDimension: real, n: Numerics, side: Side, other: Side, distance: real)
    requires other != side
    ensures ExtrudeStep(t, minDimension, n, SideName(side), other, distance) == t
  {
    NamesDiffer(side);
  }

  /** For the name of a side, change_side is that side's `if` alone: the
      other five tests fail whatever the first one did. */
  lemma ChangeSideIsOneStep(s: BoxState, minDimension: real, n: Numerics, side: Side, distance: real)
    ensures SideExtruded(s, minDimension, n, SideName(side), distance) ==
      ExtrudeStep(s, minDimension, n, SideName(side), side, distance)
  {
    var t := ExtrudeStep(s, minDimension, n, SideName(side), side, distance);
    match side
    case Right =>
      OtherStepIdle(t, minDimension, n, side, Left, distance);
      OtherStepIdle(t, minDimension, n, side, Front, distance);
      OtherStepIdle(t, minDimension, n, side, Back, distance);
      OtherStepIdle(t, minDimension, n, side, Top, distance);
      OtherStepIdle(t, minDimension, n, side, Bottom, distance);
    case Left =>
      OtherStepIdle(s, minDimension, n, side, Right, distance);
      OtherStepIdle(t, minDimension, n, side, Front, distance);
      OtherStepIdle(t, minDimension, n, side, Back, distance);
      OtherStepIdle(t, minDimension, n, side, Top, distance);
      OtherStepIdle(t, minDimension, n, side, Bottom, distance);
    case Front =>
      OtherStepIdle(s, minDimension, n, side, Right, distance);
      OtherStepIdle(s, minDimension, n, side, Left, distance);
      OtherStepIdle(t, minDimension, n, side, Back, distance);
      OtherStepIdle(t, minDimension, n, side, Top, distance);
      OtherStepIdle(t, minDimension, n, side, Bottom, distance);
    case Back =>
      OtherStepIdle(s, minDimension, n, side, Right, distance);
      OtherStepIdle(s, minDimension, n, side, Left, distance);
      OtherStepIdle(s, minDimension, n, side, Front, distance);
      OtherStepIdle(t, minDimension, n, side, Top, distance);
      OtherStepIdle(t, minDimension, n, side, Bottom, distance);
    case Top =>
      OtherStepIdle(s, minDimension, n, side, Right, distance);
      OtherStepIdle(s, minDimension, n, side, Left, distance);
      OtherStepIdle(s, minDimension, n, side, Front, distance);
      OtherStepIdle(s, minDimension, n, side, Back, distance);
      OtherStepIdle(t, minDimension, n, side, Bottom, distance);
    case Bottom =>
      OtherStepIdle(s, minDimension, n, side, Right, distance);
      OtherStepIdle(s, minDimension, n, side, Left, distance);
      OtherStepIdle(s, minDimension, n, side, Front, distance);
      OtherStepIdle(s, minDimension, n, side, Back, distance);
      OtherStepIdle(s, minDimension, n, side, Top, distance);
  }

  /** An unknown side name, or an extent that would not stay above the
      minimum, leaves the box exactly as it was, centre included. */
  lemma ChangeSideRejects(s: BoxState, minDimension: real, n: Numerics, name: string, distance: real)
    requires SideNamed(name) == None || Dimension(s, SideAxis(SideNamed(name).value)) + distance <= minDimension
    ensures SideExtruded(s, minDimension, n, name, distance) == s
  {
    var o := SideNamed(name);
    if o.Some? {
      ChangeSideIsOneStep(s, minDimension, n, o.value, distance);
      ExtrudeStepIdle(s, minDimension, n, name, o.value, distance);
    } else {
      ExtrudeStepIdle(s, minDimension, n, name, Right, distance);
      ExtrudeStepIdle(s, minDimension, n, name, Left, distance);
      ExtrudeStepIdle(s, minDimension, n, name, Front, distance);
      ExtrudeStepIdle(s, minDimension, n, name, Back, distance);
      ExtrudeStepIdle(s, minDimension, n, name, Top, distance);
      ExtrudeStepIdle(s, minDimension, n, name, Bottom, distance);
    }
  }

  /** Growing an extent leaves the world corners, which come from the cache,
      where they were. */
  lemma GrowKeepsWorldVertices(s: BoxState, n: Numerics, a: Axis, v: real)
    ensures WorldVertices(WithDimension(s, a, v), n) == WorldVertices(s, n)
  {
    var grown := WithDimension(s, a, v);
    assert grown.verticies == s.verticies && grown.center == s.center && grown.rotation == s.rotation;
  }

  /** An accepted change_side grows exactly one extent by the distance and
      moves the centre by the translation vector computed from the world
      corners before the change; rotation, class and cache are untouched. */
  lemma ChangeSideAccepts(s: BoxState, minDimension: real, n: Numerics, side: Side, distance: real)
    requires Dimension(s, SideAxis(side)) + distance > minDimension
    ensures var r := SideExtruded(s, minDimension, n, SideName(side), distance);
      && Dimension(r, SideAxis(side)) == Dimension(s, SideAxis(side)) + distance
      && (forall b :: b != SideAxis(side) ==> Dimension(r, b) == Dimension(s, b))
      && r.center == Add(s.center, HalfStep(s, n, MovingPair(side).0, MovingPair(side).1, distance))
      && r.rotation == s.rotation && r.classname == s.classname && r.verticies == s.verticies
  {
    var a := SideAxis(side);
    var (pS, pO) := MovingPair(side);
    var t := WithDimension(s, a, Dimension(s, a) + distance);
    ChangeSideIsOneStep(s, minDimension, n, side, distance);
    assert SideExtruded(s, minDimension, n, SideName(side), distance) == SideTranslated(t, n, pS, pO, distance);
    GrowKeepsWorldVertices(s, n, a, Dimension(s, a) + distance);
    assert HalfStep(t, n, pS, pO, distance) == HalfStep(s, n, pS, pO, distance);
  }

  /** With a non-negative minimum, change_side keeps the extents positive. */
  lemma ChangeSideKeepsDimsPositive(s: BoxState, minDimension: real, n: Numerics, name: string, distance: real)
    requires DimsPositive(s) && minDimension >= 0.0
    ensures DimsPositive(SideExtruded(s, minDimension, n, name, distance))
  {
    var side := SideNamed(name);
    var r := SideExtruded(s, minDimension, n, name, distance);
    if side.Some? && Dimension(s, SideAxis(side.value)) + distance > minDimension {
      ChangeSideAccepts(s, minDimension, n, side.value, distance);
      assert Dimension(r, X) > 0.0 && Dimension(r, Y) > 0.0 && Dimension(r, Z) > 0.0;
    } else {
      ChangeSideRejects(s, minDimension, n, name, distance);
    }
  }

  /** In an unrotated box whose cache holds the table of extents (l, w, h),
      the direction of a side's corner pair is the side's outward normal
      scaled by the cached extent along its axis. */
  lemma PairDirection(s: BoxState, n: Numerics, side: Side, l: real, w: real, h: real)
    requires s.rotation == Origin && IdentityAtZero(n.rotate)
    requires s.verticies == Corners(l, w, h)
    ensures CornerDirection(s, n, MovingPair(side).0, MovingPair(side).1) ==
      Scale(Outward(side), Component(Vec3(l, w, h), SideAxis(side)))
  {
    UnrotatedWorldVertices(s, n);
  }

  /** For an unrotated box with cached extents (l, w, h), positive along the
      side's axis, and a true Euclidean norm, the translation vector of a
      side is half the distance along the
      side's outward normal, whatever the current extents are. */
  lemma AxisHalfStep(s: BoxState, n: Numerics, side: Side, distance: real, l: real, w: real, h: real)
    requires s.rotation == Origin && IdentityAtZero(n.rotate) && IsEuclideanNorm(n.norm)
    requires s.verticies == Corners(l, w, h)
    requires Component(Vec3(l, w, h), SideAxis(side)) > 0.0
    ensures HalfStep(s, n, MovingPair(side).0, MovingPair(side).1, distance) == Scale(Outward(side), distance / 2.0)
  {
    PairDirection(s, n, side, l, w, h);
    UnitStep(CornerDirection(s, n, MovingPair(side).0, MovingPair(side).1), n.norm,
             Outward(side), Component(Vec3(l, w, h), SideAxis(side)), distance);
  }

  /** Along a unit vector scaled by a positive extent, the Euclidean norm is
      the extent and translate_side's step is half the distance along the
      unit vector. */
  lemma UnitStep(direction: Vec3, norm: Vec3 -> real, u: Vec3, e: real, distance: real)
    requires IsEuclideanNorm(norm) && SqNorm(u) == 1.0 && e > 0.0
    requires direction == Scale(u, e)
    ensures StepAlong(direction, norm(direction), distance) == Scale(u, distance / 2.0)
  {
    ScaleSqNorm(u, e);
    assert norm(direction) * norm(direction) == e * e;
    NonNegativeSquareRoot(norm(direction), e);
    StepAlongAxis(u, e, distance);
  }

  lemma DimensionIsComponent(s: BoxState, a: Axis)
    ensures Dimension(s, a) == Component(Vec3(s.length, s.width, s.height), a)
  {
  }

  /** The geometry of an extrude: moving the centre half the distance along
      a side's normal while that side's extent grows by the distance moves
      the side's face by the whole distance and leaves the opposite face. */
  lemma ExtrudedFaces(c: Vec3, l: real, w: real, h: real, side: Side, distance: real)
    ensures var c' := Add(c, Scale(Outward(side), distance / 2.0));
      var e := WithComponent(Vec3(l, w, h), SideAxis(side), Component(Vec3(l, w, h), SideAxis(side)) + distance);
      && Add(c', FaceOffset(e.x, e.y, e.z, side)) == Add(Add(c, FaceOffset(l, w, h, side)), Scale(Outward(side), distance))
      && Add(c', FaceOffset(e.x, e.y, e.z, Opposite(side))) == Add(c, FaceOffset(l, w, h, Opposite(side)))
  {
    match side
    case Right =>
    case Left =>
    case Front =>
    case Back =>
    case Top =>
    case Bottom =>
  }

  /** ExtrudedFaces in terms of two box states: the face offsets of the
      extruded box from its new centre. */
  lemma ExtrudedOffsets(s: BoxState, r: BoxState, side: Side, distance: real)
    requires r.center == Add(s.center, Scale(Outward(side), distance / 2.0))
    requires Vec3(r.length, r.width, r.height) ==
      WithComponent(Vec3(s.length, s.width, s.height), SideAxis(side), Dimension(s, SideAxis(side)) + distance)
    ensures Add(r.center, FaceOffset(r.length, r.width, r.height, side)) ==
      Add(Add(s.center, FaceOffset(s.length, s.width, s.height, side)), Scale(Outward(side), distance))
    ensures Add(r.center, FaceOffset(r.length, r.width, r.height, Opposite(side))) ==
      Add(s.center, FaceOffset(s.length, s.width, s.height, Opposite(side)))
  {
    DimensionIsComponent(s, SideAxis(side));
    ExtrudedFaces(s.center, s.length, s.width, s.height, side, distance);
  }

  /** The face centres of an unrotated box with a fresh cache. */
  lemma UnrotatedFaceCentroid(s: BoxState, n: Numerics, side: Side)
    requires s.rotation == Origin && IdentityAtZero(n.rotate) && CacheFresh(s)
    ensures FaceCentroid(WorldVertices(s, n), side) == Add(s.center, FaceOffset(s.length, s.width, s.height, side))
  {
    UnrotatedWorldVertices(s, n);
    PlacedFaceCentroid(s.center, s.length, s.width, s.height, side);
  }

  /** ExtrudeMovesOneFace for an unrotated box and any rotation routine that
      leaves points in place at zero angles: with a fresh cache, a positive
      extent along the side's axis and a Euclidean norm, an accepted change
      moves the chosen face by the distance along its outward normal and
      keeps the opposite face where it was (once the cache is rebuilt). */
  lemma UnrotatedExtrudeMovesOneFace(s: BoxState, minDimension: real, n: Numerics, side: Side, distance: real)
    requires s.rotation == Origin && IdentityAtZero(n.rotate) && IsEuclideanNorm(n.norm)
    requires CacheFresh(s) && Dimension(s, SideAxis(side)) > 0.0
    requires Dimension(s, SideAxis(side)) + distance > minDimension
    ensures var r := Refreshed(SideExtruded(s, minDimension, n, SideName(side), distance));
      && FaceCentroid(WorldVertices(r, n), side) ==
         Add(FaceCentroid(WorldVertices(s, n), side), Scale(Outward(side), distance))
      && FaceCentroid(WorldVertices(r, n), Opposite(side)) == FaceCentroid(WorldVertices(s, n), Opposite(side))
  {
    var t := SideExtruded(s, minDimension, n, SideName(side), distance);
    var a := SideAxis(side);
    ChangeSideAccepts(s, minDimension, n, side, distance);
    DimensionIsComponent(s, a);
    AxisHalfStep(s, n, side, distance, s.length, s.width, s.height);
    GrownExtents(s, t, a, Dimension(s, a) + distance);
    ExtrudedFromState(s, Refreshed(t), n, side, distance);
  }

  /** UnrotatedExtrudeMovesOneFace for any box whose centre and extents are
      those an accepted change_side produces. */
  lemma ExtrudedFromState(s: BoxState, r: BoxState, n: Numerics, side: Side, distance: real)
    requires s.rotation == Origin && r.rotation == Origin && IdentityAtZero(n.rotate)
    requires CacheFresh(s) && CacheFresh(r)
    requires r.center == Add(s.center, Scale(Outward(side), distance / 2.0))
    requires Vec3(r.length, r.width, r.height) ==
      WithComponent(Vec3(s.length, s.width, s.height), SideAxis(side), Dimension(s, SideAxis(side)) + distance)
    ensures FaceCentroid(WorldVertices(r, n), side) ==
         Add(FaceCentroid(WorldVertices(s, n), side), Scale(Outward(side), distance))
    ensures FaceCentroid(WorldVertices(r, n), Opposite(side)) == FaceCentroid(WorldVertices(s, n), Opposite(side))
  {
    UnrotatedFaceCentroid(s, n, side);
    UnrotatedFaceCentroid(s, n, Opposite(side));
    UnrotatedFaceCentroid(r, n, side);
    UnrotatedFaceCentroid(r, n, Opposite(side));
    ExtrudedOffsets(s, r, side, distance);
  }

  /** A world corner is the centre plus the cached corner rotated about the
      origin, for a rotation routine that rotates about the centre. */
  lemma RotatedCorner(s: BoxState, n: Numerics, i: VertexId)
    requires AboutCentre(n.rotate)
    ensures WorldVertices(s, n)[i] == Add(s.center, n.rotate(s.verticies[i], Origin, s.rotation))
  {
    var p := AxisAlignedVertices(s)[i];
    assert Subtract(p, s.center) == s.verticies[i] == Subtract(s.verticies[i], Origin);
    assert WorldVertices(s, n)[i] == n.rotate(p, s.center, s.rotation);
  }

  /** The sum of four points, a quarter of which is their mean. */
  function Sum4(p1: Vec3, p2: Vec3, p3: Vec3, p4: Vec3): Vec3
  {
    Add(Add(Add(p1, p2), p3), p4)
  }

  /** A face centre is a quarter of the sum of its four corners. */
  lemma FaceMean(v: Octet, side: Side)
    ensures var f := SideVertices(side);
      FaceCentroid(v, side) == Scale(Sum4(v[f[0]], v[f[1]], v[f[2]], v[f[3]]), 0.25)
  {
  }

  /** A linear rotation keeps means of four points. */
  lemma RotatedMean(n: Numerics, a: Vec3, p1: Vec3, p2: Vec3, p3: Vec3, p4: Vec3)
    requires LinearAtOrigin(n.rotate)
    ensures n.rotate(Scale(Sum4(p1, p2, p3, p4), 0.25), Origin, a) ==
      Scale(Sum4(n.rotate(p1, Origin, a), n.rotate(p2, Origin, a), n.rotate(p3, Origin, a), n.rotate(p4, Origin, a)), 0.25)
  {
    assert n.rotate(Add(p1, p2), Origin, a) == Add(n.rotate(p1, Origin, a), n.rotate(p2, Origin, a));
    assert n.rotate(Add(Add(p1, p2), p3), Origin, a) ==
      Add(n.rotate(Add(p1, p2), Origin, a), n.rotate(p3, Origin, a));
    assert n.rotate(Sum4(p1, p2, p3, p4), Origin, a) ==
      Add(n.rotate(Add(Add(p1, p2), p3), Origin, a), n.rotate(p4, Origin, a));
  }

  /** The mean of four points each moved by c is their mean moved by c. */
  lemma ShiftedMean(c: Vec3, r1: Vec3, r2: Vec3, r3: Vec3, r4: Vec3)
    ensures Scale(Sum4(Add(c, r1), Add(c, r2), Add(c, r3), Add(c, r4)), 0.25) == Add(c, Scale(Sum4(r1, r2, r3, r4), 0.25))
  {
  }

  /** The face centres of a box at any angles, for a rotation routine that
      rotates about the centre and is linear: the centre plus the rotated
      face centre of the cached corners. */
  lemma RotatedFaceCentroid(s: BoxState, n: Numerics, side: Side)
    requires AboutCentre(n.rotate) && LinearAtOrigin(n.rotate)
    ensures FaceCentroid(WorldVertices(s, n), side) ==
      Add(s.center, n.rotate(FaceCentroid(s.verticies, side), Origin, s.rotation))
  {
    var f := SideVertices(side);
    var w, v, a := WorldVertices(s, n), s.verticies, s.rotation;
    RotatedCorner(s, n, f[0]);
    RotatedCorner(s, n, f[1]);
    RotatedCorner(s, n, f[2]);
    RotatedCorner(s, n, f[3]);
    FaceMean(w, side);
    FaceMean(v, side);
    RotatedMean(n, a, v[f[0]], v[f[1]], v[f[2]], v[f[3]]);
    ShiftedMean(s.center, n.rotate(v[f[0]], Origin, a), n.rotate(v[f[1]], Origin, a),
                n.rotate(v[f[2]], Origin, a), n.rotate(v[f[3]], Origin, a));
  }

  /** The face centres of the cached corner table are the face offsets. */
  lemma CornerFaceCentroid(l: real, w: real, h: real, side: Side)
    ensures FaceCentroid(Corners(l, w, h), side) == FaceOffset(l, w, h, side)
  {
    match side
    case Right =>
    case Left =>
    case Front =>
    case Back =>
    case Top =>
    case Bottom =>
  }

  /** In the cached corner table, the moving corner of a side lies the
      extent along the side's axis from the anchor, along the outward normal. */
  lemma CornerPairSpan(l: real, w: real, h: real, side: Side)
    ensures var v := Corners(l, w, h);
      Subtract(v[MovingPair(side).0], v[MovingPair(side).1]) ==
      Scale(Outward(side), Component(Vec3(l, w, h), SideAxis(side)))
  {
    match side
    case Right =>
    case Left =>
    case Front =>
    case Back =>
    case Top =>
    case Bottom =>
  }

  /** The corner direction at any angles is the cached direction rotated. */
  lemma RotatedDirection(s: BoxState, n: Numerics, pS: VertexId, pO: VertexId)
    requires AboutCentre(n.rotate) && LinearAtOrigin(n.rotate)
    ensures CornerDirection(s, n, pS, pO) ==
      n.rotate(Subtract(s.verticies[pS], s.verticies[pO]), Origin, s.rotation)
  {
    var v, a := s.verticies, s.rotation;
    RotatedCorner(s, n, pS);
    RotatedCorner(s, n, pO);
    assert Add(Subtract(v[pS], v[pO]), v[pO]) == v[pS];
    assert n.rotate(v[pS], Origin, a) ==
      Add(n.rotate(Subtract(v[pS], v[pO]), Origin, a), n.rotate(v[pO], Origin, a));
  }

  /** For a box at any angles with cached extents (l, w, h), positive along
      the side's axis, a rigid rotation and a Euclidean norm, the translation
      vector of a side is half the distance along the side's rotated outward
      normal. */
  lemma RotatedHalfStep(s: BoxState, n: Numerics, side: Side, distance: real, l: real, w: real, h: real)
    requires IsRigidRotation(n.rotate) && IsEuclideanNorm(n.norm)
    requires s.verticies == Corners(l, w, h) && Component(Vec3(l, w, h), SideAxis(side)) > 0.0
    ensures HalfStep(s, n, MovingPair(side).0, MovingPair(side).1, distance) ==
      Scale(n.rotate(Outward(side), Origin, s.rotation), distance / 2.0)
  {
    var (pS, pO) := MovingPair(side);
    var u, e := Outward(side), Component(Vec3(l, w, h), SideAxis(side));
    var ru := n.rotate(u, Origin, s.rotation);
    RotatedDirection(s, n, pS, pO);
    CornerPairSpan(l, w, h, side);
    assert n.rotate(Scale(u, e), Origin, s.rotation) == Scale(ru, e);
    assert SqNorm(ru) == SqNorm(u) == 1.0;
    UnitStep(CornerDirection(s, n, pS, pO), n.norm, ru, e, distance);
  }

  /** An extrude in offsets: growing a side's extent by the distance moves
      that side's offset by half the distance along its normal, and the
      opposite side's offset by half the distance against it. */
  lemma GrownOffsets(e: Vec3, side: Side, distance: real)
    ensures var g := WithComponent(e, SideAxis(side), Component(e, SideAxis(side)) + distance);
      && FaceOffset(g.x, g.y, g.z, side) == Add(FaceOffset(e.x, e.y, e.z, side), Scale(Outward(side), distance / 2.0))
      && FaceOffset(g.x, g.y, g.z, Opposite(side)) ==
         Add(FaceOffset(e.x, e.y, e.z, Opposite(side)), Scale(Outward(side), -distance / 2.0))
  {
    match side
    case Right =>
    case Left =>
    case Front =>
    case Back =>
    case Top =>
    case Bottom =>
  }

  /** A centre moved half a step along ru, plus a face offset moved half a
      step along ru, is the unmoved face centre moved the whole step. */
  lemma HalfStepsAdd(c: Vec3, o: Vec3, ru: Vec3, d: real)
    ensures Add(Add(c, Scale(ru, d / 2.0)), Add(o, Scale(ru, d / 2.0))) == Add(Add(c, o), Scale(ru, d))
  {
  }

  /** A centre moved half a step along ru, plus a face offset moved half a
      step back, is the unmoved face centre. */
  lemma HalfStepsCancel(c: Vec3, o: Vec3, ru: Vec3, d: real)
    ensures Add(Add(c, Scale(ru, d / 2.0)), Add(o, Scale(ru, -d / 2.0))) == Add(c, o)
  {
  }

  /** The face centres of a box at any angles with a fresh cache: the centre
      plus the rotated face offset. */
  lemma RotatedOffsetFace(s: BoxState, n: Numerics, side: Side)
    requires AboutCentre(n.rotate) && LinearAtOrigin(n.rotate) && CacheFresh(s)
    ensures FaceCentroid(WorldVertices(s, n), side) ==
      Add(s.center, n.rotate(FaceOffset(s.length, s.width, s.height, side), Origin, s.rotation))
  {
    RotatedFaceCentroid(s, n, side);
    CornerFaceCentroid(s.length, s.width, s.height, side);
  }

  /** The state-level conditions on an accepted extrude at any angles: the
      centre moves half the distance along the rotated normal, the side's
      extent grows by the distance, the angles stay and both caches are fresh. */
  ghost predicate RotatedExtrude(s: BoxState, r: BoxState, n: Numerics, side: Side, distance: real)
  {
    && CacheFresh(s) && CacheFresh(r) && r.rotation == s.rotation
    && r.center == Add(s.center, Scale(n.rotate(Outward(side), Origin, s.rotation), distance / 2.0))
    && Vec3(r.length, r.width, r.height) ==
       WithComponent(Vec3(s.length, s.width, s.height), SideAxis(side), Dimension(s, SideAxis(side)) + distance)
  }

  /** The extruded face moves the whole distance along the rotated normal. */
  lemma RotatedMovedFace(s: BoxState, r: BoxState, n: Numerics, side: Side, distance: real)
    requires AboutCentre(n.rotate) && LinearAtOrigin(n.rotate)
    requires RotatedExtrude(s, r, n, side, distance)
    ensures FaceCentroid(WorldVertices(r, n), side) ==
      Add(FaceCentroid(WorldVertices(s, n), side), Scale(n.rotate(Outward(side), Origin, s.rotation), distance))
  {
    var a := s.rotation;
    var ru := n.rotate(Outward(side), Origin, a);
    DimensionIsComponent(s, SideAxis(side));
    GrownOffsets(Vec3(s.length, s.width, s.height), side, distance);
    var o := FaceOffset(s.length, s.width, s.height, side);
    assert FaceOffset(r.length, r.width, r.height, side) == Add(o, Scale(Outward(side), distance / 2.0));
    assert n.rotate(FaceOffset(r.length, r.width, r.height, side), Origin, a) ==
      Add(n.rotate(o, Origin, a), Scale(ru, distance / 2.0));
    RotatedOffsetFace(s, n, side);
    RotatedOffsetFace(r, n, side);
    HalfStepsAdd(s.center, n.rotate(o, Origin, a), ru, distance);
  }

  /** The face opposite the extruded one stays where it was. */
  lemma RotatedKeptFace(s: BoxState, r: BoxState, n: Numerics, side: Side, distance: real)
    requires AboutCentre(n.rotate) && LinearAtOrigin(n.rotate)
    requires RotatedExtrude(s, r, n, side, distance)
    ensures FaceCentroid(WorldVertices(r, n), Opposite(side)) == FaceCentroid(WorldVertices(s, n), Opposite(side))
  {
    var a := s.rotation;
    var ru := n.rotate(Outward(side), Origin, a);
    DimensionIsComponent(s, SideAxis(side));
    GrownOffsets(Vec3(s.length, s.width, s.height), side, distance);
    var q := FaceOffset(s.length, s.width, s.height, Opposite(side));
    assert FaceOffset(r.length, r.width, r.height, Opposite(side)) == Add(q, Scale(Outward(side), -distance / 2.0));
    assert n.rotate(FaceOffset(r.length, r.width, r.height, Opposite(side)), Origin, a) ==
      Add(n.rotate(q, Origin, a), Scale(ru, -distance / 2.0));
    RotatedOffsetFace(s, n, Opposite(side));
    RotatedOffsetFace(r, n, Opposite(side));
    HalfStepsCancel(s.center, n.rotate(q, Origin, a), ru, distance);
  }

  /** change_side is an asymmetric extrude: for a box at any angles with a
      fresh cache, a positive extent along the side's axis, a rigid rotation
      and a Euclidean norm, an accepted change moves the chosen face by the
      distance along its rotated outward normal and keeps the opposite face
      where it was (once the cache is rebuilt, as drawing does). */
  lemma ExtrudeMovesOneFace(s: BoxState, minDimension: real, n: Numerics, side: Side, distance: real)
    requires IsRigidRotation(n.rotate) && IsEuclideanNorm(n.norm)
    requires CacheFresh(s) && Dimension(s, SideAxis(side)) > 0.0
    requires Dimension(s, SideAxis(side)) + distance > minDimension
    ensures var r := Refreshed(SideExtruded(s, minDimension, n, SideName(side), distance));
      var normal := n.rotate(Outward(side), Origin, s.rotation);
      && FaceCentroid(WorldVertices(r, n), side) == Add(FaceCentroid(WorldVertices(s, n), side), Scale(normal, distance))
      && FaceCentroid(WorldVertices(r, n), Opposite(side)) == FaceCentroid(WorldVertices(s, n), Opposite(side))
  {
    var r := Refreshed(SideExtruded(s, minDimension, n, SideName(side), distance));
    AcceptedIsRotatedExtrude(s, minDimension, n, side, distance);
    RotatedMovedFace(s, r, n, side, distance);
    RotatedKeptFace(s, r, n, side, distance);
  }

  /** An accepted change_side on a box at any angles with a fresh cache and a
      positive extent along the side's axis moves the centre half the
      distance along the rotated normal and grows that extent by the distance. */
  lemma AcceptedIsRotatedExtrude(s: BoxState, minDimension: real, n: Numerics, side: Side, distance: real)
    requires IsRigidRotation(n.rotate) && IsEuclideanNorm(n.norm)
    requires CacheFresh(s) && Dimension(s, SideAxis(side)) > 0.0
    requires Dimension(s, SideAxis(side)) + distance > minDimension
    ensures RotatedExtrude(s, Refreshed(SideExtruded(s, minDimension, n, SideName(side), distance)), n, side, distance)
  {
    var t := SideExtruded(s, minDimension, n, SideName(side), distance);
    ChangeSideAccepts(s, minDimension, n, side, distance);
    RotatedHalfStep(s, n, side, distance, s.length, s.width, s.height);
    GrownIsRotatedExtrude(s, t, n, side, distance);
  }

  /** A state that grows a side's extent by the distance, keeps the other
      extents and the angles, and moves the centre half the distance along
      the rotated normal is, once its cache is rebuilt, an extrude. */
  lemma GrownIsRotatedExtrude(s: BoxState, t: BoxState, n: Numerics, side: Side, distance: real)
    requires CacheFresh(s)
    requires Dimension(t, SideAxis(side)) == Dimension(s, SideAxis(side)) + distance
    requires forall b :: b != SideAxis(side) ==> Dimension(t, b) == Dimension(s, b)
    requires t.center == Add(s.center, Scale(n.rotate(Outward(side), Origin, s.rotation), distance / 2.0))
    requires t.rotation == s.rotation
    ensures RotatedExtrude(s, Refreshed(t), n, side, distance)
  {
    GrownExtents(s, t, SideAxis(side), Dimension(s, SideAxis(side)) + distance);
  }

  /** A state whose extent along a is v and whose other extents are those of
      s has the extents of s with the component along a set to v. */
  lemma GrownExtents(s: BoxState, t: BoxState, a: Axis, v: real)
    requires Dimension(t, a) == v && forall b :: b != a ==> Dimension(t, b) == Dimension(s, b)
    ensures Vec3(t.length, t.width, t.height) == WithComponent(Vec3(s.length, s.width, s.height), a, v)
  {
    assert Dimension(t, X) == t.length && Dimension(t, Y) == t.width && Dimension(t, Z) == t.height;
    assert Dimension(s, X) == s.length && Dimension(s, Y) == s.width && Dimension(s, Z) == s.height;
  }

  /** Extruding the right face and then the left face by the same distance
      leaves the centre where it was and grows the length by twice the
      distance, whatever the angles and the cache: the second translation
      reads the same world-corner offsets as the first (the corners are only
      moved with the centre), in the opposite order, so the two half steps
      cancel. */
  lemma RightThenLeftKeepsCentre(s: BoxState, minDimension: real, n: Numerics, distance: real)
    requires AboutCentre(n.rotate) && IsEuclideanNorm(n.norm)
    requires s.length + distance > minDimension && s.length + 2.0 * distance > minDimension
    ensures var r := SideExtruded(SideExtruded(s, minDimension, n, "right", distance), minDimension, n, "left", distance);
      && r.center == s.center && r.length == s.length + 2.0 * distance
      && r.width == s.width && r.height == s.height
      && r.rotation == s.rotation && r.verticies == s.verticies
  {
    assert SideName(Right) == "right" && SideName(Left) == "left";
    var s1 := SideExtruded(s, minDimension, n, "right", distance);
    ChangeSideAccepts(s, minDimension, n, Right, distance);
    assert Dimension(s1, Y) == s.width && Dimension(s1, Z) == s.height;
    assert s1.length == s.length + distance && s1.rotation == s.rotation && s1.verticies == s.verticies;
    var h := HalfStep(s, n, 3, 0, distance);
    assert s1.center == Add(s.center, h);
    var r := SideExtruded(s1, minDimension, n, "left", distance);
    ChangeSideAccepts(s1, minDimension, n, Left, distance);
    assert Dimension(r, Y) == s.width && Dimension(r, Z) == s.height;
    var v := CornerDirection(s, n, 3, 0);
    ReversedDirection(s, s1, n, 3, 0);
    NormOfNegated(n.norm, v);
    StepAlongNegated(v, n.norm(v), distance);
    assert r.center == Add(s1.center, Scale(h, -1.0));
    StepThenBack(s.center, h);
  }

  /** A step followed by its negation returns to the start. */
  lemma StepThenBack(c: Vec3, h: Vec3)
    ensures Add(Add(c, h), Scale(h, -1.0)) == c
  {
  }

  /** Moving the centre of a box, without touching its cache or its angles,
      moves its world corners with it, for a rotation about the centre. */
  lemma WorldOffsetsMatch(s: BoxState, t: BoxState, n: Numerics, i: VertexId)
    requires AboutCentre(n.rotate)
    requires t.verticies == s.verticies && t.rotation == s.rotation
    ensures Subtract(WorldVertices(t, n)[i], t.center) == Subtract(WorldVertices(s, n)[i], s.center)
  {
    var p, q := AxisAlignedVertices(s)[i], AxisAlignedVertices(t)[i];
    assert Subtract(p, s.center) == s.verticies[i] == Subtract(q, t.center);
    assert WorldVertices(s, n)[i] == n.rotate(p, s.center, s.rotation);
    assert WorldVertices(t, n)[i] == n.rotate(q, t.center, t.rotation);
  }

  /** So the corner direction read in the opposite order from the moved box
      is the first direction negated. */
  lemma ReversedDirection(s: BoxState, t: BoxState, n: Numerics, a: VertexId, b: VertexId)
    requires AboutCentre(n.rotate)
    requires t.verticies == s.verticies && t.rotation == s.rotation
    ensures CornerDirection(t, n, b, a) == Scale(CornerDirection(s, n, a, b), -1.0)
  {
    WorldOffsetsMatch(s, t, n, a);
    WorldOffsetsMatch(s, t, n, b);
  }

  /** Two non-negative numbers with equal squares are equal. */
  lemma SquareRootsAgree(a: real, b: real)
    requires a >= 0.0 && b >= 0.0 && a * a == b * b
    ensures a == b
  {
    assert (a - b) * (a + b) == a * a - b * b;
    if a + b > 0.0 {
      ZeroProduct(a - b, a + b);
    }
  }

  /** A Euclidean norm gives a vector and its negation the same length. */
  lemma NormOfNegated(norm: Vec3 -> real, v: Vec3)
    requires IsEuclideanNorm(norm)
    ensures norm(Scale(v, -1.0)) == norm(v)
  {
    assert SqNorm(Scale(v, -1.0)) == SqNorm(v);
    SquareRootsAgree(norm(Scale(v, -1.0)), norm(v));
  }

  /** translate_side's step along a negated direction of the same norm is
      the negated step. */
  lemma StepAlongNegated(v: Vec3, norm: real, distance: real)
    ensures StepAlong(Scale(v, -1.0), norm, distance) == Scale(StepAlong(v, norm, distance), -1.0)
  {
    if norm != 0.0 {
      var u := DivideBy(v, norm);
      var k := distance / 2.0;
      assert DivideBy(Scale(v, -1.0), norm) == Scale(u, -1.0);
      assert Scale(Scale(u, -1.0), k) == Scale(Scale(u, k), -1.0);
    }
  }

  /** The squared distance between face p of a box of extents e1 centred at
      c and face q of a box of extents e2 centred g further along x. */
  function SideBySideDistance(e1: Vec3, e2: Vec3, c: Vec3, g: real, p: Side, q: Side): real
  {
    CentroidDistance(Add(c, FaceOffset(e1.x, e1.y, e1.z, p)),
                     Add(Add(c, Vec3(g, 0.0, 0.0)), FaceOffset(e2.x, e2.y, e2.z, q)))
  }

  /** The room left between the two boxes along x: the distance of the
      centres less the two half lengths. */
  function SideBySideGapOf(e1: Vec3, e2: Vec3, g: real): real
  {
    g - (e1.x + e2.x) / 2.0
  }

  /** The x gap between the two face centres: exactly the room between the
      boxes for (right, left), strictly more for every other pair, and the
      facing centres differ in x only. */
  lemma SideBySideGap(e1: Vec3, e2: Vec3, c: Vec3, g: real, p: Side, q: Side)
    requires e1.x > 0.0 && e2.x > 0.0
    ensures var c1, c2 := Add(c, FaceOffset(e1.x, e1.y, e1.z, p)),
                          Add(Add(c, Vec3(g, 0.0, 0.0)), FaceOffset(e2.x, e2.y, e2.z, q));
      && (p == Right && q == Left ==>
            c2.x - c1.x == SideBySideGapOf(e1, e2, g) && c2.y == c1.y && c2.z == c1.z)
      && ((p, q) != (Right, Left) ==> c2.x - c1.x > SideBySideGapOf(e1, e2, g))
  {
  }

  /** The facing pair is the room between the two boxes, squared. */
  lemma SideBySideFacing(e1: Vec3, e2: Vec3, c: Vec3, g: real)
    requires e1.x > 0.0 && e2.x > 0.0
    ensures SideBySideDistance(e1, e2, c, g, Right, Left) == SideBySideGapOf(e1, e2, g) * SideBySideGapOf(e1, e2, g)
  {
    SideBySideGap(e1, e2, c, g, Right, Left);
  }

  /** No pair of faces is closer than the facing pair, and every other pair
      is strictly farther. */
  lemma SideBySideDistances(e1: Vec3, e2: Vec3, c: Vec3, g: real, p: Side, q: Side)
    requires e1.x > 0.0 && e2.x > 0.0 && SideBySideGapOf(e1, e2, g) >= 0.0
    ensures var m := SideBySideGapOf(e1, e2, g);
      && m * m <= SideBySideDistance(e1, e2, c, g, p, q)
      && ((p, q) != (Right, Left) ==> m * m < SideBySideDistance(e1, e2, c, g, p, q))
  {
    var m := SideBySideGapOf(e1, e2, g);
    var c1 := Add(c, FaceOffset(e1.x, e1.y, e1.z, p));
    var c2 := Add(Add(c, Vec3(g, 0.0, 0.0)), FaceOffset(e2.x, e2.y, e2.z, q));
    assert SideBySideDistance(e1, e2, c, g, p, q) == CentroidDistance(c1, c2);
    SideBySideGap(e1, e2, c, g, p, q);
    if (p, q) == (Right, Left) {
      SideBySideFacing(e1, e2, c, g);
    } else {
      DistanceAtLeast(c1, c2, c2.x - c1.x);
      SquareGrows(m, c2.x - c1.x);
    }
  }

  /** Points whose x coordinates are at least b apart are at squared
      distance at least b * b. */
  lemma DistanceAtLeast(c1: Vec3, c2: Vec3, b: real)
    requires c2.x - c1.x >= b >= 0.0
    ensures CentroidDistance(c1, c2) >= b * b
  {
    var x := c2.x - c1.x;
    assert x * x - b * b == (x - b) * (x + b);
    assert (x - b) * (x + b) >= 0.0;
    SquareNonNegative(c2.y - c1.y);
    SquareNonNegative(c2.z - c1.z);
  }

  /** Squaring is strictly increasing on the non-negative reals. */
  lemma SquareGrows(a: real, b: real)
    requires 0.0 <= a < b
    ensures a * a < b * b
  {
    var d := b - a;
    assert b * b == (a + d) * (a + d) == a * a + 2.0 * a * d + d * d;
    assert a * d >= 0.0;
    assert d * d > 0.0;
  }

  /** Two boxes side by side along x: the first of extents e1 centred at c,
      the second of extents e2 centred g further along x, with positive
      lengths and g at least the sum of the half lengths (touching or with a
      gap). draw_relationship connects the right face of the first to the
      left face of the second, whatever the widths and heights. */
  lemma SideBySideBoxesPickRightLeft(e1: Vec3, e2: Vec3, c: Vec3, g: real)
    requires e1.x > 0.0 && e2.x > 0.0 && g >= (e1.x + e2.x) / 2.0
    ensures IsFirstClosest(Placed(Corners(e1.x, e1.y, e1.z), c),
                           Placed(Corners(e2.x, e2.y, e2.z), Add(c, Vec3(g, 0.0, 0.0))), Right, Left)
  {
    var c2 := Add(c, Vec3(g, 0.0, 0.0));
    var v1 := Placed(Corners(e1.x, e1.y, e1.z), c);
    var v2 := Placed(Corners(e2.x, e2.y, e2.z), c2);
    forall p, q
      ensures FaceDistanceTable(v1, v2)(p, q) == SideBySideDistance(e1, e2, c, g, p, q)
    {
      PlacedFaceCentroid(c, e1.x, e1.y, e1.z, p);
      PlacedFaceCentroid(c2, e2.x, e2.y, e2.z, q);
    }
    forall p, q
      ensures FaceDistanceTable(v1, v2)(Right, Left) <= FaceDistanceTable(v1, v2)(p, q)
      ensures PairRank(p, q) < PairRank(Right, Left) ==>
        FaceDistanceTable(v1, v2)(Right, Left) < FaceDistanceTable(v1, v2)(p, q)
    {
      SideBySideDistances(e1, e2, c, g, Right, Left);
      SideBySideDistances(e1, e2, c, g, p, q);
      SideBySideFacing(e1, e2, c, g);
    }
  }

  // ---------------------------------------------------------------------
  // The class
  // ---------------------------------------------------------------------

  /** BBox: the box whose methods update its fields in place. Each method is
      specified by the step function of the same operation above. */
  class BBox {
    /** BBox.MIN_DIMENSION, read from the configuration. */
    const minDimension: real
    var center: Vec3
    var length: real
    var width: real
    var height: real
    var xRotation: real
    var yRotation: real
    var zRotation: real
    var classname: string
    var verticies: Octet

    function State(): BoxState
      reads this
    {
      BoxState(center, length, width, height, Vec3(xRotation, yRotation, zRotation), classname, verticies)
    }

    constructor (cfg: Config, cx: real, cy: real, cz: real,
                 len: Option<real>, wid: Option<real>, hei: Option<real>)
      ensures minDimension == cfg.minDimension
      ensures State() == Initial(cfg, cx, cy, cz, len, wid, hei)
    {
      minDimension := cfg.minDimension;
      center := Vec3(cx, cy, cz);
      length := OrDefault(len, cfg.stdLength);
      width := OrDefault(wid, cfg.stdWidth);
      height := OrDefault(hei, cfg.stdHeight);
      xRotation, yRotation, zRotation := 0.0, 0.0, 0.0;
      classname := cfg.stdClass;
      new;
      SetAxisAlignedVerticies();
    }

    method SetClassname(name: Option<string>)
      modifies this
      ensures State() == ClassnameSet(old(State()), name)
    {
      if name.Some? && name.value != "" {
        classname := name.value;
      }
    }

    method SetLength(v: real)
      modifies this
      ensures State() == DimensionSet(old(State()), X, v)
    {
      if v > 0.0 {
        length := v;
      }
    }

    method SetWidth(v: real)
      modifies this
      ensures State() == DimensionSet(old(State()), Y, v)
    {
      if v > 0.0 {
        width := v;
      }
    }

    method SetHeight(v: real)
      modifies this
      ensures State() == DimensionSet(old(State()), Z, v)
    {
      if v > 0.0 {
        height := v;
      }
    }

    method SetDimensions(l: real, w: real, h: real)
      modifies this
      ensures State() == DimensionsSet(old(State()), l, w, h)
    {
      if l > 0.0 && w > 0.0 && h > 0.0 {
        length, width, height := l, w, h;
      }
    }

    method SetXRotation(angle: real)
      modifies this
      ensures State() == RotationSet(old(State()), X, angle)
    {
      xRotation := Mod360(angle);
    }

    method SetYRotation(angle: real)
      modifies this
      ensures State() == RotationSet(old(State()), Y, angle)
    {
      yRotation := Mod360(angle);
    }

    method SetZRotation(angle: real)
      modifies this
      ensures State() == RotationSet(old(State()), Z, angle)
    {
      zRotation := Mod360(angle);
    }

    method SetRotations(x: real, y: real, z: real)
      modifies this
      ensures State() == RotationsSet(old(State()), x, y, z)
    {
      xRotation, yRotation, zRotation := x, y, z;
    }

    method SetXTranslation(t: real)
      modifies this
      ensures State() == TranslationSet(old(State()), X, t)
    {
      center := Vec3(t, center.y, center.z);
    }

    method SetYTranslation(t: real)
      modifies this
      ensures State() == TranslationSet(old(State()), Y, t)
    {
      center := Vec3(center.x, t, center.z);
    }

    method SetZTranslation(t: real)
      modifies this
      ensures State() == TranslationSet(old(State()), Z, t)
    {
      center := Vec3(center.x, center.y, t);
    }

    /** Rebuilds the cache from the current extents. */
    method SetAxisAlignedVerticies()
      modifies this
      ensures State() == Refreshed(old(State()))
    {
      verticies := Corners(length, width, height);
    }

    method GetAxisAlignedVertices() returns (coords: seq<Vec3>)
      ensures coords == AxisAlignedVertices(State())
    {
      coords := [];
      for i := 0 to |verticies|
        invariant coords == AxisAlignedVertices(State())[..i]
      {
        coords := coords + [TranslatePoint(verticies[i], center.x, center.y, center.z)];
      }
    }

    method GetVertices(n: Numerics) returns (vertices: Octet)
      ensures vertices == WorldVertices(State(), n)
    {
      var aligned := GetAxisAlignedVertices();
      vertices := RotateAroundCenter(n, aligned, center, Vec3(xRotation, yRotation, zRotation));
    }

    method TranslateBBox(dx: real, dy: real, dz: real)
      modifies this
      ensures State() == Translated(old(State()), dx, dy, dz)
    {
      center := TranslatePoint(center, dx, dy, dz);
    }

    method TranslateSide(n: Numerics, pS: VertexId, pO: VertexId, distance: real)
      modifies this
      ensures State() == SideTranslated(old(State()), n, pS, pO, distance)
    {
      var moving := GetVertices(n);
      var anchor := GetVertices(n);
      var direction := Subtract(moving[pS], anchor[pO]);
      var translation := StepAlong(direction, n.norm(direction), distance);
      center := TranslatePoint(center, translation.x, translation.y, translation.z);
    }

    /** One `if` of change_side, for the side `which`. */
    method ExtrudeIf(n: Numerics, side: string, which: Side, distance: real)
      modifies this
      ensures State() == ExtrudeStep(old(State()), minDimension, n, side, which, distance)
    {
      var a := SideAxis(which);
      if side == SideName(which) && Dimension(State(), a) + distance > minDimension {
        match a {
          case X => length := length + distance;
          case Y => width := width + distance;
          case Z => height := height + distance;
        }
        TranslateSide(n, MovingPair(which).0, MovingPair(which).1, distance);
      }
    }

    /** change_side: the `if`s for right, left, front, back, top and bottom,
        in that order. */
    method ChangeSide(n: Numerics, side: string, distance: real)
      modifies this
      ensures State() == SideExtruded(old(State()), minDimension, n, side, distance)
    {
      ExtrudeIf(n, side, Right, distance);
      ExtrudeIf(n, side, Left, distance);
      ExtrudeIf(n, side, Front, distance);
      ExtrudeIf(n, side, Back, distance);
      ExtrudeIf(n, side, Top, distance);
      ExtrudeIf(n, side, Bottom, distance);
    }

    /** The geometry of draw_bbox: the cache is rebuilt, then both end points
        of every wireframe edge of the world corners are listed. */
    method DrawBBox(n: Numerics) returns (drawingSequence: seq<Vec3>)
      modifies this
      ensures State() == Refreshed(old(State()))
      ensures |drawingSequence| == 2 * |BBOX_EDGES|
      ensures forall k :: 0 <= k < |BBOX_EDGES| ==>
        && drawingSequence[2 * k] == WorldVertices(State(), n)[BBOX_EDGES[k].0]
        && drawingSequence[2 * k + 1] == WorldVertices(State(), n)[BBOX_EDGES[k].1]
    {
      SetAxisAlignedVerticies();
      var vertices := GetVertices(n);
      drawingSequence := DrawingSequence(vertices);
    }

    /** The geometry of draw_relationship against the world corners vertices1
        of another box: the cache is rebuilt, the first closest pair of faces
        is chosen, and the connector lines run along the wireframe edges over
        the first box's face corners followed by this box's. */
    method DrawRelationship(n: Numerics, vertices1: Octet)
      returns (key1: Side, key2: Side, chosen1: seq<Vec3>, chosen2: seq<Vec3>, drawingSequence: seq<Vec3>)
      modifies this
      ensures State() == Refreshed(old(State()))
      ensures IsFirstClosest(vertices1, WorldVertices(State(), n), key1, key2)
      ensures chosen1 == FaceVertices(vertices1, key1)
      ensures chosen2 == FaceVertices(WorldVertices(State(), n), key2)
      ensures |drawingSequence| == 2 * |BBOX_EDGES|
      ensures forall k :: 0 <= k < |BBOX_EDGES| ==>
        && drawingSequence[2 * k] == (chosen1 + chosen2)[BBOX_EDGES[k].0]
        && drawingSequence[2 * k + 1] == (chosen1 + chosen2)[BBOX_EDGES[k].1]
    {
      SetAxisAlignedVerticies();
      var vertices2 := GetVertices(n);
      key1, key2 := ClosestFaces(vertices1, vertices2);
      chosen1 := FaceVertices(vertices1, key1);
      chosen2 := FaceVertices(vertices2, key2);
      var verticePairs := VerticePairs(chosen1, chosen2);
      drawingSequence := ConnectorSequence(verticePairs);
    }
  }
}
