/** The fixed tables of labelCloud's `definitions` package that the box model
    reads: the named faces of a box (BBOX_SIDES) and its twelve wireframe
    edges (BBOX_EDGES), both over the eight-corner index convention
    0: (-,-,-) 1: (-,+,-) 2: (+,+,-) 3: (+,-,-) 4: (-,-,+) 5: (-,+,+)
    6: (+,+,+) 7: (+,-,+) of (length/2, width/2, height/2).

    labelCloud/definitions is not part of this model: the values below are
    assumed, not derived. bbox.py itself fixes only the axis of each side
    (through the corner pairs change_side moves) and that "right" is a key.
    The key order decides which pair wins a tie in draw_relationship, and
    the corner order within faces and the edge list decide its connector
    segments; a different table changes those results. */
module Definitions {
  import opened Vectors

  /** An index into a box's eight corners. */
  type VertexId = i: nat | i < 8

  /** The eight corners of a box, or any eight points drawn as one. */
  type Octet = s: seq<Vec3> | |s| == 8
    witness [Origin, Origin, Origin, Origin, Origin, Origin, Origin, Origin]

  datatype Side = Top | Bottom | Left | Right | Front | Back

  /** The keys of BBOX_SIDES in the order a loop over the dictionary meets them. */
  const SIDES: seq<Side> := [Top, Bottom, Left, Right, Front, Back]

  /** The key string of a side in BBOX_SIDES. */
  function SideName(s: Side): string
  {
    match s
    case Top => "top"
    case Bottom => "bottom"
    case Left => "left"
    case Right => "right"
    case Front => "front"
    case Back => "back"
  }

  /** The position of a side in the iteration order of BBOX_SIDES. */
  function SideIndex(s: Side): (i: nat)
    ensures i < |SIDES| && SIDES[i] == s
  {
    match s
    case Top => 0
    case Bottom => 1
    case Left => 2
    case Right => 3
    case Front => 4
    case Back => 5
  }

  /** SideIndex inverts SIDES: each side is listed once. */
  lemma SideIndexOfSides(i: nat)
    requires i < |SIDES|
    ensures SideIndex(SIDES[i]) == i
  {
    if i == 0 {
      assert SIDES[0] == Top;
    } else if i == 1 {
      assert SIDES[1] == Bottom;
    } else if i == 2 {
      assert SIDES[2] == Left;
    } else if i == 3 {
      assert SIDES[3] == Right;
    } else if i == 4 {
      assert SIDES[4] == Front;
    } else {
      assert SIDES[5] == Back;
    }
  }

  /** BBOX_SIDES: the four corner indices of each face, in drawing order. Right
      and left are the faces at +length/2 and -length/2, front and back at
      +width/2 and -width/2, top and bottom at +height/2 and -height/2. */
  function SideVertices(s: Side): (f: seq<VertexId>)
    ensures |f| == 4
    ensures forall i, j :: 0 <= i < j < 4 ==> f[i] != f[j]
  {
    match s
    case Top => [4, 5, 6, 7]
    case Bottom => [0, 1, 2, 3]
    case Left => [0, 1, 5, 4]
    case Right => [2, 3, 7, 6]
    case Front => [1, 2, 6, 5]
    case Back => [0, 3, 7, 4]
  }

  /** BBOX_EDGES: the twelve edges of the wireframe, as corner-index pairs. */
  const BBOX_EDGES: seq<(VertexId, VertexId)> :=
    [(0, 1), (0, 3), (0, 4), (2, 1), (2, 3), (2, 6),
     (5, 1), (5, 4), (5, 6), (7, 3), (7, 4), (7, 6)]

  /** The face opposite a side. */
  function Opposite(s: Side): (o: Side)
    ensures o != s
  {
    match s
    case Top => Bottom
    case Bottom => Top
    case Left => Right
    case Right => Left
    case Front => Back
    case Back => Front
  }

  /** The axis a face is perpendicular to. */
  function SideAxis(s: Side): Axis
  {
    match s
    case Left | Right => X
    case Front | Back => Y
    case Top | Bottom => Z
  }

  /** The outward unit normal of a face. */
  function Outward(s: Side): (v: Vec3)
    ensures SqNorm(v) == 1.0
    ensures Component(v, SideAxis(s)) == 1.0 || Component(v, SideAxis(s)) == -1.0
  {
    match s
    case Right => Vec3(1.0, 0.0, 0.0)
    case Left => Vec3(-1.0, 0.0, 0.0)
    case Front => Vec3(0.0, 1.0, 0.0)
    case Back => Vec3(0.0, -1.0, 0.0)
    case Top => Vec3(0.0, 0.0, 1.0)
    case Bottom => Vec3(0.0, 0.0, -1.0)
  }

  /** Opposite faces share an axis, have opposite normals and together hold
      all eight corners, four each. */
  lemma OppositeFacesPartitionCorners(s: Side)
    ensures Opposite(Opposite(s)) == s
    ensures SideAxis(Opposite(s)) == SideAxis(s)
    ensures Add(Outward(s), Outward(Opposite(s))) == Origin
    ensures forall v: VertexId :: (v in SideVertices(s)) != (v in SideVertices(Opposite(s)))
  {
  }

  /** True when the wireframe has an edge between corners a and b. */
  predicate Joined(a: VertexId, b: VertexId)
  {
    (a, b) in BBOX_EDGES || (b, a) in BBOX_EDGES
  }

  /** The wireframe joins each corner of the lower layer (0..3) to the corner
      above it (4..7), and each layer's corners in the cycle 0-1-2-3. */
  lemma EdgesJoinLayers()
    ensures Joined(0, 4) && Joined(1, 5) && Joined(2, 6) && Joined(3, 7)
    ensures Joined(0, 1) && Joined(1, 2) && Joined(2, 3) && Joined(3, 0)
    ensures Joined(4, 5) && Joined(5, 6) && Joined(6, 7) && Joined(7, 4)
  {
  }
}
