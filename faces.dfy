/** The geometry behind BBox.draw_bbox and BBox.draw_relationship, without the
    OpenGL calls: face centroids, the search for the closest pair of faces of
    two boxes, and the point sequences handed to the line renderer. */
module Faces {
  import opened Wrappers
  import opened Vectors
  import opened Definitions

  /** The centre of a face: the mean of its four corners. */
  function FaceCentroid(v: Octet, s: Side): Vec3
  {
    var f := SideVertices(s);
    Vec3((v[f[0]].x + v[f[1]].x + v[f[2]].x + v[f[3]].x) / 4.0,
         (v[f[0]].y + v[f[1]].y + v[f[2]].y + v[f[3]].y) / 4.0,
         (v[f[0]].z + v[f[1]].z + v[f[2]].z + v[f[3]].z) / 4.0)
  }

  /** The face-centre dictionaries faces1 and faces2 of draw_relationship,
      filled by one loop over BBOX_SIDES. */
  method FaceCentroids(vertices1: Octet, vertices2: Octet)
    returns (faces1: map<Side, Vec3>, faces2: map<Side, Vec3>)
    ensures forall s: Side :: s in faces1 && faces1[s] == FaceCentroid(vertices1, s)
    ensures forall s: Side :: s in faces2 && faces2[s] == FaceCentroid(vertices2, s)
  {
    faces1, faces2 := map[], map[];
    for k := 0 to |SIDES|
      invariant forall j :: 0 <= j < k ==>
        SIDES[j] in faces1 && faces1[SIDES[j]] == FaceCentroid(vertices1, SIDES[j])
      invariant forall j :: 0 <= j < k ==>
        SIDES[j] in faces2 && faces2[SIDES[j]] == FaceCentroid(vertices2, SIDES[j])
    {
      var side := SIDES[k];
      faces1 := faces1[side := FaceCentroid(vertices1, side)];
      faces2 := faces2[side := FaceCentroid(vertices2, side)];
    }
    forall s: Side
      ensures s in faces1 && faces1[s] == FaceCentroid(vertices1, s)
      ensures s in faces2 && faces2[s] == FaceCentroid(vertices2, s)
    {
      assert SIDES[SideIndex(s)] == s;
    }
  }

  /** sq_distance applied to two face centres. */
  function CentroidDistance(c1: Vec3, c2: Vec3): real
  {
    SqDistance(c1.x, c1.y, c1.z, c2.x, c2.y, c2.z)
  }

  /** Squared distance between face a of the first box and face b of the second. */
  function FaceDistance(v1: Octet, v2: Octet, a: Side, b: Side): real
  {
    CentroidDistance(FaceCentroid(v1, a), FaceCentroid(v2, b))
  }

  /** When the nested loop over the two dictionaries reaches the pair (a, b). */
  function PairRank(a: Side, b: Side): (r: nat)
    ensures r < 36
  {
    SideIndex(a) * 6 + SideIndex(b)
  }

  lemma PairRankInjective(a: Side, b: Side, p: Side, q: Side)
    requires PairRank(a, b) == PairRank(p, q)
    ensures a == p && b == q
  {
    assert SIDES[SideIndex(a)] == a && SIDES[SideIndex(p)] == p;
    assert SIDES[SideIndex(b)] == b && SIDES[SideIndex(q)] == q;
  }

  /** (a, b) is what the search over a table of pair distances returns: no
      pair is closer, and every pair met before it is strictly farther (ties
      go to the first pair met). */
  ghost predicate IsFirstMinimum(dist: (Side, Side) --> real, a: Side, b: Side)
    requires forall p, q :: dist.requires(p, q)
  {
    && (forall p, q :: dist(a, b) <= dist(p, q))
    && (forall p, q :: PairRank(p, q) < PairRank(a, b) ==> dist(a, b) < dist(p, q))
  }

  /** The distance of every pair of faces of two boxes. */
  function FaceDistanceTable(v1: Octet, v2: Octet): (Side, Side) -> real
  {
    (p: Side, q: Side) => FaceDistance(v1, v2, p, q)
  }

  /** The distances draw_relationship reads off its two face-centre dictionaries. */
  function DictDistance(faces1: map<Side, Vec3>, faces2: map<Side, Vec3>): (Side, Side) --> real
  {
    (p: Side, q: Side) requires p in faces1 && q in faces2 => CentroidDistance(faces1[p], faces2[q])
  }

  /** Dictionaries holding the face centres give the face distances. */
  lemma DictDistanceIsFaceDistance(v1: Octet, v2: Octet, faces1: map<Side, Vec3>, faces2: map<Side, Vec3>)
    requires forall s: Side :: s in faces1 && faces1[s] == FaceCentroid(v1, s)
    requires forall s: Side :: s in faces2 && faces2[s] == FaceCentroid(v2, s)
    ensures forall p, q ::
              && DictDistance(faces1, faces2).requires(p, q)
              && FaceDistanceTable(v1, v2).requires(p, q)
              && DictDistance(faces1, faces2)(p, q) == FaceDistanceTable(v1, v2)(p, q)
  {
  }

  /** The pair of faces draw_relationship connects, by centroid distance. */
  ghost predicate IsFirstClosest(v1: Octet, v2: Octet, a: Side, b: Side)
  {
    IsFirstMinimum(FaceDistanceTable(v1, v2), a, b)
  }

  /** At most one pair is the first minimum: the search is deterministic. */
  lemma FirstMinimumIsUnique(dist: (Side, Side) --> real, a: Side, b: Side, p: Side, q: Side)
    requires forall p, q :: dist.requires(p, q)
    requires IsFirstMinimum(dist, a, b) && IsFirstMinimum(dist, p, q)
    ensures a == p && b == q
  {
    if PairRank(a, b) == PairRank(p, q) {
      PairRankInjective(a, b, p, q);
    }
  }

  lemma FirstMinimumOfEqualTables(d1: (Side, Side) --> real, d2: (Side, Side) --> real, a: Side, b: Side)
    requires forall p, q :: d1.requires(p, q) && d2.requires(p, q) && d1(p, q) == d2(p, q)
    requires IsFirstMinimum(d1, a, b)
    ensures IsFirstMinimum(d2, a, b)
  {
  }

  /** What the search knows after visiting the first n pairs: the kept pair
      was visited and minDist holds its distance (None before any visit),
      no visited pair is closer, and every pair visited before it is farther. */
  ghost predicate BestSoFar(dist: (Side, Side) --> real, minDist: Option<real>, key1: Side, key2: Side, n: nat)
    requires forall p, q :: dist.requires(p, q)
  {
    && (n > 0 ==> minDist == Some(dist(key1, key2)) && PairRank(key1, key2) < n)
    && (n == 0 ==> minDist == None)
    && (forall p, q :: PairRank(p, q) < n ==> dist(key1, key2) <= dist(p, q))
    && (forall p, q :: PairRank(p, q) < PairRank(key1, key2) ==> dist(key1, key2) < dist(p, q))
  }

  /** Visiting the j-th face of the second box for the i-th face of the
      first: when that pair is strictly closer than the best so far (or is
      the first pair) it becomes the best. */
  lemma TakeCloserPair(dist: (Side, Side) --> real, minDist: Option<real>, key1: Side, key2: Side, i: nat, j: nat)
    requires forall p, q :: dist.requires(p, q)
    requires i < |SIDES| && j < |SIDES|
    requires BestSoFar(dist, minDist, key1, key2, i * 6 + j)
    requires minDist == None || dist(SIDES[i], SIDES[j]) < minDist.value
    ensures BestSoFar(dist, Some(dist(SIDES[i], SIDES[j])), SIDES[i], SIDES[j], i * 6 + j + 1)
  {
    SideIndexOfSides(i);
    SideIndexOfSides(j);
    forall p, q | PairRank(p, q) == i * 6 + j
      ensures dist(SIDES[i], SIDES[j]) <= dist(p, q)
    {
      PairRankInjective(p, q, SIDES[i], SIDES[j]);
    }
  }

  /** The same visit when the pair is no closer: the best so far stays. */
  lemma KeepBestPair(dist: (Side, Side) --> real, minDist: Option<real>, key1: Side, key2: Side, i: nat, j: nat)
    requires forall p, q :: dist.requires(p, q)
    requires i < |SIDES| && j < |SIDES|
    requires BestSoFar(dist, minDist, key1, key2, i * 6 + j)
    requires minDist.Some? && !(dist(SIDES[i], SIDES[j]) < minDist.value)
    ensures BestSoFar(dist, minDist, key1, key2, i * 6 + j + 1)
  {
    SideIndexOfSides(i);
    SideIndexOfSides(j);
    forall p, q | PairRank(p, q) == i * 6 + j
      ensures dist(key1, key2) <= dist(p, q)
    {
      PairRankInjective(p, q, SIDES[i], SIDES[j]);
    }
  }

  /** After all 36 pairs the best so far is the first minimum. */
  lemma BestOfAllPairs(dist: (Side, Side) --> real, minDist: Option<real>, key1: Side, key2: Side)
    requires forall p, q :: dist.requires(p, q)
    requires BestSoFar(dist, minDist, key1, key2, 36)
    ensures IsFirstMinimum(dist, key1, key2)
  {
    forall p, q
      ensures dist(key1, key2) <= dist(p, q)
    {
      assert PairRank(p, q) < 36;
    }
  }

  /** The nested loop of draw_relationship over the pairs of faces, in
      dictionary order, keeping a pair only when its distance is strictly
      below the best so far. */
  method FirstClosestPair(dist: (Side, Side) --> real) returns (key1: Side, key2: Side)
    requires forall p, q :: dist.requires(p, q)
    ensures IsFirstMinimum(dist, key1, key2)
  {
    var minDist: Option<real> := None;  // None stands for np.Inf
    key1, key2 := Top, Top;  // stand-ins for the empty strings, replaced at the first pair
    for i := 0 to |SIDES|
      invariant BestSoFar(dist, minDist, key1, key2, i * 6)
    {
      for j := 0 to |SIDES|
        invariant BestSoFar(dist, minDist, key1, key2, i * 6 + j)
      {
        var d := dist(SIDES[i], SIDES[j]);
        if minDist == None || d < minDist.value {
          TakeCloserPair(dist, minDist, key1, key2, i, j);
          minDist := Some(d);
          key1, key2 := SIDES[i], SIDES[j];
        } else {
          KeepBestPair(dist, minDist, key1, key2, i, j);
        }
      }
    }
    BestOfAllPairs(dist, minDist, key1, key2);
  }

  /** The closest-face search of draw_relationship: the face centres of both
      boxes, then the first closest pair by squared centroid distance. */
  method ClosestFaces(vertices1: Octet, vertices2: Octet) returns (key1: Side, key2: Side)
    ensures IsFirstClosest(vertices1, vertices2, key1, key2)
  {
    var faces1, faces2 := FaceCentroids(vertices1, vertices2);
    key1, key2 := FirstClosestPair(DictDistance(faces1, faces2));
    DictDistanceIsFaceDistance(vertices1, vertices2, faces1, faces2);
    FirstMinimumOfEqualTables(DictDistance(faces1, faces2), FaceDistanceTable(vertices1, vertices2), key1, key2);
  }

  /** The corners of one face of a box, in BBOX_SIDES order. */
  function FaceVertices(v: Octet, s: Side): (c: seq<Vec3>)
    ensures |c| == 4
  {
    var f := SideVertices(s);
    [v[f[0]], v[f[1]], v[f[2]], v[f[3]]]
  }

  /** The three other cyclic rotations of a face's four corners: the k-th
      starts at corner k + 1. */
  function CyclicShifts(c: seq<Vec3>): (perms: seq<seq<Vec3>>)
    requires |c| == 4
    ensures |perms| == 3
    ensures forall k :: 0 <= k < 3 ==> |perms[k]| == 4
    ensures forall k, m :: 0 <= k < 3 && 0 <= m < 4 ==> perms[k][m] == c[(m + k + 1) % 4]
  {
    [[c[1], c[2], c[3], c[0]], [c[2], c[3], c[0], c[1]], [c[3], c[0], c[1], c[2]]]
  }

  /** vertice_pairs: the first face's corners followed by the second face's,
      unshifted and then in each of its cyclic shifts. */
  function VerticePairs(c1: seq<Vec3>, c2: seq<Vec3>): seq<Octet>
    requires |c1| == 4 && |c2| == 4
  {
    var perms := CyclicShifts(c2);
    [c1 + c2, c1 + perms[0], c1 + perms[1], c1 + perms[2]]
  }

  /** draw_bbox's drawing_sequence: both end points of every wireframe edge. */
  method DrawingSequence(vertices: Octet) returns (ds: seq<Vec3>)
    ensures |ds| == 2 * |BBOX_EDGES|
    ensures forall k :: 0 <= k < |BBOX_EDGES| ==>
      ds[2 * k] == vertices[BBOX_EDGES[k].0] && ds[2 * k + 1] == vertices[BBOX_EDGES[k].1]
  {
    ds := [];
    for e := 0 to |BBOX_EDGES|
      invariant |ds| == 2 * e
      invariant forall k :: 0 <= k < e ==>
        ds[2 * k] == vertices[BBOX_EDGES[k].0] && ds[2 * k + 1] == vertices[BBOX_EDGES[k].1]
    {
      var edge := BBOX_EDGES[e];
      ds := ds + [vertices[edge.0]];
      ds := ds + [vertices[edge.1]];
    }
  }

  /** draw_relationship's drawing_sequence: for every wireframe edge, its end
      points in the first of the vertex lists only (the inner loop runs once). */
  method ConnectorSequence(vertexPairs: seq<Octet>) returns (ds: seq<Vec3>)
    requires |vertexPairs| >= 1
    ensures |ds| == 2 * |BBOX_EDGES|
    ensures forall k :: 0 <= k < |BBOX_EDGES| ==>
      ds[2 * k] == vertexPairs[0][BBOX_EDGES[k].0] && ds[2 * k + 1] == vertexPairs[0][BBOX_EDGES[k].1]
  {
    ds := [];
    for e := 0 to |BBOX_EDGES|
      invariant |ds| == 2 * e
      invariant forall k :: 0 <= k < e ==>
        ds[2 * k] == vertexPairs[0][BBOX_EDGES[k].0] && ds[2 * k + 1] == vertexPairs[0][BBOX_EDGES[k].1]
    {
      var edge := BBOX_EDGES[e];
      for i := 0 to 1
        invariant |ds| == 2 * e + 2 * i
        invariant forall k :: 0 <= k < e ==>
          ds[2 * k] == vertexPairs[0][BBOX_EDGES[k].0] && ds[2 * k + 1] == vertexPairs[0][BBOX_EDGES[k].1]
        invariant i == 1 ==> ds[2 * e] == vertexPairs[0][edge.0] && ds[2 * e + 1] == vertexPairs[0][edge.1]
      {
        ds := ds + [vertexPairs[i][edge.0]];
        ds := ds + [vertexPairs[i][edge.1]];
      }
    }
  }
}
