/** Points in 3D space and the small amount of vector arithmetic the box model
    uses (`math3d.translate_point`, `np.subtract`, the squared distance of
    `BBox.sq_distance`), together with the numeric routines the model calls but
    does not define. */
module Vectors {

  datatype Vec3 = Vec3(x: real, y: real, z: real)

  const Origin := Vec3(0.0, 0.0, 0.0)

  /** The three coordinate axes; also names the box dimension along each axis
      (X: length, Y: width, Z: height) and the rotation angle about it. */
  datatype Axis = X | Y | Z

  function Component(v: Vec3, a: Axis): real
  {
    match a
    case X => v.x
    case Y => v.y
    case Z => v.z
  }

  function WithComponent(v: Vec3, a: Axis, value: real): (r: Vec3)
    ensures Component(r, a) == value
    ensures forall b :: b != a ==> Component(r, b) == Component(v, b)
  {
    match a
    case X => v.(x := value)
    case Y => v.(y := value)
    case Z => v.(z := value)
  }

  /** math3d.translate_point: the point moved by (dx, dy, dz). */
  function TranslatePoint(p: Vec3, dx: real, dy: real, dz: real): Vec3
  {
    Vec3(p.x + dx, p.y + dy, p.z + dz)
  }

  function Add(p: Vec3, v: Vec3): Vec3
  {
    TranslatePoint(p, v.x, v.y, v.z)
  }

  /** np.subtract on two points. */
  function Subtract(a: Vec3, b: Vec3): Vec3
  {
    Vec3(a.x - b.x, a.y - b.y, a.z - b.z)
  }

  function Scale(v: Vec3, k: real): Vec3
  {
    Vec3(v.x * k, v.y * k, v.z * k)
  }

  function SqNorm(v: Vec3): real
  {
    v.x * v.x + v.y * v.y + v.z * v.z
  }

  lemma SquareNonNegative(a: real)
    ensures a * a >= 0.0
  {
    if a < 0.0 {
      assert a * a == (-a) * (-a);
    }
  }

  /** BBox.sq_distance: the squared Euclidean distance of two points. It is
      never negative and is zero for a point and itself. */
  function SqDistance(x1: real, y1: real, z1: real, x2: real, y2: real, z2: real): (r: real)
    ensures r >= 0.0
    ensures x1 == x2 && y1 == y2 && z1 == z2 ==> r == 0.0
  {
    SquareNonNegative(x2 - x1);
    SquareNonNegative(y2 - y1);
    SquareNonNegative(z2 - z1);
    (x2 - x1) * (x2 - x1) + (y2 - y1) * (y2 - y1) + (z2 - z1) * (z2 - z1)
  }

  /** The numeric collaborators of the box model that it only calls:
      `rotate(p, center, angles)` rotates one point about `center` by the three
      Euler angles in degrees (math3d's rotation, which is trigonometry), and
      `norm(v)` is np.linalg.norm. */
  datatype Numerics = Numerics(rotate: (Vec3, Vec3, Vec3) -> Vec3, norm: Vec3 -> real)

  /** math3d.rotate_bbox_around_center: every point rotated about the centre.
      That it rotates each point on its own, by one routine `rotate`, is an
      assumption about math3d, whose code is not part of this model. */
  function RotateAroundCenter(n: Numerics, points: seq<Vec3>, center: Vec3, angles: Vec3): seq<Vec3>
  {
    seq(|points|, i requires 0 <= i < |points| => n.rotate(points[i], center, angles))
  }

  /** What any rotation routine does with the angles (0, 0, 0): every point
      stays where it is, whatever it does for other angles. */
  ghost predicate IdentityAtZero(rotate: (Vec3, Vec3, Vec3) -> Vec3)
  {
    forall p, c :: rotate(p, c, Origin) == p
  }

  /** What "rotate around center" means for any rotation routine: where a
      point ends up relative to the centre depends only on where it was
      relative to the centre, not on where the centre is. */
  ghost predicate AboutCentre(rotate: (Vec3, Vec3, Vec3) -> Vec3)
  {
    forall p, c, q, d, a {:trigger rotate(p, c, a), rotate(q, d, a)} ::
      Subtract(p, c) == Subtract(q, d) ==> Subtract(rotate(p, c, a), c) == Subtract(rotate(q, d, a), d)
  }

  /** What a rotation about the origin does to vectors: it keeps sums and
      multiples (it is linear). */
  ghost predicate LinearAtOrigin(rotate: (Vec3, Vec3, Vec3) -> Vec3)
  {
    && (forall u, v, a {:trigger rotate(Add(u, v), Origin, a)} ::
          rotate(Add(u, v), Origin, a) == Add(rotate(u, Origin, a), rotate(v, Origin, a)))
    && (forall u, k, a {:trigger rotate(Scale(u, k), Origin, a)} ::
          rotate(Scale(u, k), Origin, a) == Scale(rotate(u, Origin, a), k))
  }

  /** A rotation about the origin keeps the length of every vector. */
  ghost predicate PreservesLength(rotate: (Vec3, Vec3, Vec3) -> Vec3)
  {
    forall u, a :: SqNorm(rotate(u, Origin, a)) == SqNorm(u)
  }

  /** A rigid rotation about a centre: about the centre, linear about the
      origin and length-preserving, as the exact rotation by Euler angles is. */
  ghost predicate IsRigidRotation(rotate: (Vec3, Vec3, Vec3) -> Vec3)
  {
    AboutCentre(rotate) && LinearAtOrigin(rotate) && PreservesLength(rotate)
  }
}
