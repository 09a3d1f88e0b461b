/**
 * The geometry of the axis snap performed when the user clicks an axis of the
 * orientation marker: the dominant-axis choice for the new view-up vector, the
 * Euclidean distance between the camera and its focal point, and the pose the
 * camera ends up in.
 *
 * Coordinates are `real`s; the source's `Math.sqrt` is a parameter `sqrt` of
 * which only the defining property of a square root is known (IsSqrt).
 */
module Geometry {

  /** An index into a 3-vector. */
  type Axis = i: int | 0 <= i < 3

  /** A point or a direction in 3-space (a 3-element number array in the source). */
  datatype Vec3 = Vec3(x: real, y: real, z: real)
  {
    /** The component at index i (`vec3[i]`). */
    function Get(i: Axis): real {
      if i == 0 then x else if i == 1 then y else z
    }

    /** This vector with component i replaced by value (`axis[i] = value`). */
    function With(i: Axis, value: real): (r: Vec3)
      ensures r.Get(i) == value
      ensures forall j: Axis :: j != i ==> r.Get(j) == Get(j)
    {
      if i == 0 then Vec3(value, y, z)
      else if i == 1 then Vec3(x, value, z)
      else Vec3(x, y, value)
    }
  }

  const Origin := Vec3(0.0, 0.0, 0.0)

  /** `Math.abs`. */
  function Abs(r: real): real {
    if r < 0.0 then -r else r
  }

  /** r is the unit vector along axis i, pointing either way. */
  predicate IsAxisVector(r: Vec3, i: Axis) {
    (r.Get(i) == 1.0 || r.Get(i) == -1.0) &&
    forall j: Axis :: j != i ==> r.Get(j) == 0.0
  }

  /**
   * `majorAxis(vec3, idxA, idxB)`: the signed unit vector along whichever of the
   * two components idxA, idxB of v is larger in magnitude.  Index idxA wins only
   * when it is strictly larger, and the sign is +1 only for a strictly positive
   * component.
   */
  function MajorAxis(v: Vec3, idxA: Axis, idxB: Axis): (r: Vec3)
    // exactly one entry is non-zero, it is +1 or -1, and it sits at idxA or idxB
    ensures IsAxisVector(r, idxA) || IsAxisVector(r, idxB)
    // ties go to idxB: idxA is chosen exactly when its magnitude is strictly larger
    ensures idxA != idxB ==> (IsAxisVector(r, idxA) <==> Abs(v.Get(idxA)) > Abs(v.Get(idxB)))
    // the chosen component dominates the pair
    ensures forall i: Axis :: r.Get(i) != 0.0 ==>
              Abs(v.Get(i)) >= Abs(v.Get(idxA)) && Abs(v.Get(i)) >= Abs(v.Get(idxB))
    // the sign is +1 exactly when the chosen component is strictly positive
    ensures forall i: Axis :: r.Get(i) != 0.0 ==> (r.Get(i) == 1.0 <==> v.Get(i) > 0.0)
  {
    var idx := if Abs(v.Get(idxA)) > Abs(v.Get(idxB)) then idxA else idxB;
    var value := if v.Get(idx) > 0.0 then 1.0 else -1.0;
    Origin.With(idx, value)
  }

  /** Snapping an already axis-aligned view-up to the same pair of axes keeps it. */
  lemma MajorAxisIdempotent(v: Vec3, idxA: Axis, idxB: Axis)
    ensures MajorAxis(MajorAxis(v, idxA, idxB), idxA, idxB) == MajorAxis(v, idxA, idxB)
  {
  }

  /** `Math.pow(a - b, 2)` summed over the three components. */
  function SquaredDistance(p: Vec3, q: Vec3): real {
    (p.x - q.x) * (p.x - q.x) + (p.y - q.y) * (p.y - q.y) + (p.z - q.z) * (p.z - q.z)
  }

  /** The squared length of a vector. */
  function SquaredNorm(v: Vec3): real {
    v.x * v.x + v.y * v.y + v.z * v.z
  }

  /** sqrt returns the non-negative square root of every non-negative real (`Math.sqrt`). */
  ghost predicate IsSqrt(sqrt: real -> real) {
    forall r: real :: 0.0 <= r ==> 0.0 <= sqrt(r) && sqrt(r) * sqrt(r) == r
  }

  /** Squaring is strictly increasing on the non-negative reals. */
  lemma SquareIncreasing(s: real, r: real)
    requires 0.0 <= s < r
    ensures s * s < r * r
  {
    var ss, sr, rr := s * s, s * r, r * r;
    assert ss <= sr;
    assert sr < rr;
  }

  /** A non-negative real is determined by its square. */
  lemma SquareRootUnique(r: real, s: real)
    requires 0.0 <= r && 0.0 <= s && r * r == s * s
    ensures r == s
  {
    if r < s {
      SquareIncreasing(r, s);
    } else if s < r {
      SquareIncreasing(s, r);
    }
  }

  /** Only zero squares to zero. */
  lemma ZeroSquare(r: real)
    ensures r * r == 0.0 <==> r == 0.0
  {
    if r < 0.0 {
      SquareIncreasing(0.0, -r);
      assert (-r) * (-r) == r * r;
    } else if 0.0 < r {
      SquareIncreasing(0.0, r);
    }
  }

  /** A squared distance is non-negative, and zero exactly for coinciding points. */
  lemma SquaredDistanceZero(p: Vec3, q: Vec3)
    ensures 0.0 <= SquaredDistance(p, q)
    ensures SquaredDistance(p, q) == 0.0 <==> p == q
  {
    var dx, dy, dz := p.x - q.x, p.y - q.y, p.z - q.z;
    var xx, yy, zz := dx * dx, dy * dy, dz * dz;
    assert 0.0 <= xx && 0.0 <= yy && 0.0 <= zz;
    if xx + yy + zz == 0.0 {
      ZeroSquare(dx);
      ZeroSquare(dy);
      ZeroSquare(dz);
    }
  }

  /** The Euclidean distance between p and q. */
  function Distance(p: Vec3, q: Vec3, sqrt: real -> real): (d: real)
    requires IsSqrt(sqrt)
    ensures 0.0 <= d && d * d == SquaredDistance(p, q)
    ensures d == 0.0 <==> p == q
  {
    SquaredDistanceZero(p, q);
    var d := sqrt(SquaredDistance(p, q));
    ZeroSquare(d);
    d
  }

  /** The camera's position, focal point and view-up taken together. */
  datatype Pose = Pose(position: Vec3, focalPoint: Vec3, viewUp: Vec3)

  /**
   * The focal point moved by `direction * distance`.  An all-zero direction, or
   * a camera already on its focal point, puts the camera on the focal point.
   */
  function SnappedPosition(pose: Pose, direction: Vec3, sqrt: real -> real): (p: Vec3)
    requires IsSqrt(sqrt)
    ensures direction == Origin ==> p == pose.focalPoint
    ensures pose.position == pose.focalPoint ==> p == pose.focalPoint
  {
    var distance := Distance(pose.position, pose.focalPoint, sqrt);
    Vec3(pose.focalPoint.x + direction.x * distance,
         pose.focalPoint.y + direction.y * distance,
         pose.focalPoint.z + direction.z * distance)
  }

  /**
   * The view-up after a snap.  The source tests the x, y and z components of the
   * direction in that order, each non-zero one overwriting the view-up, so the
   * last matching test wins; with an all-zero direction the view-up is not set.
   * A non-zero direction always yields a unit axis vector.
   */
  function SnappedViewUp(viewUp: Vec3, direction: Vec3): (up: Vec3)
    ensures direction != Origin ==> IsAxisVector(up, 0) || IsAxisVector(up, 1) || IsAxisVector(up, 2)
    ensures direction == Origin ==> up == viewUp
  {
    if direction.z != 0.0 then MajorAxis(viewUp, 0, 1)
    else if direction.y != 0.0 then MajorAxis(viewUp, 0, 2)
    else if direction.x != 0.0 then MajorAxis(viewUp, 1, 2)
    else viewUp
  }

  /** The pose after snapping the camera to look along `direction`; the focal point is never moved. */
  function Snap(pose: Pose, direction: Vec3, sqrt: real -> real): (after: Pose)
    requires IsSqrt(sqrt)
    ensures after.focalPoint == pose.focalPoint
    ensures direction == Origin ==> after.viewUp == pose.viewUp
  {
    Pose(SnappedPosition(pose, direction, sqrt), pose.focalPoint, SnappedViewUp(pose.viewUp, direction))
  }

  /**
   * The camera is moved to distance d * |direction| from the (unchanged) focal
   * point, where d is its distance before the snap.
   */
  lemma SnapScalesDistance(pose: Pose, direction: Vec3, sqrt: real -> real)
    requires IsSqrt(sqrt)
    ensures Snap(pose, direction, sqrt).focalPoint == pose.focalPoint
    ensures var d := Distance(pose.position, pose.focalPoint, sqrt);
            SquaredDistance(Snap(pose, direction, sqrt).position, pose.focalPoint)
              == d * d * SquaredNorm(direction)
  {
    var d := Distance(pose.position, pose.focalPoint, sqrt);
    var p := SnappedPosition(pose, direction, sqrt);
    var f := pose.focalPoint;
    assert p.x - f.x == direction.x * d;
    assert p.y - f.y == direction.y * d;
    assert p.z - f.z == direction.z * d;
    ScaledSquare(direction.x, d);
    ScaledSquare(direction.y, d);
    ScaledSquare(direction.z, d);
  }

  /** Squaring a scaled component. */
  lemma ScaledSquare(a: real, d: real)
    ensures (a * d) * (a * d) == d * d * (a * a)
  {
  }

  /** For a unit direction, the snap keeps the camera's distance to the focal point. */
  lemma SnapPreservesDistance(pose: Pose, direction: Vec3, sqrt: real -> real)
    requires IsSqrt(sqrt)
    requires SquaredNorm(direction) == 1.0
    ensures var after := Snap(pose, direction, sqrt);
            after.focalPoint == pose.focalPoint &&
            Distance(after.position, after.focalPoint, sqrt) == Distance(pose.position, pose.focalPoint, sqrt)
  {
    SnapScalesDistance(pose, direction, sqrt);
    var after := Snap(pose, direction, sqrt);
    SquareRootUnique(Distance(after.position, after.focalPoint, sqrt),
                     Distance(pose.position, pose.focalPoint, sqrt));
  }

  /** A camera sitting on its focal point stays there, whatever the direction. */
  lemma SnapDegenerate(pose: Pose, direction: Vec3, sqrt: real -> real)
    requires IsSqrt(sqrt)
    requires pose.position == pose.focalPoint
    ensures Snap(pose, direction, sqrt).position == pose.focalPoint
  {
  }

  /** direction points along axis i only. */
  predicate IsSingleAxis(direction: Vec3, i: Axis) {
    direction.Get(i) != 0.0 && forall j: Axis :: j != i ==> direction.Get(j) == 0.0
  }

  /**
   * For a direction along a single axis the new view-up lies along one of the
   * two other axes, so it is never the look axis.
   */
  lemma SnappedViewUpAxis(viewUp: Vec3, direction: Vec3, i: Axis)
    requires IsSingleAxis(direction, i)
    ensures var up := SnappedViewUp(viewUp, direction);
            up.Get(i) == 0.0 &&
            (IsAxisVector(up, (i + 1) % 3) || IsAxisVector(up, (i + 2) % 3))
  {
    assert direction.Get(0) == direction.x && direction.Get(1) == direction.y && direction.Get(2) == direction.z;
  }

  /** An all-zero direction leaves the view-up untouched. */
  lemma SnapZeroDirection(pose: Pose, sqrt: real -> real)
    requires IsSqrt(sqrt)
    ensures Snap(pose, Origin, sqrt) == Pose(pose.focalPoint, pose.focalPoint, pose.viewUp)
  {
  }

  /** Snapping twice along the same unit direction is the same as snapping once. */
  lemma SnapIdempotent(pose: Pose, direction: Vec3, sqrt: real -> real)
    requires IsSqrt(sqrt)
    requires SquaredNorm(direction) == 1.0
    ensures Snap(Snap(pose, direction, sqrt), direction, sqrt) == Snap(pose, direction, sqrt)
  {
    var once := Snap(pose, direction, sqrt);
    SnapPreservesDistance(pose, direction, sqrt);
    assert SnappedPosition(once, direction, sqrt) == once.position;
    if direction.z != 0.0 {
      MajorAxisIdempotent(pose.viewUp, 0, 1);
    } else if direction.y != 0.0 {
      MajorAxisIdempotent(pose.viewUp, 0, 2);
    } else {
      MajorAxisIdempotent(pose.viewUp, 1, 2);
    }
  }

  /**
   * Camera at (0,0,10) looking at the origin with view-up (0,1,0), snapped to +X:
   * it moves to (10,0,0) and keeps view-up (0,1,0), Y dominating Z.
   */
  lemma SnapToPlusX(sqrt: real -> real)
    requires IsSqrt(sqrt)
    ensures Snap(Pose(Vec3(0.0, 0.0, 10.0), Origin, Vec3(0.0, 1.0, 0.0)), Vec3(1.0, 0.0, 0.0), sqrt)
            == Pose(Vec3(10.0, 0.0, 0.0), Origin, Vec3(0.0, 1.0, 0.0))
  {
    var d := Distance(Vec3(0.0, 0.0, 10.0), Origin, sqrt);
    SquareRootUnique(d, 10.0);
  }
}
