/**
 * The camera of the ground-grid renderer: the grid-to-view transform
 * (`inFov`) and the perspective projection onto the canvas (`point`).
 * Both drafts share these; what differs between them (the sub-cell
 * offset, the eye height `z`, the `backup` distance) is carried by `Pose`.
 *
 * Trigonometry is lifted out: a pose holds the cosines and sines of the
 * heading (alpha) and tilt (beta) as plain reals.
 */
module Camera {

  /** A point of the flat ground grid, in grid units. */
  datatype GridPoint = GridPoint(x: real, y: real)

  /** A point in view space: lateral `x`, forward `y` (fovY), height `z`. */
  datatype ViewPoint = ViewPoint(x: real, y: real, z: real)

  /** A canvas pixel position, origin top-left, y growing downward. */
  datatype ScreenPoint = ScreenPoint(x: real, y: real)

  /** Everything `inFov` reads besides its argument. */
  datatype Pose = Pose(
    cosAlpha: real, sinAlpha: real,
    cosBeta: real, sinBeta: real,
    z: real,          // eye height term of the tilt
    backup: real,     // distance added to fovY after the tilt
    lngOffset: real,  // sub-cell offset added to grid x before rotating
    latOffset: real)  // sub-cell offset added to grid y before rotating

  /** Near plane, field-of-view extents on it, and canvas size. */
  datatype Viewport = Viewport(
    nearPlane: real, xFovLength: real, yFovLength: real,
    width: real, height: real)
  {
    predicate Valid() {
      nearPlane > 0.0 && xFovLength > 0.0 && yFovLength > 0.0 &&
      width > 0.0 && height > 0.0
    }
  }

  /** Heading 0 and tilt 0: the rotation and the tilt are identities. */
  predicate Level(pose: Pose) {
    pose.cosAlpha == 1.0 && pose.sinAlpha == 0.0 &&
    pose.cosBeta == 1.0 && pose.sinBeta == 0.0
  }

  /** Rotation of a grid point by the heading, after adding the offset. */
  function Rotate(pose: Pose, p: GridPoint): GridPoint {
    var x := p.x + pose.lngOffset;
    var y := p.y + pose.latOffset;
    GridPoint(x * pose.cosAlpha - y * pose.sinAlpha,
              x * pose.sinAlpha + y * pose.cosAlpha)
  }

  /** `inFov`: offset, rotate by heading, tilt by pitch, then push back.
      Level, it only offsets and pushes back; otherwise the tilt turns the
      forward/height pair without changing its length. */
  function InFov(pose: Pose, p: GridPoint): (v: ViewPoint)
    ensures Level(pose) ==>
      v == ViewPoint(p.x + pose.lngOffset, p.y + pose.latOffset + pose.backup, -pose.z)
    ensures pose.cosBeta * pose.cosBeta + pose.sinBeta * pose.sinBeta == 1.0 ==>
      (v.y - pose.backup) * (v.y - pose.backup) + v.z * v.z ==
      Rotate(pose, p).y * Rotate(pose, p).y + pose.z * pose.z
  {
    var r := Rotate(pose, p);
    TiltIsometry(r.y, pose.z, pose.cosBeta, pose.sinBeta);
    ViewPoint(r.x,
              r.y * pose.cosBeta - pose.z * pose.sinBeta + pose.backup,
              -pose.z * pose.cosBeta - r.y * pose.sinBeta)
  }

  /** Helper: the tilt is a rotation of the (forward, height) pair. */
  lemma TiltIsometry(y: real, z: real, c: real, s: real)
    ensures c * c + s * s == 1.0 ==>
      (y * c - z * s) * (y * c - z * s) + (-z * c - y * s) * (-z * c - y * s) == y * y + z * z
  {
    if c * c + s * s == 1.0 {
      calc {
        (y * c - z * s) * (y * c - z * s) + (-z * c - y * s) * (-z * c - y * s);
        y * y * (c * c + s * s) + z * z * (c * c + s * s);
        y * y + z * z;
      }
    }
  }

  /** `point`: divide by fovY, scale to the canvas, flip Y, recentre. */
  function Project(view: Viewport, p: ViewPoint): (r: ScreenPoint)
    requires view.Valid() && p.y != 0.0
    ensures p.x == 0.0 ==> r.x == view.width / 2.0
    ensures p.z == 0.0 ==> r.y == view.height / 2.0
  {
    var nx := p.x * view.nearPlane / p.y;
    var nz := p.z * view.nearPlane / p.y;
    ScreenPoint(nx / view.xFovLength * view.width + view.width / 2.0,
                -(nz / view.yFovLength * view.height) + view.height / 2.0)
  }

  /** At heading 0 and tilt 0 the view point is the offset grid point,
      pushed back by `backup`, at height `-z`. This is the first clause of
      `InFov`'s contract as a named fact, for the per-draft lemmas to cite. */
  lemma InFovLevel(pose: Pose, p: GridPoint)
    requires Level(pose)
    ensures InFov(pose, p) ==
      ViewPoint(p.x + pose.lngOffset, p.y + pose.latOffset + pose.backup, -pose.z)
  {
  }

  /** fovX does not depend on the tilt, the eye height or the backup. */
  lemma InFovLateralIgnoresTilt(pose: Pose, cosBeta: real, sinBeta: real, z: real, backup: real, p: GridPoint)
    ensures InFov(pose, p).x ==
      InFov(pose.(cosBeta := cosBeta, sinBeta := sinBeta, z := z, backup := backup), p).x
  {
  }

  /** `backup` is added to fovY after the tilt: it shifts fovY and nothing else. */
  lemma BackupAfterTilt(pose: Pose, p: GridPoint)
    ensures var q, q0 := InFov(pose, p), InFov(pose.(backup := 0.0), p);
      q.x == q0.x && q.y == q0.y + pose.backup && q.z == q0.z
  {
  }

  /** The heading rotation keeps distances from the (offset) origin
      whenever the cosine and sine it is given are those of one angle. */
  lemma RotationIsometry(pose: Pose, p: GridPoint)
    requires pose.cosAlpha * pose.cosAlpha + pose.sinAlpha * pose.sinAlpha == 1.0
    ensures var r, x, y := Rotate(pose, p), p.x + pose.lngOffset, p.y + pose.latOffset;
      r.x * r.x + r.y * r.y == x * x + y * y
  {
    var c, s := pose.cosAlpha, pose.sinAlpha;
    var x, y := p.x + pose.lngOffset, p.y + pose.latOffset;
    calc {
      (x * c - y * s) * (x * c - y * s) + (x * s + y * c) * (x * s + y * c);
      x * x * (c * c + s * s) + y * y * (c * c + s * s);
      x * x + y * y;
    }
  }

  /** The view-space origin's direction (fovX = fovZ = 0) lands on the
      canvas centre, whatever the positive or negative depth. */
  lemma ProjectCentre(view: Viewport, depth: real)
    requires view.Valid() && depth != 0.0
    ensures Project(view, ViewPoint(0.0, depth, 0.0)) ==
      ScreenPoint(view.width / 2.0, view.height / 2.0)
  {
    assert 0.0 * view.nearPlane / depth == 0.0;
  }

  /** In front of the camera, right of the view axis is right of the
      canvas centre and above it is above the centre (Y is flipped),
      in both directions. */
  lemma ProjectSides(view: Viewport, p: ViewPoint)
    requires view.Valid() && p.y > 0.0
    ensures Project(view, p).x > view.width / 2.0 <==> p.x > 0.0
    ensures Project(view, p).x < view.width / 2.0 <==> p.x < 0.0
    ensures Project(view, p).y < view.height / 2.0 <==> p.z > 0.0
    ensures Project(view, p).y > view.height / 2.0 <==> p.z < 0.0
  {
    SignOfScaled(p.x * view.nearPlane / p.y / view.xFovLength * view.width, p.x,
                 view.nearPlane / p.y / view.xFovLength * view.width);
    SignOfScaled(p.z * view.nearPlane / p.y / view.yFovLength * view.height, p.z,
                 view.nearPlane / p.y / view.yFovLength * view.height);
  }

  /** Points on one ray from the eye project to the same pixel. */
  lemma ProjectAlongRay(view: Viewport, p: ViewPoint, k: real)
    requires view.Valid() && p.y != 0.0 && k > 0.0
    ensures Project(view, ViewPoint(k * p.x, k * p.y, k * p.z)) == Project(view, p)
  {
    var q := ViewPoint(k * p.x, k * p.y, k * p.z);
    var nx, nz := p.x * view.nearPlane / p.y, p.z * view.nearPlane / p.y;
    ScaledOnNearPlane(p.x, p.y, view.nearPlane, k);
    ScaledOnNearPlane(p.z, p.y, view.nearPlane, k);
    ProjectVia(view, p, nx, nz);
    ProjectVia(view, q, nx, nz);
  }

  /** Helper: scaling a point by `k` leaves where it meets the near plane. */
  lemma ScaledOnNearPlane(u: real, depth: real, nearPlane: real, k: real)
    requires depth != 0.0 && k != 0.0
    ensures (k * u) * nearPlane / (k * depth) == u * nearPlane / depth
  {
    assert (k * u) * nearPlane == k * (u * nearPlane);
    CancelFactor(u * nearPlane, depth, k);
  }

  /** Helper: `Project` in terms of the near-plane coordinates. */
  lemma ProjectVia(view: Viewport, p: ViewPoint, nx: real, nz: real)
    requires view.Valid() && p.y != 0.0
    requires nx == p.x * view.nearPlane / p.y && nz == p.z * view.nearPlane / p.y
    ensures Project(view, p) == ScreenPoint(nx / view.xFovLength * view.width + view.width / 2.0,
                                            -(nz / view.yFovLength * view.height) + view.height / 2.0)
  {
  }

  /** Helper: a common nonzero factor cancels in a quotient. */
  lemma CancelFactor(a: real, b: real, k: real)
    requires b != 0.0 && k != 0.0
    ensures (k * a) / (k * b) == a / b
  {
    var q := a / b;
    assert a == q * b;
    assert k * a == q * (k * b);
  }

  /** The horizontal distance from the canvas centre grows in proportion
      to the canvas width: horizontally, a resize leaves no residual scale. */
  lemma ProjectScalesWithWidth(view: Viewport, p: ViewPoint, k: real)
    requires view.Valid() && p.y != 0.0 && k > 0.0
    ensures var wide := view.(width := k * view.width);
      Project(wide, p).x - wide.width / 2.0 == k * (Project(view, p).x - view.width / 2.0)
  {
    var u := p.x * view.nearPlane / p.y / view.xFovLength;
    assert u * (k * view.width) == k * (u * view.width);
  }

  /** Helper: `v == u * f` with `f > 0` has the sign of `u`. */
  lemma SignOfScaled(v: real, u: real, f: real)
    requires f > 0.0 && v == u * f
    ensures v > 0.0 <==> u > 0.0
    ensures v < 0.0 <==> u < 0.0
  {
    if u > 0.0 { assert u * f > 0.0; }
    if u < 0.0 { assert u * f < 0.0; }
    if u == 0.0 { assert v == 0.0; }
  }

  /** A camera at level pose above the ground (`z > 0`) sees every ground
      point in front of it strictly below the canvas's vertical midpoint. */
  lemma LevelGroundBelowHorizon(pose: Pose, view: Viewport, p: GridPoint)
    requires Level(pose) && pose.z > 0.0 && view.Valid()
    requires InFov(pose, p).y > 0.0
    ensures Project(view, InFov(pose, p)).y > view.height / 2.0
  {
    InFovLevel(pose, p);
    ProjectSides(view, InFov(pose, p));
  }
}
