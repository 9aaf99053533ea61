/**
 * Near-plane clipping of a view-space segment, as the mathematical
 * specification that the renderer's `line` routine is proved against
 * (see `GridRender.Line`). A segment whose two endpoints are both closer
 * than the near plane is discarded; otherwise an endpoint that is too
 * close is moved along the 3D segment onto the plane `fovY == nearPlane`.
 */
module Clipper {
  import opened Wrappers
  import opened Camera

  datatype Segment = Segment(start: ViewPoint, end: ViewPoint)

  /** The point at parameter `t` on the segment from `a` to `b`. */
  function Lerp(a: ViewPoint, b: ViewPoint, t: real): ViewPoint {
    ViewPoint(a.x + t * (b.x - a.x), a.y + t * (b.y - a.y), a.z + t * (b.z - a.z))
  }

  /** The parameter, measured from `a` toward `b`, where the segment meets
      the near plane. */
  function Crossing(a: ViewPoint, b: ViewPoint, nearPlane: real): real
    requires a.y != b.y
  {
    (nearPlane - a.y) / (b.y - a.y)
  }

  /** Endpoint `a` is closer than the near plane and `b` is not. */
  predicate Straddles(a: ViewPoint, b: ViewPoint, nearPlane: real) {
    a.y < nearPlane <= b.y
  }

  /** The clipped segment, or None when it is discarded. */
  function NearClip(s: ViewPoint, e: ViewPoint, nearPlane: real): (r: Option<Segment>)
    requires nearPlane > 0.0
    ensures r.None? <==> s.y < nearPlane && e.y < nearPlane
    ensures r.Some? ==> r.value.start.y >= nearPlane && r.value.end.y >= nearPlane
  {
    if s.y < nearPlane && e.y < nearPlane then None
    else if s.y < nearPlane then
      CrossingOnPlane(s, e, nearPlane);
      Some(Segment(Lerp(s, e, Crossing(s, e, nearPlane)), e))
    else if e.y < nearPlane then
      CrossingOnPlane(e, s, nearPlane);
      Some(Segment(s, Lerp(e, s, Crossing(e, s, nearPlane))))
    else Some(Segment(s, e))
  }

  /** The crossing parameter lies in (0, 1] and its point is on the plane. */
  lemma CrossingOnPlane(a: ViewPoint, b: ViewPoint, nearPlane: real)
    requires Straddles(a, b, nearPlane)
    ensures a.y != b.y
    ensures 0.0 < Crossing(a, b, nearPlane) <= 1.0
    ensures Lerp(a, b, Crossing(a, b, nearPlane)).y == nearPlane
  {
    var d := b.y - a.y;
    var t := (nearPlane - a.y) / d;
    assert t * d == nearPlane - a.y;
    if t > 1.0 { assert t * d > d; }
  }

  /** Walking from the far end back by `u` is walking from the near end by `1 - u`. */
  lemma LerpReversed(a: ViewPoint, b: ViewPoint, u: real)
    ensures Lerp(b, a, u) == Lerp(a, b, 1.0 - u)
  {
  }

  /** Both endpoints closer than the near plane: nothing is drawn. One
      direction of `NearClip`'s first clause, as a named fact. */
  lemma DiscardedWhenBothNear(s: ViewPoint, e: ViewPoint, nearPlane: real)
    requires nearPlane > 0.0 && s.y < nearPlane && e.y < nearPlane
    ensures NearClip(s, e, nearPlane) == None
  {
  }

  /** Both endpoints at or beyond the near plane: passed through unchanged. */
  lemma UnchangedWhenBothVisible(s: ViewPoint, e: ViewPoint, nearPlane: real)
    requires nearPlane > 0.0 && s.y >= nearPlane && e.y >= nearPlane
    ensures NearClip(s, e, nearPlane) == Some(Segment(s, e))
  {
  }

  /** Only the start too close: the new start is on the plane, on the
      original segment at a parameter in (0, 1], and the end is kept. */
  lemma StartClipped(s: ViewPoint, e: ViewPoint, nearPlane: real)
    requires nearPlane > 0.0 && Straddles(s, e, nearPlane)
    ensures var r := NearClip(s, e, nearPlane);
      r.Some? && r.value.end == e && r.value.start.y == nearPlane &&
      exists t :: 0.0 < t <= 1.0 && r.value.start == Lerp(s, e, t)
  {
    CrossingOnPlane(s, e, nearPlane);
    var t := Crossing(s, e, nearPlane);
    assert NearClip(s, e, nearPlane).value.start == Lerp(s, e, t);
  }

  /** Only the end too close: the new end is on the plane, on the original
      segment at a parameter in [0, 1) from the start (in (0, 1] from the
      end back toward the start), and the start is kept. */
  lemma EndClipped(s: ViewPoint, e: ViewPoint, nearPlane: real)
    requires nearPlane > 0.0 && Straddles(e, s, nearPlane)
    ensures var r := NearClip(s, e, nearPlane);
      r.Some? && r.value.start == s && r.value.end.y == nearPlane &&
      exists t :: 0.0 <= t < 1.0 && r.value.end == Lerp(s, e, t)
  {
    CrossingOnPlane(e, s, nearPlane);
    var u := Crossing(e, s, nearPlane);
    LerpReversed(s, e, u);
    assert NearClip(s, e, nearPlane).value.end == Lerp(s, e, 1.0 - u);
  }

  /** The clipping step of `line`: reassigns the offending endpoint's
      coordinates in place, using the drafts' `recoveryFactor`
      `(yDif - farY + nearPlane) / yDif`, which is the crossing parameter. */
  method ClipSegment(s: ViewPoint, e: ViewPoint, nearPlane: real) returns (r: Option<Segment>)
    requires nearPlane > 0.0
    ensures r == NearClip(s, e, nearPlane)
  {
    var startX, startY, startZ := s.x, s.y, s.z;
    var endX, endY, endZ := e.x, e.y, e.z;

    if startY < nearPlane && endY < nearPlane {
      return None;
    }

    if startY < nearPlane {
      var xDif, yDif, zDif := endX - startX, endY - startY, endZ - startZ;
      var recoveryFactor := (yDif - endY + nearPlane) / yDif;
      assert recoveryFactor == Crossing(s, e, nearPlane);
      startX, startY, startZ :=
        startX + xDif * recoveryFactor, startY + yDif * recoveryFactor, startZ + zDif * recoveryFactor;
      assert ViewPoint(startX, startY, startZ) == Lerp(s, e, recoveryFactor);
    } else if endY < nearPlane {
      var xDif, yDif, zDif := startX - endX, startY - endY, startZ - endZ;
      var recoveryFactor := (yDif - startY + nearPlane) / yDif;
      assert recoveryFactor == Crossing(e, s, nearPlane);
      endX, endY, endZ :=
        endX + xDif * recoveryFactor, endY + yDif * recoveryFactor, endZ + zDif * recoveryFactor;
      assert ViewPoint(endX, endY, endZ) == Lerp(e, s, recoveryFactor);
    }

    r := Some(Segment(ViewPoint(startX, startY, startZ), ViewPoint(endX, endY, endZ)));
  }
}
