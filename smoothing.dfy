/**
 * The per-frame smoothing of the rendered position toward the latest
 * position fix, shared by both drafts. The snap test is one-sided: it
 * fires only when the rendered position is ahead of the fix (greater
 * latitude or greater longitude) by more than the threshold; the latitude
 * is compared against a threshold built from the longitude scale factor
 * and vice versa, exactly as the drafts write it.
 */
module Smoothing {

  /** A geographic position in degrees. */
  datatype Coords = Coords(lat: real, lng: real)

  /** The snap test of the draw loop. */
  predicate SnapFires(render: Coords, truth: Coords, latLimit: real, lngLimit: real) {
    render.lat - truth.lat > latLimit || render.lng - truth.lng > lngLimit
  }

  /** One frame of smoothing: snap to the fix, or ease toward it by `dt`.
      A snap lands on the fix exactly, and so does a frame of one second;
      with `0 <= dt <= 1` each coordinate stays between its rendered value
      and the fix, so the easing never overshoots. */
  function SmoothStep(render: Coords, truth: Coords, latLimit: real, lngLimit: real, dt: real): (r: Coords)
    ensures SnapFires(render, truth, latLimit, lngLimit) ==> r == truth
    ensures dt == 1.0 ==> r == truth
    ensures 0.0 <= dt <= 1.0 ==>
      Between(r.lat, render.lat, truth.lat) && Between(r.lng, render.lng, truth.lng)
  {
    if SnapFires(render, truth, latLimit, lngLimit) then truth
    else
      if 0.0 <= dt <= 1.0 then
        EaseBetween(render.lat, truth.lat, dt);
        EaseBetween(render.lng, truth.lng, dt);
        Ease(render, truth, dt)
      else Ease(render, truth, dt)
  }

  /** Helper: the easing half of the step. */
  function Ease(render: Coords, truth: Coords, dt: real): Coords {
    Coords(render.lat + (truth.lat - render.lat) * dt,
           render.lng + (truth.lng - render.lng) * dt)
  }

  /** `v` lies between `a` and `b`, whichever is larger. */
  predicate Between(v: real, a: real, b: real) {
    (a <= v <= b) || (b <= v <= a)
  }

  /** Without a snap, a frame of zero duration changes nothing. */
  lemma EaseByZeroKeeps(render: Coords, truth: Coords, latLimit: real, lngLimit: real)
    requires !SnapFires(render, truth, latLimit, lngLimit)
    ensures SmoothStep(render, truth, latLimit, lngLimit, 0.0) == render
  {
  }

  /** Helper: one coordinate of the easing. */
  lemma EaseBetween(r: real, t: real, dt: real)
    requires 0.0 <= dt <= 1.0
    ensures Between(r + (t - r) * dt, r, t)
  {
    var d := t - r;
    var m := d * dt;
    assert r + (t - r) * dt == r + m;
    if d >= 0.0 {
      ScaleDown(d, dt);
      assert r <= r + m <= t;
    } else {
      ScaleDown(-d, dt);
      assert (-d) * dt == -m;
      assert t <= r + m <= r;
    }
  }

  /** Helper: a fraction in [0, 1] of a non-negative amount. */
  lemma ScaleDown(d: real, f: real)
    requires d >= 0.0 && 0.0 <= f <= 1.0
    ensures 0.0 <= d * f <= d
  {
    assert d * (1.0 - f) >= 0.0;
  }

  /** The snap is one-sided: a fix that jumps ahead of the rendered
      position, however far, is eased toward and not snapped to. */
  lemma NoSnapWhenFixAhead(render: Coords, truth: Coords, latLimit: real, lngLimit: real, dt: real)
    requires latLimit >= 0.0 && lngLimit >= 0.0
    requires truth.lat >= render.lat && truth.lng >= render.lng
    ensures SmoothStep(render, truth, latLimit, lngLimit, dt) ==
      Coords(render.lat + (truth.lat - render.lat) * dt, render.lng + (truth.lng - render.lng) * dt)
  {
  }
}
