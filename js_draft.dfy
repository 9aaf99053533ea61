/**
 * The JavaScript draft of the renderer: its constants, its pose (no offset
 * inside `inFov`, constant eye height, backup depending on the tilt), its
 * grid loops that subtract the sub-cell offsets, the orientation listener
 * with its clamp, and the scale factors it computes on the first frame only.
 *
 * `cosDeg`/`sinDeg` stand for `Math.cos`/`Math.sin` of an angle given in
 * degrees (the draft converts with `* Math.PI / 180` first).
 */
module JsDraft {
  import opened Wrappers
  import opened Camera
  import opened Smoothing
  import opened GridRender

  const MetersPerGridline: real := 10.0
  const GridlineLength: real := 1.0
  const PxPerMeter: real := GridlineLength / MetersPerGridline
  const NearPlane: real := PxPerMeter
  const GridlineCount: nat := 20

  /** The pose `grid` builds from the heading and the tilt. */
  function JsPose(cosDeg: real -> real, sinDeg: real -> real, alpha: real, beta: real): (p: Pose)
    ensures p.z == 0.5 && p.backup == 2.0 - 8.0 * sinDeg(beta)
    ensures p.lngOffset == 0.0 && p.latOffset == 0.0
  {
    Pose(cosDeg(alpha), sinDeg(alpha), cosDeg(beta), sinDeg(beta),
         5.0 * PxPerMeter, (20.0 - 80.0 * sinDeg(beta)) * PxPerMeter, 0.0, 0.0)
  }

  /** The grid loops of this draft: 20 lines each side, offsets subtracted. */
  function JsShape(sinBeta: real, lngOffset: real, latOffset: real): (g: GridShape)
    ensures g.count == 20 && g.spacing == 1.0
    ensures g.latShift == latOffset && g.lngShift == lngOffset
    ensures g.shadeFactor == 50.0 - 77.0 * sinBeta
  {
    GridShape(GridlineCount, GridlineLength, 50.0 - 77.0 * sinBeta, latOffset, lngOffset)
  }

  /** At heading 0 and tilt 0 this draft's camera adds no offset: a grid
      point is pushed out by the backup and sits `z` below the eye. */
  lemma JsLevelView(cosDeg: real -> real, sinDeg: real -> real, p: GridPoint)
    requires cosDeg(0.0) == 1.0 && sinDeg(0.0) == 0.0
    ensures InFov(JsPose(cosDeg, sinDeg, 0.0, 0.0), p) == ViewPoint(p.x, p.y + 2.0, -0.5)
  {
    InFovLevel(JsPose(cosDeg, sinDeg, 0.0, 0.0), p);
  }

  /** What the clamp buys this draft: with the stored tilt in [-90, 0] its
      sine is in [-1, 0], so the backup is at least 2, the shade factor is
      at least 50 (the centre lines are never black), and the grid origin
      is always in front of the camera, so the player dot is always drawn. */
  lemma JsClampedTilt(cosDeg: real -> real, sinDeg: real -> real, alpha: real, beta: real,
                      lngOffset: real, latOffset: real, view: Viewport)
    requires view.Valid() && -1.0 <= sinDeg(beta) <= 0.0
    ensures JsPose(cosDeg, sinDeg, alpha, beta).backup >= 2.0
    ensures var g := JsShape(sinDeg(beta), lngOffset, latOffset);
      g.shadeFactor >= 50.0 && Shade(g.count, 0, g.shadeFactor) >= 50.0
    ensures PlayerDot(JsPose(cosDeg, sinDeg, alpha, beta), view).Some?
  {
    var pose := JsPose(cosDeg, sinDeg, alpha, beta);
    assert Rotate(pose, GridPoint(0.0, 0.0)) == GridPoint(0.0, 0.0);
    assert InFov(pose, GridPoint(0.0, 0.0)).y == 2.0 - 8.5 * sinDeg(beta);
    var g := JsShape(sinDeg(beta), lngOffset, latOffset);
    assert Nearness(g.count, 0) == 1.0;
  }

  /** Subtracting the offset in the loops moves every grid line the opposite
      way to adding it inside `inFov`, as the other draft does. */
  lemma ShiftIsNegatedOffset(pose: Pose, p: GridPoint, lngOffset: real, latOffset: real)
    requires pose.lngOffset == 0.0 && pose.latOffset == 0.0
    ensures InFov(pose, GridPoint(p.x - lngOffset, p.y - latOffset)) ==
      InFov(pose.(lngOffset := -lngOffset, latOffset := -latOffset), p)
  {
    var q := GridPoint(p.x - lngOffset, p.y - latOffset);
    var shifted := pose.(lngOffset := -lngOffset, latOffset := -latOffset);
    assert q.x + pose.lngOffset == p.x + shifted.lngOffset;
    assert q.y + pose.latOffset == p.y + shifted.latOffset;
    assert Rotate(pose, q) == Rotate(shifted, p);
  }

  /** One `deviceorientation` event: a reading may be absent (None). The
      compass heading is Some exactly when the event has that property. */
  datatype OrientationEvent = OrientationEvent(
    alpha: Option<real>, beta: Option<real>, webkitCompassHeading: Option<real>)

  /** The stored heading and tilt. */
  datatype Orientation = Orientation(alpha: real, beta: real)

  /** JavaScript truthiness of a numeric reading: present and nonzero. */
  predicate Truthy(v: Option<real>) {
    v.Some? && v.value != 0.0
  }

  function Max(a: real, b: real): real {
    if a >= b then a else b
  }

  /** The orientation listener. A zero or absent reading leaves its field
      alone; the compass heading wins over `alpha` when present; the tilt
      is clamped into [0, 90] and shifted down by 90. */
  function OnOrientation(o: Orientation, ev: OrientationEvent): (r: Orientation)
    ensures !Truthy(ev.alpha) ==> r.alpha == o.alpha
    ensures Truthy(ev.alpha) && ev.webkitCompassHeading.Some? ==> r.alpha == ev.webkitCompassHeading.value
    ensures Truthy(ev.alpha) && ev.webkitCompassHeading.None? ==> r.alpha == ev.alpha.value
    ensures !Truthy(ev.beta) ==> r.beta == o.beta
    ensures Truthy(ev.beta) ==> -90.0 <= r.beta <= 0.0
    ensures Truthy(ev.beta) && 0.0 <= ev.beta.value <= 90.0 ==> r.beta == ev.beta.value - 90.0
    ensures Truthy(ev.beta) && ev.beta.value < 0.0 ==> r.beta == -90.0
    ensures Truthy(ev.beta) && ev.beta.value > 90.0 ==> r.beta == 0.0
  {
    var alpha :=
      if Truthy(ev.alpha) then
        (if ev.webkitCompassHeading.Some? then ev.webkitCompassHeading.value else ev.alpha.value)
      else o.alpha;
    var beta :=
      if Truthy(ev.beta) then Min(90.0, Max(0.0, ev.beta.value * 1.0)) - 90.0
      else o.beta;
    Orientation(alpha, beta)
  }

  /** Once a tilt has been stored, every later stored tilt stays in [-90, 0]. */
  lemma {:induction false} TiltStaysClamped(o: Orientation, evs: seq<OrientationEvent>)
    requires -90.0 <= o.beta <= 0.0
    ensures -90.0 <= Replay(o, evs).beta <= 0.0
    decreases |evs|
  {
    if evs != [] {
      TiltStaysClamped(OnOrientation(o, evs[0]), evs[1..]);
    }
  }

  /** The orientation after a series of events, in order. */
  function Replay(o: Orientation, evs: seq<OrientationEvent>): Orientation
    decreases |evs|
  {
    if evs == [] then o else Replay(OnOrientation(o, evs[0]), evs[1..])
  }

  /** The cached scale factors. `xMetersPerDegree == 0` means "not yet measured". */
  datatype ScaleCache = ScaleCache(
    xMetersPerDegree: real, xDegreesPerMeter: real,
    yMetersPerDegree: real, yDegreesPerMeter: real)

  /** The two `distanceTo` results one frame would measure. */
  datatype Measurement = Measurement(xMetersPerDegree: real, yMetersPerDegree: real)

  predicate Measurable(m: Measurement) {
    m.xMetersPerDegree != 0.0 && m.yMetersPerDegree != 0.0
  }

  /** The start of `draw`: measure only while the cache is empty. */
  function Refresh(c: ScaleCache, m: Measurement): (r: ScaleCache)
    requires c.xMetersPerDegree == 0.0 ==> Measurable(m)
    ensures c.xMetersPerDegree != 0.0 ==> r == c
    ensures c.xMetersPerDegree == 0.0 ==>
      r.xMetersPerDegree == m.xMetersPerDegree && r.yMetersPerDegree == m.yMetersPerDegree &&
      r.xDegreesPerMeter * r.xMetersPerDegree == 1.0 && r.yDegreesPerMeter * r.yMetersPerDegree == 1.0
  {
    if c.xMetersPerDegree == 0.0 then
      ScaleCache(m.xMetersPerDegree, 1.0 / m.xMetersPerDegree,
                 m.yMetersPerDegree, 1.0 / m.yMetersPerDegree)
    else c
  }

  /** The cache after a series of frames, in order. */
  function RefreshAll(c: ScaleCache, ms: seq<Measurement>): ScaleCache
    requires forall k :: 0 <= k < |ms| ==> Measurable(ms[k])
    decreases |ms|
  {
    if ms == [] then c else RefreshAll(Refresh(c, ms[0]), ms[1..])
  }

  /** A filled cache is never recomputed, however many frames follow. */
  lemma {:induction false} FilledCacheStable(c: ScaleCache, ms: seq<Measurement>)
    requires c.xMetersPerDegree != 0.0
    requires forall k :: 0 <= k < |ms| ==> Measurable(ms[k])
    ensures RefreshAll(c, ms) == c
    decreases |ms|
  {
    if ms != [] {
      FilledCacheStable(Refresh(c, ms[0]), ms[1..]);
    }
  }

  /** From an empty cache, the factors are those measured on the first
      frame, whatever later frames would have measured. */
  lemma FirstFrameWins(c: ScaleCache, ms: seq<Measurement>)
    requires c.xMetersPerDegree == 0.0 && |ms| > 0
    requires forall k :: 0 <= k < |ms| ==> Measurable(ms[k])
    ensures var r := RefreshAll(c, ms);
      r.xMetersPerDegree == ms[0].xMetersPerDegree && r.yMetersPerDegree == ms[0].yMetersPerDegree &&
      r.xDegreesPerMeter == 1.0 / ms[0].xMetersPerDegree && r.yDegreesPerMeter == 1.0 / ms[0].yMetersPerDegree
  {
    FilledCacheStable(Refresh(c, ms[0]), ms[1..]);
  }

  /** The snap threshold of the draw loop: ten metres, the length one grid
      line stands for, in degrees; positive whenever the scale factor is. */
  function SnapLimit(degreesPerMeter: real): (r: real)
    ensures r == degreesPerMeter * MetersPerGridline
    ensures degreesPerMeter > 0.0 ==> r > 0.0
  {
    10.0 * degreesPerMeter
  }

  /** The draft's global state. */
  class Renderer {
    var myCoords: Coords
    var renderCoords: Coords
    var alpha: real
    var beta: real
    var loopInstance: int
    var xMetersPerDegree: real
    var yMetersPerDegree: real
    var xDegreesPerMeter: real
    var yDegreesPerMeter: real

    constructor (now: int)
      ensures myCoords == Coords(0.0, 0.0) && renderCoords == Coords(0.0, 0.0)
      ensures alpha == 0.0 && beta == 0.0 && loopInstance == now
      ensures Cache() == ScaleCache(0.0, 0.0, 0.0, 0.0)
    {
      myCoords, renderCoords := Coords(0.0, 0.0), Coords(0.0, 0.0);
      alpha, beta := 0.0, 0.0;
      loopInstance := now;
      xMetersPerDegree, xDegreesPerMeter := 0.0, 0.0;
      yMetersPerDegree, yDegreesPerMeter := 0.0, 0.0;
    }

    function Cache(): ScaleCache
      reads this
    {
      ScaleCache(xMetersPerDegree, xDegreesPerMeter, yMetersPerDegree, yDegreesPerMeter)
    }

    function Heading(): Orientation
      reads this
    {
      Orientation(alpha, beta)
    }

    /** The `deviceorientation` listener. */
    method OnDeviceOrientation(ev: OrientationEvent)
      modifies this
      ensures Heading() == OnOrientation(old(Heading()), ev)
      ensures myCoords == old(myCoords) && renderCoords == old(renderCoords)
      ensures loopInstance == old(loopInstance) && Cache() == old(Cache())
    {
      if Truthy(ev.alpha) {
        if ev.webkitCompassHeading.Some? {
          alpha := ev.webkitCompassHeading.value;
        } else {
          alpha := ev.alpha.value;
        }
      }
      if Truthy(ev.beta) {
        beta := Min(90.0, Max(0.0, ev.beta.value * 1.0)) - 90.0;
      }
    }

    /** One frame of `draw`: fill the scale cache if it is empty (`m` holds
        the two `distanceTo` results at the rendered position), time step,
        smoothing, then `grid`. The offsets stand for the `%`-based
        sub-cell offsets `grid` computes. */
    method Draw(now: int, m: Measurement,
                cosDeg: real -> real, sinDeg: real -> real,
                lngOffset: real, latOffset: real, view: Viewport)
      returns (frame: Frame)
      requires xMetersPerDegree == 0.0 ==> Measurable(m)
      requires view.Valid() && view.nearPlane == NearPlane
      modifies this
      ensures Cache() == Refresh(old(Cache()), m)
      ensures loopInstance == now
      ensures renderCoords == SmoothStep(old(renderCoords), myCoords,
        SnapLimit(xDegreesPerMeter), SnapLimit(yDegreesPerMeter),
        (now - old(loopInstance)) as real / 1000.0)
      ensures myCoords == old(myCoords) && Heading() == old(Heading())
      ensures frame == FrameOf(JsShape(sinDeg(beta), lngOffset, latOffset),
        JsPose(cosDeg, sinDeg, alpha, beta), view)
    {
      if xMetersPerDegree == 0.0 {
        xMetersPerDegree := m.xMetersPerDegree;
        xDegreesPerMeter := 1.0 / xMetersPerDegree;
        yMetersPerDegree := m.yMetersPerDegree;
        yDegreesPerMeter := 1.0 / yMetersPerDegree;
      }

      var dt := (now - loopInstance) as real / 1000.0;
      loopInstance := now;

      var latLimit := SnapLimit(xDegreesPerMeter);
      var lngLimit := SnapLimit(yDegreesPerMeter);
      ghost var before, truth := renderCoords, myCoords;
      if renderCoords.lat - myCoords.lat > latLimit || renderCoords.lng - myCoords.lng > lngLimit {
        assert SnapFires(before, truth, latLimit, lngLimit);
        renderCoords := myCoords;
      } else {
        assert !SnapFires(before, truth, latLimit, lngLimit);
        renderCoords := Coords(renderCoords.lat + (myCoords.lat - renderCoords.lat) * dt,
                               renderCoords.lng + (myCoords.lng - renderCoords.lng) * dt);
      }
      assert renderCoords == SmoothStep(before, truth, latLimit, lngLimit, dt);

      var pose := JsPose(cosDeg, sinDeg, alpha, beta);
      frame := Grid(JsShape(sinDeg(beta), lngOffset, latOffset), pose, view);
    }
  }
}
