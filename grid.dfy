/**
 * The grid renderer shared by both drafts: shading by distance from the
 * centre line, the `line` routine (transform, clip, project), the two
 * loops that emit the `2N+1` horizontal and `2N+1` vertical grid lines,
 * and the player dot. Canvas strokes are returned as values instead of
 * being drawn.
 */
module GridRender {
  import opened Wrappers
  import opened Camera
  import opened Clipper

  /** One call of `line`: its two grid-space endpoints and its shade. */
  datatype LineCall = LineCall(start: GridPoint, end: GridPoint, shade: real)

  /** A segment that reached the canvas. */
  datatype ScreenSegment = ScreenSegment(from: ScreenPoint, to: ScreenPoint)

  /** A stroke on the canvas: the grey level and the projected segment. */
  datatype Stroke = Stroke(shade: real, segment: ScreenSegment)

  /** Everything one frame of the grid draws. */
  datatype Frame = Frame(calls: seq<LineCall>, strokes: seq<Stroke>, playerDot: Option<ScreenPoint>)

  /** Parameters of the grid loops. The drafts subtract `latShift` from the
      y of horizontal lines and `lngShift` from the x of vertical lines
      (zero in the draft that applies its offset inside `inFov`). */
  datatype GridShape = GridShape(count: nat, spacing: real, shadeFactor: real, latShift: real, lngShift: real)

  function Abs(i: int): nat {
    if i < 0 then -i else i
  }

  function Min(a: real, b: real): real {
    if a <= b then a else b
  }

  /** Grey level of line `i` of `n`: `min(255, (n - |i|) / n * factor)`.
      It never exceeds 255, is 0 on the outermost lines, and on the grid
      with a non-negative factor it is never negative. */
  function Shade(n: nat, i: int, factor: real): (r: real)
    requires n > 0
    ensures r <= 255.0
    ensures Abs(i) == n ==> r == 0.0
    ensures Abs(i) <= n && factor >= 0.0 ==> r >= 0.0
  {
    var f := Nearness(n, i);
    assert Abs(i) <= n ==> f >= 0.0 by {
      if Abs(i) <= n {
        NearnessBounds(n, i);
      }
    }
    assert Abs(i) <= n && factor >= 0.0 ==> f * factor >= 0.0;
    Min(255.0, f * factor)
  }

  /** `(n - |i|) / n`: 1 on the centre line, 0 on the outermost lines. */
  function Nearness(n: nat, i: int): real
    requires n > 0
  {
    (n - Abs(i)) as real / n as real
  }

  /** Helper: on the grid, `(n - |i|) / n` is never negative. */
  lemma NearnessBounds(n: nat, i: int)
    requires n > 0 && Abs(i) <= n
    ensures Nearness(n, i) >= 0.0
  {
    assert Nearness(n, i) * n as real == (n - Abs(i)) as real;
    NonNegativeFactor(Nearness(n, i), n as real);
  }

  /** Shade is the same for lines `i` and `-i`. */
  lemma ShadeSymmetric(n: nat, i: int, factor: real)
    requires n > 0
    ensures Shade(n, -i, factor) == Shade(n, i, factor)
  {
    assert Abs(-i) == Abs(i);
    assert Nearness(n, -i) == Nearness(n, i);
  }

  /** With a non-negative shade factor the lines of the grid are never
      negative and fade from the centre line outward. */
  lemma ShadeFades(n: nat, i: int, j: int, factor: real)
    requires n > 0 && factor >= 0.0
    requires Abs(i) <= Abs(j) <= n
    ensures 0.0 <= Shade(n, j, factor) <= Shade(n, i, factor)
  {
    var fi, fj := Nearness(n, i), Nearness(n, j);
    assert fi * n as real == (n - Abs(i)) as real;
    assert fj * n as real == (n - Abs(j)) as real;
    assert (fi - fj) * n as real >= 0.0;
    NonNegativeFactor(fi - fj, n as real);
    NonNegativeFactor(fj, n as real);
    assert 0.0 <= fj <= fi;
    assert fj * factor <= fi * factor by {
      assert (fi - fj) * factor >= 0.0;
    }
    assert 0.0 <= fj * factor;
  }

  /** Helper: a product with a positive factor is non-negative only if
      the other factor is. */
  lemma NonNegativeFactor(a: real, b: real)
    requires b > 0.0 && a * b >= 0.0
    ensures a >= 0.0
  {
  }

  /** Horizontal line `i`: from `-extreme` to `extreme` at height `i * spacing - latShift`.
      It is parallel to the x axis, spans `count` cells to each side of the
      y axis, and is shaded within the canvas range, 0 at the outermost lines. */
  function HorizontalCall(g: GridShape, i: int): (r: LineCall)
    requires g.count > 0
    ensures r.start.y == r.end.y && r.start.x == -r.end.x
    ensures r.end.x == g.count as real * g.spacing
    ensures r.shade <= 255.0 && (Abs(i) == g.count ==> r.shade == 0.0)
  {
    var extreme := g.count as real * g.spacing;
    var y := i as real * g.spacing - g.latShift;
    LineCall(GridPoint(-extreme, y), GridPoint(extreme, y), Shade(g.count, i, g.shadeFactor))
  }

  /** Vertical line `i`: from `-extreme` to `extreme` at abscissa `i * spacing - lngShift`.
      It is parallel to the y axis, spans `count` cells to each side of the
      x axis, and is shaded like the horizontal line of the same index. */
  function VerticalCall(g: GridShape, i: int): (r: LineCall)
    requires g.count > 0
    ensures r.start.x == r.end.x && r.start.y == -r.end.y
    ensures r.end.y == g.count as real * g.spacing
    ensures r.shade == HorizontalCall(g, i).shade
  {
    var extreme := g.count as real * g.spacing;
    var x := i as real * g.spacing - g.lngShift;
    LineCall(GridPoint(x, -extreme), GridPoint(x, extreme), Shade(g.count, i, g.shadeFactor))
  }

  /** The calls of `line` one frame makes, in order: the horizontal lines
      for `i = -N .. N`, then the vertical lines for `i = -N .. N`. */
  function GridCalls(g: GridShape): (r: seq<LineCall>)
    requires g.count > 0
    ensures |r| == 2 * (2 * g.count + 1)
    ensures forall k :: 0 <= k <= 2 * g.count ==> r[k] == HorizontalCall(g, k - g.count)
    ensures forall k :: 2 * g.count < k < |r| ==> r[k] == VerticalCall(g, k - 3 * g.count - 1)
  {
    seq(2 * g.count + 1, k requires 0 <= k => HorizontalCall(g, k - g.count)) +
    seq(2 * g.count + 1, k requires 0 <= k => VerticalCall(g, k - g.count))
  }

  /** Every frame emits exactly `2N+1` lines per direction: horizontal ones
      all at one height spanning the full width, vertical ones all at one
      abscissa spanning the full depth, shaded symmetrically. */
  lemma GridCallsShape(g: GridShape, k: int)
    requires g.count > 0 && 0 <= k <= 2 * g.count
    ensures var calls, n, i := GridCalls(g), g.count, k - g.count;
      var h, v := calls[k], calls[2 * n + 1 + k];
      h.start.y == h.end.y == i as real * g.spacing - g.latShift &&
      h.start.x == -(n as real * g.spacing) && h.end.x == n as real * g.spacing &&
      v.start.x == v.end.x == i as real * g.spacing - g.lngShift &&
      v.start.y == -(n as real * g.spacing) && v.end.y == n as real * g.spacing &&
      h.shade == v.shade == calls[2 * n - k].shade <= 255.0 &&
      (k == 0 ==> h.shade == 0.0)
  {
    ShadeSymmetric(g.count, k - g.count, g.shadeFactor);
    assert (2 * g.count - k) - g.count == -(k - g.count);
  }

  /** What `line` draws for a grid segment, or None when it is clipped away. */
  function RenderLine(pose: Pose, view: Viewport, a: GridPoint, b: GridPoint): (r: Option<ScreenSegment>)
    requires view.Valid()
    ensures r.None? <==> InFov(pose, a).y < view.nearPlane && InFov(pose, b).y < view.nearPlane
  {
    match NearClip(InFov(pose, a), InFov(pose, b), view.nearPlane)
    case None => None
    case Some(seg) => Some(ScreenSegment(Project(view, seg.start), Project(view, seg.end)))
  }

  /** The strokes the calls produce, in order, skipping the discarded ones:
      never more strokes than calls. */
  function Drawn(pose: Pose, view: Viewport, calls: seq<LineCall>): (r: seq<Stroke>)
    requires view.Valid()
    ensures |r| <= |calls|
  {
    if calls == [] then []
    else
      var last := calls[|calls| - 1];
      var prefix := Drawn(pose, view, calls[..|calls| - 1]);
      match RenderLine(pose, view, last.start, last.end)
      case None => prefix
      case Some(seg) => prefix + [Stroke(last.shade, seg)]
  }

  /** Each stroke is what `line` draws for one of the calls, in that
      call's shade: nothing is drawn that no call asked for. */
  lemma {:induction false} DrawnFromCalls(pose: Pose, view: Viewport, calls: seq<LineCall>)
    requires view.Valid()
    ensures forall s :: s in Drawn(pose, view, calls) ==> exists c :: c in calls && DrawnFrom(pose, view, c, s)
  {
    if calls != [] {
      var last, init := calls[|calls| - 1], calls[..|calls| - 1];
      DrawnFromCalls(pose, view, init);
      assert forall c :: c in init ==> c in calls;
      match RenderLine(pose, view, last.start, last.end)
      case None =>
      case Some(seg) =>
        assert DrawnFrom(pose, view, last, Stroke(last.shade, seg));
    }
  }

  /** Stroke `s` is what `line` draws for call `c`. */
  predicate DrawnFrom(pose: Pose, view: Viewport, c: LineCall, s: Stroke)
    requires view.Valid()
  {
    s.shade == c.shade && RenderLine(pose, view, c.start, c.end) == Some(s.segment)
  }

  /** Conversely, every call whose line survives the clipper yields its
      stroke, in that call's shade: nothing `line` would draw is dropped. */
  lemma {:induction false} DrawnComplete(pose: Pose, view: Viewport, calls: seq<LineCall>)
    requires view.Valid()
    ensures forall k :: 0 <= k < |calls| && RenderLine(pose, view, calls[k].start, calls[k].end).Some? ==>
      Stroke(calls[k].shade, RenderLine(pose, view, calls[k].start, calls[k].end).value) in Drawn(pose, view, calls)
  {
    if calls != [] {
      var init := calls[..|calls| - 1];
      DrawnComplete(pose, view, init);
      forall k | 0 <= k < |init|
        ensures init[k] == calls[k]
      {
      }
    }
  }

  /** The player dot: the grid origin, drawn only when its fovY is positive. */
  function PlayerDot(pose: Pose, view: Viewport): (r: Option<ScreenPoint>)
    requires view.Valid()
    ensures r.Some? <==> InFov(pose, GridPoint(0.0, 0.0)).y > 0.0
  {
    var p := InFov(pose, GridPoint(0.0, 0.0));
    if p.y > 0.0 then Some(Project(view, p)) else None
  }

  /** The whole frame the grid routine draws: the `2N+1` calls per
      direction of `GridCalls`, no more strokes than calls, a stroke for
      every call whose line survives the clipper and no stroke that no call
      asked for, and the player dot exactly when the grid origin is in front. */
  function FrameOf(g: GridShape, pose: Pose, view: Viewport): (r: Frame)
    requires g.count > 0 && view.Valid()
    ensures r.calls == GridCalls(g)
    ensures |r.calls| == 2 * (2 * g.count + 1) && |r.strokes| <= |r.calls|
    ensures forall s :: s in r.strokes ==> exists c :: c in r.calls && DrawnFrom(pose, view, c, s)
    ensures forall k :: 0 <= k < |r.calls| && RenderLine(pose, view, r.calls[k].start, r.calls[k].end).Some? ==>
      Stroke(r.calls[k].shade, RenderLine(pose, view, r.calls[k].start, r.calls[k].end).value) in r.strokes
    ensures r.playerDot.Some? <==> InFov(pose, GridPoint(0.0, 0.0)).y > 0.0
  {
    DrawnFromCalls(pose, view, GridCalls(g));
    DrawnComplete(pose, view, GridCalls(g));
    var calls := GridCalls(g);
    Frame(calls, Drawn(pose, view, calls), PlayerDot(pose, view))
  }

  /** `line`: transform both endpoints, clip them, then project. */
  method Line(pose: Pose, view: Viewport, a: GridPoint, b: GridPoint) returns (r: Option<ScreenSegment>)
    requires view.Valid()
    ensures r == RenderLine(pose, view, a, b)
  {
    var s := InFov(pose, a);
    var e := InFov(pose, b);
    var clipped := ClipSegment(s, e, view.nearPlane);
    if clipped.None? {
      return None;
    }
    var from := Project(view, clipped.value.start);
    var to := Project(view, clipped.value.end);
    r := Some(ScreenSegment(from, to));
  }

  /** One loop step of `grid`: call `line` and keep its stroke, if any. */
  method Emit(pose: Pose, view: Viewport, calls: seq<LineCall>, strokes: seq<Stroke>, call: LineCall)
    returns (calls': seq<LineCall>, strokes': seq<Stroke>)
    requires view.Valid() && strokes == Drawn(pose, view, calls)
    ensures calls' == calls + [call] && strokes' == Drawn(pose, view, calls')
  {
    var seg := Line(pose, view, call.start, call.end);
    strokes' := strokes;
    if seg.Some? {
      strokes' := strokes + [Stroke(call.shade, seg.value)];
    }
    calls' := calls + [call];
    assert calls'[..|calls|] == calls;
  }

  /** `grid`: the horizontal loop, the vertical loop and the player dot. */
  method Grid(g: GridShape, pose: Pose, view: Viewport) returns (frame: Frame)
    requires g.count > 0 && view.Valid()
    ensures frame == FrameOf(g, pose, view)
  {
    var calls, strokes := HorizontalLines(g, pose, view);
    calls, strokes := VerticalLines(g, pose, view, calls, strokes);
    assert calls == GridCalls(g);
    frame := Frame(calls, strokes, PlayerDot(pose, view));
  }

  /** The first loop of `grid`: lines `y = -N .. N`, in order. */
  method HorizontalLines(g: GridShape, pose: Pose, view: Viewport) returns (calls: seq<LineCall>, strokes: seq<Stroke>)
    requires g.count > 0 && view.Valid()
    ensures |calls| == 2 * g.count + 1
    ensures forall k :: 0 <= k < |calls| ==> calls[k] == HorizontalCall(g, k - g.count)
    ensures strokes == Drawn(pose, view, calls)
  {
    var n := g.count;
    calls, strokes := [], [];
    var y: int := -n;
    while y <= n
      invariant -n <= y <= n + 1
      invariant |calls| == y + n
      invariant forall k :: 0 <= k < |calls| ==> calls[k] == HorizontalCall(g, k - n)
      invariant strokes == Drawn(pose, view, calls)
    {
      calls, strokes := Emit(pose, view, calls, strokes, HorizontalCall(g, y));
      y := y + 1;
    }
  }

  /** The second loop of `grid`: lines `x = -N .. N`, appended in order
      after the calls already made. */
  method VerticalLines(g: GridShape, pose: Pose, view: Viewport, calls0: seq<LineCall>, strokes0: seq<Stroke>)
    returns (calls: seq<LineCall>, strokes: seq<Stroke>)
    requires g.count > 0 && view.Valid() && strokes0 == Drawn(pose, view, calls0)
    ensures |calls| == |calls0| + 2 * g.count + 1 && calls[..|calls0|] == calls0
    ensures forall k :: |calls0| <= k < |calls| ==> calls[k] == VerticalCall(g, k - |calls0| - g.count)
    ensures strokes == Drawn(pose, view, calls)
  {
    var n := g.count;
    calls, strokes := calls0, strokes0;
    var x: int := -n;
    while x <= n
      invariant -n <= x <= n + 1
      invariant |calls| == |calls0| + x + n && calls[..|calls0|] == calls0
      invariant forall k :: |calls0| <= k < |calls| ==> calls[k] == VerticalCall(g, k - |calls0| - n)
      invariant strokes == Drawn(pose, view, calls)
    {
      calls, strokes := Emit(pose, view, calls, strokes, VerticalCall(g, x));
      x := x + 1;
    }
  }

  /** Every drawn stroke came from a segment whose clipped endpoints are at
      or beyond the near plane, so no projection divides by a fovY below it. */
  lemma DrawnSegmentsVisible(pose: Pose, view: Viewport, a: GridPoint, b: GridPoint)
    requires view.Valid()
    ensures var c := NearClip(InFov(pose, a), InFov(pose, b), view.nearPlane);
      RenderLine(pose, view, a, b).Some? ==>
        c.Some? && c.value.start.y >= view.nearPlane > 0.0 && c.value.end.y >= view.nearPlane
  {
  }
}
