/**
 * The TypeScript draft of the renderer: its constants, its pose (sub-cell
 * offset added inside `inFov`, eye height depending on the tilt, constant
 * backup), its keyboard handler and the global state its draw loop
 * updates once per frame.
 *
 * `cosDeg`/`sinDeg` stand for `Math.cos`/`Math.sin` of an angle given in
 * degrees (the draft converts with `* Math.PI / 180` first).
 */
module TsDraft {
  import opened Camera
  import opened Smoothing
  import opened GridRender

  const MetersPerGridline: real := 10.0
  const GridlineLength: real := 1.0
  const PxPerMeter: real := GridlineLength / MetersPerGridline
  const NearPlane: real := PxPerMeter
  const GridlineCount: nat := 40

  /** The pose `grid` builds from the heading, the tilt and the offsets. */
  function TsPose(cosDeg: real -> real, sinDeg: real -> real, alpha: real, beta: real,
                  lngOffset: real, latOffset: real): (p: Pose)
    ensures p.backup == 2.0 && p.lngOffset == lngOffset && p.latOffset == latOffset
    ensures p.z == 0.5 - 4.5 * sinDeg(beta)
  {
    Pose(cosDeg(alpha), sinDeg(alpha), cosDeg(beta), sinDeg(beta),
         (5.0 - 45.0 * sinDeg(beta)) * PxPerMeter, 20.0 * PxPerMeter,
         lngOffset, latOffset)
  }

  /** The grid loops of this draft: 40 lines each side, no shift in the loops. */
  function TsShape(sinBeta: real): (g: GridShape)
    ensures g.count == 40 && g.spacing == 1.0 && g.latShift == 0.0 && g.lngShift == 0.0
    ensures g.shadeFactor == 50.0 - 77.0 * sinBeta
  {
    GridShape(GridlineCount, GridlineLength, 50.0 - 77.0 * sinBeta, 0.0, 0.0)
  }

  /** The snap threshold of the draw loop: ten metres, the length one grid
      line stands for, in degrees; positive whenever the scale factor is. */
  function SnapLimit(degreesPerMeter: real): (r: real)
    ensures r == degreesPerMeter * MetersPerGridline
    ensures degreesPerMeter > 0.0 ==> r > 0.0
  {
    degreesPerMeter * GridlineLength * 10.0
  }

  /** The state the keyboard handler changes. */
  datatype Controls = Controls(alpha: real, beta: real, showPerspective: bool)

  /** The keydown handler. A key press changes at most one of the three
      fields, only space touches the perspective flag, and any key other
      than the four arrows and space changes nothing. */
  function OnKey(c: Controls, key: string): (r: Controls)
    ensures (r.alpha == c.alpha && r.beta == c.beta) ||
            (r.alpha == c.alpha && r.showPerspective == c.showPerspective) ||
            (r.beta == c.beta && r.showPerspective == c.showPerspective)
    ensures r.showPerspective != c.showPerspective <==> key == " "
    ensures key !in {"ArrowDown", "ArrowUp", "ArrowLeft", "ArrowRight", " "} ==> r == c
  {
    if key == "ArrowDown" then c.(beta := c.beta - 2.0)
    else if key == "ArrowUp" then c.(beta := c.beta + 2.0)
    else if key == "ArrowLeft" then c.(alpha := c.alpha - 2.0)
    else if key == "ArrowRight" then c.(alpha := c.alpha + 2.0)
    else if key == " " then c.(showPerspective := !c.showPerspective)
    else c
  }

  /** Up and down tilt by two degrees and undo each other; left and right
      turn by two degrees and undo each other. */
  lemma ArrowKeysInverse(c: Controls)
    ensures OnKey(c, "ArrowUp").beta == c.beta + 2.0 && OnKey(c, "ArrowDown").beta == c.beta - 2.0
    ensures OnKey(c, "ArrowRight").alpha == c.alpha + 2.0 && OnKey(c, "ArrowLeft").alpha == c.alpha - 2.0
    ensures OnKey(OnKey(c, "ArrowUp"), "ArrowDown") == c
    ensures OnKey(OnKey(c, "ArrowRight"), "ArrowLeft") == c
  {
  }

  /** Space toggles the perspective flag; pressing it twice restores it. */
  lemma SpaceToggles(c: Controls)
    ensures OnKey(c, " ") == c.(showPerspective := !c.showPerspective)
    ensures OnKey(OnKey(c, " "), " ") == c
  {
  }

  /** The draft's global state. */
  class Renderer {
    var myCoords: Coords
    var renderCoords: Coords
    var alpha: real
    var beta: real
    var showPerspective: bool
    var loopInstance: int
    var xDegreesPerMeter: real
    var yDegreesPerMeter: real

    constructor (now: int)
      ensures myCoords == Coords(0.0, 0.0) && renderCoords == Coords(0.0, 0.0)
      ensures alpha == 0.0 && beta == 0.0 && !showPerspective
      ensures loopInstance == now && xDegreesPerMeter == 0.0 && yDegreesPerMeter == 0.0
    {
      myCoords, renderCoords := Coords(0.0, 0.0), Coords(0.0, 0.0);
      alpha, beta, showPerspective := 0.0, 0.0, false;
      loopInstance := now;
      xDegreesPerMeter, yDegreesPerMeter := 0.0, 0.0;
    }

    function Keys(): Controls
      reads this
    {
      Controls(alpha, beta, showPerspective)
    }

    /** The keydown listener. */
    method KeyDown(key: string)
      modifies this
      ensures Keys() == OnKey(old(Keys()), key)
      ensures myCoords == old(myCoords) && renderCoords == old(renderCoords)
      ensures loopInstance == old(loopInstance)
      ensures xDegreesPerMeter == old(xDegreesPerMeter) && yDegreesPerMeter == old(yDegreesPerMeter)
    {
      if key == "ArrowDown" {
        beta := beta - 2.0;
      } else if key == "ArrowUp" {
        beta := beta + 2.0;
      } else if key == "ArrowLeft" {
        alpha := alpha - 2.0;
      } else if key == "ArrowRight" {
        alpha := alpha + 2.0;
      } else if key == " " {
        showPerspective := !showPerspective;
      }
    }

    /** One frame of `draw`: time step, scale factors measured at the
        rendered position (`xMetersPerDegree`, `yMetersPerDegree` are the
        two `distanceTo` results), smoothing, then `grid`. The offsets
        stand for the `%`-based sub-cell offsets `grid` computes. */
    method Draw(now: int, xMetersPerDegree: real, yMetersPerDegree: real,
                cosDeg: real -> real, sinDeg: real -> real,
                lngOffset: real, latOffset: real, view: Viewport)
      returns (frame: Frame)
      requires xMetersPerDegree > 0.0 && yMetersPerDegree > 0.0
      requires view.Valid() && view.nearPlane == NearPlane
      modifies this
      ensures loopInstance == now
      ensures xDegreesPerMeter == 1.0 / xMetersPerDegree && yDegreesPerMeter == 1.0 / yMetersPerDegree
      ensures renderCoords == SmoothStep(old(renderCoords), myCoords,
        SnapLimit(xDegreesPerMeter), SnapLimit(yDegreesPerMeter),
        (now - old(loopInstance)) as real / 1000.0)
      ensures myCoords == old(myCoords) && Keys() == old(Keys())
      ensures frame == FrameOf(TsShape(sinDeg(beta)),
        TsPose(cosDeg, sinDeg, alpha, beta, lngOffset, latOffset), view)
    {
      var dt := (now - loopInstance) as real / 1000.0;
      loopInstance := now;

      xDegreesPerMeter := 1.0 / xMetersPerDegree;
      yDegreesPerMeter := 1.0 / yMetersPerDegree;

      var latLimit := SnapLimit(xDegreesPerMeter);
      var lngLimit := SnapLimit(yDegreesPerMeter);
      ghost var before, truth := renderCoords, myCoords;
      if renderCoords.lat - myCoords.lat > latLimit || renderCoords.lng - myCoords.lng > lngLimit {
        assert SnapFires(before, truth, latLimit, lngLimit);
        renderCoords := myCoords;
      } else {
        assert !SnapFires(before, truth, latLimit, lngLimit);
        renderCoords := Coords(renderCoords.lat + (myCoords.lat - renderCoords.lat) * dt,
                               renderCoords.lng + (myCoords.lng - renderCoords.lng) * dt);
      }
      assert renderCoords == SmoothStep(before, truth, latLimit, lngLimit, dt);

      var pose := TsPose(cosDeg, sinDeg, alpha, beta, lngOffset, latOffset);
      frame := Grid(TsShape(sinDeg(beta)), pose, view);
    }
  }

  /** At heading 0 and tilt 0 this draft's camera puts a grid point at
      its offset position, two units further out, half a unit below the eye. */
  lemma TsLevelView(cosDeg: real -> real, sinDeg: real -> real, lngOffset: real, latOffset: real, p: GridPoint)
    requires cosDeg(0.0) == 1.0 && sinDeg(0.0) == 0.0
    ensures InFov(TsPose(cosDeg, sinDeg, 0.0, 0.0, lngOffset, latOffset), p) ==
      ViewPoint(p.x + lngOffset, p.y + latOffset + 2.0, -0.5)
  {
    InFovLevel(TsPose(cosDeg, sinDeg, 0.0, 0.0, lngOffset, latOffset), p);
  }

  /** Level, with zero offsets, the player dot is drawn, and a ground
      line ten units ahead lies below the canvas midline. */
  lemma TsLevelFrame(cosDeg: real -> real, sinDeg: real -> real, view: Viewport, x: real)
    requires cosDeg(0.0) == 1.0 && sinDeg(0.0) == 0.0
    requires view.Valid() && view.nearPlane == NearPlane
    ensures PlayerDot(TsPose(cosDeg, sinDeg, 0.0, 0.0, 0.0, 0.0), view).Some?
    ensures var pose := TsPose(cosDeg, sinDeg, 0.0, 0.0, 0.0, 0.0);
      Project(view, InFov(pose, GridPoint(x, 10.0))).y > view.height / 2.0
  {
    var pose := TsPose(cosDeg, sinDeg, 0.0, 0.0, 0.0, 0.0);
    TsLevelView(cosDeg, sinDeg, 0.0, 0.0, GridPoint(0.0, 0.0));
    TsLevelView(cosDeg, sinDeg, 0.0, 0.0, GridPoint(x, 10.0));
    LevelGroundBelowHorizon(pose, view, GridPoint(x, 10.0));
  }

  /** How the tilt moves this draft's camera: the eye stays above the
      ground only while `sin(beta) < 1/9`, and tilting up past
      `sin(beta) = 50/77` turns the shade factor negative, so every line
      of the grid gets a shade of at most 0. */
  lemma TsTiltEffects(cosDeg: real -> real, sinDeg: real -> real, alpha: real, beta: real,
                      lngOffset: real, latOffset: real, i: int)
    ensures TsPose(cosDeg, sinDeg, alpha, beta, lngOffset, latOffset).z > 0.0 <==> sinDeg(beta) < 1.0 / 9.0
    ensures var g := TsShape(sinDeg(beta));
      sinDeg(beta) > 50.0 / 77.0 && Abs(i) <= g.count ==> Shade(g.count, i, g.shadeFactor) <= 0.0
  {
    var g := TsShape(sinDeg(beta));
    if sinDeg(beta) > 50.0 / 77.0 && Abs(i) <= g.count {
      assert g.shadeFactor < 0.0;
      NearnessBounds(g.count, i);
      assert Nearness(g.count, i) * g.shadeFactor <= 0.0;
    }
  }
}
