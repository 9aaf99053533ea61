# Ground-grid renderer: a Dafny model of the per-frame arithmetic

The renderer draws a first-person view of an endless ground grid. The grid is
anchored to the device's geographic position, and the camera looks along the
device's compass heading, tilted by its pitch. The repository holds two drafts
of the same renderer. `script.ts` is the TypeScript draft and `script.js` is
the JavaScript draft. They differ in constants, in where the
sub-cell offset is applied, in how the tilt is handled and in caching.

The shared arithmetic is modelled once, with parameters:

- `Camera`: `inFov` (offset, rotate by the heading, tilt by the pitch, add
  `backup`) and `point` (perspective divide by fovY, scale to the canvas,
  flip Y, recentre).
- `Clipper`: the near-plane clipping inside `line`. `NearClip` states it in
  terms of the crossing parameter `(nearPlane - a.y) / (b.y - a.y)`.
  `ClipSegment` runs the drafts' reassignments with their `recoveryFactor`
  and is proved equal to it.
- `Smoothing`: the one-sided snap-or-ease step of `draw`.
- `GridRender`: shading, `line` and the two grid loops that emit `2N+1`
  lines per direction. It also covers the player dot. A frame is returned
  as values: the `line` calls, the strokes that reached the canvas, and the
  dot.

Each draft has its own module:

- `TsDraft`: 40 lines per side and the offset applied inside `inFov`. The
  eye height depends on the tilt. It also holds the keydown handler and a
  `Renderer` class over the draft's globals.
- `JsDraft`: 20 lines per side and the offsets subtracted in the loops. The
  backup depends on the tilt. It also holds the clamped orientation
  listener, the scale-factor cache filled on the first frame only, and a
  `Renderer` class.

All quantities are `real`. `cosDeg`/`sinDeg` are function parameters that
stand for the cosine and sine of an angle in degrees. The field-of-view
extents, the canvas size and the near plane are fields of `Viewport`.

The model follows the code as written, including where it departs from its apparent intent:

- The snap test is one-sided. It fires only when the rendered position is
  *ahead* of the fix, and it compares latitude against the longitude scale
  factor and vice versa (`NoSnapWhenFixAhead`).
- The two drafts move the grid by the sub-cell offset in opposite directions.
  `script.ts` adds the offset inside `inFov`. `script.js` subtracts it in the
  loops (`ShiftIsNegatedOffset`).

As a property of the camera: with the eye above the ground and tilt 0,
ground points lie below the eye (`fovZ = -z < 0`) and project below the
canvas midline (`LevelGroundBelowHorizon`, `TsLevelFrame`).

The pose and grid-shape builders `TsDraft.TsPose` and `TsDraft.TsShape`
carry the constants of script.ts:183-191 and script.ts:299, and
`JsDraft.JsPose` and `JsDraft.JsShape` those of script.js:155-164 and
script.js:241. Their contracts only name those constants; the lemmas about
them (`TsTiltEffects`, `TsLevelView`, `JsClampedTilt`, `JsLevelView`,
`ShiftIsNegatedOffset`) carry the properties.

## Model

| member | source | states |
|---|---|---|
| Camera.InFov | script.ts:195-219 | level, `inFov` only offsets and pushes back; in general the tilt keeps the length of the (forward, height) pair when cos²β + sin²β = 1 |
| Camera.Project | script.ts:221-244 | a point on the view axis (fovX = 0) lands on the canvas's vertical centre line, one at eye height (fovZ = 0) on its horizontal midline |
| Camera.InFovLevel | script.ts:195-219 | at heading 0 and tilt 0, `inFov` returns `(gridX + lngOffset, gridY + latOffset + backup, -z)` |
| Camera.InFovLateralIgnoresTilt | script.ts:212-216 | fovX does not depend on the tilt, the eye height or the backup |
| Camera.BackupAfterTilt | script.ts:213-216 | `backup` is added to fovY after the tilt and changes nothing else |
| Camera.RotationIsometry | script.ts:205-209 | the heading rotation keeps the distance from the offset origin when cos² + sin² = 1 |
| Camera.ProjectCentre | script.ts:221-244 | a point with fovX = fovZ = 0 projects to the canvas centre `(width/2, height/2)` |
| Camera.ProjectSides | script.js:181-198 | for fovY > 0: right of the axis is right of centre, above is above centre (Y flipped), both directions |
| Camera.ProjectAlongRay | script.js:183-186 | points on one ray from the eye project to the same pixel |
| Camera.ProjectScalesWithWidth | script.js:188-196 | the horizontal offset from the centre is proportional to the canvas width |
| Camera.LevelGroundBelowHorizon | script.ts:213-244 | level camera above the ground: every ground point in front projects strictly below the midline |
| Clipper.NearClip | script.ts:256-284 | discards a segment iff both endpoints have fovY < nearPlane; otherwise both result endpoints have fovY ≥ nearPlane |
| Clipper.CrossingOnPlane | script.ts:260-271 | for a straddling segment the crossing parameter is in (0, 1] and its point has fovY == nearPlane exactly |
| Clipper.DiscardedWhenBothNear | script.js:202-204 | both endpoints closer than the near plane: nothing is drawn |
| Clipper.UnchangedWhenBothVisible | script.ts:256-286 | both endpoints at or beyond the near plane: they reach `point` unchanged |
| Clipper.StartClipped | script.ts:260-271 | only the start too close: the new start is on the plane and on the segment at t ∈ (0, 1]; the end is kept |
| Clipper.EndClipped | script.ts:272-284 | only the end too close: the new end is on the plane and on the segment; the start is kept |
| Clipper.ClipSegment | script.js:202-226 | the in-place reassignment with `recoveryFactor = (yDif - farY + nearPlane) / yDif` equals `NearClip` |
| Smoothing.SmoothStep | script.ts:152-158 | a snap lands on the fix exactly; dt = 1 reaches the fix; with 0 ≤ dt ≤ 1 each coordinate stays between its rendered value and the fix |
| Smoothing.EaseByZeroKeeps | script.ts:156-159 | without a snap, dt = 0 leaves the rendered position unchanged |
| Smoothing.NoSnapWhenFixAhead | script.js:112-119 | the snap is one-sided: a fix ahead of the rendered position, however far, is eased toward |
| GridRender.Shade | script.ts:302 | shade ≤ 255, 0 at `|i| = N`, and ≥ 0 on the grid when the shade factor is ≥ 0 |
| GridRender.ShadeSymmetric | script.js:243 | lines `i` and `-i` get the same shade |
| GridRender.ShadeFades | script.js:243 | with a non-negative shade factor, shade is ≥ 0 and does not increase with `|i|` |
| GridRender.HorizontalCall | script.ts:305-308 | a horizontal line spanning `±N·len` on the x axis, shade ≤ 255 and 0 at the outermost lines |
| GridRender.VerticalCall | script.ts:317-320 | a vertical line spanning `±N·len` on the y axis, shaded like the horizontal line of the same index |
| GridRender.GridCalls | script.ts:301-323 | `2(2N+1)` calls of `line`: horizontal lines for `i = -N..N`, then vertical ones |
| GridRender.GridCallsShape | script.js:242-259 | horizontal line `i` at `y = i·len - latOffset` spanning ±extreme; vertical line `i` at `x = i·len - lngOffset`; shade symmetric, ≤ 255, 0 at the edge |
| GridRender.RenderLine | script.ts:246-295 | `line` draws nothing iff both transformed endpoints are closer than the near plane |
| GridRender.Drawn | script.ts:301-323 | the loops produce no more strokes than `line` calls; completeness and provenance are `DrawnComplete` and `DrawnFromCalls` |
| GridRender.DrawnFromCalls | script.ts:310-322 | each stroke is what `line` draws for one of the calls, in that call's shade |
| GridRender.PlayerDot | script.ts:325-336 | the player dot is drawn iff the grid origin's fovY is positive |
| GridRender.DrawnComplete | script.ts:286-294 | every call whose line survives the clipper yields its stroke, in that call's shade |
| GridRender.FrameOf | script.ts:301-336 | a frame's calls are exactly `GridCalls` (`2(2N+1)` of them); no more strokes than calls; every call the clipper keeps yields its stroke and every stroke comes from a call; the dot iff the grid origin's fovY > 0 |
| GridRender.Line | script.ts:246-295 | `line` (transform, clip, project) produces exactly `RenderLine` |
| GridRender.Grid | script.js:241-268 | the two loops and the dot produce exactly `FrameOf`: the `GridCalls` sequence and its drawn strokes |
| GridRender.HorizontalLines | script.js:242-250 | the first loop calls `line` for `y = -N..N` in order and keeps exactly their drawn strokes |
| GridRender.VerticalLines | script.js:251-259 | the second loop appends the calls for `x = -N..N` in order, keeping earlier calls, and keeps exactly the drawn strokes |
| GridRender.DrawnSegmentsVisible | script.ts:286-287 | every projected endpoint has fovY ≥ nearPlane > 0 |
| TsDraft.SnapLimit | script.ts:152-153 | the snap threshold is ten metres (one grid line's length) in degrees, positive when the scale factor is |
| TsDraft.OnKey | script.ts:341-353 | a key changes at most one field; only space touches `showPerspective`; any other key changes nothing |
| TsDraft.ArrowKeysInverse | script.ts:342-349 | the arrows move beta/alpha by ±2, and opposite arrows undo each other |
| TsDraft.SpaceToggles | script.ts:350-351 | space toggles `showPerspective`; twice restores it |
| TsDraft.Renderer.constructor | script.ts:63-64 | the initial globals: both positions (0, 0) here; alpha = beta = 0 (95-96), loopInstance = now (131), both scale factors 0 (133-134), perspective off (175) |
| TsDraft.Renderer.KeyDown | script.ts:341-353 | the listener updates alpha/beta/showPerspective as `OnKey` and nothing else |
| TsDraft.Renderer.Draw | script.ts:141-166 | sets loopInstance, recomputes both scale factors every frame, smooths with `10·len·xDegreesPerMeter` for latitude, and draws `FrameOf` the TS grid |
| TsDraft.TsLevelView | script.ts:195-219 | at heading 0 and tilt 0 a grid point goes to `(x + lngOffset, y + latOffset + 2, -0.5)` |
| TsDraft.TsLevelFrame | script.ts:325-336 | level with zero offsets: the player dot is drawn, and a ground line 10 units ahead lies below the midline |
| TsDraft.TsTiltEffects | script.ts:299-302 | the eye height `0.5 - 4.5·sinβ` stays positive iff sinβ < 1/9; past sinβ = 50/77 every line's shade is ≤ 0 |
| JsDraft.JsLevelView | script.js:166-180 | at heading 0 and tilt 0 a grid point goes to `(x, y + 2, -0.5)` |
| JsDraft.JsClampedTilt | script.js:241-264 | with sin β ∈ [-1, 0] (the clamped tilt): backup ≥ 2, shade factor ≥ 50, centre lines shaded ≥ 50, and the player dot always drawn |
| JsDraft.ShiftIsNegatedOffset | script.js:246-256 | subtracting the offsets in the loops equals adding their negation inside `inFov` |
| JsDraft.OnOrientation | script.js:67-79 | zero or absent readings leave fields alone; the compass heading wins; a truthy tilt is stored as `min(90, max(0, b)) - 90 ∈ [-90, 0]` |
| JsDraft.TiltStaysClamped | script.js:76-79 | over any series of events the stored tilt stays in [-90, 0] |
| JsDraft.Refresh | script.js:103-108 | measures only while `xMetersPerDegree == 0`, storing the reciprocals; a filled cache is returned unchanged |
| JsDraft.FilledCacheStable | script.js:103 | a filled cache is never recomputed over any number of frames |
| JsDraft.FirstFrameWins | script.js:100-108 | from an empty cache, the factors are the first frame's measurements, whatever later frames measure |
| JsDraft.SnapLimit | script.js:112-113 | the snap threshold is ten metres (one grid line's length) in degrees, positive when the scale factor is |
| JsDraft.Renderer.constructor | script.js:36-37 | the initial globals: both positions (0, 0) here; alpha = beta = 0 (63-64), loopInstance = now (92), an all-zero scale cache (93-94, 100-101) |
| JsDraft.Renderer.OnDeviceOrientation | script.js:67-79 | the listener updates alpha/beta as `OnOrientation` and nothing else |
| JsDraft.Renderer.Draw | script.js:102-124 | fills the cache as `Refresh`, sets loopInstance, smooths with `10·xDegreesPerMeter` for latitude, and draws `FrameOf` the JS grid |

## Left out

- `Coords.distanceTo` and `Coords.bearingTo` (script.ts:29-60, script.js:8-34) are not modelled. They are the haversine and forward-azimuth formulas over `sin`, `cos`, `atan2` and `sqrt`. Their results enter the model as metres-per-degree inputs.
- The cosine and sine of the heading and tilt are opaque functions `cosDeg`, `sinDeg`. The `Math.tan`-based field-of-view extents (script.ts:171-174, script.js:142-145) are `Viewport` fields.
- The `%`-based sub-cell offsets (script.ts:180-181, script.js:152-153) are inputs. The model does not capture that both drafts derive `lngOffset` from the latitude, or that the TS draft's `latOffset` divides by `xDegreesPerMeter`.
- IEEE-754 behaviour is not modelled: rounding, -0, NaN and Infinity. NaN readings (also falsy) and a non-numeric `webkitCompassHeading` are not modelled either.
- Camera.Project: requires fovY ≠ 0 and a positive viewport. The source would produce Infinity or NaN there. Every caller passes fovY ≥ nearPlane or > 0.
- TsDraft.Renderer.Draw: requires both metres-per-degree measurements to be positive. The haversine distance to a point one degree away is positive away from the poles, and `1 / 0` would be Infinity.
- JsDraft.Renderer.Draw: requires nonzero measurements only while the cache is empty, for the same reason.
- JsDraft.Refresh: requires the same nonzero measurements as `JsDraft.Renderer.Draw`.
- Time is read once per frame as `now`. The drafts call `Date.now()` several times per frame: twice in `script.ts` (142, 143) and four times in `script.js` (109, 110, 111, 122). Scheduling is not modelled: `setTimeout`, `requestAnimationFrame`.
- Snapping assigns the fix object itself to the rendered position (script.ts:155, script.js:114). The model copies the value. Later easing writes through the shared object, but it is a no-op while the two are equal.
- Canvas and DOM glue are not modelled: `sizeCanvas`, `clearRect`, stroke and arc calls, `rgb(...)` strings and canvas clamping of shades outside [0, 255]. The same goes for `watchPosition`, whose updates of `myCoords` come from the environment between frames, alerts, debug text and `console.log`.
- Commented-out code and unused state are not modelled: script.ts:82-93 and 119-124, `mySpeed`, `myAccuracy`, `mapWidth`, `testStart`, `inBetweenTime`, `refreshes`. The same goes for the tilt normalisation of script.ts:98-125, which is never registered. `showPerspective` is modelled but nothing reads it.
