# Animation and interaction core of quantum-glimmer, in Dafny

This project models the four pieces of the quantum-glimmer front end that are
more than page plumbing:

- **Floating orbs** (`Orbs`, `orbs.dfy`). Eight glowing orbs are created once
  from injected random numbers. Each frame moves every orb by its velocity, in
  place. A velocity component is reversed when the new coordinate is strictly
  outside `[0, width]` or `[0, height]`, and the position is never clamped.
  `OrbField` is a class over an `array<Orb>`, with a constructor, `Tick` and
  `Resize`.
- **Holographic grid** (`Grid`, `grid.dfy`). An offset starts at 0 and grows by
  0.2 px each frame. Vertical and horizontal lines are drawn every 50 px,
  starting at `offset % 50`. `HolographicGrid` is a class holding the offset.
  `LinePositions` is the stepping loop, written as a method that returns the
  enumerated positions.
- **Rotating wireframe shapes** (`Shapes`, `shapes.dfy`). The cube's eight unit
  corners are rotated about the vertical axis and projected orthographically,
  then joined by twelve fixed edges. The sphere is eight flattened latitude
  ellipses plus one circle. The ring is two flattened ellipses plus sixteen
  connectors. `RotatingShape` holds the accumulating angle. Each draw routine
  returns the list of drawing commands it issues (`Canvas.Command`).
- **Drag-to-rotate viewer** (`Viewer`, `viewer.dfy`). Pointer down, move, up and
  leave drive a two-state machine that accumulates pitch and yaw. The result is
  applied as a perspective transform only while the 3D view is on.
  `RotationViewer` is the class, with one method per handler. Each method's
  new state equals the pure `Step` function applied to its old state, and the
  lemmas about sequences of events are stated over `Step` and `Run`.

Coordinates, velocities and angles are `real`s. Canvas sizes are `nat`, as the
canvas stores integers. `Math.random` is replaced by `OrbDraw` values in
`[0, 1)`. `Math.sin`, `Math.cos` and `Math.PI` are replaced by a `Trig` value
supplied by the caller. For the cube the caller passes `c = cos(angle)` and
`s = sin(angle)`, and the rotation lemmas assume `c*c + s*s == 1`.

Behaviour of the code worth noting:

- The orb bounce test is strict (`x > width`). An orb starting at `x = 195`
  with `vx = 1` in a 200-wide viewport lands on `x = 200` after five ticks and
  keeps its velocity. It reverses only on the sixth tick, at `x = 201`
  (`Orbs.RightEdgeScenario`).
- Orbs are not kept inside `[0, width] × [0, height]`. They can overshoot by up
  to their speed (`Orbs.StepKeepsBand`). After the viewport shrinks, an orb can
  stay outside for good (`Orbs.StuckAfterShrink`).
- The sphere's last ellipse is a full circle of radius `0.6 * size` (the code
  calls it the vertical ring), not a flattened equator.
- Nothing in the code rejects a zero or negative speed, or a zero size, and the
  model accepts them too. A negative size is not accepted: the canvas side
  `size * 2` cannot be negative, and with a negative size the sphere and the
  ring hand negative radii to `ellipse`, which throws.

## Model

| member | source | states |
|---|---|---|
| Orbs.Spawn | src/components/FloatingOrbs.tsx:34-44 | orb `i` of the field, from its six random numbers; its ranges are stated by SpawnRanges, SpawnInBand and SpawnSlow |
| Orbs.PaletteColor | src/components/FloatingOrbs.tsx:42 | orb `i` gets palette entry `i mod 3` (cyan, azure, violet) |
| Orbs.SpawnRanges | src/components/FloatingOrbs.tsx:37-43 | with randoms in [0,1): x in [0,width) (0 on an empty axis), y likewise, vx and vy in [-0.25,0.25), radius in [30,70), glow in [0.3,0.5), colour by index mod 3 |
| Orbs.SpawnInBand | src/components/FloatingOrbs.tsx:37-38 | a new orb starts inside the bounded-overshoot band |
| Orbs.SpawnSlow | src/components/FloatingOrbs.tsx:39-40 | a new orb's speed on each axis (at most 0.25) does not exceed a viewport of at least 1 px |
| Orbs.StepOrb | src/components/FloatingOrbs.tsx:54-59 | one tick of one orb; its meaning is stated by StepMovesAndKeeps, StepReflects, EdgeKeepsVelocity and StepKeepsBand |
| Orbs.StepAll | src/components/FloatingOrbs.tsx:52-59 | one tick of the whole field, every orb stepped independently at its own index; used by Tick and RunKeepsBand |
| Orbs.Run | src/components/FloatingOrbs.tsx:49-71 | the field after n frames with a fixed viewport; never adds or removes orbs |
| Orbs.StepMovesAndKeeps | src/components/FloatingOrbs.tsx:54-59 | a tick adds the old velocity to the position with no clamping; it keeps \|vx\|, \|vy\|, radius, colour and glow |
| Orbs.StepReflects | src/components/FloatingOrbs.tsx:58-59 | for a moving orb, each velocity component reverses exactly when its new coordinate is strictly outside its axis, independently per axis |
| Orbs.EdgeKeepsVelocity | src/components/FloatingOrbs.tsx:58-59 | landing exactly on 0 or on width/height keeps the velocity |
| Orbs.AxisBandStep | src/components/FloatingOrbs.tsx:54-59 | on one axis, a step keeps the coordinate within one speed of [0, extent] with the velocity pointing back, while the speed is at most the extent |
| Orbs.StepKeepsBand | src/components/FloatingOrbs.tsx:54-59 | with a fixed viewport no smaller than the speed, a tick keeps x in [-\|vx\|, width+\|vx\|] and y in [-\|vy\|, height+\|vy\|] |
| Orbs.RunKeepsBand | src/components/FloatingOrbs.tsx:52-59 | any number of ticks keeps the number of orbs and keeps every orb in the band |
| Orbs.RightEdgeScenario | src/components/FloatingOrbs.tsx:54-58 | orb at (195,100) with velocity (1,0) in 200×200: x = 196 after one tick; x = 200 with vx = 1 after five; x = 201 with vx = -1 after six |
| Orbs.StuckAfterShrink | src/components/FloatingOrbs.tsx:54-59 | any orb more than its horizontal speed beyond either side of the viewport is out of the band; one tick leaves it outside with vx reversed, and a second tick restores its x and vx |
| Orbs.StuckForever | src/components/FloatingOrbs.tsx:52-59 | such an orb is back at its starting x with its starting vx after every even number of ticks, so it never re-enters the viewport on that axis |
| Orbs.OrbField.constructor | src/components/FloatingOrbs.tsx:28-45 | creates exactly 8 orbs, orb `i` from its randoms, in a fresh array; all start settled in a viewport of at least 1 px |
| Orbs.OrbField.Resize | src/components/FloatingOrbs.tsx:23-26 | only width and height change; the orbs are untouched |
| Orbs.OrbField.Tick | src/components/FloatingOrbs.tsx:49-71 | updates every orb in place by the single-orb step; the array length is kept; one glow per orb at its new position with its radius, colour and glow; keeps every orb settled |
| Grid.Trunc | src/components/HolographicGrid.tsx:39 | truncation toward zero, which the floating-point `%` uses |
| Grid.Rem | src/components/HolographicGrid.tsx:39 | the floating-point `offset % 50`: its sign follows the offset and its magnitude is below 50; see RemRange and RemPeriodic |
| Grid.RemRange | src/components/HolographicGrid.tsx:39 | for offset >= 0, `offset % 50` is in [0,50) and equals the floored remainder |
| Grid.RemPeriodic | src/components/HolographicGrid.tsx:39 | adding one 50 px cell to a non-negative offset leaves `offset % 50` unchanged |
| Grid.LinePositions | src/components/HolographicGrid.tsx:39 | the k-th position is first + 50k; all are below the bound; the next one would be at or past it |
| Grid.PositionsCount | src/components/HolographicGrid.tsx:39 | the enumeration has exactly LineCount elements, the least n with first + 50n >= bound |
| Grid.PositionsUnique | src/components/HolographicGrid.tsx:39 | two enumerations meeting that contract are equal |
| Grid.PositionsShape | src/components/HolographicGrid.tsx:39 | positions strictly increase, consecutive ones differ by 50, and none are drawn iff first >= bound |
| Grid.HolographicGrid.constructor | src/components/HolographicGrid.tsx:17-26 | offset starts at 0, no frames drawn |
| Grid.HolographicGrid.Resize | src/components/HolographicGrid.tsx:17-20 | only width and height change; the offset is not reset |
| Grid.HolographicGrid.DrawGrid | src/components/HolographicGrid.tsx:28-56 | vertical lines from y=0 to height, then horizontal lines from x=0 to width, at `offset % 50 + 50k` below width or height; then the offset grows by exactly 0.2, so after n frames it is 0.2n |
| Grid.FirstLineInCell | src/components/HolographicGrid.tsx:26-54 | in every frame the first line lies in [0,50) |
| Grid.GridRepeats | src/components/HolographicGrid.tsx:39-54 | the first-line phase after 250 more frames equals the current one |
| Shapes.CornersAreUnitCube | src/components/Rotating3DShape.tsx:41-44 | 8 corners, every coordinate in {-1, 1} |
| Shapes.EdgesAlongAxes | src/components/Rotating3DShape.tsx:55-59 | 12 edges, indices in [0,8), each joining corners that differ in exactly one coordinate |
| Shapes.DegreeThree | src/components/Rotating3DShape.tsx:55-59 | every corner lies on exactly three edges |
| Shapes.RotateY | src/components/Rotating3DShape.tsx:47-48 | rotation of a corner about the vertical axis; stated by RotateKeepsAxisDistance |
| Shapes.ProjectCorner | src/components/Rotating3DShape.tsx:33-35 | a rotated corner scaled by `cubeSize / 2` about the canvas centre, keeping z2; stated by ProjectedHeightFixed and ProjectAtRest |
| Shapes.ProjectCube | src/components/Rotating3DShape.tsx:46-50 | the eight projected corners, in corner order; stated by ProjectedHeightFixed, ProjectAtRest and DrawCube |
| Shapes.RotateKeepsAxisDistance | src/components/Rotating3DShape.tsx:47-48 | with c*c + s*s = 1, the rotation keeps y and keeps x² + z² |
| Shapes.RotatedCornerOnCylinder | src/components/Rotating3DShape.tsx:41-48 | each rotated corner has x2² + z2² = 2 |
| Shapes.ProjectedHeightFixed | src/components/Rotating3DShape.tsx:33-49 | a projected corner's y is y·(0.3·size) + size, whatever the angle |
| Shapes.ProjectAtRest | src/components/Rotating3DShape.tsx:46-50 | at c=1, s=0 the projected corners are the unit corners scaled by 0.3·size about (size, size) |
| Shapes.DrawCube | src/components/Rotating3DShape.tsx:31-67 | exactly 12 segments in edge-list order, each joining the projected corners of its edge, with no depth ordering |
| Shapes.Latitude | src/components/Rotating3DShape.tsx:80-86 | the i-th latitude ellipse; its shape and its place on the sphere are stated by LatitudeOnSphere |
| Shapes.LatitudeOnSphere | src/components/Rotating3DShape.tsx:79-86 | a latitude ellipse is centred on the vertical axis, 0.3 times as tall as wide, turned by the rotation; its radius and height lie on the circle of radius 0.6·size |
| Shapes.DrawSphere | src/components/Rotating3DShape.tsx:69-93 | 8 latitude ellipses at polar angle iπ/8, then one circle of radius 0.6·size |
| Shapes.Connector | src/components/Rotating3DShape.tsx:117-131 | the i-th connector; stated by ConnectorRadial, ConnectorOnEllipses and RingConnectorsIgnoreRotation |
| Shapes.ConnectorRadial | src/components/Rotating3DShape.tsx:116-131 | each connector's outer end is its inner end's offset from the centre scaled by 1/0.6 (inner radius = 0.6 × outer) |
| Shapes.ConnectorOnEllipses | src/components/Rotating3DShape.tsx:99-131 | a connector's ends lie on the unrotated inner and outer flattened ellipses |
| Shapes.DrawRing | src/components/Rotating3DShape.tsx:95-133 | outer ellipse (0.6·size), inner ellipse (0.36·size), both flattened to 0.3 and rotated, then 16 connectors at polar angles i·2π/16 |
| Shapes.RingConnectorsIgnoreRotation | src/components/Rotating3DShape.tsx:116-132 | the 16 connectors of two ring frames are equal whatever their rotations; the ellipses agree iff the rotations do |
| Shapes.RotatingShape.constructor | src/components/Rotating3DShape.tsx:25-28 | a new shape instance, of non-negative size, starts at angle 0 |
| Shapes.RotatingShape.Animate | src/components/Rotating3DShape.tsx:135-143 | the angle grows by 0.01·speed before drawing, so frame k (from 1) is drawn at k·0.01·speed; the frame is the chosen shape's drawing at that angle |
| Viewer.Step | src/pages/Result.tsx:19-40 | the effect of one handler: only a toggle changes the view, and only a move during a drag changes the rotation; detailed by DownUpLeave, MoveEffect and ToggleKeepsRotation |
| Viewer.Run | src/pages/Result.tsx:19-40 | events handled one at a time, in order; its meaning over event sequences is stated by WholeDrag, DragTelescopes and NoMoveKeepsRotation |
| Viewer.RunAppend | src/pages/Result.tsx:19-40 | handling `a` then `b` gives the same state as handling `a + b`: each handler sees the state the previous one left |
| Viewer.ViewTransform | src/pages/Result.tsx:100-104 | the rotation is applied as a perspective transform iff the 3D view is on |
| Viewer.DownUpLeave | src/pages/Result.tsx:19-40 | down starts dragging at the pointer, rotation unchanged; up and leave give the same state: idle, rotation unchanged |
| Viewer.MoveEffect | src/pages/Result.tsx:24-36 | a move while idle changes nothing; while dragging, rotX += 0.5·dy, rotY += 0.5·dx, and the pointer is recorded |
| Viewer.ToggleKeepsRotation | src/pages/Result.tsx:153 | toggling the 3D view flips it and keeps the rotation; toggling twice restores the transform |
| Viewer.DragTelescopes | src/pages/Result.tsx:27-35 | over any moves in a drag, the rotation changes by 0.5 × (last position − reference point), axes swapped, whatever the intermediate positions |
| Viewer.WholeDrag | src/pages/Result.tsx:19-40 | down at p0, any moves, then up or leave: net rotation change is 0.5 × (final − p0), axes swapped, and the viewer ends idle |
| Viewer.NoMoveKeepsRotation | src/pages/Result.tsx:15-40 | events other than moves never change the rotation: no reset and no clamping |
| Viewer.PressMoveLeave | src/pages/Result.tsx:19-40 | down at (100,100) and a move to (110,115) give yaw +5 and pitch +7.5; leaving makes the viewer idle and later moves change nothing |
| Viewer.RotationViewer.constructor | src/pages/Result.tsx:14-17 | rotation (0,0), not dragging, pointer (0,0), 3D view on |
| Viewer.RotationViewer.MouseDown | src/pages/Result.tsx:19-22 | dragging, pointer recorded, rotation and view unchanged; equals Step on Down |
| Viewer.RotationViewer.MouseMove | src/pages/Result.tsx:24-36 | idle: nothing changes; dragging: rotation grows by half the pointer delta, axes swapped, and the pointer is recorded; equals Step on Move |
| Viewer.RotationViewer.MouseUp | src/pages/Result.tsx:38-40 | not dragging; everything else unchanged |
| Viewer.RotationViewer.MouseLeave | src/pages/Result.tsx:94-95 | runs the pointer-up handler: the same effect as MouseUp |
| Viewer.RotationViewer.ToggleView | src/pages/Result.tsx:153 | flips the 3D view only |

## Left out

- Frame scheduling (`requestAnimationFrame`, `cancelAnimationFrame`) is host event plumbing. So are the resize listeners and the mount/unmount effects. Each frame is an explicit `Tick`, `DrawGrid` or `Animate` call, and each resize an explicit `Resize` call.
- A missing canvas or 2D context only makes the effect return early. That is lifecycle plumbing and is not modelled.
- Canvas styling is not modelled: stroke and fill colours, line widths, gradient colour stops, `clearRect` and the drop-shadow filter. Drawing is an emitted command list. An orb's radial gradient is one `Glow` command that carries its colour and glow intensity.
- IEEE floating point is not modelled. Positions, offsets and angles are exact reals, so the 0.2 px drift adds up exactly and `%` is exact.
- `Math.random` is injected as `OrbDraw` values in [0,1). `Math.sin`, `Math.cos` and `Math.PI` are injected as a `Trig` value, about which nothing is assumed beyond `sin² + cos² = 1` where a lemma states it.
- Shapes.RotatingShape.constructor: requires `size >= 0`. With a negative size the source's `ellipse` calls throw before a sphere or ring frame is drawn, and that error path is not modelled.
- Shapes.RotatingShape.constructor: the canvas side is `size * 2`, and the canvas truncates it to an integer. The model takes the centre to be exactly `(size, size)`, which matches only when `2·size` is a whole number. That holds for every size the pages pass (50 to 100, and the default 100).
- The cube's periodicity in the angle (angle and angle + 2π give the same picture) is a property of the host's trigonometry, not of this code. It is not stated.
- React state batching and stale closures between renders are not modelled. Each handler is one atomic update, and a move sees the state left by the previous event.
- The twenty random decorative particles on the result page (src/pages/Result.tsx:124-136) are not modelled, and neither is the formatting of the CSS transform string. The home, upload and processing pages, and the Tailwind configuration, are not part of this model.
