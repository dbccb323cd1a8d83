# Solar system WebGL core, modelled in Dafny

`webgl.js` draws a small solar system. Each planet follows a Keplerian
ellipse around a Sun that drifts upward through space. Most planets carry
spinning moons; Jupiter, Saturn, Uranus and Neptune carry tilted rings. A
camera tracks a chosen body or orbits the system in overview mode. Every
frame is post-processed with a bloom pass. This project models the
computations behind that picture:

- `basics.dfy` (module `Basics`): vectors, `Option`, `Min`/`Max`/`Clamp`, and
  `HostMath`. `HostMath` stands for the host's `Math.sin`, `Math.cos`,
  `Math.sqrt` and `Math.atan2`, about which only the laws in `Lawful` are
  known: sin² + cos² = 1, both lie in [-1, 1], sin 0 = 0, cos 0 = 1, the
  root of x ≥ 0 is a non-negative number whose square is x, and
  atan2(0, x > 0) = 0.
- `mat4.dfy` (module `Mat4`): the column-major `mat4` library. Its in-place
  operations are methods on 16-entry `array<real>` buffers. `translate`,
  `scale` and the rotations are always called with the output aliasing the
  input. `invert` is called with a separate output, and `transpose` both
  ways. The model covers both cases for every operation. Each method is
  proved equal to a function on matrix values. That function is in turn
  proved equal to a product with the usual translation, scaling or rotation
  matrix, or to the adjugate divided by the determinant.
- `mesh.dfy` (module `Mesh`): `createSphere` as nested loops and
  `createRing` as two sequential loops that push into vertex, normal,
  texture-coordinate and index arrays.
  It proves the vertex and index counts, that indices stay in range and fit
  the 16-bit index buffers, and that normals and texture coordinates have
  the right shape.
- `orbit.dfy` (module `Orbit`): the planet table, the one-step
  eccentric-anomaly approximation, the orbit radius, the galactic drift,
  moon placement, ring scale and the model matrices that `renderScene`
  builds.
- `scene.dfy` (module `Scene`): the per-planet loop of `renderScene` over a
  `Scene` object. The loop records trails, the position table and the
  tracked position, and builds the model and normal matrices. The module
  also covers the order of a frame in `render`.
- `camera.dfy` (module `Camera`): the camera globals as a state value and as
  a `Controller` class. Its transitions are the select and digit-key
  handlers, mouse drag, the wheel, the keyboard switch, and the per-frame
  smoothing step.
- `hud.dfy` (module `Hud`): `formatNumber`, and the panel and master toggles
  of the heads-up display.
- `textures.dfy` (module `Textures`): `isPowerOf2` with 32-bit semantics,
  the mipmap decision, and the texture flags and units that
  `renderCelestialBody` sets.
- `bloom.dfy` (module `Bloom`): framebuffer allocation on resize, and one
  frame of `render` as a list of GL commands run against an abstract GL
  state: the skybox and star draws, every texture binding and draw of
  `renderScene` (trails, bodies, rings, moons and the corona), and the
  bloom passes. `Bloom.RenderSceneCommands` takes the trail list as a
  parameter. In the source it is `trailHistory` as `renderScene` finds it,
  because the trail loop (webgl.js:1293-1315) runs before the planet loop
  pushes this frame's positions (webgl.js:1392-1400). That is the
  `Scene.Scene` trails before `Scene.Scene.RenderScene`. The model does not
  state this link as a lemma.

The model follows the code where it differs from its own comments:

- `invert` gives up only when the determinant is exactly zero (`!det`);
  there is no tolerance.
- `rotateY` multiplies by the rotation of `-rad`, while `rotateX` and
  `rotateZ` multiply by the rotation of `+rad`.
- The ring's normal matrix is the transpose of the ring matrix itself; the
  inverse computed just before is discarded.
- Earth's texture key `earth` is absent from the texture table, so Earth
  passes only through its `isEarth` flag.

## Model

| member | source | states |
|---|---|---|
| Basics.Clamp | webgl.js:1098 | the clamped value lies in [lo, hi] and equals x when x is already inside |
| Mat4.Create | webgl.js:322 | a fresh 16-entry buffer holding the zero matrix |
| Mat4.Identity | webgl.js:325-331 | the buffer holds the identity matrix |
| Mat4.MulIdentity | webgl.js:325-331 | the identity matrix is a right unit of matrix multiplication |
| Mat4.Perspective | webgl.js:336-343 | the buffer holds the perspective matrix for t = tan(fovy/2), aspect, near and far |
| Mat4.PerspectiveDepthRange | webgl.js:336-343 | a point on the near plane maps to depth -1 and one on the far plane to +1 after the perspective divide |
| Mat4.LookAt | webgl.js:347-379 | the buffer holds the view matrix whose rows are the normalised right, true-up and backward axes, moved so the eye sits at the origin |
| Mat4.ViewMatrixMovesEyeToOrigin | webgl.js:371-378 | any view matrix of that form sends the eye to the origin |
| Mat4.LookAtFacesCenter | webgl.js:347-379 | the look-at point lands on the negative z axis at the eye's distance from it |
| Mat4.CrossPerpendicular | webgl.js:354-366 | the cross products lookAt forms are perpendicular to both factors |
| Mat4.Translate | webgl.js:382-392 | out holds a translated by v, a's old value when out is a itself |
| Mat4.TranslateInPlaceAgrees | webgl.js:382-392 | replaying the source's copies of entries 0-11 and then its writes of entries 12-15, each reading the entries written so far, on one buffer gives the translated matrix |
| Mat4.TranslatedIsProduct | webgl.js:382-392 | translating equals right-multiplying by the translation matrix of v |
| Mat4.TranslateKeepsBasis | webgl.js:382-392 | columns 0-2 (entries 0-11) are unchanged and the new position is a applied to v |
| Mat4.TranslatedTwice | webgl.js:382-392 | translating by u and then by v equals translating once by u + v |
| Mat4.Scale | webgl.js:395-401 | out holds a scaled by v, a's old value when out is a itself |
| Mat4.ScaleInPlaceAgrees | webgl.js:395-401 | the source's sixteen assignments, replayed in order on one buffer, give the scaled matrix |
| Mat4.ScaledIsProduct | webgl.js:395-401 | scaling equals right-multiplying by the diagonal scaling matrix |
| Mat4.RotateY | webgl.js:404-420 | out holds a turned about y by the host's sin and cos of rad, a's old value when out is a |
| Mat4.RotateYInPlaceAgrees | webgl.js:404-420 | with columns 0 and 2 saved in locals first, the source's assignments replayed in order on one buffer give the rotated matrix |
| Mat4.RotatedYIsProduct | webgl.js:404-420 | rotateY right-multiplies by the standard y rotation of -rad |
| Mat4.RotateYTurnsLikeOrbit | webgl.js:404-420 | that rotation turns the x axis to (cos, 0, sin), the same sense as the orbits |
| Mat4.RotateZ | webgl.js:423-439 | out holds a turned about z by the sin and cos of rad, a's old value when out is a |
| Mat4.RotateZInPlaceAgrees | webgl.js:423-439 | with columns 0 and 1 saved in locals first, the source's assignments replayed in order on one buffer give the rotated matrix |
| Mat4.RotatedZIsProduct | webgl.js:423-439 | rotateZ right-multiplies by the standard z rotation of rad |
| Mat4.RotateX | webgl.js:442-458 | out holds a turned about x by the sin and cos of rad, a's old value when out is a |
| Mat4.RotateXInPlaceAgrees | webgl.js:442-458 | with columns 1 and 2 saved in locals first, the source's assignments replayed in order on one buffer give the rotated matrix |
| Mat4.RotatedXIsProduct | webgl.js:442-458 | rotateX right-multiplies by the standard x rotation of rad |
| Mat4.LinearKeepsColumns | webgl.js:395-458 | scale keeps column 3; rotateY keeps columns 1 and 3, rotateX columns 0 and 3, rotateZ columns 2 and 3 |
| Mat4.KeepPosition | webgl.js:395-458 | scale, rotateX, rotateY and rotateZ leave the translation part (entries 12-14) where it was |
| Mat4.SpinScaleIsProduct | webgl.js:1410-1415 | spinning about y and then scaling is right multiplication by the y rotation and then by the scaling matrix |
| Mat4.TiltSpinScaleIsProduct | webgl.js:1473-1481 | tilting about x, spinning about y and scaling is right multiplication by the three transforms in that order |
| Mat4.TranslateTwiceIsProduct | webgl.js:1526-1536 | two translations in turn are right multiplication by the two translation matrices in that order |
| Mat4.RotatedByZero | webgl.js:404-458 | with sin 0 and cos 1 each rotation changes nothing |
| Mat4.Invert | webgl.js:461-501 | fails exactly when the determinant is 0 and then leaves out untouched; otherwise out holds the adjugate divided by the determinant, also when out is a |
| Mat4.InvertZeroColumnFails | webgl.js:480-481 | a matrix with an all-zero column has determinant 0 and cannot be inverted |
| Mat4.InvertTranslation | webgl.js:461-501 | the inverse of a translation by v is the translation by -v |
| Mat4.InvertScaling | webgl.js:461-501 | a scaling with a zero factor has no inverse; otherwise its inverse is the scaling by the reciprocal factors |
| Mat4.Transpose | webgl.js:504-520 | out holds the transpose of a; the in-place branch (out is a) gives the same matrix as the copying branch |
| Mat4.TransposeInvolution | webgl.js:504-520 | transposing twice gives back the matrix |
| Mesh.CreateSphere | webgl.js:525-566 | the pushed arrays are exactly the latitude-major grid of vertices followed by the six indices of every cell |
| Mesh.SphereGrid | webgl.js:531-553 | the outer latitude loop pushes every row of the grid in order |
| Mesh.SphereBand | webgl.js:536-552 | the inner longitude loop appends one row of points to what was pushed before |
| Mesh.SphereIndices | webgl.js:555-563 | the index loop produces the six indices of every cell, row by row |
| Mesh.SphereSizes | webgl.js:525-566 | (L+1)(G+1) vertices with three coordinates each, two texture coordinates each, 6·L·G indices, every index in [0, (L+1)(G+1)) |
| Mesh.SphereAttributes | webgl.js:531-553 | every normal has unit length and both texture coordinates u = 1 - long/G and v = lat/L lie in [0, 1] |
| Mesh.SphereIndicesFitUint16 | webgl.js:607-623 | with at most 48 bands each way (the program uses 40, 30 and 48) every index fits an unsigned 16-bit buffer |
| Mesh.CreateRing | webgl.js:571-604 | the pushed arrays are exactly the inner/outer vertex pairs around the circle followed by two triangles per segment |
| Mesh.RingProperties | webgl.js:571-604 | 2(S+1) vertices on the plane y = 0 with normals (0, 1, 0), texture coordinates in [0, 1], 6·S indices each below 2(S+1) |
| Mesh.RingIndicesFitUint16 | webgl.js:626-642 | with at most 64 segments (the program uses 64) every ring index fits an unsigned 16-bit buffer |
| Orbit.TableIsElliptic | webgl.js:818-1017 | every body of the table has eccentricity in [0, 1) |
| Orbit.GalacticDrift | webgl.js:1623-1628 | between two instants the galactic offset moves only along y, by 8 per unit of time |
| Orbit.OrbitRadiusBounds | webgl.js:1374-1375 | for a ≥ 0, 0 ≤ e < 1 and cos ν in [-1, 1] the radius lies between a(1 - e) and a(1 + e) |
| Orbit.CircularOrbitRadius | webgl.js:1374-1375 | with e = 0 the radius is a |
| Orbit.OffsetFromSun | webgl.js:1385-1389 | the recorded planet position is the galactic offset plus the orbit offset |
| Orbit.DistanceFromSun | webgl.js:1357-1389 | an orbiting planet's squared distance from the Sun's point lies between the squared perihelion and the squared aphelion distances |
| Orbit.OrbitOffsetBounds | webgl.js:1357-1382 | the in-plane offset (planetX, 0, planetZ) has squared length between the squared apsides |
| Orbit.CircularOrbit | webgl.js:1357-1389 | a circular orbit keeps the planet at distance a from the Sun's point |
| Orbit.SunAtOffset | webgl.js:1357-1389 | a body with semiMajorAxis ≤ 0 sits exactly at the galactic offset |
| Orbit.PerihelionAtStart | webgl.js:1357-1389 | at time 0 an orbiting planet sits at (a(1 - e), 0, 0) |
| Orbit.MercuryPerihelion | webgl.js:835-847 | at time 0 Mercury is at (9.528, 0, 0), not at its semi-major axis 12 |
| Orbit.MoonAtDistance | webgl.js:1530-1536 | a moon's position is at its distance d from its planet's position |
| Orbit.MoonSpin | webgl.js:1538-1540 | a moon without spinSpeed spins at its orbit angle; with one, at that speed |
| Orbit.TableMoonsLocked | webgl.js:818-1017 | every moon of the table is tidally locked: it has no spinSpeed |
| Orbit.RingExtent | webgl.js:1480 | the ring mesh's outer edge (2.0) and inner edge (1.2) are scaled to radius·outerRadius and 0.6·radius·outerRadius; rings.innerRadius plays no part |
| Orbit.PlacedAtPosition | webgl.js:1350-1389 | the translation part of the placed body matrix is the recorded planet position |
| Orbit.PlanetMatrixAtPosition | webgl.js:1350-1415 | after the spin and the scale the planet's model matrix is still centred on its recorded position |
| Orbit.RingMatrixAtPosition | webgl.js:1453-1481 | the ring matrix is centred on the same position as its planet |
| Orbit.MoonMatrixAtPosition | webgl.js:1526-1544 | the moon's model matrix is centred on the moon's position |
| Scene.PushedRecent | webgl.js:1392-1400 | pushing onto the newest 200 entries of a history gives the newest 200 entries of the longer history |
| Scene.ReplayedIsRecent | webgl.js:1392-1400 | after any number of pushes the trail is the newest min(n, 200) positions in time order, newest last, and at most 200 long |
| Scene.Scene.constructor | webgl.js:1600-1606 | every planet starts with an empty trail and history, no recorded positions, at time 0 |
| Scene.Scene.TrailsBounded | webgl.js:1293-1315 | trails never exceed 200 points, the Sun's stays empty, and only orbiting bodies draw a trail |
| Scene.Scene.RecordTrail | webgl.js:1392-1400 | only body i's trail changes, by push-then-shift, and only when the body orbits |
| Scene.Scene.RecordBody | webgl.js:1385-1408 | body i's trail gains its position when it orbits, the position table maps its name to that position, and a tracked body's position becomes the tracked one |
| Scene.Scene.VisitBody | webgl.js:1349-1548 | one iteration of the planet loop records body i's position in its trail, in the position table and, when tracked, as the tracked position |
| Scene.Scene.RenderScene | webgl.js:1349-1548 | each orbiting body's trail gains its current position, every body's name maps to its position, and the tracked position is the tracked body's current one |
| Scene.Scene.Frame | webgl.js:1618-1669 | time advances by 0.01·speedMultiplier, the camera steps using the position recorded in the previous frame, and the scene is then evaluated at the new time |
| Scene.TrackingLagsOneFrame | webgl.js:1635-1657 | while tracking a body the frame looks at its previous-frame position and records its current one for the next frame |
| Scene.RecordedLookup | webgl.js:1403 | after the loop every body's name maps to its position at this time |
| Scene.RecordedElsewhere | webgl.js:1403 | names of no visited body keep their old table entry, or stay absent |
| Scene.TrackedFound | webgl.js:1406-1408 | tracking a body's name makes the tracked position that body's position |
| Scene.TrackedUnknown | webgl.js:1406-1408 | tracking a name no body has leaves the tracked position unchanged |
| Scene.TrackedIsRecorded | webgl.js:1403-1408 | the tracked position agrees with the position table entry of the tracked body |
| Scene.BodyNormalMatrix | webgl.js:1201-1204 | the normal buffer is the transposed inverse of the model matrix, or zeros when invert fails |
| Scene.SingularBodyNormal | webgl.js:1201-1204 | a singular model matrix gives an all-zero normal matrix, since the failed invert is ignored |
| Scene.RegularBodyNormal | webgl.js:1201-1204 | for a regular model matrix the normal matrix is the transpose of its inverse |
| Scene.PlaceBody | webgl.js:1350-1382 | the buffer holds the identity translated by the galactic offset and, for an orbiting body, by its orbit offset |
| Scene.PlanetModelMatrix | webgl.js:1350-1415 | the fresh buffer holds the planet matrix: placed, spun by time·rotationSpeed, scaled by radius |
| Scene.RingModelMatrices | webgl.js:1453-1486 | the ring buffer holds the placed, tilted, spun and scaled ring matrix, and its normal buffer holds that matrix's transpose, not the transposed inverse |
| Scene.MoonModelMatrix | webgl.js:1526-1544 | the fresh buffer holds the moon matrix: at the planet, moved by the orbit offset, spun and scaled |
| Scene.DrawBody | webgl.js:1349-1548 | the planet's model matrix and its normal matrix, the ring's matrix with its transpose when the planet has rings and nothing otherwise, and one model and normal pair per moon, in order |
| Scene.DrawMoons | webgl.js:1525-1548 | the moon loop yields, for each moon in order, its model matrix and that matrix's normal matrix |
| Camera.TargetDistanceFor | webgl.js:98-108 | a known name gets its table distance; any other name gets the fallback 10 |
| Camera.TargetDistanceInRange | webgl.js:98-117 | every selection distance lies in [3, 50] |
| Camera.NamesMatchTables | webgl.js:131-136 | the digit names after '' are the bodies of the planet table in order, each with a camera distance |
| Camera.DigitKeyShape | webgl.js:134 | the string test key ≥ '0' && key ≤ '9' accepts exactly keys starting with 0-8, and "9" |
| Camera.ParseInt | webgl.js:136 | without a "0x" prefix a key starting with a digit reads as its leading decimal digits; with the prefix it is a number exactly when a hexadecimal digit follows |
| Camera.HexKeySelects | webgl.js:131-139 | the key "0x" followed by digit k passes the digit test and selects planetNames[k]; "0x" alone is NaN and selects nothing |
| Camera.DigitSelects | webgl.js:131-139 | digit k selects planetNames[k]: '0' selects '' (overview) and '1'-'9' Sun to Neptune |
| Camera.DigitKeySelects | webgl.js:131-139 | a digit key behaves as choosing planetNames[k] in the select |
| Camera.SelectionTargets | webgl.js:110-128 | choosing a body tracks it at its table distance or 10; choosing none ends tracking at target 150 with target offsets 0 and the camera offsets and distance untouched |
| Camera.SelectionKeepsInvariant | webgl.js:110-139 | selection keeps the pitch bound, the target ranges and the minimum distance |
| Camera.MouseKeepsInvariant | webgl.js:1085-1107 | mouse down, move and up keep the invariant |
| Camera.DragComposes | webgl.js:1091-1103 | two drags turn the yaw by the total horizontal travel at 0.01 per pixel, and the pitch stays in [-π/2, π/2] |
| Camera.ZoomKeepsInvariant | webgl.js:1109-1189 | the wheel and every key keep the target in [3, 50] while tracking and in [30, 800] in overview |
| Camera.OverviewZoomSyncs | webgl.js:1116-1124 | in overview the wheel and W/S set the camera distance to the new target at once |
| Camera.KeyActionOf | webgl.js:1129-1189 | the switch picks a pan action exactly for the arrow keys and Q/E, and no action exactly for keys outside the switch |
| Camera.PanIgnoredWhileTracking | webgl.js:1135-1178 | arrow and Q/E keys change nothing while tracking |
| Camera.ToLower | webgl.js:1133 | lower-casing keeps the length and maps every character |
| Camera.StepKeepsInvariant | webgl.js:1635-1669 | the frame step keeps the invariant |
| Camera.LerpBetween | webgl.js:1645-1649 | one smoothing step lands between the current value and its target |
| Camera.TrackingStepCloses | webgl.js:1635-1657 | while tracking, the distance and both offsets close 12% of their gap each frame and the target offsets take the tracked position |
| Camera.LerpTimesGap | webgl.js:1645-1649 | after k smoothing steps the remaining gap is 0.88^k times the first |
| Camera.OverviewStepUsesTarget | webgl.js:1658-1660 | in overview the next frame puts the camera at the target distance, overriding the reset key's 55 |
| Camera.EyeAtDistance | webgl.js:1650-1668 | the eye is at the camera distance from the look-at point |
| Camera.ViewCenters | webgl.js:1632-1668 | the look-at point is the tracked position while tracking, otherwise (offsetX, offsetY, galactic z) |
| Camera.LightingEyeInOverview | webgl.js:1343-1346 | in overview the lighting camera position equals the eye, since the galactic z offset is always 0 |
| Camera.Controller.constructor | webgl.js:1065-1083 | the camera starts at distance 150, pitch 0.35, not tracking, target 150 |
| Camera.Controller.Select | webgl.js:110-128 | the globals become the selected state and stay valid |
| Camera.Controller.DigitKey | webgl.js:131-139 | the globals become the digit-keyed state and stay valid |
| Camera.Controller.MouseDown | webgl.js:1085-1089 | dragging starts at the pointer |
| Camera.Controller.MouseMove | webgl.js:1091-1103 | a drag turns the camera and clamps the pitch |
| Camera.Controller.MouseUp | webgl.js:1105-1107 | dragging stops |
| Camera.Controller.Wheel | webgl.js:1109-1126 | the wheel zooms within the mode's range |
| Camera.Controller.KeyDown | webgl.js:1129-1189 | the globals become the state after the lower-cased key's case |
| Camera.Controller.Step | webgl.js:1630-1669 | the globals take one smoothing step and the returned eye and look-at point are the view of the new state |
| Hud.Round | webgl.js:21 | Math.round gives the integer n with x in [n - 1/2, n + 1/2), halves rounding up |
| Hud.Digits | webgl.js:21 | toString of a natural number is a non-empty run of decimal digits |
| Hud.DigitsDenote | webgl.js:21 | those digits denote the number, and only 0 is written with a leading '0' |
| Hud.CommasGroupFromRight | webgl.js:21 | the regular-expression replacement equals grouping the digits three at a time from the right |
| Hud.CommasRoundTrip | webgl.js:21 | removing the commas gives back the digits |
| Hud.CommasSeparate | webgl.js:21 | the grouped string starts and ends with a digit and no two commas touch |
| Hud.LightSpeedReadout | webgl.js:20-26 | at one times light speed the readout shows 299,792 |
| Hud.MasterOverrides | webgl.js:61-83 | the master button hides or shows all six elements according to the new flag, whatever the panel buttons did, and labels itself HUD or SHOW |
| Hud.HideThenShow | webgl.js:61-83 | hiding and then showing brings every panel back |
| Hud.PanelToggleTwice | webgl.js:48-58 | a panel button pressed twice changes nothing |
| Hud.PanelToggleLocal | webgl.js:48-58 | a panel button touches only its own panel |
| Hud.ShortcutIgnoresCase | webgl.js:86-90 | H and h both press the master button; other keys do nothing |
| Hud.Display.constructor | webgl.js:60 | every element starts shown with the button labelled HUD |
| Hud.Display.TogglePanel | webgl.js:48-58 | the element state becomes the toggled one |
| Hud.Display.ToggleHud | webgl.js:61-83 | the element state becomes the master-toggled one |
| Hud.Display.KeyDown | webgl.js:86-90 | the element state becomes the keyed one |
| Textures.PowerOf2Exactly | webgl.js:784-786 | on 32-bit sizes the test holds exactly for 0 and the powers of two |
| Textures.ZeroIsPowerOf2 | webgl.js:784-786 | the test accepts 0 |
| Textures.Pow2IsPow2 | webgl.js:784-786 | every 2^k is a power of two |
| Textures.Pow2Exists | webgl.js:784-786 | every power of two is some 2^k |
| Textures.MipmapsExactly | webgl.js:758-770 | an image is mipmapped exactly when each side is 0 or a power of two |
| Textures.SurfaceTextures | webgl.js:1230-1268 | hasTexture holds exactly when the name is non-empty and Earth or a table key; then isEarth and isRing follow the arguments, otherwise all three flags are false and nothing is bound |
| Textures.RingSurface | webgl.js:1499-1506 | a ring is drawn textured, as a ring and not as Earth, binding its texture on unit 0 |
| Textures.TableTextured | webgl.js:818-1017 | every body of the table is drawn textured; Earth's key is missing and it passes only by its flag, with day, night and cloud maps on units 0-2 |
| Textures.MoonsAndRingsTextured | webgl.js:818-1017 | every moon draws the shared moon image, and the ring texture is a table key |
| Textures.EarthUnitsDistinct | webgl.js:1246-1258 | Earth's three samplers sit on distinct texture units |
| Bloom.Allocated | webgl.js:1023-1031 | scene gets the canvas size, bright, blur1 and blur2 its half size in real division, with four consecutive new handles |
| Bloom.OddWidthHalves | webgl.js:1028 | an odd canvas width gives a fractional half size, 512.5 for 1025 |
| Bloom.Display.CreateFramebuffer | webgl.js:1033-1055 | a new framebuffer of the given size with the next handle is created |
| Bloom.Display.CreateFramebuffers | webgl.js:1023-1031 | four new framebuffers are allocated and appended to those created before |
| Bloom.Display.ResizeCanvas | webgl.js:142-146 | the canvas and viewport take the window size and four new framebuffers replace the current ones, the old ones never deleted |
| Bloom.HandlesDistinct | webgl.js:1034 | every created framebuffer has its own handle |
| Bloom.ExecuteAppend | webgl.js:1682-1778 | running two command lists in turn is running their concatenation |
| Bloom.LocalRuns | webgl.js:1274-1596 | commands that only bind textures and draw keep the framebuffer and viewport: one draw per draw command, in order, into the bound target at the current viewport, and only the texture units change |
| Bloom.BindingsBelow | webgl.js:1240-1258 | bindings to units below n leave every unit from n on as it was |
| Bloom.TrailDrawsShape | webgl.js:1293-1315 | the trail loop binds no texture and draws one line strip per body with a non-zero semi-major axis and a trail of more than one point |
| Bloom.MoonDrawsShape | webgl.js:1525-1548 | the moon loop draws once per moon with the body program, binding on unit 0 only |
| Bloom.RingAndMoonsShape | webgl.js:1436-1548 | a planet's ring, when it has one, and its moons draw with the body program and bind on unit 0 only |
| Bloom.BodyDrawsShape | webgl.js:1349-1548 | one planet draws its body, its ring and its moons, binding on units 0 to 2, and on unit 0 only unless it is Earth |
| Bloom.PlanetDrawsShape | webgl.js:1349-1548 | the planet loop issues one body-program draw per body, ring and moon, binding on units 0 to 2, on unit 0 only when no body is Earth |
| Bloom.SceneShape | webgl.js:1274-1596 | renderScene only binds textures, on units 0 to 2, and draws: first the trails, then every body, ring and moon in table order, last the corona |
| Bloom.TableDrawCounts | webgl.js:1293-1548 | with the program's table the planet loop makes 29 draws, and the trail loop at most eight, exactly eight once every orbiting body has a two-point trail |
| Bloom.ScenePassRuns | webgl.js:1682-1727 | the scene framebuffer is bound at its own size, the skybox texture goes on unit 0, and the skybox and the stars are drawn |
| Bloom.ExtractPassRuns | webgl.js:1739-1746 | the extract pass draws once into bright at bright's size with the scene's attachment on unit 0 |
| Bloom.BlurPassesRun | webgl.js:1748-1762 | the blurs draw into blur1 and blur2 at the viewport they find, reading bright and blur1 on unit 0, both with blur1's size as resolution |
| Bloom.CombinePassRuns | webgl.js:1764-1776 | the combine draws onto the canvas at the canvas size with the scene on unit 0 and blur2 on unit 1 |
| Bloom.FrameRuns | webgl.js:1682-1778 | for renderScene commands that only bind textures and draw, the frame issues exactly the draws of `FrameDraws`, each with the target, viewport and units it sees, and ends bound to the canvas at the canvas viewport |
| Bloom.FrameOrder | webgl.js:1682-1778 | the frame draws skybox, stars and renderScene's draws in order into scene, then one pass each into bright, blur1, blur2 and the canvas |
| Bloom.PassOrder | webgl.js:1682-1778 | the frame makes trails + bodies + 7 draws: skybox, stars, the trails, every body, ring and moon, the corona, then bright, blur1, blur2 and the canvas |
| Bloom.ViewportsFit | webgl.js:1682-1778 | every draw covers exactly its own target, the blurs inheriting bright's viewport, and the vertical blur's resolution uniform is its own size |
| Bloom.AllocatedAlike | webgl.js:1028-1030 | the three half-size targets have one size |
| Bloom.PassInputs | webgl.js:1739-1778 | extract reads the scene with threshold 0.7, each blur reads the previous target, and the combine reads the scene and blur2 with intensity 1.2 |
| Bloom.SamplesImagesAppend | webgl.js:1274-1596 | draws that sample only images, run one list after another, still sample only images |
| Bloom.BindingsBindImages | webgl.js:1240-1258 | a unit bound by the bindings, or holding an image before, holds an image after them |
| Bloom.SurfacesCovered | webgl.js:1231-1258 | every unit the body shader samples for a surface is one its bindings fill: unit 0, and 1 and 2 for Earth; likewise for a ring |
| Bloom.SurfaceSamplesImages | webgl.js:1200-1271 | a renderCelestialBody draw samples only the images bound just before it |
| Bloom.SceneSamplesImages | webgl.js:1274-1596 | every draw of renderScene samples only images |
| Bloom.FrameNoFeedback | webgl.js:1682-1778 | when the scene samples only images, every sampled unit of every frame draw holds an image or a target drawn into earlier in the frame, never the target being drawn |
| Bloom.NoFeedback | webgl.js:1682-1778 | the program's frame, renderScene included, has no draw that samples its own target |
| Bloom.EarthUnits | webgl.js:1240-1252 | Earth leaves its night and cloud maps on units 1 and 2 after its moon, every unit above 2 untouched |
| Bloom.NeptuneUnits | webgl.js:1525-1548 | Neptune's draws end with Triton binding the moon image on unit 0, every other unit untouched |
| Bloom.EarthToNeptuneUnits | webgl.js:1274-1596 | renderScene over inner planets, Earth, planets that are not Earth and Neptune leaves the moon image on unit 0 and Earth's night and cloud maps on units 1 and 2 |
| Bloom.TableSceneUnits | webgl.js:1274-1596 | with the program's table, renderScene ends with the moon image on unit 0, earthNight on unit 1 and earthClouds on unit 2, the other units as before |
| Bloom.TableBloomUnits | webgl.js:1739-1778 | in the program's frame the extract and both blurs run with earthNight on unit 1 and earthClouds on unit 2, which they do not sample, and the combine with earthClouds on unit 2 |

## Left out

- All `gl.*` calls other than those of the bloom command list are left out: buffer and texture uploads, shader fetching, compiling and linking, uniforms and draws. They are a foreign graphics API and I/O.
- Texture image loading, the load counter and the loading-screen timer are left out, because they are asynchronous and timer-driven.
- `generateStars` is left out, because it draws from `Math.random`.
- DOM styling, the tracking status text, console logging and the speed slider are left out. The slider's value enters `Scene.Scene.Frame` as the `speedMultiplier` parameter.
- `toFixed` in the speed display is left out, because it is floating-point formatting.
- `requestAnimationFrame` scheduling and `main.js` are left out; they only bootstrap the page.
- Float32 storage is not modelled: matrices and vertices are exact reals, so rounding to 32 bits does not appear.
- The uniforms of every draw are left out: the corona's matrix and camera vector (webgl.js:1551-1595), the trails' vertex buffers and colours, and the skybox, star and body matrices. Each draw is modelled as one command with its program, its texture flags and the texture units it finds.
- Blending, the depth test and the depth mask are left out: they change how a draw is composited, not which target it draws into or which textures it reads.
- Trigonometry, square roots and `Math.tan` are abstract. Sine, cosine, square root and atan2 obey only the laws of `Basics.Lawful`; `tan(fovy/2)` enters `Mat4.Perspective` as a number.
- Mat4.Translate, Mat4.Scale, Mat4.RotateX, Mat4.RotateY, Mat4.RotateZ: the methods store their sixteen entries in one step, not one assignment at a time on the array. The source's order of assignments is modelled on values by the `...InPlace` functions and their agreement lemmas, because a statement-by-statement body on the array exceeds the verifier's resource budget.
- Mat4.Invert: the proof that `a · out = I` for the adjugate formula is not part of this model. It would need a 4x4 cofactor expansion, which is beyond the solver's budget. The contract states the determinant condition, the untouched output on failure and the adjugate over determinant on success, and `Mat4.InvertTranslation` checks one inverse exactly.
- Mat4.Perspective: requires t, aspect and near - far to be non-zero, because Dafny's real division by zero has no IEEE counterpart (infinities and NaN).
- Mat4.LookAt: requires both normalisations to divide by a non-zero length. The source divides regardless, producing NaN for a zero-length vector, which this model does not represent.
- Mesh.CreateSphere: requires at least one band each way. With zero the source divides 0 by 0 and produces NaN coordinates.
- Mesh.CreateRing: requires at least one segment. With zero the source divides 0 by 0 and produces NaN coordinates; its only call site passes 64 (webgl.js:626).
- Orbit.OrbitOffset: requires 0 ≤ e < 1 (`Orbit.Elliptic`), which every body of the table meets (`Orbit.TableIsElliptic`). The radius formula is not defined at e = 1.
- Textures.IsPowerOf2: models the operands' 32-bit conversion for integers only. Non-integer sizes, which image widths never are, would be truncated by ToInt32 first.
- Textures.SurfaceTextures: the table lookup is modelled as membership in the fourteen table keys. Inherited object properties such as `constructor` would also be defined in the source.
- Camera.ToLower: lower-cases ASCII letters only. Unicode case mapping is not modelled, and every key the handlers test is ASCII.
- Hud.FormatNumber: values of 1e21 and above, whose `toString` uses exponent notation, and rounding of non-finite values are not modelled.
- Bloom.Samples: which units a program samples follows the sampler uniforms the source sets (`uTexture` on unit 0, Earth's three maps on units 0 to 2, `uScene` and `uBloom` on units 0 and 1). The shader sources are not part of this model.
- Bloom.Display.ResizeCanvas: the old framebuffers stay allocated, as in the source. The model records them in `created` and never deletes them.
