# ProjetoCG core, modelled in Dafny

ProjetoCG is an OpenGL scene viewer and a model generator, written in four
releases (phases). The generator writes triangle meshes for planes, boxes,
spheres, cones, tubes (hollow cylinders) and Bézier surfaces. The viewer reads an XML
scene file and draws a tree of groups. Each group has a colour, static or
animated transforms and a list of models. The camera can run in freeroam or
orbital mode.

This project models the core of all four releases as Dafny:

- `Vectors`, `Wrappers` and `Text` hold shared values: 3-vectors, `Option`/`Result`
  and line splitting. They also hold the `Maths` and `RealText` parameters,
  which stand in for trigonometry, square roots and float text.
- `CatmullRom`, `BezierPatch` and `Animation` hold the curves and the animated
  transforms. Those transforms are a Catmull-Rom loop and a timed rotation.
- `SceneGraph` is the pre-order render of the group tree. It is observed as a
  trace of draw requests, and each request carries its matrix operations and
  colour.
- `ConfigReading` reads the XML scene file for each release. It covers defaults,
  first-child versus last-child rules and error paths.
- `Lights` is the light list and the selection of at most eight lights.
- `CameraControl` is the fourth release's camera controller. `ScalarCamera` is
  the second and third releases' global camera, with a class over its fields.
- `UiState` holds the keyboard, menu and frame-rate state of each release.
- `Cycles` holds the settings that step through a fixed list of modes. These are
  the render settings' `next()` and the tessellation level.
- `Stores` holds the filename-keyed texture, mesh and model stores.
- `MeshBuffers` is the interleaved vertex buffer.
- `ObjFormat` is the OBJ reader and writer. Its round trip is proved.
- `TriangleObj` and `CsvVertices` hold the third release's OBJ export and the
  comma-separated model files of the first two releases.
- `MeshIndices` holds the fourth release's indexed mesh builders. It proves
  list lengths and that every index names an existing entry.
- `SoupGrid`, `Phase1Shapes`, `Phase2Shapes` and `Phase3Shapes` hold the
  triangle-soup generators of the first three releases. They prove vertex
  counts, coordinate bounds, face order and winding.

Code that mutates state is modelled as classes and methods. Each method is
proved to produce exactly the state a pure function describes. The properties
are proved about those functions.

Some behaviours of the source are stated as lemmas rather than corrected:

- The second-phase cone writes its base stacks − 1 times (`Phase2Shapes.ConeCount`).
- A one-stack sphere in the fourth release produces indices out of range
  (`MeshIndices.SphereSingleStack`).
- Key '2' in the fourth release leaves paths shown (`UiState.KeyTwoShowsPaths`).
- The light caster lets a ninth point light through, because its guard is `> 8`
  (`Lights.PointLoadsBound`).
- The spline at t = 1 is evaluated on the last segment at local parameter 0.
- An animation with step period/n takes n + 1 applications per turn, because
  it shows both phase 1 and phase 0 (`Animation.PhaseCycle`).

The model follows the code in each case.

## Model

| member | source | states |
|---|---|---|
| `CatmullRom.SegmentEnds` | Phase4/src/include/engine/Config.h:441-464 | the segment built from (p0,p1,p2,p3) passes through p1 at t = 0 and p2 at t = 1, with tangents (p2−p0)/2 and (p3−p1)/2 |
| `CatmullRom.SplineOf` | Phase4/src/include/engine/Config.h:542-554 | k control points give k−3 segments (none when k < 4) |
| `CatmullRom.BuildSpline` | Phase4/src/include/engine/Config.h:542-554 | the constructor loop produces exactly the segments MP(pᵢ, pᵢ₊₁, pᵢ₊₂, pᵢ₊₃) for i < k−3, and nothing for fewer than 4 points |
| `CatmullRom.SplineContinuity` | Phase4/src/include/engine/Config.h:441-464 | consecutive segments meet: segment i at t = 1 equals segment i+1 at t = 0, in position and tangent |
| `CatmullRom.SegmentIndex` | Phase4/src/include/engine/Config.h:484 | the chosen segment is min(⌊t·n⌋, n−1): always a valid index, and ⌊t·n⌋ unless clamped |
| `CatmullRom.Fract` | Phase4/src/include/engine/Config.h:483 | the local parameter lies in [0, 1) |
| `CatmullRom.Evaluate` | Phase4/src/include/engine/Config.h:479-487 | an empty spline yields the zero position and tangent |
| `CatmullRom.Locate` | Phase4/src/include/engine/Config.h:481-484 | the chosen segment index is below n and the local parameter lies in [0, 1) |
| `CatmullRom.LocateInside` | Phase4/src/include/engine/Config.h:481-486 | when i ≤ t·n < i+1 the spline evaluates segment i at t·n − i |
| `CatmullRom.LocateAtOne` | Phase4/src/include/engine/Config.h:481-486 | at t = 1 the clamp picks the last segment at local parameter 0 |
| `CatmullRom.BuiltSplineAtOne` | Phase4/src/include/engine/Config.h:479-487 | evaluate(1) of a built spline is point k−3 (start of the last segment), not the curve's end point k−2 |
| `CatmullRom.ClosedLoopSegments` | Phase4/src/include/engine/Config.h:767-774 | appending the first three points makes N inputs give exactly N segments, and the last segment ends where the first begins |
| `Animation.NextPhase` | Phase4/src/include/engine/Config.h:801-802 | the new phase is t + dt/period when that is at most 1, otherwise exactly 0; never above 1 |
| `Animation.PhaseStaysInRange` | Phase4/src/include/engine/Config.h:801-802 | with 0 ≤ t ≤ 1, dt ≥ 0 and period > 0 the phase stays in [0, 1] |
| `Animation.PhaseSteps` | Phase4/src/include/engine/Config.h:801-802 | with a step of period/n, the first n applications from phase 0 climb by 1/n and reach exactly 1 (the test is ≤) |
| `Animation.PhaseCycle` | Phase4/src/include/engine/Config.h:801-802 | application n shows phase 1 and application n + 1 resets to exactly 0, so a turn takes n + 1 applications |
| `Animation.PhasePeriodic` | Phase4/src/include/engine/Config.h:801-802 | the phase sequence from 0 repeats with period n + 1 applications |
| `Animation.AlignFrameOrthonormal` | Phase4/src/include/engine/Config.h:512-522 | the aligned frame's right and up are right_up of its front, its three axes are pairwise perpendicular, and front has length 1 for a non-zero tangent (given normalize scales its argument and length measures a scaled direction) |
| `Animation.PathOp` | Phase4/src/include/engine/Config.h:499-523 | the transform translates to the spline position at t and adds the aligned frame iff `aligned` |
| `Animation.AnimatedTranslation.constructor` | Phase4/src/include/engine/Config.h:763-775 | the control points are the input plus its first three points, and N inputs give N segments |
| `Animation.AnimatedTranslation.Apply` | Phase4/src/include/engine/Config.h:792-803 | composes the path transform at the current phase, then advances the phase by the reset rule |
| `Animation.SpinOp` | Phase4/src/include/engine/Config.h:855 | the rotation is 360·t degrees about the axis, in [0, 360] |
| `Animation.AnimatedRotation.constructor` | Phase4/src/include/engine/Config.h:851 | starts at phase 0 with the given axis and period |
| `Animation.AnimatedRotation.Apply` | Phase4/src/include/engine/Config.h:853-860 | rotates by the current phase, then advances it by the same reset rule |
| `Animation.PathDisplay.constructor` | Phase3/src/include/engine/Config.h:299-300 | the tessellation index starts at the last level and the path is hidden |
| `Animation.PathDisplay.NextTessellationLevel` | Phase3/src/include/engine/Config.h:337-340 | the index moves one level forward, wrapping from the last level to the first (`Cycled`); showPath is untouched |
| `Animation.TessellationCycles` | Phase3/src/include/engine/Config.h:299-300 | over {1,2,4,10}, k presses from the start select level (3 + k) mod 4: the first press gives 1, and the level is 10 again exactly when k is a multiple of 4; the single-level list always gives 10 |
| `BezierPatch.Geometry` | Phase3/src/include/engine/Config.h:25-39 | entry (i, j) of the geometry matrix of one axis is that coordinate of control point 4i + j |
| `BezierPatch.Pxyz` | Phase3/src/include/engine/Config.h:25-39 | control point 4i + j lands in row i, column j of Px, Py and Pz |
| `BezierPatch.CornerEntries` | Phase3/src/include/engine/Config.h:14-23 | U·(M·P·Mᵀ)·V at the parameter corners picks entries (0,0), (0,3), (3,0), (3,3) of P |
| `BezierPatch.PatchCorners` | Phase3/src/include/engine/Config.h:47-86 | the patch position at (0,0), (0,1), (1,0), (1,1) is control point 0, 3, 12, 15 |
| `CameraControl.RightUpOrthonormal` | Phase4/src/include/engine/Config.h:267-272 | right and up are perpendicular to front and to each other, each of length 1 where the cross product it normalises is non-zero (given normalize scales its argument and length measures a scaled direction) |
| `CameraControl.Translate` | Phase4/src/include/engine/Config.h:34-36 | position and target move by the same vector, so the view direction and up are kept |
| `CameraControl.TranslateInverse` | Phase4/src/include/engine/Config.h:34-36 | translating back by −v restores the placement |
| `CameraControl.TranslateKeepsFront` | Phase4/src/include/engine/Config.h:23-25 | a translation does not change front() |
| `CameraControl.TurnedAngles` | Phase4/src/include/engine/Config.h:27-48 | yaw grows by the delta unclamped; pitch is the clamp of asin(front.y) + delta to [−89.99°, 89.99°], in all three cases |
| `CameraControl.Rotate` | Phase4/src/include/engine/Config.h:38-61 | rotate keeps pos, puts the target one unit along the new front and recomputes up from worldUp |
| `CameraControl.OrbitRadius` | Phase4/src/include/engine/Config.h:65-66 | the revolve radius is the distance to the centre, floored at 1 |
| `CameraControl.Revolve` | Phase4/src/include/engine/Config.h:63-86 | revolve targets the centre with up = worldUp, at the clamped angles and the floored radius |
| `CameraControl.ZoomRadius` | Phase4/src/include/engine/Config.h:91 | the zoomed radius is max(1, distance − units) in both cases |
| `CameraControl.ZoomOutUndoesZoomIn` | Phase4/src/include/engine/Config.h:88-96 | zoomOut by the same amount undoes a zoomIn that stayed above the floor; one that hit it gives 1 + units |
| `CameraControl.ZoomIn` | Phase4/src/include/engine/Config.h:88-96 | zoomIn looks at the centre with up = worldUp, on the same ray from the centre at the zoomed radius |
| `CameraControl.ZoomDistance` | Phase4/src/include/engine/Config.h:88-96 | where length measures a scaled direction exactly (`LengthOfScaledUnit`) and the camera is not at the centre, the zoomed camera is ZoomRadius ≥ 1 away from the centre |
| `CameraControl.ForwardBackward` | Phase4/src/include/engine/Config.h:130-136 | moveForward then moveBackward with the same dt restores the placement, and vice versa |
| `CameraControl.RightLeft` | Phase4/src/include/engine/Config.h:138-146 | moveRight and moveLeft with the same dt undo each other |
| `CameraControl.UpDown` | Phase4/src/include/engine/Config.h:148-154 | moveUp and moveDown with the same dt undo each other |
| `CameraControl.KeyMove` | Phase4/src/include/engine/Config.h:193-210 | in orbital only w/s act and they look at the initial target; in freeroam only w/s/a/d/q/e act and they keep the view direction |
| `CameraControl.Horizontal` | Phase4/src/include/engine/Config.h:215-218 | a horizontal direction is set exactly for the left and right arrows |
| `CameraControl.Vertical` | Phase4/src/include/engine/Config.h:219-220 | a vertical direction is set exactly for the up and down arrows |
| `CameraControl.SpecialMove` | Phase4/src/include/engine/Config.h:212-240 | non-arrow keys change nothing; freeroam arrows keep pos; orbital arrows look at the initial target with the initial up |
| `CameraControl.Toggled` | Phase4/src/include/engine/Config.h:183-191 | the behaviour flips; entering orbital resets to the initial placement, returning to freeroam keeps the current one |
| `CameraControl.ToggleTwice` | Phase4/src/include/engine/Config.h:183-191 | two toggles return to the starting behaviour at the initial placement |
| `CameraControl.Controller.constructor` | Phase4/src/include/engine/Config.h:17-21 | both placements start at pos (1,1,1), target 0, up (0,1,0), projection 60/1/1000, in freeroam |
| `CameraControl.Controller.Configure` | Phase4/src/include/engine/Parsing.h:678-704 | the camera read from the configuration becomes both initial and current placement and projection |
| `CameraControl.Controller.ToggleMode` | Phase4/src/include/engine/Config.h:183-191 | updates behaviour and placement as Toggled says and keeps the invariant that orbital looks at the initial target |
| `CameraControl.Controller.HandleKey` | Phase4/src/include/engine/Config.h:193-210 | the new placement is KeyMove of the old one; nothing else changes |
| `CameraControl.Controller.HandleKeySpecial` | Phase4/src/include/engine/Config.h:212-240 | the new placement is SpecialMove of the old one; nothing else changes |
| `ScalarCamera.TuningOf` | Phase3/src/engine/engine.cpp:73-74 | each release's speeds and pitch limit are positive (0.5/0.5/2/1 and 89° in the second, 200/100/300/150 and 89.99° in the third) |
| `ScalarCamera.EnvOf` | Phase3/src/engine/engine.cpp:64-69 | the world up vector and the orbital look-at come from the camera the globals start from; the configured position is the loaded one |
| `ScalarCamera.Startup` | Phase3/src/engine/engine.cpp:76-92 | the globals start in freeroam with radius, azimuth and elevation 0; position, front, yaw and pitch come from the start camera |
| `ScalarCamera.VectorsUpdated` | Phase3/src/engine/engine.cpp:95-105 | front is recomputed from yaw and pitch and up from front and world up; nothing else changes |
| `ScalarCamera.YawRotated` | Phase3/src/engine/engine.cpp:133-136 | rotateYaw adds direction·sensitivity·dt to yaw without clamping and keeps pitch and pos |
| `ScalarCamera.PitchRotated` | Phase3/src/engine/engine.cpp:138-143 | rotatePitch keeps pitch within ±limit, equals the raw sum when that is within, and keeps yaw and pos |
| `ScalarCamera.PositionUpdated` | Phase3/src/engine/engine.cpp:162-171 | updatePosition clamps the elevation and places the camera at lookAt plus the spherical offset; it is idempotent on a settled camera |
| `ScalarCamera.ZoomedIn` | Phase3/src/engine/engine.cpp:183-186 | zoomIn gives radius max(1, radius − step), never below 1 |
| `ScalarCamera.ZoomedOut` | Phase3/src/engine/engine.cpp:188-191 | zoomOut adds the step to the radius |
| `ScalarCamera.Initialized` | Phase3/src/engine/engine.cpp:193-209 | initialize restarts at the configured position with radius = its distance to lookAt, settles the orbit and keeps the freeroam globals |
| `ScalarCamera.Toggled` | Phase3/src/engine/engine.cpp:212-220 | the flag flips; leaving freeroam keeps pos/yaw/pitch, leaving orbital keeps every orbital global |
| `ScalarCamera.KeysKeepOrbitReady` | Phase3/src/engine/engine.cpp:222-244 | every handleKey keeps the orbital globals consistent (clamped elevation, position on the orbit) while in orbital mode |
| `ScalarCamera.SpecialKeysKeepOrbitReady` | Phase3/src/engine/engine.cpp:246-263 | every handleKeySpecial keeps the orbital globals consistent while in orbital mode |
| `ScalarCamera.RadiusFloorKept` | Phase3/src/engine/engine.cpp:183-191 | once the radius is at least 1, no key except the toggle takes it below 1 |
| `ScalarCamera.FreeroamMovesInvert` | Phase3/src/engine/engine.cpp:107-131 | w then s, d then a (and q then e outside the prototype) with the same dt restore the camera exactly |
| `ScalarCamera.ZoomInverts` | Phase2/src/engine/engine.cpp:159-167 | a zoom in followed by a zoom out restores a settled orbital camera when the floor was not hit (w/s in the third release, q/e in the second) |
| `ScalarCamera.AzimuthKeysInvert` | Phase2/src/engine/engine.cpp:215-218 | in the second release's orbital mode a then d restores a settled camera |
| `ScalarCamera.ToggleIgnoresFreeroamPose` | Phase3/src/engine/engine.cpp:193-209 | entering orbital gives the same orbital globals whatever the freeroam camera did |
| `ScalarCamera.ThirdStartIgnoresConfig` | Phase3/src/engine/engine.cpp:16 | the third release's globals start from the default camera whatever the configuration says |
| `ScalarCamera.Camera.constructor` | Phase2/src/engine/engine.cpp:36-135 | the globals are initialised as Startup says |
| `ScalarCamera.Camera.UpdateVectors` | Phase2/src/engine/engine.cpp:66-76 | the new state is VectorsUpdated of the old |
| `ScalarCamera.Camera.RotateYaw` | Phase2/src/engine/engine.cpp:78-81 | the new state is YawRotated of the old |
| `ScalarCamera.Camera.RotatePitch` | Phase2/src/engine/engine.cpp:83-91 | the new state is PitchRotated of the old |
| `ScalarCamera.Camera.Move` | Phase2/src/engine/engine.cpp:93-117 | pos moves by amount·direction and nothing else changes |
| `ScalarCamera.Camera.MoveSideways` | Phase2/src/engine/engine.cpp:101-109 | the new state is Sideways of the old (the second release subtracts the right vector of −front) |
| `ScalarCamera.Camera.UpdatePosition` | Phase2/src/engine/engine.cpp:137-147 | the new state is PositionUpdated of the old |
| `ScalarCamera.Camera.RotateAzimuth` | Phase2/src/engine/engine.cpp:149-152 | azimuth grows by direction·sensitivity, then the position is updated |
| `ScalarCamera.Camera.RotateElevation` | Phase2/src/engine/engine.cpp:154-157 | elevation grows by direction·sensitivity, then the position is updated |
| `ScalarCamera.Camera.ZoomIn` | Phase2/src/engine/engine.cpp:159-162 | the new state is ZoomedIn of the old |
| `ScalarCamera.Camera.ZoomOut` | Phase2/src/engine/engine.cpp:164-167 | the new state is ZoomedOut of the old |
| `ScalarCamera.Camera.Initialize` | Phase2/src/engine/engine.cpp:169-188 | the new state is Initialized of the old |
| `ScalarCamera.Camera.ToggleMode` | Phase2/src/engine/engine.cpp:191-199 | the new state is Toggled of the old |
| `ScalarCamera.Camera.HandleKey` | Phase2/src/engine/engine.cpp:201-227 | the new state is AfterKey of the old: 'c'/'C' only toggles; orbital w/s/a/d/q/e act in the second release and only w/s in the third |
| `ScalarCamera.Camera.HandleKeySpecial` | Phase2/src/include/engine/GraphicsUtils.h:110-119 | the new state is AfterSpecial of the old; the prototype's right arrow is yaw +1, the engines' −1; the second release ignores arrows in orbital mode |
| `SceneGraph.Phases` | Phase4/src/include/engine/Config.h:759 | the phases of a transform list are the phases of its members, one per transform |
| `SceneGraph.ApplyOne` | Phase4/src/include/engine/Config.h:1307-1317 | one visitor case: the operation at the transform's current phase, then one phase step |
| `SceneGraph.ApplyTransforms` | Phase4/src/include/engine/Config.h:1302-1323 | the operations of the list in list order at the phases before the call, and every transform advanced exactly once |
| `SceneGraph.RenderGroup` | Phase4/src/include/engine/Config.h:1325-1351 | the draws are the pre-order trace (own transforms on top of the ancestors', own models, then subgroups in order) at the phases before the call, and every animated transform in the subtree advances exactly once |
| `SceneGraph.DrawModels` | Phase4/src/include/engine/Config.h:1332-1344 | one draw per model reference, in order, under the group's operations |
| `SceneGraph.RenderChild` | Phase4/src/include/engine/Config.h:1346-1347 | subgroup i renders its trace; its own transforms advance once and every other transform of the siblings keeps its phase |
| `SceneGraph.RenderChildren` | Phase4/src/include/engine/Config.h:1346-1347 | subgroups render in order and every transform below them advances exactly once |
| `SceneGraph.WorldRoot` | Phase4/src/include/engine/Config.h:1354-1356 | the top-level groups seen as the children of an empty root |
| `SceneGraph.RenderWorld` | Phase4/src/include/engine/Config.h:1358-1362 | renderGroups renders the top-level groups in order from no operations, advancing every animated transform of the world once |
| `SceneGraph.ModelsOf` | Phase4/src/include/engine/Config.h:1332-1344 | the models of a trace, one per draw |
| `SceneGraph.TraceModels` | Phase4/src/include/engine/Config.h:1325-1351 | a render draws every model reference of the tree exactly once, in pre-order |
| `SceneGraph.TraceKeepsPrefix` | Phase4/src/include/engine/Config.h:1327-1350 | every draw in a subtree happens under the operations in force when the subtree was entered (push/pop discipline: ancestors' operations first) |
| `SceneGraph.ColourUntouched` | Phase4/src/include/engine/Config.h:1328-1349 | where the renderer sets no colours, every draw keeps the colour in force outside the tree |
| `MeshBuffers.MeshOf` | Phase4/src/include/engine/Config.h:992-1003 | a freshly loaded model has no buffers (names 0, flag cleared) |
| `MeshBuffers.NormalAt` | Phase4/src/include/engine/Config.h:1018-1022 | the normal of entry i is normals[vnIndices[i]] when both lookups are in range, otherwise (0,1,0) |
| `MeshBuffers.TexcoordAt` | Phase4/src/include/engine/Config.h:1026-1030 | the texcoord of entry i is texcoords[vtIndices[i]] when both lookups are in range, otherwise (0,0) |
| `MeshBuffers.Record` | Phase4/src/include/engine/Config.h:1012-1031 | each index entry contributes exactly 8 floats |
| `MeshBuffers.Interleaved` | Phase4/src/include/engine/Config.h:1011-1032 | k entries give 8k floats |
| `MeshBuffers.RecordAt` | Phase4/src/include/engine/Config.h:1011-1032 | entry i's record sits at floats 8i..8i+8 |
| `MeshBuffers.BufferContents` | Phase4/src/include/engine/Config.h:1011-1032 | float j of the buffer is component j mod 8 of (position, normal-or-default, texcoord-or-default) of entry j div 8 |
| `MeshBuffers.InterleavedData` | Phase4/src/include/engine/Config.h:1005-1041 | the buffer is the interleaved records (8·\|vIndices\| floats) and the element indices are 0..n−1 |
| `MeshBuffers.WithBuffers` | Phase4/src/include/engine/Config.h:1153-1177 | initBuffers sets the flag and the names once; a second call changes nothing; geometry is untouched |
| `MeshBuffers.WithoutBuffers` | Phase4/src/include/engine/Config.h:1179-1184 | cleanupBuffers zeroes both names and clears the flag, keeping the geometry |
| `MeshBuffers.BufferLifecycle` | Phase4/src/include/engine/Config.h:1153-1184 | initialising twice is initialising once, and cleanup after initialisation restores the unbuffered mesh |
| `Stores.TextureRegistry.constructor` | Phase4/src/include/engine/Config.h:923-927 | the texture table starts empty, nearest filtering, anisotropy off |
| `Stores.TextureRegistry.Id` | Phase4/src/include/engine/Config.h:929-931 | the texture name of a loaded file, 0 for a file never loaded |
| `Stores.TextureRegistry.Load` | Phase4/src/include/engine/Config.h:966-971 | only a file not yet present is recorded; a repeated load keeps the first name; filter settings untouched |
| `Stores.TextureRegistry.SetFilter` | Phase4/src/include/engine/Config.h:933-936 | the minification filter becomes the given one and nothing else changes |
| `Stores.TextureRegistry.SetAnisotropy` | Phase4/src/include/engine/Config.h:938-941 | the anisotropy switch becomes the given one and nothing else changes |
| `Stores.InsertAbsent` | Phase4/src/include/engine/Config.h:1257-1260 | insertion adds the key; an existing key keeps its value and every other key is untouched |
| `Stores.InsertAbsentTwice` | Phase4/src/include/engine/Config.h:1257-1260 | a second load of the same file is a no-op (load at most once) |
| `Stores.MeshRegistry.constructor` | Phase4/src/include/engine/Config.h:991 | no models, textures shown |
| `Stores.MeshRegistry.Load` | Phase4/src/include/engine/Config.h:1257-1260 | the model table becomes InsertAbsent of the old one |
| `Stores.MeshRegistry.Draw` | Phase4/src/include/engine/Config.h:1186-1243 | an unknown file draws nothing and changes nothing; a known one gets buffers on first draw and is drawn with its texture (0 when textures are off), its material and all its index entries |
| `Stores.MeshRegistry.InitBuffers` | Phase4/src/include/engine/Config.h:1245-1249 | every model gets its buffers (WithBuffers), the key set is unchanged |
| `Stores.MeshRegistry.CleanupBuffers` | Phase4/src/include/engine/Config.h:1251-1255 | every model loses its buffers (WithoutBuffers), the key set is unchanged |
| `Stores.MeshRegistry.ToggleTextures` | Phase4/src/include/engine/Config.h:1051-1053 | the texture switch flips and the models are unchanged |
| `Stores.VboInitialized` | Phase3/src/include/engine/Config.h:599-608 | the buffer holds \|vertices\|/3 vertices under the new name; the geometry is kept |
| `Stores.VboDeleted` | Phase3/src/include/engine/Config.h:610-615 | the buffer name is released and left at 0, geometry kept |
| `Stores.VboDeleteIdempotent` | Phase3/src/include/engine/Config.h:610-615 | deleting twice is deleting once |
| `Stores.LoadAllOutcome` | Phase3/src/include/engine/Config.h:651-720 | loading a list succeeds exactly when every new file can be read; then the keys are the old keys plus the listed files, old models untouched and new ones freshly read |
| `Stores.Present` | Phase3/src/include/engine/Config.h:657-675 | at most one drawn model per listed name, each one held by the store |
| `Stores.PresentAllKnown` | Phase3/src/include/engine/Config.h:657-675 | when every listed name is stored, each is drawn once per occurrence, in list order |
| `Stores.PresentNoneKnown` | Phase3/src/include/engine/Config.h:657-675 | names the store does not hold draw nothing |
| `Stores.VboStore.constructor` | Phase3/src/include/engine/Config.h:716-720 | the store starts empty |
| `Stores.VboStore.Get` | Phase3/src/include/engine/Config.h:643-645 | the stored model exactly when the file is present, otherwise the lookup error |
| `Stores.VboStore.TryLoad` | Phase3/src/include/engine/Config.h:651-655 | a present file is not reread; an unreadable file leaves the store unchanged and reports its error; otherwise the freshly read model is added |
| `Stores.VboStore.FromFilenames` | Phase3/src/include/engine/Config.h:716-720 | the store equals LoadAll of the list, or the first error escapes |
| `Stores.VboStore.DrawAll` | Phase3/src/include/engine/Config.h:657-675 | the models drawn are Present(store, names), in list order |
| `Stores.VboStore.InitializeAllVBOs` | Phase3/src/include/engine/Config.h:677-681 | every stored model is VboInitialized with its name, keys unchanged |
| `Stores.VboStore.CleanupAllVBOs` | Phase3/src/include/engine/Config.h:683-687 | every stored model is VboDeleted, keys unchanged |
| `Lights.PointLight` | Phase4/src/include/engine/Config.h:649-657 | a point light at the position (w = 1), other fields default |
| `Lights.DirectionalLight` | Phase4/src/include/engine/Config.h:659-666 | a directional light along the direction (w = 0), other fields default |
| `Lights.SpotLight` | Phase4/src/include/engine/Config.h:668-679 | a spot light with position (w = 1), direction (w = 0) and cutoff |
| `Lights.Applied` | Phase4/src/include/engine/Config.h:610-647 | the applied lights are the first min(count, 8) of the list |
| `Lights.LightCaster.constructor` | Phase4/src/include/engine/Config.h:559-561 | no lights, markers hidden, no count fixed yet |
| `Lights.LightCaster.LoadPoint` | Phase4/src/include/engine/Config.h:649-657 | a point light is appended unless more than eight lights are listed |
| `Lights.LightCaster.LoadDirectional` | Phase4/src/include/engine/Config.h:659-666 | a directional light is always appended |
| `Lights.LightCaster.LoadSpotlight` | Phase4/src/include/engine/Config.h:668-679 | a spot light is always appended |
| `Lights.LightCaster.ToggleLocations` | Phase4/src/include/engine/Config.h:745-747 | the marker switch flips, the lights are unchanged |
| `Lights.LightCaster.ApplyAll` | Phase4/src/include/engine/Config.h:610-647 | the count is fixed on the first call; the lights given to the slots are Applied(lights, that count) |
| `Lights.PointLoads` | Phase4/src/include/engine/Config.h:649-657 | point loads only ever append |
| `Lights.PointLoadsBound` | Phase4/src/include/engine/Config.h:649-657 | the guard caps point loads at nine lights, and enough loads reach exactly nine |
| `ConfigReading.FirstNamed` | Phase4/src/include/engine/Parsing.h:674-677 | child(name): a node with that name among the children, null exactly when no child has the name |
| `ConfigReading.Named` | Phase4/src/include/engine/Parsing.h:295 | children(name): only elements with that name, each one a child |
| `ConfigReading.Stof` | Phase4/src/include/engine/Parsing.h:356 | stof on the empty text of a missing attribute throws |
| `ConfigReading.StofVec` | Phase4/src/include/engine/Parsing.h:402-406 | three stof conversions; any missing attribute makes it throw |
| `ConfigReading.AsFloat` | Phase4/src/include/engine/Parsing.h:300-304 | as_float(def) gives the default for a missing attribute |
| `ConfigReading.AsVec` | Phase4/src/include/engine/Parsing.h:679-697 | a missing element gives the default vector |
| `ConfigReading.AsInt` | Phase4/src/include/engine/Parsing.h:714-718 | as_int(def) gives the default for a missing attribute |
| `ConfigReading.QueryFloat` | Phase2/src/include/engine/ConfigParser.h:14-18 | the default survives a missing attribute |
| `ConfigReading.QueryInt` | Phase2/src/include/engine/ConfigParser.h:21-25 | the default survives a missing attribute |
| `ConfigReading.Points` | Phase4/src/include/engine/Parsing.h:362-369 | one control point per `point` child |
| `ConfigReading.ReadTransformCases` | Phase4/src/include/engine/Parsing.h:341-465 | other names are ignored; `time` makes translate and rotate animated; an animated translation keeps every point, is aligned exactly when `align` says true, and is dropped exactly when it has fewer than four points |
| `ConfigReading.TransformsWellFormed` | Phase4/src/include/engine/Parsing.h:383-393 | every animated translation kept has at least four points, and there are at most as many transforms as children |
| `ConfigReading.TransformsConcat` | Phase4/src/include/engine/Parsing.h:341 | document order: the transforms of two runs of children are those of the first followed by those of the second; the first error wins |
| `ConfigReading.ReadTransforms` | Phase4/src/include/engine/Parsing.h:331-471 | the loop's result is Transforms of the children, including the first error |
| `ConfigReading.ReadTransformAt` | Phase4/src/include/engine/Parsing.h:331-471 | one pass of the loop extends the transforms read so far by child i when it is a transform, keeps them when it is not, and stops at child i's error |
| `ConfigReading.TransformsFailurePersists` | Phase4/src/include/engine/Parsing.h:341-468 | once a child throws, later children do not change the outcome |
| `ConfigReading.MaterialFields` | Phase4/src/include/engine/Parsing.h:473-513 | a field no child names keeps its default; the last diffuse or shininess child decides the field |
| `ConfigReading.ReadMaterial` | Phase4/src/include/engine/Parsing.h:473-513 | the loop's result is MaterialOf the children |
| `ConfigReading.MaterialFailurePersists` | Phase4/src/include/engine/Parsing.h:477-509 | once a child throws, later children do not change the outcome |
| `ConfigReading.ReferenceOf` | Phase4/src/include/engine/Parsing.h:558-600 | a model reference keeps the `file` of its element |
| `ConfigReading.ReferenceStepsKeepFile` | Phase4/src/include/engine/Parsing.h:573-598 | texture and color children never change the model file; with neither kind of child the reference stays as started (no texture, default material) |
| `ConfigReading.References` | Phase4/src/include/engine/Parsing.h:550-605 | one reference per `model` child |
| `ConfigReading.GroupBody4Fields` | Phase4/src/include/engine/Parsing.h:639-666 | with no `transform` (`models`) child a group has no transforms (models); otherwise the last such child decides |
| `ConfigReading.ChildGroups4Count` | Phase4/src/include/engine/Parsing.h:607-665 | a group's subgroups are one per `group` child, in document order |
| `ConfigReading.AfterLights` | Phase4/src/include/engine/Parsing.h:291-329 | reading lights only appends, at most one light per `light` child |
| `ConfigReading.ReadLights` | Phase4/src/include/engine/Parsing.h:291-329 | the caster's list becomes AfterLights of the `light` children: point, directional or spot by `type`, 0 for missing coordinates, 30 for a missing cutoff |
| `ConfigReading.CameraOf` | Phase4/src/include/engine/Parsing.h:673-706 | a missing camera gives the default placement and projection |
| `ConfigReading.WindowOf` | Phase4/src/include/engine/Parsing.h:708-719 | a missing width or height is 512 |
| `ConfigReading.WorldOf` | Phase4/src/include/engine/Parsing.h:733-738 | the world node, if any, is named `world` |
| `ConfigReading.LoadWorld4` | Phase4/src/include/engine/Parsing.h:722-742 | lights are read only when a `lights` element exists; window and camera (initial and current) come from their elements; the groups are the world's `group` children |
| `ConfigReading.UnloadedWorld4` | Phase4/src/include/engine/Parsing.h:726-731 | a document that failed to load gives no groups, the default camera and the 512 by 512 window |
| `ConfigReading.FilesOfChild` | Phase4/src/include/engine/Parsing.h:254-283 | the files named under a child are among those of its parent |
| `ConfigReading.ChildFilesInParent` | Phase4/src/include/engine/Parsing.h:254-283 | the `//model` query of a subtree is within that of the tree |
| `ConfigReading.ReferenceStepsTexture` | Phase4/src/include/engine/Parsing.h:579-586 | a reference's texture is empty or the file of one of its `texture` children |
| `ConfigReading.ReferencesWithin` | Phase4/src/include/engine/Parsing.h:550-605 | references read from `model` elements name only files of those elements |
| `ConfigReading.GroupBody4Within` | Phase4/src/include/engine/Parsing.h:650-657 | the models of a group body name only files of its children |
| `ConfigReading.Group4Within` | Phase4/src/include/engine/Parsing.h:618-671 | every model and texture a group refers to was loaded by importModels / importTextures, except an empty name from a missing `file` |
| `ConfigReading.ChildGroups4Within` | Phase4/src/include/engine/Parsing.h:607-616 | the same for every subgroup |
| `ConfigReading.WorldGroups4Within` | Phase4/src/include/engine/Parsing.h:722-742 | the groups of a world refer only to files the document's queries return |
| `ConfigReading.ModelNames` | Phase3/src/include/engine/Parsing.h:367-401 | the `file` of every `model` child, in order, empty when absent |
| `ConfigReading.GroupBody3Colour` | Phase3/src/include/engine/Parsing.h:443-451 | a group has a colour exactly when it has a `colour` child, and the last one decides |
| `ConfigReading.Camera3NeedsAll` | Phase3/src/include/engine/Parsing.h:470-538 | a camera missing any of its twelve attributes, or missing altogether, makes readCamera throw |
| `ConfigReading.Window3` | Phase3/src/include/engine/Parsing.h:540-554 | a missing window makes stoi throw |
| `ConfigReading.LoadWorld3` | Phase3/src/include/engine/Parsing.h:556-576 | a loaded world's animated-translation up is the camera's up; a document that failed to load makes reading the window throw |
| `ConfigReading.LoadWorld3Outcome` | Phase3/src/include/engine/Parsing.h:566-572 | the world loads exactly when the window, the camera, every model file named anywhere in the document and the groups can be read, in any visiting order of the names; the storage then holds each of those files' vertices |
| `ConfigReading.Transform2` | Phase2/src/include/engine/ConfigParser.h:168-203 | a transform exactly for translate, rotate and scale children, and only of those three kinds |
| `ConfigReading.Transforms2` | Phase2/src/include/engine/ConfigParser.h:168-204 | at most one transform per child |
| `ConfigReading.Transform2Defaults` | Phase2/src/include/engine/ConfigParser.h:172-198 | children without attributes are the identity: translate 0, rotate 0 about 0, scale 1 |
| `ConfigReading.ModelFiles2` | Phase2/src/include/engine/ConfigParser.h:207-214 | only `model` children with a `file` attribute give a model, named by that file |
| `ConfigReading.Models2` | Phase2/src/include/engine/ConfigParser.h:207-215 | the group's models load exactly when no file makes stof throw, and then model i is the vertices of file i |
| `ConfigReading.ChildGroups2` | Phase2/src/include/engine/ConfigParser.h:136-146 | a parse gives one subgroup per `group` child |
| `ConfigReading.ChildGroups2NeedsAll` | Phase2/src/include/engine/ConfigParser.h:136-146 | the children parse only when every `group` child parses |
| `ConfigReading.Group2NeedsModels` | Phase2/src/include/engine/ConfigParser.h:207-218 | a group parses only when every model file of its `models` child loads and every subgroup parses |
| `ConfigReading.Group2FirstOnly` | Phase2/src/include/engine/ConfigParser.h:148-215 | only the first `colour`, `transform` and `models` children count: children appended later leave the colour, transforms and loaded models unchanged |
| `ConfigReading.Group2White` | Phase2/src/include/engine/ConfigParser.h:151-163 | a group without a colour child that parses is white |
| `ConfigReading.Window2` | Phase2/src/include/engine/ConfigParser.h:72-84 | 512 for a missing window or a missing attribute |
| `ConfigReading.Camera2` | Phase2/src/include/engine/ConfigParser.h:86-134 | a missing camera is the default; a projection without values reads 60, 1 and 1000 |
| `ConfigReading.Camera2EmptyUp` | Phase2/src/include/engine/ConfigParser.h:113-121 | an `up` element without attributes reads as the zero vector, not the default up |
| `ConfigReading.LoadFromFile` | Phase2/src/include/engine/ConfigParser.h:38-70 | the two error messages for an unloadable file and a missing world, and one group per `group` child of the world |
| `ConfigReading.LoadFromFileNeedsModels` | Phase2/src/include/engine/ConfigParser.h:38-70 | the world loads only when every top-level group parses, so a malformed model file in any group makes the load throw |
| `ObjFormat.Low32` | Phase4/src/include/engine/Parsing.h:141 | storing in an unsigned int keeps a value below 2^32 |
| `ObjFormat.Low32IsRemainder` | Phase4/src/include/engine/Parsing.h:141 | the stored value is the remainder modulo 2^32 |
| `ObjFormat.IndexOf` | Phase4/src/include/engine/Parsing.h:141 | a 1-based field is read exactly when stoul reads it, and the stored index fits 32 bits |
| `ObjFormat.OptionalIndex` | Phase4/src/include/engine/Parsing.h:144-151 | an empty field adds nothing; a present one appends exactly one index |
| `ObjFormat.ReadCornerEffect` | Phase4/src/include/engine/Parsing.h:135-151 | a corner without a vertex field throws; otherwise one vertex index is appended, plus one texture or normal index exactly when that field is present, and nothing else changes |
| `ObjFormat.ReadCornersCount` | Phase4/src/include/engine/Parsing.h:135-152 | each corner read appends one vertex index |
| `ObjFormat.ReadLineCases` | Phase4/src/include/engine/Parsing.h:87-153 | comment, empty and unknown lines change nothing; a face without exactly three corners throws; v, vn and vt lines append exactly one element to their own list; a face appends three vertex indices |
| `ObjFormat.Validated` | Phase4/src/include/engine/Parsing.h:155-161 | the import succeeds exactly when the texture and normal index lists are empty or as long as the vertex index list, and the mesh is unchanged |
| `ObjFormat.Imported` | Phase4/src/include/engine/Parsing.h:80-81 | a file that cannot be opened gives "Failed to open file: " and the path |
| `ObjFormat.ImportedCounts` | Phase4/src/include/engine/Parsing.h:73-164 | an imported mesh has consistent index counts and no buffers |
| `ObjFormat.ReadLinesKeepsBuffers` | Phase4/src/include/engine/Parsing.h:86-153 | reading lines never touches the buffer state |
| `ObjFormat.ImportOBJ` | Phase4/src/include/engine/Parsing.h:73-164 | the line loop gives Imported of the file, including the first error |
| `ObjFormat.VertexLines` | Phase4/src/include/engine/Parsing.h:38-39 | one line per vertex |
| `ObjFormat.NormalLines` | Phase4/src/include/engine/Parsing.h:44-49 | one line per normal |
| `ObjFormat.TexcoordLines` | Phase4/src/include/engine/Parsing.h:54-55 | one line per texture coordinate |
| `ObjFormat.FaceLines` | Phase4/src/include/engine/Parsing.h:59-67 | one line per face written |
| `ObjFormat.Exported` | Phase4/src/include/engine/Parsing.h:29-71 | the file has one line per vertex, normal and texcoord, three blank lines and ⌊\|vIndices\|/3⌋ faces |
| `ObjFormat.ExportOBJ` | Phase4/src/include/engine/Parsing.h:29-71 | the written lines are Exported of the mesh |
| `ObjFormat.WriteVertices` | Phase4/src/include/engine/Parsing.h:38-39 | the loop writes VertexLines |
| `ObjFormat.WriteNormals` | Phase4/src/include/engine/Parsing.h:43-49 | the loop writes NormalLines |
| `ObjFormat.WriteTexcoords` | Phase4/src/include/engine/Parsing.h:53-55 | the loop writes TexcoordLines |
| `ObjFormat.WriteFaces` | Phase4/src/include/engine/Parsing.h:59-67 | the loop, stopping at an incomplete triple, writes a face for every complete index triple |
| `ObjFormat.ReadLinesAppend` | Phase4/src/include/engine/Parsing.h:86 | reading two blocks of lines is reading the first and then the second from its result |
| `ObjFormat.VertexLinesRead` | Phase4/src/include/engine/Parsing.h:38-101 | written vertex lines read back as the same vertices |
| `ObjFormat.NormalLinesRead` | Phase4/src/include/engine/Parsing.h:44-109 | written normal lines read back as the same normals |
| `ObjFormat.TexcoordLinesRead` | Phase4/src/include/engine/Parsing.h:54-117 | written texcoord lines read back as the same texcoords |
| `ObjFormat.OneBasedReads` | Phase4/src/include/engine/Parsing.h:61-141 | a 1-based written index reads back as the index, including the wrap of 2^32−1 |
| `ObjFormat.FaceLinesRead` | Phase4/src/include/engine/Parsing.h:59-152 | the written faces read back as the index lists cut to the written faces |
| `ObjFormat.ExportThenImport` | Phase4/src/include/engine/Parsing.h:166-169 | exporting then importing gives the same vertices, normals and texcoords and the index lists cut to a multiple of three, without buffers |
| `Text.Word` | Phase4/src/include/engine/Parsing.h:93-94 | the extracted string is a whitespace-free prefix ending at whitespace or the end |
| `Text.Tokens` | Phase4/src/include/engine/Parsing.h:124-127 | every extracted token is non-empty and holds no whitespace |
| `Text.TokensOfSpaced` | Phase4/src/include/engine/Parsing.h:38-127 | tokenising words written with single spaces gives the words back |
| `Text.Split` | Phase4/src/include/engine/Parsing.h:136-151 | at least one field, none containing the delimiter |
| `Text.SplitOfJoined` | Phase4/src/include/engine/Parsing.h:61-151 | splitting fields joined by the delimiter gives the fields back |
| `Text.NatToString` | Phase4/src/include/engine/Parsing.h:61-64 | a non-empty string of digits whose value is the number |
| `Text.LeadingDigits` | Phase4/src/include/engine/Parsing.h:141 | the longest prefix of digits |
| `Text.TrimLeft` | Phase4/src/include/engine/Parsing.h:141 | leading whitespace removed and nothing else |
| `Text.Stoul` | Phase4/src/include/engine/Parsing.h:141 | a read value fits an unsigned long |
| `Text.Stoi` | Phase3/src/include/engine/Parsing.h:550-551 | a read value fits an int |
| `Text.StoulOfNatToString` | Phase4/src/include/engine/Parsing.h:61-141 | a written unsigned number reads back through stoul |
| `Text.StoiOfNatToString` | Phase3/src/include/engine/Parsing.h:550-551 | a written int-sized number reads back through stoi |
| `Text.ToLower` | Phase4/src/include/engine/Parsing.h:238-241 | upper-case letters map to lower case, everything else is kept |
| `Text.SaysTrue` | Phase4/src/include/engine/Parsing.h:235-243 | true exactly for the four letters of "true" in any mix of cases |
| `TriangleObj.Flatten` | Phase3/src/include/engine/Parsing.h:148-152 | three floats per position |
| `TriangleObj.Triplets` | Phase3/src/include/generator/Models.h:34-36 | float triplets as positions, undone by Flatten |
| `TriangleObj.PositionLines` | Phase3/src/include/generator/Models.h:34-36 | one `v` line per position |
| `TriangleObj.ExportToOBJ` | Phase3/src/include/generator/Models.h:24-39 | one `v` line per float triplet, in order |
| `TriangleObj.VertexIndex` | Phase3/src/include/engine/Parsing.h:104-120 | a face token is accepted only with an index between 1 and the number of vertices read so far |
| `TriangleObj.VertexIndexOfNumeral` | Phase3/src/include/engine/Parsing.h:107-111 | a written index, with or without `/vt/vn` after it, is accepted exactly when it is between 1 and the vertices seen |
| `TriangleObj.IndicesOf` | Phase3/src/include/engine/Parsing.h:102-121 | an accepted face has one valid index per token |
| `TriangleObj.IndicesOfAccepts` | Phase3/src/include/engine/Parsing.h:102-121 | a face is accepted exactly when each token is, and its indices are those of its tokens |
| `TriangleObj.RejectedPrefix` | Phase3/src/include/engine/Parsing.h:114-120 | one rejected token rejects the face whatever follows |
| `TriangleObj.ReadFaceIndices` | Phase3/src/include/engine/Parsing.h:102-121 | the token loop gives IndicesOf |
| `TriangleObj.FanTriangles` | Phase3/src/include/engine/Parsing.h:125-144 | k fan triangles are 9k floats |
| `TriangleObj.Picked` | Phase3/src/include/engine/Parsing.h:49-52 | one vertex per index |
| `TriangleObj.FaceFloatsCount` | Phase3/src/include/engine/Parsing.h:49-144 | a face of n >= 3 indices becomes n − 2 triangles (9 floats each), a shorter one nothing; direct emission gives 3 floats per index |
| `TriangleObj.FanTriangleAt` | Phase3/src/include/engine/Parsing.h:126-143 | fan triangle t is (first, t, t+1) and sits at floats 9(t−1)..9t |
| `TriangleObj.TriangleLoadsAlike` | Phase3/src/include/engine/Parsing.h:20-166 | on a triangle both loaders emit the same nine floats |
| `TriangleObj.Triangulate` | Phase3/src/include/engine/Parsing.h:125-144 | the fan loop emits FaceFloats(Fan) |
| `TriangleObj.LoadLineCases` | Phase3/src/include/engine/Parsing.h:89-146 | comments and empty lines change nothing; non-face lines emit nothing and add at most one vertex; a face fails exactly when an index is rejected, with the catch-all message, and otherwise appends its floats |
| `TriangleObj.Loaded` | Phase3/src/include/engine/Parsing.h:82-84 | a file that cannot be opened gives "Failed to open file: " and the path |
| `TriangleObj.LoadLinesAppend` | Phase3/src/include/engine/Parsing.h:89 | loading two blocks of lines is loading one after the other |
| `TriangleObj.FacelessEmitsNothing` | Phase3/src/include/engine/Parsing.h:89-146 | lines without faces emit nothing |
| `TriangleObj.FacelessLoadsVertices` | Phase3/src/include/engine/Parsing.h:148-154 | a file without faces loads as all its vertices in declaration order |
| `TriangleObj.PositionLineLoads` | Phase3/src/include/engine/Parsing.h:97-103 | a written `v` line reads back as its vertex |
| `TriangleObj.PositionLinesLoad` | Phase3/src/include/engine/Parsing.h:97-103 | written `v` lines read back as their vertices, in order |
| `TriangleObj.ExportThenLoad` | Phase3/src/include/generator/Models.h:24-39 | a file the generator wrote loads back as the floats it was given, with either loader |
| `TriangleObj.EmitDirect` | Phase3/src/include/engine/Parsing.h:46-66 | the old loader's face loop emits each accepted vertex, or rejects the face |
| `TriangleObj.AllVertices` | Phase3/src/include/engine/Parsing.h:71-75 | the fallback loop emits every vertex in order |
| `TriangleObj.LoadModelVertices` | Phase3/src/include/engine/Parsing.h:81-158 | the loader gives Loaded with fan triangulation |
| `TriangleObj.LoadModelVerticesOld` | Phase3/src/include/engine/Parsing.h:20-79 | the loader gives Loaded with direct emission |
| `CsvVertices.CsvFields` | Phase1/src/include/Model.h:54-66 | getline(',') delivers at most the comma-separated fields of the line |
| `CsvVertices.ReadCsvLineCases` | Phase1/src/include/Model.h:52-68 | a line with fewer than three convertible fields is skipped; three convertible fields are one vertex (later fields ignored); the line throws exactly when one of its first three fields does not convert |
| `CsvVertices.ReadCsv` | Phase1/src/include/Model.h:51-69 | at most one vertex per line |
| `CsvVertices.VerticesOf` | Phase1/src/include/Model.h:45-49 | a file that cannot be opened gives an empty model |
| `CsvVertices.CsvLines` | Phase1/src/include/Model.h:33-35 | one line per vertex |
| `CsvVertices.CsvLineReads` | Phase1/src/include/Model.h:33-68 | a written `x,y,z` line reads back as its vertex |
| `CsvVertices.CsvLinesRead` | Phase1/src/include/Model.h:18-74 | a file written by toFile reads back as exactly the vertices written, in order |
| `CsvVertices.VertexModel.constructor` | Phase1/src/include/Model.h:16 | a model holds the given vertices |
| `CsvVertices.VertexModel.ToFile` | Phase1/src/include/Model.h:18-38 | one line per vertex, or nothing when the file cannot be opened |
| `CsvVertices.VertexModel.FromFile` | Phase1/src/include/Model.h:40-74 | the new model's vertices are VerticesOf the file, or the stof exception |
| `CsvVertices.FailurePersists` | Phase1/src/include/Model.h:51-69 | an exception ends the read whatever follows |
| `CsvVertices.FloatModel.constructor` | Phase2/src/include/engine/Model.h:13 | an empty float list |
| `CsvVertices.FloatModel.AddVertex` | Phase2/src/include/engine/Model.h:15-19 | exactly x, y and z are appended, keeping the length a multiple of 3 |
| `CsvVertices.Load` | Phase2/src/include/engine/Model.h:32-62 | the loaded floats are the file's vertices flattened, or the stof exception |
| `CsvVertices.Save` | Phase2/src/include/generator/Models.h:732-750 | one `x,y,z` line per float triplet and true, or false and nothing when the file cannot be opened |
| `CsvVertices.SaveThenLoad` | Phase2/src/include/generator/Models.h:732-750 | a file the generator saved loads back as the same floats |
| `MeshIndices.VNormalWinding` | Phase4/src/engine/engine.cpp:64-74 | a degenerate triangle (cross product shorter than 1e-6) gets the normal (0, 1, 0) for either winding; otherwise the clockwise normal is the exact opposite of the counter-clockwise one |
| `MeshIndices.BilinearCorners` | Phase4/src/engine/engine.cpp:84-99 | bilinear interpolation returns the four corners at (u, v) = (0,0), (0,1), (1,1), (1,0) |
| `MeshIndices.LatticeAt` | Phase4/src/engine/engine.cpp:115-128 | in a grid filled row by row, the entry for (row, col) sits at row·cols + col, inside the list |
| `MeshIndices.Grid` | Phase4/src/engine/engine.cpp:115-128 | the nested grid loop appends exactly the row-major lattice of positions and texture coordinates, plus normals when the builder emits per-vertex normals |
| `MeshIndices.GridRow` | Phase4/src/engine/engine.cpp:118-127 | the column loop of one row appends that row's positions and texture coordinates, and its normals when asked, in column order |
| `MeshIndices.CellsInRange` | Phase4/src/engine/engine.cpp:130-147 | if every cell of a cell loop names indices in [lo, hi), so does the whole index list |
| `MeshIndices.CellsLength` | Phase4/src/engine/engine.cpp:130-147 | a cell loop whose rows each append the same number of indices appends rows times that many |
| `MeshIndices.CellsAgree` | Phase4/src/engine/engine.cpp:130-147 | two index channels whose cells agree produce the same index list |
| `MeshIndices.PlaneIndices` | Phase4/src/engine/engine.cpp:130-147 | a plane with d divisions has 6·d² position and normal indices, every position index below (d+1)², every normal index 0, and texture indices equal to position indices |
| `MeshIndices.SphereIndices` | Phase4/src/engine/engine.cpp:424-457 | for at least two stacks the sphere has 6·slices·(stacks−1) indices, all below 2 + (slices+1)·(stacks−1), and its normal and texture indices equal its position indices |
| `MeshIndices.SphereSingleStack` | Phase4/src/engine/engine.cpp:424-457 | with one stack the cell loop still emits the first bottom-fan triangle, whose index 2 + c₁ names a vertex that does not exist (only the two poles are built) |
| `MeshIndices.ConeCellInRange` | Phase4/src/engine/engine.cpp:518-550 | each cone cell names position and normal indices below 2 + (slices+1)·stacks |
| `MeshIndices.ConeIndices` | Phase4/src/engine/engine.cpp:518-550 | the cone has 6·slices·stacks position and normal indices, all below 2 + (slices+1)·stacks |
| `MeshIndices.ConeBottomFan` | Phase4/src/include/generator/Models.h:768-799 | the bottom fan's normal indices are all the bottom normal (0); its first texture index is the top's (1) in the generator and the bottom's (0) in the engine; every other cell reuses the position indices for normals and texture coordinates |
| `MeshIndices.TubeIndices` | Phase4/src/engine/engine.cpp:609-660 | the tube has 24 indices per slice, positions below 8·(slices+1), normals below 4·(slices+1), texture indices equal to position indices |
| `MeshIndices.BezierCellInRange` | Phase4/src/engine/engine.cpp:756-786 | each quad of a patch names vertices within the patch's own (tess+1)² block and, under flat shading, a normal within the patch's tess² block |
| `MeshIndices.BezierPatchIndices` | Phase4/src/engine/engine.cpp:752-787 | a patch appends 6·tess² position indices inside its vertex block, texture indices equal to position indices, and 6·tess² normal indices that equal the position indices when smooth |
| `MeshIndices.BezierPatchLengths` | Phase4/src/engine/engine.cpp:756-787 | a patch appends 6·tess² position indices and 6·tess² normal indices |
| `MeshIndices.BezierPatchRanges` | Phase4/src/engine/engine.cpp:756-787 | a patch's position indices name its own (tess+1)² vertices, and under flat shading its normal indices name its own tess² quad normals |
| `MeshIndices.CellLoop` | Phase4/src/engine/engine.cpp:130-147 | the nested cell loop appends exactly the cells of the scheme, in loop order, to each of the three index lists |
| `MeshIndices.CellRowLoop` | Phase4/src/engine/engine.cpp:131-153 | the column loop of one row appends exactly that row's cells, in column order, to each of the three index lists |
| `MeshIndices.GridIndex` | Phase4/src/engine/engine.cpp:133-137 | the index row·(cols) + col of a grid cell lies inside the grid |
| `MeshIndices.PlaneAux` | Phase4/src/engine/engine.cpp:101-157 | planeAux builds (d+1)² bilinear vertices and texture coordinates (texture (v, u)), one normal from the first three corners, and 6·d² indices that all name existing vertices and normals, texture indices equal to position indices |
| `MeshIndices.PlaneAttributes` | Phase4/src/engine/engine.cpp:117-128 | the attribute loop gives (d+1)² vertices and texture coordinates, with the bilinear point and the (v, u) texture coordinate of grid point (row, col) at row·(d+1) + col |
| `MeshIndices.PlaneLattice` | Phase4/src/engine/engine.cpp:117-128 | in the row-major lattice of planeAux, grid point (row, col) sits at row·(d+1) + col |
| `MeshIndices.PlaneCorners` | Phase4/src/engine/engine.cpp:163-174 | the plane's four corners lie on y = 0 |
| `MeshIndices.Plane` | Phase4/src/engine/engine.cpp:163-174 | the plane of side length is planeAux on the centred square in y = 0: (d+1)² vertices, 6·d² in-range indices |
| `MeshIndices.Shift` | Phase4/src/engine/engine.cpp:260-266 | shifting an index list adds the offset to every index and keeps its length |
| `MeshIndices.Merge` | Phase4/src/engine/engine.cpp:253-278 | merging faces concatenates their vertices, normals and texture coordinates, shifts each face's indices by the vertices before it, and gives every index of face f the normal index of the normals before it |
| `MeshIndices.AppendFaceIndices` | Phase4/src/engine/engine.cpp:261-265 | one face's pass appends its vertex indices shifted by the vertex offset to the position and texture lists, and one copy of the normal offset per index to the normal list |
| `MeshIndices.MergeUniform` | Phase4/src/engine/engine.cpp:253-278 | merging faces of equal shape gives \|faces\|·perFace vertices, one normal per face, in-range position indices, and normal indices that number the faces |
| `MeshIndices.MergeCounts` | Phase4/src/engine/engine.cpp:253-268 | merging n faces of V vertices, one normal and I indices each gives n·V vertices, n normals and n·I indices |
| `MeshIndices.MergeInRange` | Phase4/src/engine/engine.cpp:253-268 | after merging faces whose indices name their own vertices, every merged index names one of the merged vertices |
| `MeshIndices.MergeNormalFaces` | Phase4/src/engine/engine.cpp:253-268 | after merging faces of one normal each, every index of face k names normal k |
| `MeshIndices.Face` | Phase4/src/engine/engine.cpp:193-251 | each box face is a planeAux square: (d+1)² vertices, one normal, 6·d² indices below (d+1)² |
| `MeshIndices.Box` | Phase4/src/engine/engine.cpp:176-279 | the box (and skybox) has 6·(d+1)² vertices, six normals, 6·6·d² in-range indices whose normal index is the face number, and texture indices equal to position indices |
| `MeshIndices.TexcoordsCount` | Phase4/src/engine/engine.cpp:258 | concatenating faces of perFace texture coordinates each gives \|faces\|·perFace of them |
| `MeshIndices.FanLoop` | Phase4/src/engine/engine.cpp:518-550 | the slice-by-band loop with the early break at the top triangle appends exactly the fan scheme's cells |
| `MeshIndices.FanSlice` | Phase4/src/engine/engine.cpp:527-549 | one slice of the fan loop appends exactly that slice's row of cells |
| `MeshIndices.SphereVertexList` | Phase4/src/engine/engine.cpp:389-422 | the sphere has the two poles plus (slices+1)·(stacks−1) ring vertices |
| `MeshIndices.SphereVertexAt` | Phase4/src/engine/engine.cpp:408-421 | ring vertex (slice, stack) sits at 2 + slice·(stacks−1) + stack−1 with its position, unit normal and texture coordinate |
| `MeshIndices.SphereScaled` | Phase4/src/engine/engine.cpp:389-421 | every sphere vertex, poles included, is its normal scaled by the radius |
| `MeshIndices.SphereVertices` | Phase4/src/engine/engine.cpp:389-422 | the sphere's vertex loop produces exactly the pole-then-rings vertex, normal and texture lists |
| `MeshIndices.Sphere` | Phase4/src/engine/engine.cpp:387-466 | sphere returns the pole-then-rings lists, each vertex its normal scaled by the radius, the fan index scheme on all three channels, and for two or more stacks 6·slices·(stacks−1) in-range indices |
| `MeshIndices.ConeVertexList` | Phase4/src/engine/engine.cpp:470-512 | the cone has bottom and apex plus (slices+1)·stacks ring vertices |
| `MeshIndices.ConeVertexAt` | Phase4/src/engine/engine.cpp:489-511 | ring vertex (slice, stack) sits at 2 + slice·stacks + stack with its position and normal |
| `MeshIndices.ConeOnSurface` | Phase4/src/engine/engine.cpp:492-502 | every ring vertex lies on the cone: at height h its distance from the axis along its slice's yaw is radius·(1 − h/height) |
| `MeshIndices.ConeVertices` | Phase4/src/engine/engine.cpp:470-512 | the cone's vertex loop produces exactly the bottom-apex-rings vertex, normal and texture lists |
| `MeshIndices.Cone` | Phase4/src/engine/engine.cpp:469-560 | cone returns those lists and the fan index scheme, 6·slices·stacks position and normal indices, all naming existing entries |
| `MeshIndices.TubeSliceVertices` | Phase4/src/engine/engine.cpp:580-606 | each slice contributes eight vertices (outer wall, inner wall, top cap, bottom cap) |
| `MeshIndices.TubeVertexAt` | Phase4/src/engine/engine.cpp:574-607 | vertex k of slice s sits at 8·s + k |
| `MeshIndices.TubeCapsMeetWalls` | Phase4/src/engine/engine.cpp:580-606 | the cap vertices coincide with the wall rims (top cap with the upper rims, bottom cap with the lower rims) and the inner wall's normal is the opposite of the outer wall's |
| `MeshIndices.TubeVertices` | Phase4/src/engine/engine.cpp:574-607 | the tube's vertex loop produces exactly slices+1 slices of eight vertices, four normals and eight texture coordinates |
| `MeshIndices.TubeIndexLoop` | Phase4/src/engine/engine.cpp:612-660 | the tube's index loop appends exactly the tube scheme's cells |
| `MeshIndices.TubeSlice` | Phase4/src/engine/engine.cpp:613-659 | one slice appends the outer wall, inner wall, top cap and bottom cap quads in that order |
| `MeshIndices.Tube` | Phase4/src/engine/engine.cpp:562-670 | tube returns those lists and 24·slices indices naming existing vertices and normals, texture indices equal to position indices |
| `MeshIndices.TransposedSlotInvolution` | Phase4/src/engine/engine.cpp:692-696 | the transposed slot col·4 + row of slot row·4 + col, applied twice, gives the slot back |
| `MeshIndices.TransposedTwice` | Phase4/src/engine/engine.cpp:692-696 | transposing a 16-index patch twice gives the patch back |
| `MeshIndices.TransposedInput` | Phase4/src/engine/engine.cpp:684-700 | transposing keeps the number of patches and the control points, and keeps every index in range |
| `MeshIndices.ReadPatches` | Phase4/src/engine/engine.cpp:684-700 | the read loop stores each patch transposed when asked and as read otherwise |
| `MeshIndices.PlacePatch` | Phase4/src/engine/engine.cpp:687-697 | one patch's 16 indices land in their transposed slots (slot col·4 + row for index row·4 + col) when asked, in their own slots otherwise |
| `MeshIndices.ReadBezierFile` | Phase4/src/engine/engine.cpp:673-716 | a file that cannot be opened gives no patches and no control points; otherwise the patches come back transposed with the control points as read |
| `MeshIndices.LoadControlPoints` | Phase4/src/engine/engine.cpp:732-735 | the control-point loop gathers the patch's sixteen control points in slot order |
| `MeshIndices.QuadInPatch` | Phase4/src/engine/engine.cpp:761-762 | the first three corners of a patch quad are increasing and inside the patch's vertex block |
| `MeshIndices.FlatNormals` | Phase4/src/engine/engine.cpp:776-785 | flat shading adds one normal per quad: rows·tess of them |
| `MeshIndices.BezierQuadRow` | Phase4/src/engine/engine.cpp:758-786 | one row of the quad loop appends exactly that row's cells and, under flat shading, one normal per quad |
| `MeshIndices.BezierQuadStep` | Phase4/src/engine/engine.cpp:758-785 | one pass of the inner quad loop extends the row's three index lists by quad w's cells and, under flat shading, the normals by that quad's normal |
| `MeshIndices.BezierQuadCell` | Phase4/src/engine/engine.cpp:761-784 | quad (u, w) appends (v00, v10, v11, v00, v11, v01) to the position and texture lists; smooth shading repeats them as normal indices, flat shading pushes the quad's normal and names it six times |
| `MeshIndices.BezierQuads` | Phase4/src/engine/engine.cpp:756-787 | the patch's quad loop appends exactly the patch's cells and, under flat shading, its tess² quad normals |
| `MeshIndices.BezierVertexList` | Phase4/src/engine/engine.cpp:739-750 | n patches give n·(tess+1)² vertices and texture coordinates |
| `MeshIndices.BezierNormalList` | Phase4/src/engine/engine.cpp:748-784 | n patches give n·(tess+1)² normals when smooth and n·tess² when flat |
| `MeshIndices.BezierIndices` | Phase4/src/engine/engine.cpp:752-787 | n patches give n·6·tess² position indices below n·(tess+1)², equal texture indices, and normal indices that equal the position indices when smooth and stay below n·tess² when flat |
| `MeshIndices.BezierInputOf` | Phase4/src/engine/engine.cpp:727 | an unreadable file gives a well-indexed input with no patches; a readable one keeps its patch count |
| `MeshIndices.BezierStep` | Phase4/src/engine/engine.cpp:729-788 | one pass of the patch loop extends the mesh of the first p patches to that of the first p + 1 |
| `MeshIndices.BezierMeshShape` | Phase4/src/engine/engine.cpp:718-798 | the Bézier mesh has n·(tess+1)² vertices, the smooth or flat normal count, n·6·tess² indices naming existing vertices and normals, texture indices equal to position indices, and normal indices equal to them when smooth |
| `MeshIndices.Bezier` | Phase4/src/engine/engine.cpp:718-798 | bezier tessellates every patch of the file in order |
| `MeshIndices.SurfaceScaled` | Phase4/src/engine/engine.cpp:76-82 | cartesian(pitch, yaw, radius) is the unit-radius point scaled by the radius |
| `MeshIndices.LatticeScaled` | Phase4/src/engine/engine.cpp:416-417 | if every position is its normal scaled by the radius, the position lattice is the normal lattice scaled by the radius |
| `Phase1Shapes.GenerateSquarePlane` | Phase1/src/include/SquarePlane.h:19-58 | the row-by-column loop appends exactly the plane's cells, each cell (v1, v2, v3, v3, v4, v1) |
| `Phase1Shapes.PlaneGrid` | Phase1/src/include/SquarePlane.h:29-57 | a d×d grid of plane cells has 6·d² vertices, all at the plane's height, and within the square when the grid lines are |
| `Phase1Shapes.SquarePlaneShape` | Phase1/src/include/SquarePlane.h:19-58 | the square plane has 6·d² vertices, all at its height and, for a non-negative length, inside the centred square of half-side length/2 |
| `Phase1Shapes.QuadWithin` | Phase1/src/include/SquarePlane.h:44-55 | a cell whose coordinates lie in [−h, h] stays in the square |
| `Phase1Shapes.GenerateSquareBox` | Phase1/src/include/SquareBox.h:18-156 | the six face loops (right, top, front, left, bottom, back) append exactly the box's cells in that order |
| `Phase1Shapes.FaceGrid` | Phase1/src/include/SquareBox.h:31-155 | each face has 6·d² vertices, all on that face's plane, and inside the cube when the grid lines are |
| `Phase1Shapes.SquareBoxShape` | Phase1/src/include/SquareBox.h:18-156 | the box has 36·d² vertices, and the f-th run of 6·d² lies on face f |
| `Phase1Shapes.SquareBoxWithin` | Phase1/src/include/SquareBox.h:18-156 | for a non-negative length every box vertex lies in the cube of half-side length/2 |
| `Phase1Shapes.FaceOn` | Phase1/src/include/SquareBox.h:42-48 | a face cell has six vertices, all on its face's plane |
| `Phase1Shapes.FaceWithin` | Phase1/src/include/SquareBox.h:42-48 | a face cell with in-range coordinates stays in the cube |
| `Phase1Shapes.PoleToPole` | Phase1/src/include/Sphere.h:46-47 | the stack angle runs from π/2 at the first ring to −π/2 at the last |
| `Phase1Shapes.PoleCutLength` | Phase1/src/include/Sphere.h:88-98 | a sphere cell drops its first triangle on the last stack and its second on the first stack |
| `Phase1Shapes.GenerateSphere` | Phase1/src/include/Sphere.h:19-101 | the stack-by-slice loop appends exactly the sphere's cells |
| `Phase1Shapes.SphereRowLength` | Phase1/src/include/Sphere.h:88-98 | a stack appends 6·slices vertices, 3·slices on the first or last stack, none when it is both |
| `Phase1Shapes.SphereRows` | Phase1/src/include/Sphere.h:44-100 | the first n stacks (n below the stack count) append 6·n·slices − 3·slices vertices |
| `Phase1Shapes.SphereCount` | Phase1/src/include/Sphere.h:19-101 | the sphere has 6·slices·(stacks−1) vertices, none for zero stacks |
| `Phase1Shapes.GenerateCone` | Phase1/src/include/Cone.h:20-87 | the base loop then the stack-by-slice loop append exactly the cone's base and side cells |
| `Phase1Shapes.ConeShape` | Phase1/src/include/Cone.h:20-87 | the cone has 3·slices + 6·slices·stacks vertices, and its first 3·slices form base triangles on y = 0 containing the centre |
| `Phase1Shapes.BaseShape` | Phase1/src/include/Cone.h:25-41 | the base has 3·slices vertices, each triangle (rim, centre, next rim) on y = 0 when the rim is |
| `Phase1Shapes.SidesLength` | Phase1/src/include/Cone.h:43-86 | the sides have 6·stacks·slices vertices |
| `Phase1Shapes.ConeApex` | Phase1/src/include/Cone.h:44-85 | the first ring is the base rim, the rings run from height 0 to the full height, and the last stack's top vertices are all the apex (0, height, 0) |
| `Phase1Shapes.RingEnds` | Phase1/src/include/Cone.h:46-49 | ring radius runs from radius to 0 and ring height from 0 to height |
| `Phase2Shapes.GeneratePlane` | Phase2/src/include/generator/Models.h:453-480 | the plane's floats are the first phase's square plane written out as x, y, z |
| `Phase2Shapes.PlaneFloats` | Phase2/src/include/generator/Models.h:453-480 | the plane has 18·d² floats, and reading them back three at a time gives the plane's vertices |
| `Phase2Shapes.GenerateBox` | Phase2/src/include/generator/Models.h:482-550 | the face-by-row-by-column loop writes exactly the box's cells as floats, back faces wound clockwise |
| `Phase2Shapes.FaceOn` | Phase2/src/include/generator/Models.h:502-545 | a face cell has six vertices, all on its face's plane |
| `Phase2Shapes.FaceWithin` | Phase2/src/include/generator/Models.h:502-545 | a face cell with in-range coordinates stays in the cube |
| `Phase2Shapes.FaceGrid` | Phase2/src/include/generator/Models.h:494-547 | each face has 6·d² vertices on its plane, inside the cube when the grid lines are |
| `Phase2Shapes.BoxShape` | Phase2/src/include/generator/Models.h:482-550 | the box has 36·d² vertices, and the f-th run of 6·d² lies on face f (right, top, front, left, bottom, back) |
| `Phase2Shapes.BoxWithin` | Phase2/src/include/generator/Models.h:482-550 | for a non-negative length every box vertex lies in the cube of half-side length/2 |
| `Phase2Shapes.GenerateSphere` | Phase2/src/include/generator/Models.h:552-588 | the stack-by-slice loop writes exactly the sphere's cells as floats |
| `Phase2Shapes.SphereRowLength` | Phase2/src/include/generator/Models.h:569-583 | the first stack appends 3·slices vertices (no upper triangle), every other stack 6·slices |
| `Phase2Shapes.SphereCount` | Phase2/src/include/generator/Models.h:552-588 | the sphere has 3·slices·(2·stacks − 1) vertices (9·slices·(2·stacks − 1) floats): the last stack keeps both triangles |
| `Phase2Shapes.GenerateCone` | Phase2/src/include/generator/Models.h:590-644 | the stack-by-slice loop writes exactly the cone's cells as floats |
| `Phase2Shapes.ConeBaseRepeated` | Phase2/src/include/generator/Models.h:608-640 | every stack but the last writes a base triangle (rim, centre, next rim) before its side triangles; the last stack writes only the lower side triangle |
| `Phase2Shapes.ConeCount` | Phase2/src/include/generator/Models.h:590-644 | the cone has 3·slices·(3·stacks − 2) vertices: the base is written stacks − 1 times |
| `Phase2Shapes.ConeOneStack` | Phase2/src/include/generator/Models.h:608-640 | with one stack the cone is only its 3·slices side triangles: no base at all |
| `Phase2Shapes.GenerateTube` | Phase2/src/include/generator/Models.h:646-716 | the slice loop writes exactly the tube's cells as floats |
| `Phase2Shapes.TubeCellShape` | Phase2/src/include/generator/Models.h:672-713 | each slice writes 24 vertices, the top-cap six at height/2 and the bottom-cap six at −height/2 |
| `Phase2Shapes.TubeShape` | Phase2/src/include/generator/Models.h:646-716 | the tube has 24·slices vertices (72·slices floats), slice s's caps at ±height/2 |
| `Phase3Shapes.FlattenSix` | Phase3/src/include/generator/Models.h:237-259 | six vertices write out as their eighteen coordinates in order |
| `Phase3Shapes.FlattenThree` | Phase3/src/include/generator/Models.h:237-259 | three vertices write out as their nine coordinates in order |
| `Phase3Shapes.AddQuad` | Phase3/src/include/generator/Models.h:222-261 | addQuad appends the quad's two triangles (v1, v2, v3), (v1, v3, v4), or (v1, v3, v2), (v1, v4, v3) facing away: eighteen floats |
| `Phase3Shapes.AddQuadGrid` | Phase3/src/include/generator/Models.h:268-283 | a row-by-column loop of addQuad appends exactly the grid of quads |
| `Phase3Shapes.AddQuadRow` | Phase3/src/include/generator/Models.h:272-282 | the column loop of one row appends that row's quads, as floats, in column order |
| `Phase3Shapes.QuadGridSize` | Phase3/src/include/generator/Models.h:268-283 | a grid of quads has 6·rows·cols vertices |
| `Phase3Shapes.QuadGridAll` | Phase3/src/include/generator/Models.h:268-283 | a property every quad corner has holds of every grid vertex |
| `Phase3Shapes.GeneratePlane` | Phase3/src/include/generator/Models.h:263-286 | the plane is the grid of front-facing quads on y = 0 |
| `Phase3Shapes.PlaneShape` | Phase3/src/include/generator/Models.h:263-286 | the plane has 18·d² floats, all at y = 0 and, for a non-negative length, inside the centred square |
| `Phase3Shapes.GenerateBox` | Phase3/src/include/generator/Models.h:288-403 | the six face grids appended in order, alternately front- and back-facing |
| `Phase3Shapes.FaceOn` | Phase3/src/include/generator/Models.h:288-403 | every corner of a face quad lies on that face's plane |
| `Phase3Shapes.FaceGrid` | Phase3/src/include/generator/Models.h:288-403 | each face has 6·d² vertices on its plane, inside the cube when the grid lines are |
| `Phase3Shapes.BoxShape` | Phase3/src/include/generator/Models.h:288-403 | the box has 108·d² floats and the f-th face's run lies on its plane |
| `Phase3Shapes.BoxWithin` | Phase3/src/include/generator/Models.h:288-403 | for a non-negative length every box vertex lies in the cube of half-side length/2 |
| `Phase3Shapes.FaceOutward` | Phase3/src/include/generator/Models.h:288-403 | with increasing grid coordinates every triangle of a face quad has its right-hand normal along the face's outward axis |
| `Phase3Shapes.BoxOutward` | Phase3/src/include/generator/Models.h:288-403 | for a positive length every triangle of the box faces outward |
| `Phase3Shapes.CoordsIncrease` | Phase3/src/include/generator/Models.h:288-403 | for a positive length the grid lines increase |
| `Phase3Shapes.GenerateSphere` | Phase3/src/include/generator/Models.h:405-445 | the stack-by-slice loop writes exactly the sphere's cells as floats |
| `Phase3Shapes.SphereCellMatchesPhase2` | Phase3/src/include/generator/Models.h:405-445 | each sphere cell has the second phase's vertices, the upper triangle rotated to start at t1 |
| `Phase3Shapes.SphereRowLength` | Phase3/src/include/generator/Models.h:405-445 | the first stack appends 3·slices vertices, every other 6·slices |
| `Phase3Shapes.SphereCount` | Phase3/src/include/generator/Models.h:405-445 | the sphere has 9·slices·(2·stacks − 1) floats |
| `Phase3Shapes.GenerateCone` | Phase3/src/include/generator/Models.h:447-534 | the stack-by-slice loop writes exactly the cone's cells as floats |
| `Phase3Shapes.ConeCellShape` | Phase3/src/include/generator/Models.h:503-530 | every cone cell has six vertices: a side quad below the last stack, and on the last stack the lower side triangle then the base triangle (rim, centre, next rim) |
| `Phase3Shapes.ConeLastRow` | Phase3/src/include/generator/Models.h:512-530 | in the last stack's row, slice s's base triangle sits at 6·s + 3 |
| `Phase3Shapes.ConeBelowLast` | Phase3/src/include/generator/Models.h:503-511 | when every upper ring is above y = 0, every side triangle below the last stack is above the base |
| `Phase3Shapes.ConeBaseOnce` | Phase3/src/include/generator/Models.h:447-534 | the cone has 6·slices·stacks vertices; the base is written exactly once, in the last stack, and for a positive height nothing before the last stack touches the base plane |
| `Phase3Shapes.ConeRaised` | Phase3/src/include/generator/Models.h:485-511 | for a positive height the stacks below the last are above the base |
| `Phase3Shapes.AddTubeSlice` | Phase3/src/include/generator/Models.h:561-599 | one slice appends the top, bottom, outer and inner quads |
| `Phase3Shapes.AddTubeSlices` | Phase3/src/include/generator/Models.h:544-600 | the slice loop appends exactly the tube's cells |
| `Phase3Shapes.GenerateTube` | Phase3/src/include/generator/Models.h:536-602 | the tube is the slice cells written as floats |
| `Phase3Shapes.TubeCellIs` | Phase3/src/include/generator/Models.h:549-599 | the slice's 24 vertices are the four quads of its rim points, in that order and winding |
| `Phase3Shapes.TubeCellShape` | Phase3/src/include/generator/Models.h:561-579 | each slice has 24 vertices, the top cap at height/2 and the bottom cap at −height/2 |
| `Phase3Shapes.TubeCapsMatchPhase2` | Phase3/src/include/generator/Models.h:561-579 | the caps are the second phase's cap triangles with their vertices rotated, so wound the same way |
| `Phase3Shapes.TubeShape` | Phase3/src/include/generator/Models.h:536-602 | the tube has 72·slices floats and slice s's caps at ±height/2 |
| `Phase3Shapes.AddPatch` | Phase3/src/include/generator/Models.h:642-675 | one patch appends its tess² quads of evaluated surface points |
| `Phase3Shapes.GenerateBezier` | Phase3/src/include/generator/Models.h:604-679 | a file that cannot be opened gives no floats; otherwise every patch's quads in patch order |
| `Phase3Shapes.SurfaceCornersAreControlPoints` | Phase3/src/include/generator/Models.h:662-665 | the patch surface's corners (u, v ∈ {0, 1}) are control points 0, 3, 12 and 15 |
| `Phase3Shapes.SurfacesShape` | Phase3/src/include/generator/Models.h:642-676 | n patches give 18·tess²·n floats |
| `Phase3Shapes.SurfaceFirst` | Phase3/src/include/generator/Models.h:652-673 | one patch's tess × tess quads give 6·tess² vertices, the first being the surface point at (0, 0) |
| `Phase3Shapes.BezierShape` | Phase3/src/include/generator/Models.h:604-679 | the Bézier soup has 18·tess²·\|patches\| floats, and patch p's run starts at its first control point |
| `SoupGrid.ConcatUniform` | Phase2/src/include/generator/Models.h:459-478 | parts of k entries each concatenate to n·k entries |
| `SoupGrid.ConcatBlock` | Phase2/src/include/generator/Models.h:489-548 | with parts of k entries, part i is the slice [i·k, (i+1)·k) of the concatenation |
| `SoupGrid.ConcatRunFirst` | Phase2/src/include/generator/Models.h:489-548 | with non-empty parts of k entries, the concatenation holds n·k entries and entry i·k is the first of part i |
| `SoupGrid.GridUniform` | Phase2/src/include/generator/Models.h:459-478 | a rows×cols grid of k-entry cells has rows·cols·k entries |
| `SoupGrid.ShortFirstPart` | Phase2/src/include/generator/Models.h:555-585 | a first part of s entries followed by parts of 2·s gives 2·n·s − s entries |
| `SoupGrid.ConcatAll` | Phase2/src/include/generator/Models.h:459-478 | a property of every part's entries holds of the concatenation |
| `SoupGrid.GridAll` | Phase2/src/include/generator/Models.h:459-478 | a property of every cell's entries holds of the grid |
| `SoupGrid.ConcatTriangles` | Phase2/src/include/generator/Models.h:459-478 | a property of every triangle of every part holds of every triangle of the concatenation |
| `SoupGrid.GridTriangles` | Phase2/src/include/generator/Models.h:459-478 | a property of every triangle of every cell holds of every triangle of the grid |
| `SoupGrid.CoordNext` | Phase2/src/include/generator/Models.h:456-465 | successive grid lines are one step apart |
| `SoupGrid.CoordEnds` | Phase2/src/include/generator/Models.h:456-465 | the grid lines run from −length/2 to length/2 |
| `SoupGrid.CoordWithin` | Phase2/src/include/generator/Models.h:456-465 | every grid line lies in [−length/2, length/2] |
| `SoupGrid.CoordsWithin` | Phase2/src/include/generator/Models.h:456-465 | the grid lines up to d are bounded by length/2 |
| `SoupGrid.QuadWinding` | Phase3/src/include/generator/Models.h:237-259 | the back-facing quad is the front-facing one with each triangle's last two vertices swapped, so each triangle's normal is negated |
| `SoupGrid.FlattenAppend` | Phase2/src/include/generator/Models.h:467-476 | writing out vertices as floats distributes over concatenation |
| `SoupGrid.TripletsFlatten` | Phase2/src/include/generator/Models.h:467-476 | reading floats back three at a time returns the vertices written |
| `SoupGrid.FlattenConcat` | Phase2/src/include/generator/Models.h:459-478 | writing each part as floats then concatenating equals writing the concatenation |
| `SoupGrid.FlattenGrid` | Phase2/src/include/generator/Models.h:459-478 | writing each cell as floats in grid order equals writing the grid |
| `Cycles.Cycled` | Phase4/src/engine/engine.cpp:826-829 | next() of an n-mode setting moves one mode forward and wraps from the last mode to the first, always staying a valid mode |
| `Cycles.CycledTimesIs` | Phase4/src/engine/engine.cpp:826-829 | k presses move the mode k places forward modulo n |
| `Cycles.CycleReturns` | Phase4/src/engine/engine.cpp:826-829 | a setting returns to its mode after k presses exactly when k is a multiple of the number of modes |
| `UiState.Enumerate` | Phase4/src/engine/engine.cpp:1110-1117 | the held keys are visited each exactly once |
| `UiState.Pressed` | Phase4/src/engine/engine.cpp:1076-1107 | only keys '1' to '5' change the render settings, and every key keeps every mode in range and the culling and filter state in step with its mode |
| `UiState.KeyTwoShowsPaths` | Phase4/src/engine/engine.cpp:1085-1090 | key '2' flips the axes, the model axes and the light markers and leaves the paths shown whatever they were (the toggle hides them, the key's own flip shows them), changing nothing else |
| `UiState.FilterCycle` | Phase4/src/engine/engine.cpp:908-912 | anisotropy is on exactly at the fourth filter mode, and four presses of '5' give the settings back |
| `UiState.IdleKeysKeepPlacement` | Phase4/src/engine/engine.cpp:1110-1113 | held keys that no camera handler knows leave the camera where it is |
| `UiState.FourthUi.constructor` | Phase4/src/engine/engine.cpp:1158-1160 | the settings start from their initial values, then main culls back faces and turns lighting on before the main loop |
| `UiState.FourthUi.KeyboardUp` | Phase4/src/engine/engine.cpp:1068-1070 | releasing a key removes it from the held keys and changes nothing else |
| `UiState.FourthUi.KeyboardSpecial` | Phase4/src/engine/engine.cpp:1072-1074 | pressing a special key adds it to the held special keys |
| `UiState.FourthUi.KeyboardSpecialUp` | Phase4/src/engine/engine.cpp:1064-1066 | releasing a special key removes it |
| `UiState.FourthUi.Keyboard` | Phase4/src/engine/engine.cpp:1076-1108 | a non-toggle key joins the held keys; the settings become Pressed(settings, key); 'c'/'C' switch the camera mode and nothing else touches the camera |
| `UiState.FourthUi.SettingKey` | Phase4/src/engine/engine.cpp:1080-1102 | the settings switch applies Pressed and leaves the held keys alone |
| `UiState.FourthUi.Update` | Phase4/src/engine/engine.cpp:1110-1117 | every held key, then every held special key, moves the camera once in turn |
| `UiState.FourthUi.ShowAxes` | Phase4/src/engine/engine.cpp:841-874 | drawing the axes, done only when they are on, shows the paths |
| `UiState.ThirdPressed` | Phase3/src/engine/engine.cpp:688-719 | only keys '1' to '4' change the third release's settings, and every mode stays in range with culling in step |
| `UiState.ThirdUi.constructor` | Phase3/src/engine/engine.cpp:765-766 | the settings start from their initial values, then main culls back faces before the main loop |
| `UiState.ThirdUi.KeyboardUp` | Phase3/src/engine/engine.cpp:680-682 | releasing a key removes it from the held keys |
| `UiState.ThirdUi.KeyboardSpecial` | Phase3/src/engine/engine.cpp:684-686 | pressing a special key adds it to the held special keys |
| `UiState.ThirdUi.KeyboardSpecialUp` | Phase3/src/engine/engine.cpp:676-678 | releasing a special key removes it |
| `UiState.ThirdUi.Keyboard` | Phase3/src/engine/engine.cpp:688-719 | a non-toggle key joins the held keys; '2' hides the paths, '5' steps the path tessellation level cyclically, 'c'/'C' toggle the camera mode |
| `UiState.ThirdUi.Update` | Phase3/src/engine/engine.cpp:721-731 | every held key, then every held special key, moves the camera once in turn |
| `UiState.SecondUi.Keyboard` | Phase2/src/engine/engine.cpp:434-444 | every key goes to the camera first; then '1' cycles the polygon mode, '2' toggles the axes and '3' cycles the culling mode |
| `UiState.SecondUi.KeyboardSpecial` | Phase2/src/engine/engine.cpp:430-432 | special keys go straight to the camera |
| `UiState.PrototypeUi.Keyboard` | Phase2/src/include/engine/GraphicsUtils.h:121-135 | 'w', 's', 'a', 'd' move the camera, space cycles the polygon mode, other keys do nothing |
| `UiState.Clock.Update` | Phase4/src/engine/engine.cpp:932-937 | the clock keeps the previous time and the frame delta in seconds |
| `UiState.DeltasAddUp` | Phase4/src/engine/engine.cpp:932-937 | the frame deltas of a run add up to the elapsed time from the start to the last frame, in seconds |
| `UiState.FrameCounter.Update` | Phase4/src/engine/engine.cpp:948-958 | once more than the sampling period has passed, the rate is the frames counted over the time passed and counting restarts; otherwise the frame is only counted |
| `UiState.SecondUi.constructor` | Phase2/src/engine/engine.cpp:457-465 | the second release starts in fill mode with the axes off and, because main advances the culling once, back faces culled |
| `ObjFormat.VertexLineReads` | Phase4/src/include/engine/Parsing.h:38-39 | a written `v` line reads back as exactly that vertex appended |
| `ObjFormat.FaceLineReads` | Phase4/src/include/engine/Parsing.h:59-67 | a written `f` line reads back as its three corners, each appending its vertex, texture and normal index |
| `ObjFormat.ReadBlocks` | Phase4/src/include/engine/Parsing.h:86-153 | the blank separator lines between the exported blocks change nothing when read |
| `SoupGrid.AppendGrid` | Phase2/src/include/generator/Models.h:459-478 | the nested row and column loops append every cell in row-major order |
| `SoupGrid.AppendFlatGrid` | Phase2/src/include/generator/Models.h:459-478 | the nested loops of a float-writing generator append every cell's vertices as x, y, z triplets in row-major order |
| `SoupGrid.AppendEach` | Phase2/src/include/generator/Models.h:654-714 | a single loop appends every part in order |

## Left out

- Drawing is not modelled. This covers every OpenGL, GLU, GLUT and GLEW call, buffer uploads, `lookAt` and `perspective`, the HUD text and the window and fullscreen state. Rendering is observed only as the sequence of draw requests and the buffer contents and names the engine keeps.
- Image loading (DevIL) is not modelled: a texture load is a parameter that yields a texture name or fails.
- The XML libraries (pugixml, tinyxml2) are not modelled: a scene file is given as an element tree, or as nothing when it does not load.
- File-system work is not modelled: file contents are sequences of lines, and a file that cannot be opened is `None`. Existing-file removal in `save` is not observable here.
- Floating point is modelled as real numbers.
  - Sine, cosine, square root, normalisation and length are supplied by a `Maths` parameter.
  - Float text (stof and 6-decimal formatting) is supplied by a `RealText` parameter.
  - Rounding, NaN and infinity are not captured.
- Clocks, elapsed time and window sizes are parameters of the operations that use them.
- The generators' command-line front ends are not modelled: they parse arguments and call the shape builders, which are modelled.
- The first release's viewer (Phase1 engine.cpp, WorldConfig.h and WorldGroup.h) is not part of this model. Its shape and model-file classes are modelled.
- The star-field script (add_stars.py) is not part of this model.
- `toString` and debug printing are left out, because they have no effect on the scene.
- ConfigReading.LoadWorld3: reading a model file is a `load` parameter, and the order in which the unordered set of file names is visited is an `order` parameter. So which of several unreadable files is reported first is left open. Whether the world loads is the same for every order.
- ConfigReading.LoadFromFile: reading a model file's lines is a `disk` parameter; a file that cannot be opened is `None` and loads as an empty model, as the source does.
- MeshIndices.ReadBezierFile: the `.patch` file arrives already split into its patch index lists and control points (`BezierInput`). The `>>` and `ignore()` number reading, the two counts and what a failed extraction leaves behind are not modelled. Each patch is required to hold sixteen indices, which the source's pre-sized vectors guarantee.
- MeshIndices.BezierInputOf: requires every control-point index to be in range (`WellIndexed`). The source indexes the control points with whatever index the file holds, and an out-of-range one reads past the end of the vector.
- Phase3Shapes.GenerateBezier: the same pre-parsed `BezierInput` as `ReadBezierFile`, and the same `WellIndexed` requirement as `BezierInputOf`.
- CameraControl.ZoomDistance: the distance is stated under `LengthOfScaledUnit`, which says that length returns k for a non-zero vector's direction scaled by k ≥ 0, and for a camera not at the centre. At the centre the engine normalises the zero vector and gets NaN.
- Animation.AlignFrameOrthonormal and CameraControl.RightUpOrthonormal: perpendicularity is stated under `NormalizeScales`, which says that normalize returns its argument scaled by a non-negative factor. Unit length is stated under `LengthOfScaledUnit`. Both hold for exact reals and only approximately for floats.
- ObjFormat.WriteNormals: the source writes a non-finite normal component as 0. Reals are always finite, so that branch is not modelled.
- ObjFormat.WriteFaces: the texture and normal index lists must cover every written face (`FacesCovered`). The source indexes them at the same position as the vertex indices and would read past their end otherwise.
- ObjFormat.ExportOBJ: the same `FacesCovered` requirement as `WriteFaces`.
- Animation periods of zero or less are not modelled: the source divides by the period.
- The curved positions of the sphere, cone and tube builders are not proved: they come from `Maths`. What is proved is their counts, index ranges, flat coordinates and order.
