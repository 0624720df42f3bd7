# Sphere–sphere collision demo: the per-frame update

This project models the per-frame update of a small MonoGame demo. The demo
shows two spheres. The player moves sphere 1 with the keyboard arrows, the
left thumbstick of gamepad one, or by dragging with the left mouse button.
Every frame the game re-centres both bounding spheres on the spheres'
positions and stores whether they intersect. Sphere 2 never moves.

The model has four modules:

- `Geometry`: `Vector3`, `BoundingSphere`, and the sphere intersection test.
- `Input`: one frame's device snapshot (`Frame`). It also holds what each
  device contributes to sphere 1's movement in that frame (`GamePadMove`,
  `KeyboardMove`, `MouseMove`) and their sum (`Movement`).
- `Simulation`: the game state as a value (`GameState`) and one frame as a
  pure transition (`Update`). `Run` applies `Update` to a sequence of
  frames, as the host does when it calls the update once per tick. The
  lemmas about whole sessions are proved by induction over the frames.
- `CollisionGame`: the game object as a class `Game`. It has the same fields
  and a `Step` method that changes them in place, statement by statement as
  the source does. `Step` is proved to compute `Update`. The stick, key,
  drag and bounding-sphere sections are small methods of their own.

Coordinates and the constants 0.1 (`Speed`) and 0.01 (`MouseScale`) are
`real`. Mouse coordinates are `int`. Sphere 1 starts at the origin and
sphere 2 at (1.5, 0, -3). The previous mouse state starts as MonoGame's
default: (0, 0) with the button released. Both bounding spheres get the
sphere model's radius once, at load time. Their centres stay at the origin
until the first frame.

`Exit()` (Game1.cs:165-169) only asks the host to stop; the rest of the frame
still runs. The model records a sticky `exitRequested` flag and still applies
the rest of the frame (`Simulation.ExitDoesNotStopFrame`).

MonoGame's `BoundingSphere.Intersects` is not part of this model. It is
ASSUMED to mean that the squared distance between the centres is at most
the square of the sum of the radii, so touching spheres intersect
(`Geometry.Intersects`).

## Model

| member | source | states |
|---|---|---|
| `Geometry.DistanceSquaredZero` | CollisionSphereAndSphere/Game1.cs:218-219 | the squared distance between two centres is zero when they coincide and positive otherwise |
| `Geometry.IntersectsSymmetric` | CollisionSphereAndSphere/Game1.cs:218-219 | testing sphere 1 against sphere 2 gives the same answer as testing sphere 2 against sphere 1 |
| `Geometry.IntersectsConcentric` | CollisionSphereAndSphere/Game1.cs:218-219 | spheres with the same centre always intersect, whatever their radii |
| `Geometry.IntersectsTranslate` | CollisionSphereAndSphere/Game1.cs:211-219 | moving both spheres by the same offset, such as the model's bounding-sphere centre, does not change the result |
| `Geometry.IntersectsExamples` | CollisionSphereAndSphere/Game1.cs:218-219 | unit spheres 3 apart do not intersect; unit spheres 2 apart touch, and touching counts as intersecting |
| `Input.GamePadMove` | CollisionSphereAndSphere/Game1.cs:174-178 | the stick never moves Y, and a disconnected gamepad contributes nothing |
| `Input.KeyboardMove` | CollisionSphereAndSphere/Game1.cs:179-194 | the keys never move Y; Right alone gives +Speed on X and Left alone -Speed; Down alone gives +Speed on Z and Up alone -Speed; opposite keys cancel |
| `Input.MouseMove` | CollisionSphereAndSphere/Game1.cs:195-206 | the drag never moves Y; it is zero when the button is up and on the frame the button goes down; with the button held over two frames it is the pixel delta times 0.01 on X and Z |
| `Input.MovementInTurn` | CollisionSphereAndSphere/Game1.cs:173-206 | applying stick, keys and drag one after another, as the source does, adds up to the frame's total movement |
| `Input.MovementHorizontal` | CollisionSphereAndSphere/Game1.cs:173-206 | no device ever moves sphere 1 along Y |
| `Input.RightOnly` | CollisionSphereAndSphere/Game1.cs:171-194 | with no gamepad, no drag and only Right held, the frame moves exactly (0.1, 0, 0) |
| `Input.OpposingKeysCancel` | CollisionSphereAndSphere/Game1.cs:179-194 | with no gamepad and no drag, Left with Right moves nothing on X, and Up with Down nothing on Z |
| `Input.DevicesSum` | CollisionSphereAndSphere/Game1.cs:171-206 | a connected gamepad adds stick.X·Speed to X and subtracts stick.Y·Speed from Z, on top of keys and drag; a disconnected one adds nothing |
| `Input.PressFrameIgnoresCursor` | CollisionSphereAndSphere/Game1.cs:195-206 | on the press frame the mouse contributes nothing, so the movement is the same wherever the cursor is |
| `Input.DragMoves` | CollisionSphereAndSphere/Game1.cs:195-206 | with no stick or keys, a button held since the previous frame moves by (mx − oldX)·0.01 on X and (my − oldY)·0.01 on Z; a released button moves nothing |
| `Simulation.Recompute` | CollisionSphereAndSphere/Game1.cs:211-219 | afterwards each bounding-sphere centre is its position plus the model's centre and the collision flag is their intersection; positions, radii and mouse state are untouched |
| `Simulation.Update` | CollisionSphereAndSphere/Game1.cs:159-223 | one frame: sphere 1 moves by the frame's movement and keeps its Y; sphere 2 stays; radii stay; the previous mouse state becomes the current one; the exit request is recorded; bounds and collision flag end in step with the positions |
| `Simulation.UpdateDeterminedBy` | CollisionSphereAndSphere/Game1.cs:159-223 | the properties listed for `Update` fix the next state completely |
| `Simulation.RecomputeIdempotent` | CollisionSphereAndSphere/Game1.cs:211-219 | recomputing the bounding spheres twice with no move in between gives the same state as doing it once |
| `Simulation.CollisionIgnoresOffset` | CollisionSphereAndSphere/Game1.cs:211-219 | when the bounds are in step, the collision flag equals the intersection of spheres centred on the positions themselves |
| `Simulation.ExitDoesNotStopFrame` | CollisionSphereAndSphere/Game1.cs:165-169 | Back or Escape only sets the exit flag; everything else the frame does is what it would do without them |
| `Simulation.RunInvariants` | CollisionSphereAndSphere/Game1.cs:159-223 | over any run of frames sphere 2 and sphere 1's Y stay put, the radii stay, the last frame's mouse state is remembered, the exit flag is never cleared, and after one frame the bounds and flag are in step |
| `Simulation.RunExitRequested` | CollisionSphereAndSphere/Game1.cs:165-169 | after a run the exit flag is set exactly when it was set before or some frame pressed Back or Escape |
| `Simulation.RunMoves` | CollisionSphereAndSphere/Game1.cs:173-209 | over a run sphere 1 moves by the sum of the frames' movements, each drag measured from the frame before |
| `Simulation.DragTelescopes` | CollisionSphereAndSphere/Game1.cs:195-209 | a drag held across frames, with no stick or keys, moves sphere 1 by the cursor's total displacement times 0.01 |
| `Simulation.DragFromPress` | CollisionSphereAndSphere/Game1.cs:195-209 | a drag that starts with the press moves sphere 1 by the cursor's travel from the press position to the last position, times 0.01, wherever the cursor was before |
| `Simulation.Session` | CollisionSphereAndSphere/Game1.cs:35-65 | from the start of the game, with any input, sphere 2 stays at (1.5, 0, -3), sphere 1 stays at Y = 0, both radii stay the model's, and after one frame the flag is the intersection of the two spheres at their positions |
| `CollisionGame.Game.constructor` | CollisionSphereAndSphere/Game1.cs:111-115 | the fields start as in the source, and both bounding spheres get the model's radius |
| `CollisionGame.Game.Step` | CollisionSphereAndSphere/Game1.cs:159-223 | the new fields equal `Update` of the old ones: sphere 1 moves by the frame's movement, sphere 2 stays, the mouse state is remembered, the exit flag is set, bounds and collision flag are in step, radii kept |
| `CollisionGame.Game.ApplyGamePad` | CollisionSphereAndSphere/Game1.cs:174-178 | the in-place stick updates move sphere 1 by `GamePadMove` |
| `CollisionGame.Game.ApplyKeyboard` | CollisionSphereAndSphere/Game1.cs:179-194 | the four in-place key updates move sphere 1 by `KeyboardMove` |
| `CollisionGame.Game.ApplyMouseDrag` | CollisionSphereAndSphere/Game1.cs:195-206 | the drag moves sphere 1 by `MouseMove`, and the previous mouse state is replaced exactly on the press frame |
| `CollisionGame.Game.UpdateBounds` | CollisionSphereAndSphere/Game1.cs:211-219 | the in-place centre and flag updates compute `Recompute` |

## Left out

- Rendering is not modelled. This covers `Draw`, the sprite batch and font text, and the view, projection and world matrices (Game1.cs:118-141, 229-269).
- The host lifecycle is not modelled: the constructor's device manager, `Initialize`, `UnloadContent` and loading content through `Content.Load`. The model's bounding-sphere centre and radius are parameters of `CollisionGame.Game.constructor`.
- Device polling (`Keyboard.GetState`, `Mouse.GetState`, `GamePad.GetState`) is foreign code; its results are the `Frame` parameter. The source polls the gamepad and keyboard a second time for the exit test. The model uses the one snapshot for both.
- `Exit()` and `base.Update` are MonoGame host behaviour. The model only records the request in `exitRequested`. It does not model the host stopping after that frame. `gameTime` is unused by the source.
- The internals of MonoGame's `BoundingSphere.Intersects` are not part of this model; its definition above is an assumption.
- Single-precision rounding is not modelled. Coordinates are exact reals, so claims such as "X grows by exactly 0.1" hold in that abstraction only.
- Thumbstick values are not limited to [-1, 1]. The source does not bound them either.
