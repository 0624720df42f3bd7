/**
  The per-frame update of the collision demo as a pure state transition:
  Update takes the game state and one frame's device snapshot and gives the
  next state; Run applies it to the frames of a session in order, as the host
  does by calling the update once per tick.
 */
module Simulation {
  import opened Geometry
  import opened Input

  /** Where sphere 2 is placed when the game starts; nothing ever moves it. */
  const Sphere2Start := Vector3(1.5, 0.0, -3.0)

  /** The fields of the game object that the update reads or writes. */
  datatype GameState = GameState(
    sphere1Position: Vector3,
    sphere2Position: Vector3,
    sphere1Bounds: BoundingSphere,
    sphere2Bounds: BoundingSphere,
    isCollision: bool,
    oldMouse: MouseState,
    exitRequested: bool)

  /**
    The state once content is loaded: sphere 1 at the origin, sphere 2 at
    Sphere2Start, both bounding spheres with the model's radius and their
    default centre (the origin) until the first update, no collision, and the
    default previous mouse state.
   */
  function Initial(baseRadius: real): GameState {
    GameState(Zero, Sphere2Start,
              BoundingSphere(Zero, baseRadius), BoundingSphere(Zero, baseRadius),
              false, InitialMouse, false)
  }

  /**
    Each bounding sphere sits at its sphere's position plus the model's
    bounding-sphere centre, and the collision flag is their intersection test.
   */
  predicate Synced(s: GameState, baseCenter: Vector3) {
    s.sphere1Bounds.center == Add(s.sphere1Position, baseCenter) &&
    s.sphere2Bounds.center == Add(s.sphere2Position, baseCenter) &&
    s.isCollision == Intersects(s.sphere1Bounds, s.sphere2Bounds)
  }

  /** Re-centres both bounding spheres on the current positions and retests them. */
  function Recompute(s: GameState, baseCenter: Vector3): (r: GameState)
    ensures Synced(r, baseCenter)
    ensures r.sphere1Position == s.sphere1Position && r.sphere2Position == s.sphere2Position
    ensures r.sphere1Bounds.radius == s.sphere1Bounds.radius && r.sphere2Bounds.radius == s.sphere2Bounds.radius
    ensures r.oldMouse == s.oldMouse && r.exitRequested == s.exitRequested
  {
    var b1 := s.sphere1Bounds.(center := Add(s.sphere1Position, baseCenter));
    var b2 := s.sphere2Bounds.(center := Add(s.sphere2Position, baseCenter));
    s.(sphere1Bounds := b1, sphere2Bounds := b2, isCollision := Intersects(b1, b2))
  }

  /**
    One frame. Sphere 1 moves by what the stick, the keys and the mouse drag
    contribute; sphere 2 stays; the frame's mouse state is remembered for the
    next frame; an exit request is recorded but does not stop the frame; then
    the bounding spheres are re-centred and the collision flag recomputed.
   */
  function Update(s: GameState, baseCenter: Vector3, f: Frame): (r: GameState)
    ensures r.sphere1Position == Add(s.sphere1Position, Movement(f, s.oldMouse))
    ensures r.sphere1Position.y == s.sphere1Position.y
    ensures r.sphere2Position == s.sphere2Position
    ensures r.sphere1Bounds.radius == s.sphere1Bounds.radius && r.sphere2Bounds.radius == s.sphere2Bounds.radius
    ensures r.oldMouse == f.mouse
    ensures r.exitRequested == (s.exitRequested || ExitPressed(f))
    ensures Synced(r, baseCenter)
  {
    var moved := s.(sphere1Position := Add(s.sphere1Position, Movement(f, s.oldMouse)),
                    oldMouse := f.mouse,
                    exitRequested := s.exitRequested || ExitPressed(f));
    Recompute(moved, baseCenter)
  }

  /**
    Update's result is the only state that has its positions, keeps the radii,
    remembers the frame's mouse, records the exit request and is in step.
   */
  lemma UpdateDeterminedBy(s: GameState, baseCenter: Vector3, f: Frame, r: GameState)
    requires r.sphere1Position == Add(s.sphere1Position, Movement(f, s.oldMouse))
    requires r.sphere2Position == s.sphere2Position
    requires r.sphere1Bounds.radius == s.sphere1Bounds.radius && r.sphere2Bounds.radius == s.sphere2Bounds.radius
    requires r.oldMouse == f.mouse
    requires r.exitRequested == (s.exitRequested || ExitPressed(f))
    requires Synced(r, baseCenter)
    ensures r == Update(s, baseCenter, f)
  {
    var u := Update(s, baseCenter, f);
    assert r.sphere1Bounds == u.sphere1Bounds;
    assert r.sphere2Bounds == u.sphere2Bounds;
  }

  /** Recomputing the bounding spheres again, with no move in between, changes nothing. */
  lemma RecomputeIdempotent(s: GameState, baseCenter: Vector3)
    ensures Recompute(Recompute(s, baseCenter), baseCenter) == Recompute(s, baseCenter)
  {
  }

  /**
    When the bounding spheres are in step with the positions, the collision flag
    is the intersection of spheres centred on the positions themselves: the
    model's bounding-sphere centre shifts both alike and cancels out.
   */
  lemma CollisionIgnoresOffset(s: GameState, baseCenter: Vector3)
    requires Synced(s, baseCenter)
    ensures s.isCollision == Intersects(BoundingSphere(s.sphere1Position, s.sphere1Bounds.radius),
                                        BoundingSphere(s.sphere2Position, s.sphere2Bounds.radius))
  {
    IntersectsTranslate(BoundingSphere(s.sphere1Position, s.sphere1Bounds.radius),
                        BoundingSphere(s.sphere2Position, s.sphere2Bounds.radius), baseCenter);
  }

  /**
    Pressing Back or Escape only records the exit request: everything else the
    frame does is what it would have done without the request.
   */
  lemma ExitDoesNotStopFrame(s: GameState, baseCenter: Vector3, f: Frame)
    ensures var calm := f.(keyboard := f.keyboard.(escape := false), gamePad := f.gamePad.(back := Released));
            Update(s, baseCenter, f) == Update(s, baseCenter, calm).(exitRequested := s.exitRequested || ExitPressed(f))
  {
  }

  // ----- Sessions: the host calls the update once per frame -----

  /** The state after the update has run on each frame in order. */
  function Run(s: GameState, baseCenter: Vector3, frames: seq<Frame>): GameState
    decreases |frames|
  {
    if frames == [] then s else Run(Update(s, baseCenter, frames[0]), baseCenter, frames[1..])
  }

  /** The mouse state recorded by the last frame, or the given one if there is none. */
  function LastMouse(previous: MouseState, frames: seq<Frame>): MouseState {
    if frames == [] then previous else frames[|frames| - 1].mouse
  }

  /** What the frames move sphere 1 by, each frame's drag measured from the frame before. */
  function TotalMovement(previous: MouseState, frames: seq<Frame>): Vector3
    decreases |frames|
  {
    if frames == [] then Zero
    else Add(Movement(frames[0], previous), TotalMovement(frames[0].mouse, frames[1..]))
  }

  /** A frame with no stick deflection path and no arrow key: only the mouse can move sphere 1. */
  predicate NoKeysOrStick(f: Frame) {
    !f.gamePad.isConnected && !f.keyboard.left && !f.keyboard.right && !f.keyboard.up && !f.keyboard.down
  }

  /**
    Over any session sphere 2 does not move, sphere 1 keeps its height, the
    radii stay, the last frame's mouse state is remembered, an exit request is
    never withdrawn, and after at least one frame the bounding spheres and the
    collision flag are in step with the positions.
   */
  lemma {:induction false} RunInvariants(s: GameState, baseCenter: Vector3, frames: seq<Frame>)
    ensures var r := Run(s, baseCenter, frames);
            r.sphere2Position == s.sphere2Position &&
            r.sphere1Position.y == s.sphere1Position.y &&
            r.sphere1Bounds.radius == s.sphere1Bounds.radius &&
            r.sphere2Bounds.radius == s.sphere2Bounds.radius &&
            r.oldMouse == LastMouse(s.oldMouse, frames) &&
            (s.exitRequested ==> r.exitRequested) &&
            (frames != [] ==> Synced(r, baseCenter))
    decreases |frames|
  {
    if frames != [] {
      var next := Update(s, baseCenter, frames[0]);
      RunInvariants(next, baseCenter, frames[1..]);
      if |frames| > 1 {
        assert frames[1..][|frames[1..]| - 1] == frames[|frames| - 1];
      }
    }
  }

  /**
    The exit flag at the end of a session is set exactly when it was already
    set or some frame pressed Back or Escape.
   */
  lemma {:induction false} RunExitRequested(s: GameState, baseCenter: Vector3, frames: seq<Frame>)
    ensures Run(s, baseCenter, frames).exitRequested
        <==> s.exitRequested || exists i :: 0 <= i < |frames| && ExitPressed(frames[i])
    decreases |frames|
  {
    if frames != [] {
      var next := Update(s, baseCenter, frames[0]);
      RunExitRequested(next, baseCenter, frames[1..]);
      if exists i :: 0 <= i < |frames| && ExitPressed(frames[i]) {
        var i :| 0 <= i < |frames| && ExitPressed(frames[i]);
        if i > 0 {
          assert ExitPressed(frames[1..][i - 1]);
        }
      }
      if exists j :: 0 <= j < |frames[1..]| && ExitPressed(frames[1..][j]) {
        var j :| 0 <= j < |frames[1..]| && ExitPressed(frames[1..][j]);
        assert ExitPressed(frames[j + 1]);
      }
    }
  }

  /** Over a session sphere 1 moves by the sum of the frames' movements. */
  lemma {:induction false} RunMoves(s: GameState, baseCenter: Vector3, frames: seq<Frame>)
    ensures Run(s, baseCenter, frames).sphere1Position
         == Add(s.sphere1Position, TotalMovement(s.oldMouse, frames))
    decreases |frames|
  {
    if frames != [] {
      var next := Update(s, baseCenter, frames[0]);
      RunMoves(next, baseCenter, frames[1..]);
    }
  }

  /**
    A drag continued from a held button over frames with no key or stick input
    moves sphere 1 by the cursor's whole displacement, from the remembered
    position to the last frame's, times MouseScale: the per-frame deltas add up.
   */
  lemma {:induction false} DragTelescopes(s: GameState, baseCenter: Vector3, frames: seq<Frame>)
    requires s.oldMouse.leftButton == Pressed
    requires forall i :: 0 <= i < |frames| ==> NoKeysOrStick(frames[i]) && frames[i].mouse.leftButton == Pressed
    ensures var last := LastMouse(s.oldMouse, frames);
            Run(s, baseCenter, frames).sphere1Position
            == Vector3(s.sphere1Position.x + (last.x - s.oldMouse.x) as real * MouseScale,
                       s.sphere1Position.y,
                       s.sphere1Position.z + (last.y - s.oldMouse.y) as real * MouseScale)
    decreases |frames|
  {
    if frames != [] {
      var next := Update(s, baseCenter, frames[0]);
      assert NoKeysOrStick(frames[0]) && frames[0].mouse.leftButton == Pressed;
      DragTelescopes(next, baseCenter, frames[1..]);
      if |frames| > 1 {
        assert frames[1..][|frames[1..]| - 1] == frames[|frames| - 1];
      }
    }
  }

  /**
    A drag that starts with the button going down: the press frame moves
    nothing, so sphere 1 ends up displaced by the cursor's travel from where the
    button was pressed to where the last frame has it, times MouseScale,
    wherever the cursor was before the press.
   */
  lemma DragFromPress(s: GameState, baseCenter: Vector3, frames: seq<Frame>)
    requires s.oldMouse.leftButton == Released && frames != []
    requires forall i :: 0 <= i < |frames| ==> NoKeysOrStick(frames[i]) && frames[i].mouse.leftButton == Pressed
    ensures var first := frames[0].mouse;
            var last := frames[|frames| - 1].mouse;
            Run(s, baseCenter, frames).sphere1Position
            == Vector3(s.sphere1Position.x + (last.x - first.x) as real * MouseScale,
                       s.sphere1Position.y,
                       s.sphere1Position.z + (last.y - first.y) as real * MouseScale)
  {
    var next := Update(s, baseCenter, frames[0]);
    assert NoKeysOrStick(frames[0]) && frames[0].mouse.leftButton == Pressed;
    assert next.sphere1Position == s.sphere1Position;
    DragTelescopes(next, baseCenter, frames[1..]);
    if |frames| > 1 {
      assert frames[1..][|frames[1..]| - 1] == frames[|frames| - 1];
    }
  }

  /**
    From the start of the game, whatever the input: sphere 2 stays at
    Sphere2Start, sphere 1 stays at height 0, both radii stay the model's, and
    after the first frame the collision flag is the intersection test of the two
    spheres centred on their positions.
   */
  lemma Session(baseRadius: real, baseCenter: Vector3, frames: seq<Frame>)
    ensures var r := Run(Initial(baseRadius), baseCenter, frames);
            r.sphere2Position == Sphere2Start &&
            r.sphere1Position.y == 0.0 &&
            r.sphere1Bounds.radius == baseRadius && r.sphere2Bounds.radius == baseRadius &&
            (frames != [] ==> r.isCollision == Intersects(BoundingSphere(r.sphere1Position, baseRadius),
                                                          BoundingSphere(Sphere2Start, baseRadius)))
  {
    var r := Run(Initial(baseRadius), baseCenter, frames);
    RunInvariants(Initial(baseRadius), baseCenter, frames);
    if frames != [] {
      CollisionIgnoresOffset(r, baseCenter);
    }
  }
}
