/**
  The game object: the fields the per-frame update reads and writes, changed
  in place once per frame by Step, which follows the update statement by
  statement and is proved to compute Simulation.Update.
 */
module CollisionGame {
  import opened Geometry
  import opened Input
  import opened Simulation

  class Game {
    var sphere1Position: Vector3
    var sphere2Position: Vector3
    var sphere1Bounds: BoundingSphere
    var sphere2Bounds: BoundingSphere
    var isCollision: bool
    /** The mouse state seen by the previous frame. */
    var oldMouse: MouseState
    /** Set once Back or Escape has been seen; the host ends the game after the frame. */
    var exitRequested: bool
    /** Centre and radius of the sphere model's own bounding sphere, read once at load. */
    const baseCenter: Vector3
    const baseRadius: real

    /** Both bounding spheres keep the model's radius. */
    predicate Valid()
      reads this
    {
      sphere1Bounds.radius == baseRadius && sphere2Bounds.radius == baseRadius
    }

    /** The fields as a value, for stating what a step does. */
    function State(): GameState
      reads this
    {
      GameState(sphere1Position, sphere2Position, sphere1Bounds, sphere2Bounds,
                isCollision, oldMouse, exitRequested)
    }

    /** The game once its content is loaded, with the model's bounding sphere. */
    constructor (baseCenter: Vector3, baseRadius: real)
      ensures Valid()
      ensures this.baseCenter == baseCenter && this.baseRadius == baseRadius
      ensures State() == Initial(baseRadius)
    {
      this.baseCenter := baseCenter;
      this.baseRadius := baseRadius;
      sphere1Position := Zero;
      sphere2Position := Sphere2Start;
      sphere1Bounds := BoundingSphere(Zero, baseRadius);
      sphere2Bounds := BoundingSphere(Zero, baseRadius);
      isCollision := false;
      oldMouse := InitialMouse;
      exitRequested := false;
    }

    /**
      One frame with the given device snapshot: record an exit request, move
      sphere 1 by stick, keys and mouse drag in turn, remember the mouse state,
      re-centre both bounding spheres and store whether they intersect.
     */
    method Step(f: Frame)
      requires Valid()
      modifies this
      ensures Valid()
      ensures State() == Update(old(State()), baseCenter, f)
      ensures sphere1Position == Add(old(sphere1Position), Movement(f, old(oldMouse)))
      ensures sphere1Position.y == old(sphere1Position.y)
      ensures sphere2Position == old(sphere2Position)
      ensures oldMouse == f.mouse
      ensures exitRequested == (old(exitRequested) || ExitPressed(f))
      ensures Synced(State(), baseCenter)
    {
      if f.gamePad.back == Pressed || f.keyboard.escape {
        exitRequested := true;
      }

      ApplyGamePad(f.gamePad);
      ApplyKeyboard(f.keyboard);
      ApplyMouseDrag(f.mouse);
      MovementInTurn(old(sphere1Position), f, old(oldMouse));

      oldMouse := f.mouse;
      ghost var moved := State();
      assert moved == old(State()).(sphere1Position := Add(old(sphere1Position), Movement(f, old(oldMouse))),
                                    oldMouse := f.mouse,
                                    exitRequested := old(exitRequested) || ExitPressed(f));
      assert Update(old(State()), baseCenter, f) == Recompute(moved, baseCenter);

      UpdateBounds();
    }

    /** The connected gamepad's left stick moves sphere 1 along X and Z. */
    method ApplyGamePad(g: GamePadState)
      modifies this`sphere1Position
      ensures sphere1Position == Add(old(sphere1Position), GamePadMove(g))
    {
      var speed := Speed;
      if g.isConnected {
        sphere1Position := sphere1Position.(x := sphere1Position.x + g.leftStickX * speed);
        sphere1Position := sphere1Position.(z := sphere1Position.z - g.leftStickY * speed);
      }
    }

    /** Each arrow key held moves sphere 1 by Speed along X or Z. */
    method ApplyKeyboard(k: KeyboardState)
      modifies this`sphere1Position
      ensures sphere1Position == Add(old(sphere1Position), KeyboardMove(k))
    {
      var speed := Speed;
      if k.left {
        sphere1Position := sphere1Position.(x := sphere1Position.x - speed);
      }
      if k.right {
        sphere1Position := sphere1Position.(x := sphere1Position.x + speed);
      }
      if k.down {
        sphere1Position := sphere1Position.(z := sphere1Position.z + speed);
      }
      if k.up {
        sphere1Position := sphere1Position.(z := sphere1Position.z - speed);
      }
    }

    /**
      While the left button is held sphere 1 follows the cursor's movement since
      the previous frame; on the press frame the previous mouse state is first
      overwritten with the current one, so that frame moves nothing.
     */
    method ApplyMouseDrag(m: MouseState)
      modifies this`sphere1Position, this`oldMouse
      ensures sphere1Position == Add(old(sphere1Position), MouseMove(old(oldMouse), m))
      ensures oldMouse == if m.leftButton == Pressed && old(oldMouse).leftButton == Released then m else old(oldMouse)
    {
      if m.leftButton == Pressed {
        if oldMouse.leftButton == Released {
          oldMouse := m;
        }
        sphere1Position := Add(sphere1Position, Vector3((m.x - oldMouse.x) as real * MouseScale, 0.0,
                                                        (m.y - oldMouse.y) as real * MouseScale));
      }
    }

    /** Re-centres both bounding spheres on their positions and stores whether they intersect. */
    method UpdateBounds()
      modifies this`sphere1Bounds, this`sphere2Bounds, this`isCollision
      ensures State() == Recompute(old(State()), baseCenter)
    {
      sphere1Bounds := sphere1Bounds.(center := Add(sphere1Position, baseCenter));
      sphere2Bounds := sphere2Bounds.(center := Add(sphere2Position, baseCenter));
      isCollision := Intersects(sphere1Bounds, sphere2Bounds);
    }
  }
}
