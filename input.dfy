/**
  One frame's device snapshot (keyboard, mouse, gamepad) and the movement of
  sphere 1 that each device contributes in that frame. The device polls
  themselves are outside the model: their results arrive as a Frame.
 */
module Input {
  import opened Geometry

  datatype ButtonState = Released | Pressed

  /** The keys the update reads. */
  datatype KeyboardState = KeyboardState(left: bool, right: bool, up: bool, down: bool, escape: bool)

  /** Player one's gamepad: connection, the Back button and the left thumbstick. */
  datatype GamePadState = GamePadState(isConnected: bool, back: ButtonState, leftStickX: real, leftStickY: real)

  /** Cursor position in pixels and the left button. */
  datatype MouseState = MouseState(x: int, y: int, leftButton: ButtonState)

  /** Everything one call of the update reads from the devices. */
  datatype Frame = Frame(keyboard: KeyboardState, mouse: MouseState, gamePad: GamePadState)

  /** Distance moved per frame by a key or by a fully deflected stick. */
  const Speed: real := 0.1

  /** Distance moved per pixel of mouse drag. */
  const MouseScale: real := 0.01

  /** The default mouse state the game starts with: origin, button released. */
  const InitialMouse := MouseState(0, 0, Released)

  /** The Back button or the Escape key asks the host to end the game. */
  predicate ExitPressed(f: Frame) {
    f.gamePad.back == Pressed || f.keyboard.escape
  }

  /** The left stick's contribution; nothing when no gamepad is connected. */
  function GamePadMove(g: GamePadState): (d: Vector3)
    ensures d.y == 0.0
    ensures !g.isConnected ==> d == Zero
  {
    if g.isConnected then Vector3(g.leftStickX * Speed, 0.0, -(g.leftStickY * Speed)) else Zero
  }

  function KeyStep(held: bool): real {
    if held then Speed else 0.0
  }

  /**
    The arrow keys' contribution: Right and Left move along X, Down and Up
    along Z, one Speed each; opposite keys cancel and Y is never touched.
   */
  function KeyboardMove(k: KeyboardState): (d: Vector3)
    ensures d.y == 0.0
    ensures k.left == k.right ==> d.x == 0.0
    ensures k.right && !k.left ==> d.x == Speed
    ensures k.left && !k.right ==> d.x == -Speed
    ensures k.up == k.down ==> d.z == 0.0
    ensures k.down && !k.up ==> d.z == Speed
    ensures k.up && !k.down ==> d.z == -Speed
  {
    Vector3(KeyStep(k.right) - KeyStep(k.left), 0.0, KeyStep(k.down) - KeyStep(k.up))
  }

  /**
    The mouse-drag contribution, given the mouse state recorded in the previous
    frame. While the left button is held the cursor's pixel delta is scaled by
    MouseScale onto X and Z; on the frame the button goes down the previous
    state is first replaced by the current one, so that frame moves nothing.
   */
  function MouseMove(previous: MouseState, current: MouseState): (d: Vector3)
    ensures d.y == 0.0
    ensures current.leftButton == Released ==> d == Zero
    ensures previous.leftButton == Released ==> d == Zero
    ensures previous.leftButton == Pressed && current.leftButton == Pressed ==>
              d.x == (current.x - previous.x) as real * MouseScale &&
              d.z == (current.y - previous.y) as real * MouseScale
  {
    if current.leftButton == Pressed then
      var origin := if previous.leftButton == Released then current else previous;
      Vector3((current.x - origin.x) as real * MouseScale, 0.0, (current.y - origin.y) as real * MouseScale)
    else
      Zero
  }

  /** Everything that moves sphere 1 in one frame: stick, keys and drag, summed. */
  function Movement(f: Frame, previous: MouseState): Vector3 {
    Add(Add(GamePadMove(f.gamePad), KeyboardMove(f.keyboard)), MouseMove(previous, f.mouse))
  }

  /** Applying the stick, then the keys, then the drag, one after another, adds up to the frame's movement. */
  lemma MovementInTurn(p: Vector3, f: Frame, previous: MouseState)
    ensures Add(Add(Add(p, GamePadMove(f.gamePad)), KeyboardMove(f.keyboard)), MouseMove(previous, f.mouse))
         == Add(p, Movement(f, previous))
  {
  }

  /** No device contributes to Y, so a frame's movement is always horizontal. */
  lemma MovementHorizontal(f: Frame, previous: MouseState)
    ensures Movement(f, previous).y == 0.0
  {
  }

  /** No stick, no drag, Right alone: the frame moves exactly Speed along X. */
  lemma RightOnly(f: Frame, previous: MouseState)
    requires !f.gamePad.isConnected && f.mouse.leftButton == Released
    requires f.keyboard.right && !f.keyboard.left && !f.keyboard.up && !f.keyboard.down
    ensures Movement(f, previous) == Vector3(Speed, 0.0, 0.0)
  {
  }

  /** No stick, no drag: Left held with Right moves nothing along X, Up with Down nothing along Z. */
  lemma OpposingKeysCancel(f: Frame, previous: MouseState)
    requires !f.gamePad.isConnected && f.mouse.leftButton == Released
    ensures f.keyboard.left && f.keyboard.right ==> Movement(f, previous).x == 0.0
    ensures f.keyboard.up && f.keyboard.down ==> Movement(f, previous).z == 0.0
  {
  }

  /**
    A disconnected gamepad contributes nothing; a connected one adds the stick's
    X times Speed along X and takes its Y times Speed off Z, summed with what
    the keys and the mouse contribute.
   */
  lemma DevicesSum(f: Frame, previous: MouseState)
    ensures var d := Movement(f, previous);
            var k := KeyboardMove(f.keyboard);
            var m := MouseMove(previous, f.mouse);
            if f.gamePad.isConnected then
              d.x == f.gamePad.leftStickX * Speed + k.x + m.x &&
              d.z == -(f.gamePad.leftStickY * Speed) + k.z + m.z
            else
              d.x == k.x + m.x && d.z == k.z + m.z
  {
  }

  /**
    On the frame the left button goes down the drag contributes nothing, so the
    frame's movement does not depend on where the cursor is.
   */
  lemma PressFrameIgnoresCursor(f: Frame, previous: MouseState, x: int, y: int)
    requires previous.leftButton == Released && f.mouse.leftButton == Pressed
    ensures Movement(f, previous) == Add(GamePadMove(f.gamePad), KeyboardMove(f.keyboard))
    ensures Movement(f, previous) == Movement(f.(mouse := f.mouse.(x := x, y := y)), previous)
  {
  }

  /**
    With no stick and no arrow key: a button held since the previous frame moves
    by the cursor's pixel delta times MouseScale, a released button not at all.
   */
  lemma DragMoves(f: Frame, previous: MouseState)
    requires !f.gamePad.isConnected
    requires !f.keyboard.left && !f.keyboard.right && !f.keyboard.up && !f.keyboard.down
    ensures previous.leftButton == Pressed && f.mouse.leftButton == Pressed ==>
              Movement(f, previous) == Vector3((f.mouse.x - previous.x) as real * MouseScale, 0.0,
                                               (f.mouse.y - previous.y) as real * MouseScale)
    ensures f.mouse.leftButton == Released ==> Movement(f, previous) == Zero
  {
  }
}
