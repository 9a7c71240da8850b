// InputState: the engine's global mouse, keyboard and window state. The
// source keeps it in static members; here it is one object whose methods
// are the static functions. The keyboard is a fixed array of GLFW_KEY_LAST
// flags.

module Input {

  /** GLFW_KEY_LAST in GLFW 3. */
  const KeyLast: nat := 348

  datatype MouseState = MouseState(x: real, y: real, previousX: real, previousY: real,
                                   leftButton: bool, rightButton: bool, middleButton: bool)

  const RestingMouse: MouseState := MouseState(0.0, 0.0, 0.0, 0.0, false, false, false)

  datatype WindowState = WindowState(width: real, height: real)

  class InputState {
    var mouse: MouseState
    const keys: array<bool>
    var window: WindowState

    ghost predicate Valid()
      reads this
    {
      keys.Length == KeyLast
    }

    /** The static defaults: mouse at rest, no key down, an 800 x 600 window. */
    constructor()
      ensures Valid() && fresh(keys)
      ensures mouse == RestingMouse && window == WindowState(800.0, 600.0)
      ensures forall k :: 0 <= k < KeyLast ==> !keys[k]
    {
      mouse := RestingMouse;
      window := WindowState(800.0, 600.0);
      keys := new bool[KeyLast](_ => false);
    }

    /** initialize: the window size, the mouse at rest and every key released. */
    method Initialize(windowWidth: real, windowHeight: real)
      requires Valid()
      modifies this, keys
      ensures Valid()
      ensures window == WindowState(windowWidth, windowHeight) && mouse == RestingMouse
      ensures forall k :: 0 <= k < KeyLast ==> !IsKeyPressed(k)
    {
      window := WindowState(windowWidth, windowHeight);
      mouse := RestingMouse;
      for i := 0 to KeyLast
        modifies keys
        invariant forall k :: 0 <= k < i ==> !keys[k]
      {
        keys[i] := false;
      }
    }

    /** update: the old position becomes the previous one; position and buttons are stored. */
    method Update(mouseX: real, mouseY: real, left: bool, right: bool, middle: bool)
      requires Valid()
      modifies this
      ensures Valid() && window == old(window)
      ensures mouse == MouseState(mouseX, mouseY, old(mouse.x), old(mouse.y), left, right, middle)
      ensures MouseDeltaX() == mouseX - old(mouse.x) && MouseDeltaY() == mouseY - old(mouse.y)
    {
      mouse := MouseState(mouseX, mouseY, mouse.x, mouse.y, left, right, middle);
    }

    /** updateKeyboard: one key in range changes; any other key code changes nothing. */
    method UpdateKeyboard(key: int, pressed: bool)
      requires Valid()
      modifies keys
      ensures 0 <= key < KeyLast ==> keys[..] == old(keys[..])[key := pressed]
      ensures !(0 <= key < KeyLast) ==> keys[..] == old(keys[..])
    {
      if key >= 0 && key < KeyLast {
        keys[key] := pressed;
      }
    }

    /** setWindowSize: the window only. */
    method SetWindowSize(width: real, height: real)
      requires Valid()
      modifies this
      ensures Valid() && window == WindowState(width, height) && mouse == old(mouse)
    {
      window := WindowState(width, height);
    }

    function MouseDeltaX(): real
      reads this
    {
      mouse.x - mouse.previousX
    }

    function MouseDeltaY(): real
      reads this
    {
      mouse.y - mouse.previousY
    }

    /** isKeyPressed indexes without a check, so the key must be in range. */
    predicate IsKeyPressed(key: int)
      reads this, keys
      requires Valid() && 0 <= key < KeyLast
    {
      keys[key]
    }
  }

  /** Two updates: the delta is the step of the second one alone. */
  method DeltaExample(s: InputState) returns (dx: real, dy: real)
    requires s.Valid()
    modifies s
    ensures dx == 5.0 && dy == -2.0
  {
    s.Update(10.0, 20.0, false, false, false);
    s.Update(15.0, 18.0, true, false, false);
    dx, dy := s.MouseDeltaX(), s.MouseDeltaY();
  }
}
