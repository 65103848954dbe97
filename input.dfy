/**
 * Keyboard and mouse state kept by the window callbacks (graphics.cc,
 * tests/shadows.h): one "held down" flag per GLFW key and mouse button,
 * plus the speed modifier the camera and editing controls derive from it.
 */
module Input {

  // GLFW 3 action codes.
  const GLFW_RELEASE: int := 0
  const GLFW_PRESS: int := 1
  const GLFW_REPEAT: int := 2

  // GLFW 3 key and button codes.
  const GLFW_KEY_UNKNOWN: int := -1
  const GLFW_KEY_LAST: int := 348
  const GLFW_MOUSE_BUTTON_LAST: int := 7
  const GLFW_KEY_I: int := 73
  const GLFW_KEY_J: int := 74
  const GLFW_KEY_K: int := 75
  const GLFW_KEY_L: int := 76
  const GLFW_KEY_O: int := 79
  const GLFW_KEY_U: int := 85
  const GLFW_KEY_F1: int := 290
  const GLFW_KEY_F2: int := 291
  const GLFW_KEY_F3: int := 292
  const GLFW_KEY_F4: int := 293
  const GLFW_KEY_LEFT_SHIFT: int := 340
  const GLFW_KEY_LEFT_CONTROL: int := 341

  /** Sizes of the two flag arrays, `GLFW_KEY_LAST + 1` and `GLFW_MOUSE_BUTTON_LAST + 1`. */
  const KEY_COUNT: int := GLFW_KEY_LAST + 1
  const MOUSE_BUTTON_COUNT: int := GLFW_MOUSE_BUTTON_LAST + 1

  /** Whether a callback's action leaves the key or button held. */
  predicate IsHeld(action: int) {
    action == GLFW_PRESS || action == GLFW_REPEAT
  }

  /** Of GLFW's three actions, only a release clears the flag. */
  lemma HeldUnlessReleased(action: int)
    requires action == GLFW_RELEASE || action == GLFW_PRESS || action == GLFW_REPEAT
    ensures IsHeld(action) <==> action != GLFW_RELEASE
  {
  }

  class InputState {
    const keyDown: array<bool>
    const mouseButtonDown: array<bool>

    ghost predicate Valid()
      reads this
    {
      keyDown.Length == KEY_COUNT && mouseButtonDown.Length == MOUSE_BUTTON_COUNT
    }

    /** The input state starts zeroed: nothing is held. */
    constructor ()
      ensures Valid() && fresh(keyDown) && fresh(mouseButtonDown)
      ensures forall k :: 0 <= k < KEY_COUNT ==> !keyDown[k]
      ensures forall b :: 0 <= b < MOUSE_BUTTON_COUNT ==> !mouseButtonDown[b]
    {
      keyDown := new bool[KEY_COUNT](_ => false);
      mouseButtonDown := new bool[MOUSE_BUTTON_COUNT](_ => false);
    }

    function Down(key: int): bool
      reads this, keyDown
      requires Valid() && 0 <= key < KEY_COUNT
    {
      keyDown[key]
    }

    /**
     * The key callback as written: it stores into the flag of `key` without
     * checking that `key` is a valid index, so the model needs that of its
     * caller.
     */
    method KeyCallback(key: int, action: int)
      requires Valid() && 0 <= key < KEY_COUNT
      modifies keyDown
      ensures keyDown[key] == IsHeld(action)
      ensures forall k :: 0 <= k < KEY_COUNT && k != key ==> keyDown[k] == old(keyDown[k])
    {
      keyDown[key] := IsHeld(action);
    }

    /** The key callback with keys outside the flag array ignored. */
    method KeyCallbackChecked(key: int, action: int)
      requires Valid()
      modifies keyDown
      ensures 0 <= key < KEY_COUNT ==> keyDown[key] == IsHeld(action)
      ensures forall k :: 0 <= k < KEY_COUNT && k != key ==> keyDown[k] == old(keyDown[k])
    {
      if 0 <= key < KEY_COUNT {
        keyDown[key] := IsHeld(action);
      }
    }

    /** GLFW only reports buttons 0 .. GLFW_MOUSE_BUTTON_LAST. */
    method MouseButtonCallback(button: int, action: int)
      requires Valid() && 0 <= button < MOUSE_BUTTON_COUNT
      modifies mouseButtonDown
      ensures mouseButtonDown[button] == IsHeld(action)
      ensures forall b :: 0 <= b < MOUSE_BUTTON_COUNT && b != button ==> mouseButtonDown[b] == old(mouseButtonDown[b])
    {
      mouseButtonDown[button] := IsHeld(action);
    }
  }

  /**
   * GLFW reports keys it has no code for as `GLFW_KEY_UNKNOWN`, which is not
   * an index of the flag array.
   */
  lemma UnknownKeyIsNoIndex()
    ensures !(0 <= GLFW_KEY_UNKNOWN < KEY_COUNT)
  {
  }

  /** Speed multiplier: 4 with left shift held, otherwise 1 with left control held, otherwise 2. */
  function SpeedModifier(shiftDown: bool, controlDown: bool): (m: int)
    ensures m == 4 <==> shiftDown
    ensures m == 1 <==> !shiftDown && controlDown
    ensures m == 2 <==> !shiftDown && !controlDown
  {
    if shiftDown then 4 else if controlDown then 1 else 2
  }
}
