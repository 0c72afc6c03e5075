/**
 * The input manager of the current input path (Input/InputManager.cs): it owns the
 * keyboard and the mouse, updates both once per frame and exposes what they
 * consumed so the game can ignore that input.
 */
module InputManagement {
  import opened Wrappers
  import opened Xna
  import opened NoesisView
  import opened KeyboardDevice
  import opened MouseDevice

  class InputManager {
    const keyboard: Keyboard
    const mouse: Mouse

    /** Both devices are live and talk to the same view. */
    ghost predicate Valid()
      reads this, keyboard
    {
      keyboard.Valid() && keyboard.view == mouse.view
    }

    /** Builds the keyboard over the root's keyboard focus and the mouse over the root's visual tree, both on `view`. */
    constructor (view: View, focus: KeyboardFocus, keyboardSettings: KeyboardSettings,
                 doubleClickInterval: int, checkIfElementIgnoresHitTest: Option<Element -> bool>)
      requires keyboardSettings.Valid()
      ensures Valid() && fresh(keyboard) && fresh(mouse)
      ensures keyboard.view == view && keyboard.noesisKeyboard == focus && keyboard.Settings() == keyboardSettings
      ensures mouse.doubleClickInterval == doubleClickInterval && mouse.checkIfElementIgnoresHitTest == checkIfElementIgnoresHitTest
      ensures ConsumedKeyboardKeys() == [] && ConsumedMouseButtons() == [] && ConsumedMouseDeltaWheel() == 0
    {
      keyboard := new Keyboard(view, focus, keyboardSettings);
      mouse := new Mouse(view, doubleClickInterval, checkIfElementIgnoresHitTest);
    }

    /** The keys the UI consumed this frame: the keyboard's own list. */
    function ConsumedKeyboardKeys(): seq<Keys>
      reads this, keyboard
    {
      keyboard.consumedKeys
    }

    /** The mouse buttons the UI consumed this frame: the mouse's own list. */
    function ConsumedMouseButtons(): seq<MouseButton>
      reads this, mouse
    {
      mouse.consumedButtons
    }

    /** The wheel delta the UI consumed this frame. */
    function ConsumedMouseDeltaWheel(): int
      reads this, mouse
    {
      mouse.consumedDeltaWheel
    }

    /**
     * One frame: the keyboard first, then the mouse, with the same game time and
     * window-active flag. The view receives the keyboard's events before the mouse's.
     */
    method Update(gameTime: GameTime, isWindowActive: bool, pressedKeys: seq<Keys>, keyText: Keys -> string,
                  hostMouseState: MouseState, tree: VisualTree)
      returns (ghost downOrder: seq<Keys>, ghost upOrder: seq<Keys>)
      requires Valid() && tree.Valid()
      modifies keyboard, mouse, keyboard.view
      ensures Valid()
      ensures keyboard.previousKeys == (if isWindowActive then set key | key in pressedKeys else {})
      ensures Enumerates(downOrder, keyboard.previousKeys)
      ensures Enumerates(upOrder, old(keyboard.previousKeys) - keyboard.previousKeys)
      ensures ConsumedKeyboardKeys()
        == ConsumedOf(downOrder, keyboard.noesisKeyboard.focused) + ConsumedOf(upOrder, keyboard.noesisKeyboard.focused)
      ensures mouse.isAnyControlUnderMouseCursor
        == ControlUnderCursor(tree, mouse.checkIfElementIgnoresHitTest, old(mouse.lastX), old(mouse.lastY))
      ensures var state := FrameState(isWindowActive, hostMouseState, old(mouse.previousState));
        && mouse.Tracking() == NextTracking(old(mouse.Tracking()), mouse.isAnyControlUnderMouseCursor, state, gameTime.totalGameTime)
        && ConsumedMouseButtons() == ConsumedButtonsOf(state, mouse.isAnyControlUnderMouseCursor)
        && ConsumedMouseDeltaWheel() == WheelDelta(old(mouse.Tracking()), mouse.isAnyControlUnderMouseCursor, state)
        && keyboard.view.events == old(keyboard.view.events)
          + PressEventsOf(downOrder, old(keyboard.heldKeysTime), keyboard.Settings(),
                          KeyboardFrame(keyboard.noesisKeyboard.focused, ElapsedSeconds(gameTime), keyText))
          + ReleaseEventsOf(upOrder, keyboard.noesisKeyboard.focused, keyboard.isEnableDirectionalNavigation)
          + FrameEvents(old(mouse.Tracking()), mouse.isAnyControlUnderMouseCursor, state, gameTime.totalGameTime, mouse.doubleClickInterval)
    {
      downOrder, upOrder := keyboard.UpdateKeyboard(gameTime, isWindowActive, pressedKeys, keyText);
      mouse.UpdateMouse(gameTime, isWindowActive, hostMouseState, tree);
    }
  }
}
