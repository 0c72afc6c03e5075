/**
 * The legacy input path (Input/MonoGameNoesisGUIWrapperInputManager.cs), written
 * against the earlier renderer interface: pure edge detection by list differences
 * for the keyboard and by state comparison for the mouse, with no repeat, focus or
 * consumption logic.
 */
module LegacyInput {
  import opened Xna
  import opened Sequences
  import NoesisView
  import Legacy = MonoGameNoesisKeys

  type MouseButton = NoesisView.MouseButton

  /** One call the legacy path makes on the earlier renderer. */
  datatype RendererEvent =
      KeyDown(key: Legacy.LegacyKey)
    | KeyUp(key: Legacy.LegacyKey)
    | Char(ch: char)
    | MouseMove(x: int, y: int)
    | MouseDown(x: int, y: int, button: MouseButton)
    | MouseUp(x: int, y: int, button: MouseButton)

  /** The earlier UI renderer: every input call it receives is appended to `events`. */
  class UIRenderer {
    var events: seq<RendererEvent>

    constructor ()
      ensures events == []
    {
      events := [];
    }

    method Send(e: RendererEvent)
      modifies this
      ensures events == old(events) + [e]
    {
      events := events + [e];
    }
  }

  /*
   * The keyboard, as values.
   */

  /** The keys of `keys` that are not in `others`, in the order of `keys`. */
  function Without(keys: seq<Keys>, others: seq<Keys>): seq<Keys>
  {
    if keys == [] then []
    else
      var last := keys[|keys| - 1];
      Without(keys[..|keys| - 1], others) + (if last !in others then [last] else [])
  }

  /** A key is kept exactly when it is in `keys` and not in `others`. */
  lemma {:induction false} WithoutMembers(keys: seq<Keys>, others: seq<Keys>)
    ensures forall key :: key in Without(keys, others) <==> key in keys && key !in others
  {
    if keys != [] {
      var init := keys[..|keys| - 1];
      WithoutMembers(init, others);
      assert keys == init + [keys[|keys| - 1]];
    }
  }

  /** The difference keeps the order of `keys`: it splits over any split of `keys`. */
  lemma {:induction false} WithoutKeepsOrder(front: seq<Keys>, back: seq<Keys>, others: seq<Keys>)
    ensures Without(front + back, others) == Without(front, others) + Without(back, others)
    decreases |back|
  {
    if back == [] {
      assert front + back == front;
    } else {
      var init := back[..|back| - 1];
      var last := back[|back| - 1];
      assert front + back == (front + init) + [last];
      assert (front + back)[..|front + back| - 1] == front + init;
      WithoutKeepsOrder(front, init, others);
      AppendIsAssociative(Without(front, others), Without(init, others), if last !in others then [last] else []);
    }
  }

  /** The renderer calls made for a list of keys: a key-down (a key-up when `isDown` is false) for each key whose legacy conversion is not `None`. */
  function KeyEvents(keys: seq<Keys>, isDown: bool): seq<RendererEvent>
  {
    if keys == [] then []
    else
      var init := keys[..|keys| - 1];
      var noesisKey := Legacy.Convert(keys[|keys| - 1]);
      KeyEvents(init, isDown) + (if noesisKey != Legacy.LegacyKey.None then [if isDown then KeyDown(noesisKey) else KeyUp(noesisKey)] else [])
  }

  /** The calls for a list of keys are exactly one key-down (or key-up) per key that converts to something. */
  lemma {:induction false} KeyEventsAreConvertedKeys(keys: seq<Keys>, isDown: bool)
    ensures forall e | e in KeyEvents(keys, isDown) :: (if isDown then e.KeyDown? else e.KeyUp?)
    ensures forall e | e in KeyEvents(keys, isDown) :: exists key | key in keys :: Legacy.Convert(key) != Legacy.LegacyKey.None && e.key == Legacy.Convert(key)
    ensures forall key | key in keys && Legacy.Convert(key) != Legacy.LegacyKey.None ::
      (if isDown then KeyDown(Legacy.Convert(key)) else KeyUp(Legacy.Convert(key))) in KeyEvents(keys, isDown)
  {
    if keys != [] {
      var init := keys[..|keys| - 1];
      KeyEventsAreConvertedKeys(init, isDown);
      assert keys == init + [keys[|keys| - 1]];
    }
  }

  /** All the key-downs of a frame come before all its key-ups. */
  lemma KeyDownsBeforeKeyUps(pressed: seq<Keys>, released: seq<Keys>)
    ensures var events := KeyEvents(pressed, true) + KeyEvents(released, false);
      forall i, j | 0 <= i < j < |events| :: events[j].KeyDown? ==> events[i].KeyDown?
  {
    KeyEventsAreConvertedKeys(pressed, true);
    KeyEventsAreConvertedKeys(released, false);
    var downs := KeyEvents(pressed, true);
    var events := downs + KeyEvents(released, false);
    forall i, j | 0 <= i < j < |events| && events[j].KeyDown?
      ensures events[i].KeyDown?
    {
      assert events[i] in downs;
    }
  }

  /** What the legacy keyboard sends in one frame, given the keys pressed now and last frame. */
  function KeyboardFrameEvents(currentKeys: seq<Keys>, previousKeys: seq<Keys>): seq<RendererEvent>
  {
    KeyEvents(Without(currentKeys, previousKeys), true) + KeyEvents(Without(previousKeys, currentKeys), false)
  }

  /** With the same keys held in two frames, the second sends nothing. */
  lemma SteadyKeysSendNothing(keys: seq<Keys>)
    ensures KeyboardFrameEvents(keys, keys) == []
  {
    WithoutAllIsEmpty(keys, keys);
  }

  /** Nothing is left when every key is among the others. */
  lemma {:induction false} WithoutAllIsEmpty(keys: seq<Keys>, others: seq<Keys>)
    requires forall key | key in keys :: key in others
    ensures Without(keys, others) == []
  {
    if keys != [] {
      WithoutAllIsEmpty(keys[..|keys| - 1], others);
    }
  }

  /*
   * The mouse, as values.
   */

  /** A move when the position differs from the last one sent. */
  function MoveEvent(lastX: int, lastY: int, state: MouseState): seq<RendererEvent>
  {
    if lastX != state.x || lastY != state.y then [MouseMove(state.x, state.y)] else []
  }

  /** A button-down on a change to pressed. */
  function DownEvent(x: int, y: int, current: ButtonState, previous: ButtonState, button: MouseButton): seq<RendererEvent>
  {
    if current == Pressed && current != previous then [MouseDown(x, y, button)] else []
  }

  /** A button-up on a change to released. */
  function UpEvent(x: int, y: int, current: ButtonState, previous: ButtonState, button: MouseButton): seq<RendererEvent>
  {
    if current == Released && current != previous then [MouseUp(x, y, button)] else []
  }

  /** What the legacy mouse sends in one frame: a move, then the buttons' calls. */
  function MouseFrameEvents(lastX: int, lastY: int, previous: MouseState, state: MouseState): seq<RendererEvent>
  {
    MoveEvent(lastX, lastY, state) + ButtonEvents(previous, state)
  }

  /** The buttons' calls of a frame: the downs of left, right and middle, then their ups. */
  function ButtonEvents(previous: MouseState, state: MouseState): seq<RendererEvent>
  {
    var x, y := state.x, state.y;
    DownEvent(x, y, state.leftButton, previous.leftButton, NoesisView.Left)
    + DownEvent(x, y, state.rightButton, previous.rightButton, NoesisView.Right)
    + DownEvent(x, y, state.middleButton, previous.middleButton, NoesisView.Middle)
    + UpEvent(x, y, state.leftButton, previous.leftButton, NoesisView.Left)
    + UpEvent(x, y, state.rightButton, previous.rightButton, NoesisView.Right)
    + UpEvent(x, y, state.middleButton, previous.middleButton, NoesisView.Middle)
  }

  /** A button-down is sent only on a released-to-pressed change, a button-up only on a pressed-to-released one. */
  lemma ButtonEventsOnEdges(x: int, y: int, current: ButtonState, previous: ButtonState, button: MouseButton)
    ensures DownEvent(x, y, current, previous, button) != [] <==> previous == Released && current == Pressed
    ensures UpEvent(x, y, current, previous, button) != [] <==> previous == Pressed && current == Released
    ensures DownEvent(x, y, current, previous, button) == [] || UpEvent(x, y, current, previous, button) == []
  {
  }

  /** A frame whose poll equals the last one, at the last position sent, sends nothing. */
  lemma SteadyMouseSendsNothing(previous: MouseState)
    ensures MouseFrameEvents(previous.x, previous.y, previous, previous) == []
  {
  }

  /** A move is sent exactly when the position changed, and it carries the new position. */
  lemma MoveOnlyWhenMoved(lastX: int, lastY: int, previous: MouseState, state: MouseState)
    ensures MouseMove(state.x, state.y) in MouseFrameEvents(lastX, lastY, previous, state) <==> lastX != state.x || lastY != state.y
    ensures forall e | e in MouseFrameEvents(lastX, lastY, previous, state) && e.MouseMove? :: e == MouseMove(state.x, state.y)
  {
    var events := MouseFrameEvents(lastX, lastY, previous, state);
    if lastX != state.x || lastY != state.y {
      assert events[0] == MouseMove(state.x, state.y);
    }
  }

  /*
   * The devices.
   */

  class Keyboard {
    var pressedKeys: seq<Keys>
    var releasedKeys: seq<Keys>
    var previousKeys: seq<Keys>
    const uiRenderer: UIRenderer

    constructor (uiRenderer: UIRenderer)
      ensures this.uiRenderer == uiRenderer && pressedKeys == [] && releasedKeys == [] && previousKeys == []
    {
      this.uiRenderer := uiRenderer;
      pressedKeys := [];
      releasedKeys := [];
      previousKeys := [];
    }

    method OnChar(character: char)
      modifies uiRenderer
      ensures uiRenderer.events == old(uiRenderer.events) + [Char(character)]
    {
      uiRenderer.Send(Char(character));
    }

    method OnKeyDown(noesisKey: Legacy.LegacyKey)
      modifies uiRenderer
      ensures uiRenderer.events == old(uiRenderer.events) + [KeyDown(noesisKey)]
    {
      uiRenderer.Send(KeyDown(noesisKey));
    }

    /** One frame, with `currentKeys` the host keyboard's pressed keys. */
    method UpdateKeyboard(currentKeys: seq<Keys>)
      modifies this, uiRenderer
      ensures pressedKeys == Without(currentKeys, old(previousKeys))
      ensures releasedKeys == Without(old(previousKeys), currentKeys)
      ensures previousKeys == currentKeys
      ensures uiRenderer.events == old(uiRenderer.events) + KeyboardFrameEvents(currentKeys, old(previousKeys))
    {
      FillPressedKeys(currentKeys);
      FillReleasedKeys(currentKeys);
      ghost var start := uiRenderer.events;
      SendKeys(pressedKeys, true);
      SendKeys(releasedKeys, false);
      AppendIsAssociative(start, KeyEvents(pressedKeys, true), KeyEvents(releasedKeys, false));

      previousKeys := currentKeys;
    }

    /** The first loop: the keys pressed now that were not pressed last frame. */
    method FillPressedKeys(currentKeys: seq<Keys>)
      modifies this
      ensures pressedKeys == Without(currentKeys, previousKeys)
      ensures releasedKeys == old(releasedKeys) && previousKeys == old(previousKeys)
    {
      pressedKeys := [];
      var i := 0;
      while i < |currentKeys|
        invariant 0 <= i <= |currentKeys|
        invariant pressedKeys == Without(currentKeys[..i], previousKeys)
        invariant releasedKeys == old(releasedKeys) && previousKeys == old(previousKeys)
      {
        assert currentKeys[..i + 1][..i] == currentKeys[..i];
        if currentKeys[i] !in previousKeys {
          pressedKeys := pressedKeys + [currentKeys[i]];
        }
        i := i + 1;
      }
      assert currentKeys[..i] == currentKeys;
    }

    /** The second loop: the keys pressed last frame that are not pressed now. */
    method FillReleasedKeys(currentKeys: seq<Keys>)
      modifies this
      ensures releasedKeys == Without(previousKeys, currentKeys)
      ensures pressedKeys == old(pressedKeys) && previousKeys == old(previousKeys)
    {
      releasedKeys := [];
      var i := 0;
      while i < |previousKeys|
        invariant 0 <= i <= |previousKeys|
        invariant releasedKeys == Without(previousKeys[..i], currentKeys)
        invariant pressedKeys == old(pressedKeys) && previousKeys == old(previousKeys)
      {
        assert previousKeys[..i + 1][..i] == previousKeys[..i];
        if previousKeys[i] !in currentKeys {
          releasedKeys := releasedKeys + [previousKeys[i]];
        }
        i := i + 1;
      }
      assert previousKeys[..i] == previousKeys;
    }

    /** The key-down loop (`isDown`) or the key-up loop over a list of keys. */
    method SendKeys(keys: seq<Keys>, isDown: bool)
      modifies uiRenderer
      ensures uiRenderer.events == old(uiRenderer.events) + KeyEvents(keys, isDown)
    {
      var i := 0;
      while i < |keys|
        invariant 0 <= i <= |keys|
        invariant uiRenderer.events == old(uiRenderer.events) + KeyEvents(keys[..i], isDown)
      {
        assert keys[..i + 1][..i] == keys[..i];
        var noesisKey := Legacy.Convert(keys[i]);
        ghost var sent := if noesisKey != Legacy.LegacyKey.None then [if isDown then KeyDown(noesisKey) else KeyUp(noesisKey)] else [];
        AppendIsAssociative(old(uiRenderer.events), KeyEvents(keys[..i], isDown), sent);
        if noesisKey != Legacy.LegacyKey.None {
          if isDown {
            uiRenderer.Send(KeyDown(noesisKey));
          } else {
            uiRenderer.Send(KeyUp(noesisKey));
          }
        }
        i := i + 1;
      }
      assert keys[..i] == keys;
    }
  }

  class Mouse {
    var mouseLastX: int
    var mouseLastY: int
    var previousMouseState: MouseState
    const uiRenderer: UIRenderer

    constructor (uiRenderer: UIRenderer)
      ensures this.uiRenderer == uiRenderer && mouseLastX == 0 && mouseLastY == 0 && previousMouseState == DefaultMouseState
    {
      this.uiRenderer := uiRenderer;
      mouseLastX := 0;
      mouseLastY := 0;
      previousMouseState := DefaultMouseState;
    }

    /** One frame, with `mouseState` the host's mouse poll. */
    method UpdateMouse(mouseState: MouseState)
      modifies this, uiRenderer
      ensures mouseLastX == mouseState.x && mouseLastY == mouseState.y && previousMouseState == mouseState
      ensures uiRenderer.events == old(uiRenderer.events) + MouseFrameEvents(old(mouseLastX), old(mouseLastY), old(previousMouseState), mouseState)
    {
      var x := mouseState.x;
      var y := mouseState.y;
      ghost var start := uiRenderer.events;
      if mouseLastX != x || mouseLastY != y {
        uiRenderer.Send(MouseMove(x, y));
        mouseLastX := x;
        mouseLastY := y;
      }
      ProcessMouseButtons(previousMouseState, mouseState);
      AppendIsAssociative(start, MoveEvent(old(mouseLastX), old(mouseLastY), mouseState), ButtonEvents(old(previousMouseState), mouseState));
      previousMouseState := mouseState;
    }

    /** The button-down calls of the three buttons, then their button-up calls. */
    method ProcessMouseButtons(previous: MouseState, mouseState: MouseState)
      modifies uiRenderer
      ensures uiRenderer.events == old(uiRenderer.events) + ButtonEvents(previous, mouseState)
    {
      var x := mouseState.x;
      var y := mouseState.y;
      ProcessMouseButtonDown(x, y, mouseState.leftButton, previous.leftButton, NoesisView.Left);
      ProcessMouseButtonDown(x, y, mouseState.rightButton, previous.rightButton, NoesisView.Right);
      ProcessMouseButtonDown(x, y, mouseState.middleButton, previous.middleButton, NoesisView.Middle);
      ProcessMouseButtonUp(x, y, mouseState.leftButton, previous.leftButton, NoesisView.Left);
      ProcessMouseButtonUp(x, y, mouseState.rightButton, previous.rightButton, NoesisView.Right);
      ProcessMouseButtonUp(x, y, mouseState.middleButton, previous.middleButton, NoesisView.Middle);
      ButtonEventsInOrder(old(uiRenderer.events), previous, mouseState);
    }

    method ProcessMouseButtonDown(x: int, y: int, xnaButtonCurrent: ButtonState, xnaButtonPrevious: ButtonState, noesisButton: MouseButton)
      modifies uiRenderer
      ensures uiRenderer.events == old(uiRenderer.events) + DownEvent(x, y, xnaButtonCurrent, xnaButtonPrevious, noesisButton)
    {
      if xnaButtonCurrent == Pressed && xnaButtonCurrent != xnaButtonPrevious {
        uiRenderer.Send(MouseDown(x, y, noesisButton));
      }
    }

    method ProcessMouseButtonUp(x: int, y: int, xnaButtonCurrent: ButtonState, xnaButtonPrevious: ButtonState, noesisButton: MouseButton)
      modifies uiRenderer
      ensures uiRenderer.events == old(uiRenderer.events) + UpEvent(x, y, xnaButtonCurrent, xnaButtonPrevious, noesisButton)
    {
      if xnaButtonCurrent == Released && xnaButtonCurrent != xnaButtonPrevious {
        uiRenderer.Send(MouseUp(x, y, noesisButton));
      }
    }
  }

  /** The buttons' calls arrive one piece at a time at the end of the renderer's log. */
  lemma ButtonEventsInOrder(prefix: seq<RendererEvent>, previous: MouseState, state: MouseState)
    ensures var x, y := state.x, state.y;
      prefix + ButtonEvents(previous, state)
      == prefix
        + DownEvent(x, y, state.leftButton, previous.leftButton, NoesisView.Left)
        + DownEvent(x, y, state.rightButton, previous.rightButton, NoesisView.Right)
        + DownEvent(x, y, state.middleButton, previous.middleButton, NoesisView.Middle)
        + UpEvent(x, y, state.leftButton, previous.leftButton, NoesisView.Left)
        + UpEvent(x, y, state.rightButton, previous.rightButton, NoesisView.Right)
        + UpEvent(x, y, state.middleButton, previous.middleButton, NoesisView.Middle)
  {
    var x, y := state.x, state.y;
    var b := DownEvent(x, y, state.leftButton, previous.leftButton, NoesisView.Left);
    var c := DownEvent(x, y, state.rightButton, previous.rightButton, NoesisView.Right);
    var d := DownEvent(x, y, state.middleButton, previous.middleButton, NoesisView.Middle);
    var e := UpEvent(x, y, state.leftButton, previous.leftButton, NoesisView.Left);
    var f := UpEvent(x, y, state.rightButton, previous.rightButton, NoesisView.Right);
    var g := UpEvent(x, y, state.middleButton, previous.middleButton, NoesisView.Middle);
    AppendIsAssociative(prefix, b, c);
    AppendIsAssociative(prefix, b + c, d);
    AppendIsAssociative(prefix, b + c + d, e);
    AppendIsAssociative(prefix, b + c + d + e, f);
    AppendIsAssociative(prefix, b + c + d + e + f, g);
  }

  /** The legacy input manager: one keyboard and one mouse on the same renderer. */
  class MonoGameNoesisGUIWrapperInputManager {
    const keyboard: Keyboard
    const mouse: Mouse

    ghost predicate Valid()
      reads this
    {
      keyboard.uiRenderer == mouse.uiRenderer
    }

    constructor (uiRenderer: UIRenderer)
      ensures Valid() && keyboard.uiRenderer == uiRenderer && fresh(keyboard) && fresh(mouse)
      ensures keyboard.previousKeys == [] && mouse.previousMouseState == DefaultMouseState
    {
      mouse := new Mouse(uiRenderer);
      keyboard := new Keyboard(uiRenderer);
    }

    /** A character typed on the host is passed to the renderer unchanged. */
    method OnTextInput(character: char)
      requires Valid()
      modifies keyboard.uiRenderer
      ensures keyboard.uiRenderer.events == old(keyboard.uiRenderer.events) + [Char(character)]
    {
      keyboard.OnChar(character);
    }

    /** One frame: the keyboard's calls, then the mouse's. */
    method Update(currentKeys: seq<Keys>, mouseState: MouseState)
      requires Valid()
      modifies keyboard, mouse, keyboard.uiRenderer
      ensures Valid()
      ensures keyboard.previousKeys == currentKeys && mouse.previousMouseState == mouseState
      ensures keyboard.uiRenderer.events == old(keyboard.uiRenderer.events)
        + KeyboardFrameEvents(currentKeys, old(keyboard.previousKeys))
        + MouseFrameEvents(old(mouse.mouseLastX), old(mouse.mouseLastY), old(mouse.previousMouseState), mouseState)
    {
      keyboard.UpdateKeyboard(currentKeys);
      mouse.UpdateMouse(mouseState);
    }
  }
}
