/**
 * The parts of the UI runtime the input devices talk to, reduced to what the
 * wrapper observes: the view, which receives input events (recorded here as a
 * log), the mouse-button enumeration, and the elements the keyboard focus and the
 * hit test can land on.
 */
module NoesisView {
  import opened Wrappers
  import opened Noesis

  datatype MouseButton = Left | Right | Middle | XButton1 | XButton2

  /** One call the wrapper makes on the view. */
  datatype ViewEvent =
      KeyDown(key: Key)
    | KeyUp(key: Key)
    | Char(ch: char)
    | MouseMove(x: int, y: int)
    | MouseWheel(x: int, y: int, delta: int)
    | MouseButtonDown(x: int, y: int, button: MouseButton)
    | MouseButtonUp(x: int, y: int, button: MouseButton)
    | MouseDoubleClick(x: int, y: int, button: MouseButton)

  /** The UI view: every input call it receives is appended to `events`. */
  class View {
    var events: seq<ViewEvent>

    constructor ()
      ensures events == []
    {
      events := [];
    }

    method Send(e: ViewEvent)
      modifies this
      ensures events == old(events) + [e]
    {
      events := events + [e];
    }
  }

  /** The element classes whose type the input code tests. */
  datatype ElementKind = TextBox | ButtonBase | ComboBoxItem | OtherElement

  /**
   * An element of the visual tree, as far as the input code inspects it: an
   * identity, its class, whether it is a `FrameworkElement` and its `IsLoaded` flag
   * (meaningful for framework elements only).
   */
  datatype Element = Element(id: nat, kind: ElementKind, isFrameworkElement: bool, isLoaded: bool)

  /** The UI runtime's keyboard, as far as the wrapper asks it: the element holding the keyboard focus, if any. */
  class KeyboardFocus {
    var focused: Option<Element>

    constructor (focused: Option<Element>)
      ensures this.focused == focused
    {
      this.focused := focused;
    }
  }
}
