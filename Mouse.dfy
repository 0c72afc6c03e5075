/**
 * The per-frame mouse state machine of `Input/Devices/Mouse.cs`: it turns the host's
 * mouse poll into pointer, wheel, button and double-click events on the view, and
 * records which buttons and how much wheel the UI claimed this frame.
 */
module MouseDevice {
  import opened Wrappers
  import opened Xna
  import opened NoesisView
  import opened Sequences

  /*
   * The visual tree, as the hit test walks it.
   */

  /**
   * The visual tree as the "control under cursor" test sees it: the element a hit test
   * at a point lands on, each element's logical parent (`Parent`, always a framework
   * element) and its visual parent (`VisualTreeHelper.GetParent`). `depth` ranks the
   * elements so that every parent sits strictly closer to the root.
   */
  datatype VisualTree = VisualTree(
    hitTest: (int, int) -> Option<Element>,
    logicalParent: map<Element, Element>,
    visualParent: map<Element, Element>,
    depth: map<Element, nat>)
  {
    /** Parent links lead towards the root, so every walk up the tree ends. */
    predicate Valid()
    {
      && (forall e | e in logicalParent :: e in depth && logicalParent[e] in depth && depth[logicalParent[e]] < depth[e])
      && (forall e | e in visualParent :: e in depth && visualParent[e] in depth && depth[visualParent[e]] < depth[e])
    }
  }

  /** C#'s `as FrameworkElement`: anything else becomes null. */
  function AsFrameworkElement(visual: Option<Element>): (r: Option<Element>)
    ensures r.Some? <==> visual.Some? && visual.value.isFrameworkElement
    ensures r.Some? ==> r == visual
  {
    if visual.Some? && visual.value.isFrameworkElement then visual else Option.None
  }

  /** The next element up: `visual.Parent ?? VisualTreeHelper.GetParent(visual) as FrameworkElement`. */
  function Up(tree: VisualTree, visual: Element): Option<Element>
  {
    if visual in tree.logicalParent then Some(tree.logicalParent[visual])
    else if visual in tree.visualParent then AsFrameworkElement(Some(tree.visualParent[visual]))
    else Option.None
  }

  /** A measure that strictly decreases along `Up` in a valid tree. */
  function Height(tree: VisualTree, visual: Option<Element>): nat
  {
    match visual
    case None => 0
    case Some(v) => if v in tree.depth then tree.depth[v] + 1 else 1
  }

  lemma UpDecreases(tree: VisualTree, visual: Element)
    requires tree.Valid()
    ensures Height(tree, Up(tree, visual)) < Height(tree, Some(visual))
  {
  }

  /** The elements the hit-test loop visits, from `visual` up to the first null. */
  function Chain(tree: VisualTree, visual: Option<Element>): seq<Element>
    requires tree.Valid()
    decreases Height(tree, visual)
  {
    match visual
    case None => []
    case Some(v) =>
      UpDecreases(tree, v);
      [v] + Chain(tree, Up(tree, v))
  }

  /** The first element visited: the hit element at a point, when it is a framework element. */
  function HitElement(tree: VisualTree, x: int, y: int): Option<Element>
  {
    AsFrameworkElement(tree.hitTest(x, y))
  }

  /**
   * A control is under the cursor at (x, y) when some element on the walk from the
   * hit element up the parent chain is not ignored by the hit-test callback; with no
   * callback there never is one.
   */
  predicate ControlUnderCursor(tree: VisualTree, ignoresHitTest: Option<Element -> bool>, x: int, y: int)
    requires tree.Valid()
  {
    ignoresHitTest.Some? && SomeNotIgnored(ignoresHitTest.value, Chain(tree, HitElement(tree, x, y)))
  }

  /** Some element of `elements` is not ignored by the callback. */
  predicate SomeNotIgnored(ignoresHitTest: Element -> bool, elements: seq<Element>)
  {
    exists i | 0 <= i < |elements| :: !ignoresHitTest(elements[i])
  }

  /** Whether the walk up from `visual` reaches an element the callback does not ignore, one step at a time. */
  predicate FoundOnWalk(tree: VisualTree, ignoresHitTest: Element -> bool, visual: Option<Element>)
    requires tree.Valid()
    decreases Height(tree, visual)
  {
    match visual
    case None => false
    case Some(v) =>
      UpDecreases(tree, v);
      !ignoresHitTest(v) || FoundOnWalk(tree, ignoresHitTest, Up(tree, v))
  }

  /** The step-by-step search answers the same as asking whether some visited element is not ignored. */
  lemma {:induction false} FoundOnWalkSearchesChain(tree: VisualTree, ignoresHitTest: Element -> bool, visual: Option<Element>)
    requires tree.Valid()
    ensures FoundOnWalk(tree, ignoresHitTest, visual) <==> SomeNotIgnored(ignoresHitTest, Chain(tree, visual))
    decreases Height(tree, visual)
  {
    if visual.Some? {
      var v := visual.value;
      UpDecreases(tree, v);
      FoundOnWalkSearchesChain(tree, ignoresHitTest, Up(tree, v));
      var chain := Chain(tree, visual);
      assert chain == [v] + Chain(tree, Up(tree, v));
      assert chain[1..] == Chain(tree, Up(tree, v));
      SomeNotIgnoredSplits(ignoresHitTest, chain);
    }
  }

  /** Some element of a non-empty sequence is not ignored exactly when its first one is not, or one of the rest is not. */
  lemma SomeNotIgnoredSplits(ignoresHitTest: Element -> bool, elements: seq<Element>)
    requires elements != []
    ensures SomeNotIgnored(ignoresHitTest, elements)
      <==> !ignoresHitTest(elements[0]) || SomeNotIgnored(ignoresHitTest, elements[1..])
  {
    if SomeNotIgnored(ignoresHitTest, elements) {
      var i :| 0 <= i < |elements| && !ignoresHitTest(elements[i]);
      if i > 0 {
        assert elements[1..][i - 1] == elements[i];
      }
    }
    if SomeNotIgnored(ignoresHitTest, elements[1..]) {
      var j :| 0 <= j < |elements[1..]| && !ignoresHitTest(elements[1..][j]);
      assert elements[j + 1] == elements[1..][j];
    }
  }

  /** So a control is under the cursor exactly when a callback is set and the step-by-step search from the hit element succeeds. */
  lemma ControlUnderCursorIsFoundOnWalk(tree: VisualTree, ignoresHitTest: Option<Element -> bool>, x: int, y: int)
    requires tree.Valid()
    ensures ControlUnderCursor(tree, ignoresHitTest, x, y)
      <==> ignoresHitTest.Some? && FoundOnWalk(tree, ignoresHitTest.value, HitElement(tree, x, y))
  {
    if ignoresHitTest.Some? {
      FoundOnWalkSearchesChain(tree, ignoresHitTest.value, HitElement(tree, x, y));
    }
  }

  /** The walk starts at the hit element and follows `Up` from each element to the next. */
  lemma {:induction false} ChainFollowsParents(tree: VisualTree, visual: Option<Element>)
    requires tree.Valid()
    ensures visual.None? <==> Chain(tree, visual) == []
    ensures visual.Some? ==> Chain(tree, visual)[0] == visual.value
    ensures forall i | 0 <= i < |Chain(tree, visual)| - 1 :: Up(tree, Chain(tree, visual)[i]) == Some(Chain(tree, visual)[i + 1])
    ensures |Chain(tree, visual)| > 0 ==> Up(tree, Chain(tree, visual)[|Chain(tree, visual)| - 1]).None?
    decreases Height(tree, visual)
  {
    if visual.Some? {
      var v := visual.value;
      UpDecreases(tree, v);
      ChainFollowsParents(tree, Up(tree, v));
      var rest := Chain(tree, Up(tree, v));
      assert Chain(tree, visual) == [v] + rest;
      if rest != [] {
        assert Up(tree, v) == Some(rest[0]);
      }
    }
  }

  /** Every element the walk visits is a framework element, since the walk follows `as FrameworkElement` links and logical parents. */
  lemma {:induction false} ChainHoldsFrameworkElements(tree: VisualTree, visual: Option<Element>)
    requires tree.Valid()
    requires forall e | e in tree.logicalParent :: tree.logicalParent[e].isFrameworkElement
    requires visual.Some? ==> visual.value.isFrameworkElement
    ensures forall i | 0 <= i < |Chain(tree, visual)| :: Chain(tree, visual)[i].isFrameworkElement
    decreases Height(tree, visual)
  {
    if visual.Some? {
      var v := visual.value;
      UpDecreases(tree, v);
      ChainHoldsFrameworkElements(tree, Up(tree, v));
      assert Chain(tree, visual) == [v] + Chain(tree, Up(tree, v));
    }
  }

  /** Without a callback nothing is ever under the cursor, whatever the tree. */
  lemma NoCallbackNoControl(tree: VisualTree, x: int, y: int)
    requires tree.Valid()
    ensures !ControlUnderCursor(tree, Option.None, x, y)
  {
  }

  /** A callback that ignores nothing finds a control exactly when the hit test lands on a framework element. */
  lemma HitElementIsEnough(tree: VisualTree, ignoresHitTest: Element -> bool, x: int, y: int)
    requires tree.Valid()
    requires forall e :: !ignoresHitTest(e)
    ensures ControlUnderCursor(tree, Some(ignoresHitTest), x, y) <==> HitElement(tree, x, y).Some?
  {
    var chain := Chain(tree, HitElement(tree, x, y));
    if HitElement(tree, x, y).Some? {
      assert !ignoresHitTest(chain[0]);
    }
  }

  /*
   * One frame, as values.
   */

  /** A button's state in a poll; the extra buttons are listed but never processed. */
  function ButtonOf(state: MouseState, button: MouseButton): ButtonState
  {
    match button
    case Left => state.leftButton
    case Right => state.rightButton
    case Middle => state.middleButton
    case XButton1 => state.xButton1
    case XButton2 => state.xButton2
  }

  /** The state used while the window is inactive: last frame's position and wheel, every button released. */
  function InactiveState(previous: MouseState): MouseState
  {
    MouseState(previous.x, previous.y, previous.scrollWheelValue, Released, Released, Released, Released, Released)
  }

  /** The poll a frame works on: the host's poll while the window is active, else the inactive state. */
  function FrameState(isWindowActive: bool, hostState: MouseState, previous: MouseState): MouseState
  {
    if isWindowActive then hostState else InactiveState(previous)
  }

  /** What the mouse remembers from one frame to the next. */
  datatype MouseTracking = MouseTracking(
    lastX: int,
    lastY: int,
    lastScrollWheelValue: int,
    isLastFrameWasScrolled: bool,
    previousState: MouseState,
    lastPressTime: map<MouseButton, int>)

  /** The pointer move sent when the position changed or last frame scrolled. */
  function MoveEvents(t: MouseTracking, state: MouseState): seq<ViewEvent>
  {
    if t.lastX != state.x || t.lastY != state.y || t.isLastFrameWasScrolled then [MouseMove(state.x, state.y)] else []
  }

  /** The wheel delta the UI claims: the change in the wheel value when a control is under the cursor, else 0. */
  function WheelDelta(t: MouseTracking, isAnyControlUnderMouseCursor: bool, state: MouseState): int
  {
    if t.lastScrollWheelValue != state.scrollWheelValue && isAnyControlUnderMouseCursor
    then state.scrollWheelValue - t.lastScrollWheelValue
    else 0
  }

  /** The wheel event sent for a claimed scroll. */
  function WheelEvents(t: MouseTracking, isAnyControlUnderMouseCursor: bool, state: MouseState): seq<ViewEvent>
  {
    if t.lastScrollWheelValue != state.scrollWheelValue && isAnyControlUnderMouseCursor
    then [MouseWheel(state.x, state.y, state.scrollWheelValue - t.lastScrollWheelValue)]
    else []
  }

  /**
   * What `ProcessMouseButtonDown` sends for one button: on a change to pressed, a
   * double click when the last recorded press (time zero if none) is less than the
   * interval ago, then the button-down.
   */
  function ButtonDownEvents(button: MouseButton, current: ButtonState, previous: ButtonState, x: int, y: int,
                            lastPressTime: map<MouseButton, int>, now: int, doubleClickInterval: int): seq<ViewEvent>
  {
    if current != Pressed || current == previous then []
    else
      var lastPress := if button in lastPressTime then lastPressTime[button] else 0;
      (if now - lastPress < doubleClickInterval then [MouseDoubleClick(x, y, button)] else [])
      + [MouseButtonDown(x, y, button)]
  }

  /** What `ProcessMouseButtonUp` sends for one button: a button-up on a change to released. */
  function ButtonUpEvents(button: MouseButton, current: ButtonState, previous: ButtonState, x: int, y: int): seq<ViewEvent>
  {
    if current != Released || current == previous then [] else [MouseButtonUp(x, y, button)]
  }

  /** The press-time record after a button's press check. */
  function RecordPress(lastPressTime: map<MouseButton, int>, button: MouseButton, current: ButtonState, previous: ButtonState, now: int): map<MouseButton, int>
  {
    if current != Pressed || current == previous then lastPressTime else lastPressTime[button := now]
  }

  /** A consume check: the button is claimed when a control is under the cursor. */
  function ConsumeCheck(button: MouseButton, isAnyControlUnderMouseCursor: bool): seq<MouseButton>
  {
    if isAnyControlUnderMouseCursor then [button] else []
  }

  /** The consume checks of the press pass: one for each processed button that is pressed. */
  function DownConsumption(button: MouseButton, current: ButtonState, isAnyControlUnderMouseCursor: bool): seq<MouseButton>
  {
    if current == Pressed then ConsumeCheck(button, isAnyControlUnderMouseCursor) else []
  }

  /** The consume checks of the release pass: one for each processed button that is released. */
  function UpConsumption(button: MouseButton, current: ButtonState, isAnyControlUnderMouseCursor: bool): seq<MouseButton>
  {
    if current == Released then ConsumeCheck(button, isAnyControlUnderMouseCursor) else []
  }

  /** The buttons claimed in a frame, in the order Left, Right, Middle of the press pass and then of the release pass. */
  function ConsumedButtonsOf(state: MouseState, isAnyControlUnderMouseCursor: bool): seq<MouseButton>
  {
    DownConsumption(Left, state.leftButton, isAnyControlUnderMouseCursor)
    + DownConsumption(Right, state.rightButton, isAnyControlUnderMouseCursor)
    + DownConsumption(Middle, state.middleButton, isAnyControlUnderMouseCursor)
    + UpConsumption(Left, state.leftButton, isAnyControlUnderMouseCursor)
    + UpConsumption(Right, state.rightButton, isAnyControlUnderMouseCursor)
    + UpConsumption(Middle, state.middleButton, isAnyControlUnderMouseCursor)
  }

  /** Every event of a frame, in the order the view receives them. */
  function FrameEvents(t: MouseTracking, isAnyControlUnderMouseCursor: bool, state: MouseState, now: int, doubleClickInterval: int): seq<ViewEvent>
  {
    var previous := t.previousState;
    MoveEvents(t, state)
    + WheelEvents(t, isAnyControlUnderMouseCursor, state)
    + ButtonDownEvents(Left, state.leftButton, previous.leftButton, state.x, state.y, t.lastPressTime, now, doubleClickInterval)
    + ButtonDownEvents(Right, state.rightButton, previous.rightButton, state.x, state.y, t.lastPressTime, now, doubleClickInterval)
    + ButtonDownEvents(Middle, state.middleButton, previous.middleButton, state.x, state.y, t.lastPressTime, now, doubleClickInterval)
    + ButtonUpEvents(Left, state.leftButton, previous.leftButton, state.x, state.y)
    + ButtonUpEvents(Right, state.rightButton, previous.rightButton, state.x, state.y)
    + ButtonUpEvents(Middle, state.middleButton, previous.middleButton, state.x, state.y)
  }

  /** What the mouse remembers after a frame. */
  function NextTracking(t: MouseTracking, isAnyControlUnderMouseCursor: bool, state: MouseState, now: int): MouseTracking
  {
    var previous := t.previousState;
    var times := RecordPress(t.lastPressTime, Left, state.leftButton, previous.leftButton, now);
    var times := RecordPress(times, Right, state.rightButton, previous.rightButton, now);
    var times := RecordPress(times, Middle, state.middleButton, previous.middleButton, now);
    MouseTracking(
      state.x, state.y, state.scrollWheelValue,
      t.lastScrollWheelValue != state.scrollWheelValue && isAnyControlUnderMouseCursor,
      state, times)
  }

  /*
   * Properties of a frame.
   */

  /** While the window is inactive the mouse stays where it was and every button reads released. */
  lemma InactiveStateKeepsPosition(hostState: MouseState, previous: MouseState)
    ensures var s := FrameState(false, hostState, previous);
      && s.x == previous.x && s.y == previous.y && s.scrollWheelValue == previous.scrollWheelValue
      && forall b :: ButtonOf(s, b) == Released
  {
  }

  /** Each of Left, Right and Middle passes exactly one consume check, so all three are claimed or none is; the extra buttons never are. */
  lemma EachButtonConsumedOnce(state: MouseState, isAnyControlUnderMouseCursor: bool)
    ensures multiset(ConsumedButtonsOf(state, isAnyControlUnderMouseCursor))
      == if isAnyControlUnderMouseCursor then multiset{Left, Right, Middle} else multiset{}
  {
    ConsumedButtonsRegrouped(state, isAnyControlUnderMouseCursor);
    ThreeConsumeChecks(isAnyControlUnderMouseCursor);
  }

  lemma ThreeConsumeChecks(isAnyControlUnderMouseCursor: bool)
    ensures var any := isAnyControlUnderMouseCursor;
      multiset(ConsumeCheck(Left, any)) + multiset(ConsumeCheck(Right, any)) + multiset(ConsumeCheck(Middle, any))
      == if any then multiset{Left, Right, Middle} else multiset{}
  {
  }

  /** The consume checks of a frame, regrouped button by button. */
  lemma ConsumedButtonsRegrouped(state: MouseState, isAnyControlUnderMouseCursor: bool)
    ensures var any := isAnyControlUnderMouseCursor;
      multiset(ConsumedButtonsOf(state, any))
      == multiset(ConsumeCheck(Left, any)) + multiset(ConsumeCheck(Right, any)) + multiset(ConsumeCheck(Middle, any))
  {
    var any := isAnyControlUnderMouseCursor;
    var dl, dr, dm := DownConsumption(Left, state.leftButton, any), DownConsumption(Right, state.rightButton, any), DownConsumption(Middle, state.middleButton, any);
    var ul, ur, um := UpConsumption(Left, state.leftButton, any), UpConsumption(Right, state.rightButton, any), UpConsumption(Middle, state.middleButton, any);
    assert ConsumedButtonsOf(state, any) == dl + dr + dm + ul + ur + um;
    calc {
      multiset(ConsumedButtonsOf(state, any));
      multiset(dl) + multiset(dr) + multiset(dm) + multiset(ul) + multiset(ur) + multiset(um);
      (multiset(dl) + multiset(ul)) + (multiset(dr) + multiset(ur)) + (multiset(dm) + multiset(um));
      { OneConsumeCheck(Left, state.leftButton, any);
        OneConsumeCheck(Right, state.rightButton, any);
        OneConsumeCheck(Middle, state.middleButton, any); }
      multiset(ConsumeCheck(Left, any)) + multiset(ConsumeCheck(Right, any)) + multiset(ConsumeCheck(Middle, any));
    }
  }

  /** A button is checked once, by the press pass when pressed and by the release pass when released. */
  lemma OneConsumeCheck(button: MouseButton, current: ButtonState, isAnyControlUnderMouseCursor: bool)
    ensures multiset(DownConsumption(button, current, isAnyControlUnderMouseCursor)) + multiset(UpConsumption(button, current, isAnyControlUnderMouseCursor))
      == multiset(ConsumeCheck(button, isAnyControlUnderMouseCursor))
  {
  }

  /** A frame's pointer move: sent exactly when the position changed or the last frame scrolled, to the new position. */
  lemma MoveSentOnChange(t: MouseTracking, state: MouseState)
    ensures MoveEvents(t, state) != [] <==> (t.lastX, t.lastY) != (state.x, state.y) || t.isLastFrameWasScrolled
    ensures forall e | e in MoveEvents(t, state) :: e == MouseMove(state.x, state.y)
  {
  }

  /**
   * The claimed wheel delta is never zero when a wheel event was sent and is the
   * delta of that event; the scrolled flag of the next frame is set exactly then.
   */
  lemma WheelDeltaMatchesEvent(t: MouseTracking, isAnyControlUnderMouseCursor: bool, state: MouseState, now: int)
    ensures WheelEvents(t, isAnyControlUnderMouseCursor, state) != [] <==> WheelDelta(t, isAnyControlUnderMouseCursor, state) != 0
    ensures WheelEvents(t, isAnyControlUnderMouseCursor, state) != [] ==>
      WheelEvents(t, isAnyControlUnderMouseCursor, state) == [MouseWheel(state.x, state.y, WheelDelta(t, isAnyControlUnderMouseCursor, state))]
    ensures NextTracking(t, isAnyControlUnderMouseCursor, state, now).isLastFrameWasScrolled <==> WheelDelta(t, isAnyControlUnderMouseCursor, state) != 0
    ensures WheelDelta(t, isAnyControlUnderMouseCursor, state) != 0 ==> isAnyControlUnderMouseCursor
  {
  }

  /** After a claimed scroll, the next frame sends the pointer position again even if the mouse did not move. */
  lemma MoveFollowsScroll(t: MouseTracking, isAnyControlUnderMouseCursor: bool, state: MouseState, now: int,
                          isAnyControlNext: bool, nextState: MouseState, nextNow: int, doubleClickInterval: int)
    requires WheelEvents(t, isAnyControlUnderMouseCursor, state) != []
    ensures MouseMove(nextState.x, nextState.y)
      in FrameEvents(NextTracking(t, isAnyControlUnderMouseCursor, state, now), isAnyControlNext, nextState, nextNow, doubleClickInterval)
  {
    var t' := NextTracking(t, isAnyControlUnderMouseCursor, state, now);
    assert t'.isLastFrameWasScrolled;
    assert FrameEvents(t', isAnyControlNext, nextState, nextNow, doubleClickInterval)[0] == MouseMove(nextState.x, nextState.y);
  }

  /** The wheel value, the position and the poll are all remembered for the next frame. */
  lemma TrackingFollowsState(t: MouseTracking, isAnyControlUnderMouseCursor: bool, state: MouseState, now: int)
    ensures var t' := NextTracking(t, isAnyControlUnderMouseCursor, state, now);
      t'.lastX == state.x && t'.lastY == state.y && t'.lastScrollWheelValue == state.scrollWheelValue && t'.previousState == state
  {
  }

  /** A button sends a button-down (and possibly a double click) only when it changes from released to pressed. */
  lemma {:induction false} ButtonDownOnPressEdge(button: MouseButton, current: ButtonState, previous: ButtonState, x: int, y: int,
                                                  lastPressTime: map<MouseButton, int>, now: int, doubleClickInterval: int)
    ensures var events := ButtonDownEvents(button, current, previous, x, y, lastPressTime, now, doubleClickInterval);
      && (events != [] <==> previous == Released && current == Pressed)
      && (events != [] ==> events[|events| - 1] == MouseButtonDown(x, y, button))
      && (forall e | e in events :: e == MouseButtonDown(x, y, button) || e == MouseDoubleClick(x, y, button))
  {
  }

  /** A button sends a button-up only when it changes from pressed to released. */
  lemma ButtonUpOnReleaseEdge(button: MouseButton, current: ButtonState, previous: ButtonState, x: int, y: int)
    ensures ButtonUpEvents(button, current, previous, x, y) != [] <==> previous == Pressed && current == Released
    ensures forall e | e in ButtonUpEvents(button, current, previous, x, y) :: e == MouseButtonUp(x, y, button)
  {
  }

  /** The extra buttons never produce button events, whatever they do. */
  lemma ExtraButtonsAreIgnored(t: MouseTracking, isAnyControlUnderMouseCursor: bool, state: MouseState, now: int, doubleClickInterval: int)
    ensures forall e | e in FrameEvents(t, isAnyControlUnderMouseCursor, state, now, doubleClickInterval) ::
      (e.MouseButtonDown? || e.MouseButtonUp? || e.MouseDoubleClick?) ==> e.button in {Left, Right, Middle}
  {
    var previous := t.previousState;
    ButtonDownOnPressEdge(Left, state.leftButton, previous.leftButton, state.x, state.y, t.lastPressTime, now, doubleClickInterval);
    ButtonDownOnPressEdge(Right, state.rightButton, previous.rightButton, state.x, state.y, t.lastPressTime, now, doubleClickInterval);
    ButtonDownOnPressEdge(Middle, state.middleButton, previous.middleButton, state.x, state.y, t.lastPressTime, now, doubleClickInterval);
    ButtonUpOnReleaseEdge(Left, state.leftButton, previous.leftButton, state.x, state.y);
    ButtonUpOnReleaseEdge(Right, state.rightButton, previous.rightButton, state.x, state.y);
    ButtonUpOnReleaseEdge(Middle, state.middleButton, previous.middleButton, state.x, state.y);
  }

  /** A frame in which nothing changed (same poll, same position, no scroll to catch up on) sends nothing. */
  lemma SteadyFrameSendsNothing(t: MouseTracking, isAnyControlUnderMouseCursor: bool, now: int, doubleClickInterval: int)
    requires t.lastX == t.previousState.x && t.lastY == t.previousState.y
    requires t.lastScrollWheelValue == t.previousState.scrollWheelValue && !t.isLastFrameWasScrolled
    ensures FrameEvents(t, isAnyControlUnderMouseCursor, t.previousState, now, doubleClickInterval) == []
  {
  }

  /**
   * Double click across frames: a button pressed at `now1`, released in a later frame
   * and pressed again at `now3` less than the interval after the first press gets a
   * double click before its second button-down.
   */
  lemma {:induction false} SecondPressWithinIntervalIsDoubleClick(
    button: MouseButton, t0: MouseTracking, any1: bool, s1: MouseState, now1: int,
    any2: bool, s2: MouseState, now2: int, any3: bool, s3: MouseState, now3: int, doubleClickInterval: int)
    requires button in {Left, Right, Middle}
    requires ButtonOf(t0.previousState, button) == Released && ButtonOf(s1, button) == Pressed
    requires ButtonOf(s2, button) == Released && ButtonOf(s3, button) == Pressed
    requires now3 - now1 < doubleClickInterval
    ensures var t1 := NextTracking(t0, any1, s1, now1);
      var t2 := NextTracking(t1, any2, s2, now2);
      MouseDoubleClick(s3.x, s3.y, button) in FrameEvents(t2, any3, s3, now3, doubleClickInterval)
  {
    var t1 := NextTracking(t0, any1, s1, now1);
    var t2 := NextTracking(t1, any2, s2, now2);
    assert button in t1.lastPressTime && t1.lastPressTime[button] == now1;
    assert button in t2.lastPressTime && t2.lastPressTime[button] == now1;
    var down := ButtonDownEvents(button, ButtonOf(s3, button), ButtonOf(t2.previousState, button), s3.x, s3.y, t2.lastPressTime, now3, doubleClickInterval);
    assert down[0] == MouseDoubleClick(s3.x, s3.y, button);
    PressPassInFrame(t2, any3, s3, now3, doubleClickInterval, button);
  }

  /** The press pass of each processed button is part of the frame's events. */
  lemma PressPassInFrame(t: MouseTracking, isAnyControlUnderMouseCursor: bool, state: MouseState, now: int, doubleClickInterval: int, button: MouseButton)
    requires button in {Left, Right, Middle}
    ensures forall e | e in ButtonDownEvents(button, ButtonOf(state, button), ButtonOf(t.previousState, button), state.x, state.y, t.lastPressTime, now, doubleClickInterval) ::
      e in FrameEvents(t, isAnyControlUnderMouseCursor, state, now, doubleClickInterval)
  {
  }

  /**
   * A button never pressed before counts its last press at time zero, so its first
   * press within the first interval of game time is reported as a double click.
   */
  lemma FirstEarlyPressIsDoubleClick(button: MouseButton, x: int, y: int, now: int, doubleClickInterval: int)
    requires 0 <= now < doubleClickInterval
    ensures ButtonDownEvents(button, Pressed, Released, x, y, map[], now, doubleClickInterval)
      == [MouseDoubleClick(x, y, button), MouseButtonDown(x, y, button)]
  {
  }

  /** Recording one button's press leaves every other button's press check as it was. */
  lemma PressCheckReadsOwnRecord(button: MouseButton, current: ButtonState, previous: ButtonState, x: int, y: int,
                                 lastPressTime: map<MouseButton, int>, other: MouseButton, otherCurrent: ButtonState,
                                 otherPrevious: ButtonState, now: int, doubleClickInterval: int)
    requires button != other
    ensures ButtonDownEvents(button, current, previous, x, y, RecordPress(lastPressTime, other, otherCurrent, otherPrevious, now), now, doubleClickInterval)
      == ButtonDownEvents(button, current, previous, x, y, lastPressTime, now, doubleClickInterval)
  {
  }

  /** The frame's events arrive in pieces, each appended at the end of the view's log. */
  lemma FrameEventsInOrder(prefix: seq<ViewEvent>, t: MouseTracking, isAnyControlUnderMouseCursor: bool, state: MouseState, now: int, doubleClickInterval: int)
    ensures var previous := t.previousState;
      prefix + FrameEvents(t, isAnyControlUnderMouseCursor, state, now, doubleClickInterval)
      == prefix
        + MoveEvents(t, state)
        + WheelEvents(t, isAnyControlUnderMouseCursor, state)
        + ButtonDownEvents(Left, state.leftButton, previous.leftButton, state.x, state.y, t.lastPressTime, now, doubleClickInterval)
        + ButtonDownEvents(Right, state.rightButton, previous.rightButton, state.x, state.y, t.lastPressTime, now, doubleClickInterval)
        + ButtonDownEvents(Middle, state.middleButton, previous.middleButton, state.x, state.y, t.lastPressTime, now, doubleClickInterval)
        + ButtonUpEvents(Left, state.leftButton, previous.leftButton, state.x, state.y)
        + ButtonUpEvents(Right, state.rightButton, previous.rightButton, state.x, state.y)
        + ButtonUpEvents(Middle, state.middleButton, previous.middleButton, state.x, state.y)
  {
    var previous := t.previousState;
    var a := MoveEvents(t, state);
    var b := WheelEvents(t, isAnyControlUnderMouseCursor, state);
    var c := ButtonDownEvents(Left, state.leftButton, previous.leftButton, state.x, state.y, t.lastPressTime, now, doubleClickInterval);
    var d := ButtonDownEvents(Right, state.rightButton, previous.rightButton, state.x, state.y, t.lastPressTime, now, doubleClickInterval);
    var e := ButtonDownEvents(Middle, state.middleButton, previous.middleButton, state.x, state.y, t.lastPressTime, now, doubleClickInterval);
    var f := ButtonUpEvents(Left, state.leftButton, previous.leftButton, state.x, state.y);
    var g := ButtonUpEvents(Right, state.rightButton, previous.rightButton, state.x, state.y);
    var h := ButtonUpEvents(Middle, state.middleButton, previous.middleButton, state.x, state.y);
    AppendIsAssociative(prefix, a, b);
    AppendIsAssociative(prefix, a + b, c);
    AppendIsAssociative(prefix, a + b + c, d);
    AppendIsAssociative(prefix, a + b + c + d, e);
    AppendIsAssociative(prefix, a + b + c + d + e, f);
    AppendIsAssociative(prefix, a + b + c + d + e + f, g);
    AppendIsAssociative(prefix, a + b + c + d + e + f + g, h);
  }

  /*
   * The device.
   */

  class Mouse {
    var consumedButtons: seq<MouseButton>
    var consumedDeltaWheel: int
    var lastPressTimeDictionary: map<MouseButton, int>
    var isAnyControlUnderMouseCursor: bool
    var isLastFrameWasScrolled: bool
    var lastScrollWheelValue: int
    var lastX: int
    var lastY: int
    var previousState: MouseState
    var totalGameTime: int
    /** The double-click interval, in ticks. */
    const doubleClickInterval: int
    const checkIfElementIgnoresHitTest: Option<Element -> bool>
    const view: View

    /** The state carried from one frame to the next. */
    function Tracking(): MouseTracking
      reads this
    {
      MouseTracking(lastX, lastY, lastScrollWheelValue, isLastFrameWasScrolled, previousState, lastPressTimeDictionary)
    }

    constructor (view: View, doubleClickInterval: int, checkIfElementIgnoresHitTest: Option<Element -> bool>)
      ensures this.view == view && this.doubleClickInterval == doubleClickInterval
      ensures this.checkIfElementIgnoresHitTest == checkIfElementIgnoresHitTest
      ensures Tracking() == MouseTracking(0, 0, 0, false, DefaultMouseState, map[])
      ensures consumedButtons == [] && consumedDeltaWheel == 0 && !isAnyControlUnderMouseCursor && totalGameTime == 0
    {
      this.view := view;
      this.doubleClickInterval := doubleClickInterval;
      this.checkIfElementIgnoresHitTest := checkIfElementIgnoresHitTest;
      consumedButtons := [];
      consumedDeltaWheel := 0;
      lastPressTimeDictionary := map[];
      isAnyControlUnderMouseCursor := false;
      isLastFrameWasScrolled := false;
      lastScrollWheelValue := 0;
      lastX := 0;
      lastY := 0;
      previousState := DefaultMouseState;
      totalGameTime := 0;
    }

    /**
     * One frame. `hostState` is the host's mouse poll (read only while the window is
     * active) and `tree` the visual tree as it stands.
     */
    method UpdateMouse(gameTime: GameTime, isWindowActive: bool, hostState: MouseState, tree: VisualTree)
      requires tree.Valid()
      modifies this, view
      ensures isAnyControlUnderMouseCursor == ControlUnderCursor(tree, checkIfElementIgnoresHitTest, old(lastX), old(lastY))
      ensures totalGameTime == gameTime.totalGameTime
      ensures var state := FrameState(isWindowActive, hostState, old(previousState));
        && Tracking() == NextTracking(old(Tracking()), isAnyControlUnderMouseCursor, state, totalGameTime)
        && consumedDeltaWheel == WheelDelta(old(Tracking()), isAnyControlUnderMouseCursor, state)
        && consumedButtons == ConsumedButtonsOf(state, isAnyControlUnderMouseCursor)
        && view.events == old(view.events) + FrameEvents(old(Tracking()), isAnyControlUnderMouseCursor, state, totalGameTime, doubleClickInterval)
    {
      isAnyControlUnderMouseCursor := CalculateIsAnyControlUnderMouseCursor(tree);
      totalGameTime := gameTime.totalGameTime;
      consumedButtons := [];
      consumedDeltaWheel := 0;

      var previousState := this.previousState;
      var state;
      if isWindowActive {
        state := hostState;
      } else {
        state := MouseState(previousState.x, previousState.y, previousState.scrollWheelValue, Released, Released, Released, Released, Released);
      }
      ProcessFrame(state);
    }

    /** Everything after the refresh: pointer, wheel, the press pass, the release pass, and the poll remembered. */
    method ProcessFrame(state: MouseState)
      requires consumedButtons == []
      modifies this, view
      ensures Tracking() == NextTracking(old(Tracking()), isAnyControlUnderMouseCursor, state, totalGameTime)
      ensures consumedDeltaWheel == WheelDelta(old(Tracking()), isAnyControlUnderMouseCursor, state)
      ensures consumedButtons == ConsumedButtonsOf(state, isAnyControlUnderMouseCursor)
      ensures view.events == old(view.events) + FrameEvents(old(Tracking()), isAnyControlUnderMouseCursor, state, totalGameTime, doubleClickInterval)
      ensures totalGameTime == old(totalGameTime) && isAnyControlUnderMouseCursor == old(isAnyControlUnderMouseCursor)
    {
      var previousState := this.previousState;
      ghost var events := view.events;
      MovePointer(state);
      ScrollWheel(state);
      ProcessPresses(state, previousState);
      ProcessReleases(state, previousState);
      this.previousState := state;
      FrameEventsInOrder(events, old(Tracking()), isAnyControlUnderMouseCursor, state, totalGameTime, doubleClickInterval);
    }

    /** The pointer part of a frame. */
    method MovePointer(state: MouseState)
      modifies this, view
      ensures view.events == old(view.events) + MoveEvents(old(Tracking()), state)
      ensures lastX == state.x && lastY == state.y
      ensures !isLastFrameWasScrolled
      ensures lastScrollWheelValue == old(lastScrollWheelValue) && previousState == old(previousState)
      ensures lastPressTimeDictionary == old(lastPressTimeDictionary) && consumedButtons == old(consumedButtons)
      ensures consumedDeltaWheel == old(consumedDeltaWheel) && totalGameTime == old(totalGameTime)
      ensures isAnyControlUnderMouseCursor == old(isAnyControlUnderMouseCursor)
    {
      if lastX != state.x || lastY != state.y || isLastFrameWasScrolled {
        view.Send(MouseMove(state.x, state.y));
        lastX := state.x;
        lastY := state.y;
        isLastFrameWasScrolled := false;
      }
    }

    /** The wheel part of a frame. */
    method ScrollWheel(state: MouseState)
      modifies this, view
      ensures view.events == old(view.events) + WheelEvents(old(Tracking()), isAnyControlUnderMouseCursor, state)
      ensures consumedDeltaWheel == WheelDelta(old(Tracking()), isAnyControlUnderMouseCursor, state)
      ensures lastScrollWheelValue == state.scrollWheelValue
      ensures isLastFrameWasScrolled == (old(isLastFrameWasScrolled) || (old(lastScrollWheelValue) != state.scrollWheelValue && isAnyControlUnderMouseCursor))
      ensures lastX == old(lastX) && lastY == old(lastY) && previousState == old(previousState)
      ensures lastPressTimeDictionary == old(lastPressTimeDictionary) && consumedButtons == old(consumedButtons)
      ensures totalGameTime == old(totalGameTime) && isAnyControlUnderMouseCursor == old(isAnyControlUnderMouseCursor)
    {
      if lastScrollWheelValue != state.scrollWheelValue {
        if isAnyControlUnderMouseCursor {
          var scrollDeltaValue := state.scrollWheelValue - lastScrollWheelValue;
          view.Send(MouseWheel(state.x, state.y, scrollDeltaValue));
          consumedDeltaWheel := scrollDeltaValue;
          isLastFrameWasScrolled := true;
        } else {
          consumedDeltaWheel := 0;
        }
        lastScrollWheelValue := state.scrollWheelValue;
      } else {
        consumedDeltaWheel := 0;
      }
    }

    /** The press pass: Left, Right, Middle; each button's press check reads only its own record. */
    method ProcessPresses(state: MouseState, previous: MouseState)
      modifies this, view
      ensures view.events == old(view.events)
        + ButtonDownEvents(Left, state.leftButton, previous.leftButton, lastX, lastY, old(lastPressTimeDictionary), totalGameTime, doubleClickInterval)
        + ButtonDownEvents(Right, state.rightButton, previous.rightButton, lastX, lastY, old(lastPressTimeDictionary), totalGameTime, doubleClickInterval)
        + ButtonDownEvents(Middle, state.middleButton, previous.middleButton, lastX, lastY, old(lastPressTimeDictionary), totalGameTime, doubleClickInterval)
      ensures consumedButtons == old(consumedButtons)
        + DownConsumption(Left, state.leftButton, isAnyControlUnderMouseCursor)
        + DownConsumption(Right, state.rightButton, isAnyControlUnderMouseCursor)
        + DownConsumption(Middle, state.middleButton, isAnyControlUnderMouseCursor)
      ensures lastPressTimeDictionary ==
        RecordPress(RecordPress(RecordPress(old(lastPressTimeDictionary), Left, state.leftButton, previous.leftButton, totalGameTime),
                                Right, state.rightButton, previous.rightButton, totalGameTime),
                    Middle, state.middleButton, previous.middleButton, totalGameTime)
      ensures lastX == old(lastX) && lastY == old(lastY) && previousState == old(previousState)
      ensures lastScrollWheelValue == old(lastScrollWheelValue) && isLastFrameWasScrolled == old(isLastFrameWasScrolled)
      ensures consumedDeltaWheel == old(consumedDeltaWheel) && totalGameTime == old(totalGameTime)
      ensures isAnyControlUnderMouseCursor == old(isAnyControlUnderMouseCursor)
    {
      ghost var times := lastPressTimeDictionary;
      ProcessMouseButtonDown(Left, state.leftButton, previous.leftButton);
      PressCheckReadsOwnRecord(Right, state.rightButton, previous.rightButton, lastX, lastY, times, Left, state.leftButton, previous.leftButton, totalGameTime, doubleClickInterval);
      ghost var afterLeft := lastPressTimeDictionary;
      ProcessMouseButtonDown(Right, state.rightButton, previous.rightButton);
      PressCheckReadsOwnRecord(Middle, state.middleButton, previous.middleButton, lastX, lastY, times, Left, state.leftButton, previous.leftButton, totalGameTime, doubleClickInterval);
      PressCheckReadsOwnRecord(Middle, state.middleButton, previous.middleButton, lastX, lastY, afterLeft, Right, state.rightButton, previous.rightButton, totalGameTime, doubleClickInterval);
      ProcessMouseButtonDown(Middle, state.middleButton, previous.middleButton);
    }

    /** The release pass: Left, Right, Middle. */
    method ProcessReleases(state: MouseState, previous: MouseState)
      modifies this, view
      ensures view.events == old(view.events)
        + ButtonUpEvents(Left, state.leftButton, previous.leftButton, lastX, lastY)
        + ButtonUpEvents(Right, state.rightButton, previous.rightButton, lastX, lastY)
        + ButtonUpEvents(Middle, state.middleButton, previous.middleButton, lastX, lastY)
      ensures consumedButtons == old(consumedButtons)
        + UpConsumption(Left, state.leftButton, isAnyControlUnderMouseCursor)
        + UpConsumption(Right, state.rightButton, isAnyControlUnderMouseCursor)
        + UpConsumption(Middle, state.middleButton, isAnyControlUnderMouseCursor)
      ensures lastX == old(lastX) && lastY == old(lastY) && previousState == old(previousState)
      ensures lastPressTimeDictionary == old(lastPressTimeDictionary)
      ensures lastScrollWheelValue == old(lastScrollWheelValue) && isLastFrameWasScrolled == old(isLastFrameWasScrolled)
      ensures consumedDeltaWheel == old(consumedDeltaWheel) && totalGameTime == old(totalGameTime)
      ensures isAnyControlUnderMouseCursor == old(isAnyControlUnderMouseCursor)
    {
      ProcessMouseButtonUp(Left, state.leftButton, previous.leftButton);
      ProcessMouseButtonUp(Right, state.rightButton, previous.rightButton);
      ProcessMouseButtonUp(Middle, state.middleButton, previous.middleButton);
    }

    /** Walks up from the element under the last sent position until one is not ignored by the callback. */
    method CalculateIsAnyControlUnderMouseCursor(tree: VisualTree) returns (r: bool)
      requires tree.Valid()
      ensures r == ControlUnderCursor(tree, checkIfElementIgnoresHitTest, lastX, lastY)
    {
      var start := HitElement(tree, lastX, lastY);
      ControlUnderCursorIsFoundOnWalk(tree, checkIfElementIgnoresHitTest, lastX, lastY);
      var visual := start;
      while visual.Some?
        invariant ControlUnderCursor(tree, checkIfElementIgnoresHitTest, lastX, lastY)
          == (checkIfElementIgnoresHitTest.Some? && FoundOnWalk(tree, checkIfElementIgnoresHitTest.value, visual))
        decreases Height(tree, visual)
      {
        var v := visual.value;
        UpDecreases(tree, v);
        if checkIfElementIgnoresHitTest.Some? && !checkIfElementIgnoresHitTest.value(v) {
          return true;
        }
        visual := Up(tree, v);
      }
      return false;
    }

    method ProcessMouseButtonDown(buttonId: MouseButton, current: ButtonState, previous: ButtonState)
      modifies this, view
      ensures view.events == old(view.events)
        + ButtonDownEvents(buttonId, current, previous, lastX, lastY, old(lastPressTimeDictionary), totalGameTime, doubleClickInterval)
      ensures consumedButtons == old(consumedButtons) + DownConsumption(buttonId, current, isAnyControlUnderMouseCursor)
      ensures lastPressTimeDictionary == RecordPress(old(lastPressTimeDictionary), buttonId, current, previous, totalGameTime)
      ensures lastX == old(lastX) && lastY == old(lastY) && previousState == old(previousState)
      ensures lastScrollWheelValue == old(lastScrollWheelValue) && isLastFrameWasScrolled == old(isLastFrameWasScrolled)
      ensures consumedDeltaWheel == old(consumedDeltaWheel) && totalGameTime == old(totalGameTime)
      ensures isAnyControlUnderMouseCursor == old(isAnyControlUnderMouseCursor)
    {
      if current != Pressed {
        return;
      }
      TryConsumeMouseButton(buttonId);
      if current == previous {
        return;
      }
      var lastPressTime := if buttonId in lastPressTimeDictionary then lastPressTimeDictionary[buttonId] else 0;
      if totalGameTime - lastPressTime < doubleClickInterval {
        view.Send(MouseDoubleClick(lastX, lastY, buttonId));
      }
      view.Send(MouseButtonDown(lastX, lastY, buttonId));
      lastPressTimeDictionary := lastPressTimeDictionary[buttonId := totalGameTime];
    }

    method ProcessMouseButtonUp(buttonId: MouseButton, current: ButtonState, previous: ButtonState)
      modifies this, view
      ensures view.events == old(view.events) + ButtonUpEvents(buttonId, current, previous, lastX, lastY)
      ensures consumedButtons == old(consumedButtons) + UpConsumption(buttonId, current, isAnyControlUnderMouseCursor)
      ensures lastX == old(lastX) && lastY == old(lastY) && previousState == old(previousState)
      ensures lastPressTimeDictionary == old(lastPressTimeDictionary)
      ensures lastScrollWheelValue == old(lastScrollWheelValue) && isLastFrameWasScrolled == old(isLastFrameWasScrolled)
      ensures consumedDeltaWheel == old(consumedDeltaWheel) && totalGameTime == old(totalGameTime)
      ensures isAnyControlUnderMouseCursor == old(isAnyControlUnderMouseCursor)
    {
      if current != Released {
        return;
      }
      TryConsumeMouseButton(buttonId);
      if current == previous {
        return;
      }
      view.Send(MouseButtonUp(lastX, lastY, buttonId));
    }

    method TryConsumeMouseButton(buttonId: MouseButton)
      modifies this
      ensures consumedButtons == old(consumedButtons) + ConsumeCheck(buttonId, isAnyControlUnderMouseCursor)
      ensures Tracking() == old(Tracking())
      ensures consumedDeltaWheel == old(consumedDeltaWheel) && totalGameTime == old(totalGameTime)
      ensures isAnyControlUnderMouseCursor == old(isAnyControlUnderMouseCursor)
    {
      if isAnyControlUnderMouseCursor {
        consumedButtons := consumedButtons + [buttonId];
      }
    }
  }
}
