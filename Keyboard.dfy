/**
 * The keyboard device of the current input path (Input/Devices/Keyboard.cs).
 *
 * Once per frame `UpdateKeyboard` compares the keys pressed now with the keys
 * pressed last frame. A newly pressed key gets one key-down; a key still held
 * gets repeated key-downs on a delay-then-interval timer (modifier keys never
 * repeat); a released key gets a key-up. Each of these keys is also offered to
 * the consumption rule, which lists the keys the UI claims this frame so the game
 * can ignore them.
 *
 * The keys of one frame are visited in hash-set order, which is unspecified; the
 * model lets the loops pick any order and states every per-frame result in terms
 * of the order chosen.
 */
module KeyboardDevice {
  import opened Wrappers
  import opened Xna
  import opened Noesis
  import opened NoesisView
  import KeyConverter
  import opened Sequences

  /** The keyboard's fixed configuration, read from the wrapper's configuration when it is built. */
  datatype KeyboardSettings = KeyboardSettings(
    isEnableDirectionalNavigation: bool,
    keyRepeatDelaySeconds: real,
    keyRepeatIntervalSeconds: real)
  {
    /** The repeat count divides by the interval, so it must not be zero; a negative one is accepted as the source accepts it. */
    predicate Valid()
    {
      keyRepeatIntervalSeconds != 0.0
    }
  }

  /**
   * What one frame's update reads from outside: the focused element, the time
   * since the last frame, and the platform's key-to-text lookup used for `Char`.
   */
  datatype KeyboardFrame = KeyboardFrame(
    focused: Option<Element>,
    elapsedSeconds: real,
    keyText: Keys -> string)

  /** The shift, control and alt keys, which never repeat. */
  predicate IsKeyModifier(key: Keys)
  {
    key == Keys.LeftShift || key == Keys.RightShift
    || key == Keys.LeftControl || key == Keys.RightControl
    || key == Keys.LeftAlt || key == Keys.RightAlt
  }

  predicate IsArrowKey(key: Keys)
  {
    key == Keys.Up || key == Keys.Right || key == Keys.Down || key == Keys.Left
  }

  /**
   * Whether a key event is withheld from the view: always when nothing is focused
   * or the focused framework element is not loaded; otherwise only arrow keys, and
   * only when directional navigation is off and the focus is not a text box.
   */
  predicate IsIgnored(focused: Option<Element>, isEnableDirectionalNavigation: bool, key: Keys)
  {
    if focused.None? || (focused.value.isFrameworkElement && !focused.value.isLoaded) then true
    else if isEnableDirectionalNavigation then false
    else if !IsArrowKey(key) then false
    else focused.value.kind != TextBox
  }

  /** The consumption rule of `TryConsumeKey`. */
  predicate IsConsumed(focused: Option<Element>, key: Keys)
  {
    match focused
    case None => false
    case Some(element) =>
      element.kind == TextBox
      || ((element.kind == ButtonBase || element.kind == ComboBoxItem) && (key == Keys.Enter || key == Keys.Tab))
  }

  /** The view calls `OnXnaKeyDown` makes for `key`: a key-down, then possibly the key's character. */
  function KeyDownEvents(key: Keys, focused: Option<Element>, isEnableDirectionalNavigation: bool, keyText: Keys -> string): seq<ViewEvent>
  {
    var noesisKey := KeyConverter.Convert(key);
    if noesisKey == Key.None || IsIgnored(focused, isEnableDirectionalNavigation, key) then []
    else
      var text := keyText(key);
      if |text| != 1 || text[0] == '\0' then [KeyDown(noesisKey)]
      else [KeyDown(noesisKey), Char(text[0])]
  }

  /** The view calls `OnXnaKeyUp` makes for `key`. */
  function KeyUpEvents(key: Keys, focused: Option<Element>, isEnableDirectionalNavigation: bool): seq<ViewEvent>
  {
    var noesisKey := KeyConverter.Convert(key);
    if noesisKey == Key.None || IsIgnored(focused, isEnableDirectionalNavigation, key) then []
    else [KeyUp(noesisKey)]
  }

  /** The C# `(int)` cast of a floating-point value: truncation toward zero. */
  function TruncateToInt(r: real): int
  {
    if r >= 0.0 then r.Floor else -((-r).Floor)
  }

  /** Truncation drops the fraction toward zero: it keeps the sign and lies within one of the value. */
  lemma TruncationBounds(r: real)
    ensures 0.0 <= r ==> 0 <= TruncateToInt(r) && TruncateToInt(r) as real <= r < TruncateToInt(r) as real + 1.0
    ensures r < 0.0 ==> TruncateToInt(r) <= 0 && TruncateToInt(r) as real - 1.0 < r <= TruncateToInt(r) as real
  {
  }

  /** How many repeats a held key has accumulated after being held `heldTime` seconds. */
  function RepeatCount(heldTime: real, settings: KeyboardSettings): int
    requires settings.Valid()
  {
    TruncateToInt((heldTime - settings.keyRepeatDelaySeconds) / settings.keyRepeatIntervalSeconds)
  }

  /** The held time stored back after the accumulated repeats are sent: one interval less per repeat. */
  function HeldTimeAfterRepeats(heldTime: real, settings: KeyboardSettings): real
    requires settings.Valid()
  {
    var count := RepeatCount(heldTime, settings);
    if count > 0 then heldTime - count as real * settings.keyRepeatIntervalSeconds else heldTime
  }

  /** `events` sent `n` times over. */
  function Repeated(events: seq<ViewEvent>, n: nat): seq<ViewEvent>
  {
    if n == 0 then [] else Repeated(events, n - 1) + events
  }

  /** The held time recorded for `key`, or `None` when the key was not held. */
  function HeldTime(held: map<Keys, real>, key: Keys): Option<real>
  {
    if key in held then Some(held[key]) else Option.None
  }

  /**
   * The view calls the first loop of `UpdateKeyboard` makes for a key pressed this
   * frame, given the held time recorded for it last frame.
   */
  function PressEvents(key: Keys, heldTime: Option<real>, settings: KeyboardSettings, frame: KeyboardFrame): seq<ViewEvent>
    requires settings.Valid()
  {
    var down := KeyDownEvents(key, frame.focused, settings.isEnableDirectionalNavigation, frame.keyText);
    if heldTime.None? then down
    else if IsKeyModifier(key) then []
    else
      var count := RepeatCount(heldTime.value + frame.elapsedSeconds, settings);
      if count > 0 then Repeated(down, count) else []
  }

  /** The held time the first loop stores for a key pressed this frame. */
  function NewHeldTime(key: Keys, heldTime: Option<real>, settings: KeyboardSettings, frame: KeyboardFrame): real
    requires settings.Valid()
  {
    if heldTime.None? then 0.0
    else if IsKeyModifier(key) then heldTime.value
    else HeldTimeAfterRepeats(heldTime.value + frame.elapsedSeconds, settings)
  }

  /** The view calls for the pressed keys, visited in `order`. */
  function PressEventsOf(order: seq<Keys>, held: map<Keys, real>, settings: KeyboardSettings, frame: KeyboardFrame): seq<ViewEvent>
    requires settings.Valid()
  {
    if order == [] then []
    else
      var last := order[|order| - 1];
      PressEventsOf(order[..|order| - 1], held, settings, frame) + PressEvents(last, HeldTime(held, last), settings, frame)
  }

  /** The held-time table after the first loop visited `order`, starting from `held`. */
  function HeldAfterPresses(held: map<Keys, real>, order: seq<Keys>, settings: KeyboardSettings, frame: KeyboardFrame): map<Keys, real>
    requires settings.Valid()
  {
    if order == [] then held
    else
      var last := order[|order| - 1];
      HeldAfterPresses(held, order[..|order| - 1], settings, frame)[last := NewHeldTime(last, HeldTime(held, last), settings, frame)]
  }

  /**
   * Visiting distinct keys, the first loop adds each of them to the table with its
   * new held time and leaves every other entry alone.
   */
  lemma {:induction false} HeldAfterPressesHolds(held: map<Keys, real>, order: seq<Keys>, settings: KeyboardSettings, frame: KeyboardFrame)
    requires settings.Valid()
    ensures HeldAfterPresses(held, order, settings, frame).Keys == held.Keys + (set key | key in order)
    ensures forall key | key in HeldAfterPresses(held, order, settings, frame) ::
      HeldAfterPresses(held, order, settings, frame)[key]
        == if key in order then NewHeldTime(key, HeldTime(held, key), settings, frame) else held[key]
  {
    if order != [] {
      var prefix := order[..|order| - 1];
      HeldAfterPressesHolds(held, prefix, settings, frame);
      assert order == prefix + [order[|order| - 1]];
      assert forall key :: key in order <==> key in prefix || key == order[|order| - 1];
    }
  }

  /**
   * The held-time table at the end of a frame: starting from last frame's table,
   * whose keys were last frame's keys, the first loop visits this frame's keys and
   * the second removes the keys no longer pressed. What is left has exactly this
   * frame's keys, each with its new held time.
   */
  lemma FrameTableHolds(held: map<Keys, real>, order: seq<Keys>, current: set<Keys>, settings: KeyboardSettings, frame: KeyboardFrame)
    requires settings.Valid() && Enumerates(order, current)
    ensures (HeldAfterPresses(held, order, settings, frame) - (held.Keys - current)).Keys == current
    ensures forall key | key in current ::
      (HeldAfterPresses(held, order, settings, frame) - (held.Keys - current))[key] == NewHeldTime(key, HeldTime(held, key), settings, frame)
  {
    HeldAfterPressesHolds(held, order, settings, frame);
    var visited := set key | key in order;
    assert forall key :: key in visited <==> key in order;
    assert visited == current;
  }

  /** The view calls for the released keys, visited in `order`. */
  function ReleaseEventsOf(order: seq<Keys>, focused: Option<Element>, isEnableDirectionalNavigation: bool): seq<ViewEvent>
  {
    if order == [] then []
    else
      var last := order[|order| - 1];
      ReleaseEventsOf(order[..|order| - 1], focused, isEnableDirectionalNavigation) + KeyUpEvents(last, focused, isEnableDirectionalNavigation)
  }

  /** The keys of `order` the consumption rule claims, in order. */
  function ConsumedOf(order: seq<Keys>, focused: Option<Element>): seq<Keys>
  {
    if order == [] then []
    else
      var last := order[|order| - 1];
      ConsumedOf(order[..|order| - 1], focused) + (if IsConsumed(focused, last) then [last] else [])
  }

  /** Visiting one more pressed key appends its calls and its table update to those of the keys before it. */
  lemma PressOneMore(order: seq<Keys>, key: Keys, held: map<Keys, real>, settings: KeyboardSettings, frame: KeyboardFrame)
    requires settings.Valid()
    ensures PressEventsOf(order + [key], held, settings, frame)
      == PressEventsOf(order, held, settings, frame) + PressEvents(key, HeldTime(held, key), settings, frame)
    ensures HeldAfterPresses(held, order + [key], settings, frame)
      == HeldAfterPresses(held, order, settings, frame)[key := NewHeldTime(key, HeldTime(held, key), settings, frame)]
  {
    assert (order + [key])[..|order|] == order;
  }

  /** Visiting one more released key appends its calls to those of the keys before it. */
  lemma ReleaseOneMore(order: seq<Keys>, key: Keys, focused: Option<Element>, isEnableDirectionalNavigation: bool)
    ensures ReleaseEventsOf(order + [key], focused, isEnableDirectionalNavigation)
      == ReleaseEventsOf(order, focused, isEnableDirectionalNavigation) + KeyUpEvents(key, focused, isEnableDirectionalNavigation)
  {
    assert (order + [key])[..|order|] == order;
  }

  /** Visiting one more key appends its claim to those of the keys before it. */
  lemma ConsumeOneMore(order: seq<Keys>, key: Keys, focused: Option<Element>)
    ensures ConsumedOf(order + [key], focused) == ConsumedOf(order, focused) + (if IsConsumed(focused, key) then [key] else [])
  {
    assert (order + [key])[..|order|] == order;
  }

  /** The key visited `i`-th has not been visited before, so the first loop finds last frame's time for it. */
  lemma UnvisitedKeyKeepsTime(held: map<Keys, real>, keys: seq<Keys>, i: nat, settings: KeyboardSettings, frame: KeyboardFrame)
    requires settings.Valid() && i < |keys| && NoDuplicates(keys)
    ensures HeldTime(HeldAfterPresses(held, keys[..i], settings, frame), keys[i]) == HeldTime(held, keys[i])
  {
    HeldAfterPressesHolds(held, keys[..i], settings, frame);
    assert keys[i] !in keys[..i];
  }

  /** The set and table facts one pass of the second loop relies on, for the key `key` it picks. */
  lemma ReleaseBookkeeping(previous: set<Keys>, current: set<Keys>, seen: set<Keys>, key: Keys, held: map<Keys, real>)
    requires key in previous - seen
    ensures (previous - seen) - {key} == previous - (seen + {key})
    ensures key !in current ==> (seen + {key}) - current == (seen - current) + {key}
    ensures key !in current ==> held - ((seen - current) + {key}) == (held - (seen - current)) - {key}
    ensures key in current ==> (seen + {key}) - current == seen - current
    ensures key !in seen - current
  {
  }

  /** One pass of the first loop extends what the passes before it did by what `keys[i]` alone does. */
  lemma PressStep(keys: seq<Keys>, i: nat, held: map<Keys, real>, settings: KeyboardSettings, frame: KeyboardFrame)
    requires settings.Valid() && i < |keys| && NoDuplicates(keys)
    ensures HeldTime(HeldAfterPresses(held, keys[..i], settings, frame), keys[i]) == HeldTime(held, keys[i])
    ensures HeldAfterPresses(held, keys[..i + 1], settings, frame)
      == HeldAfterPresses(held, keys[..i], settings, frame)[keys[i] := NewHeldTime(keys[i], HeldTime(held, keys[i]), settings, frame)]
    ensures PressEventsOf(keys[..i + 1], held, settings, frame)
      == PressEventsOf(keys[..i], held, settings, frame) + PressEvents(keys[i], HeldTime(held, keys[i]), settings, frame)
    ensures ConsumedOf(keys[..i + 1], frame.focused)
      == ConsumedOf(keys[..i], frame.focused) + (if IsConsumed(frame.focused, keys[i]) then [keys[i]] else [])
  {
    UnvisitedKeyKeepsTime(held, keys, i, settings, frame);
    assert keys[..i + 1] == keys[..i] + [keys[i]];
    PressOneMore(keys[..i], keys[i], held, settings, frame);
    ConsumeOneMore(keys[..i], keys[i], frame.focused);
  }

  /** `order` lists every key of `keys` exactly once. */
  ghost predicate Enumerates(order: seq<Keys>, keys: set<Keys>)
  {
    (forall i, j | 0 <= i < j < |order| :: order[i] != order[j])
    && (forall key :: key in order <==> key in keys)
  }

  predicate NoDuplicates(s: seq<Keys>)
  {
    forall i, j | 0 <= i < j < |s| :: s[i] != s[j]
  }

  /** A non-empty set has a member (the witness the hash-set loops pick from). */
  lemma NonEmptyHasKey(s: set<Keys>)
    requires s != {}
    ensures exists x :: x in s
  {
    if forall x :: x !in s {
      assert false;
    }
  }

  /** Visiting one more key, not visited before, extends the enumeration. */
  lemma EnumeratesExtend(order: seq<Keys>, keys: set<Keys>, key: Keys)
    requires Enumerates(order, keys) && key !in keys
    ensures Enumerates(order + [key], keys + {key})
  {
    assert forall i | 0 <= i < |order| :: (order + [key])[i] == order[i];
  }

  /**
   * A key reaches the view exactly when it converts to a UI key, something loaded is
   * focused, and it is not an arrow key held back because directional navigation is
   * off and the focus is not a text box. Key-down and key-up agree on this.
   */
  lemma ForwardedKeys(key: Keys, focused: Option<Element>, isEnableDirectionalNavigation: bool, keyText: Keys -> string)
    ensures KeyDownEvents(key, focused, isEnableDirectionalNavigation, keyText) != []
      <==> (KeyConverter.Convert(key) != Key.None
            && focused.Some? && !(focused.value.isFrameworkElement && !focused.value.isLoaded)
            && (IsArrowKey(key) ==> isEnableDirectionalNavigation || focused.value.kind == TextBox))
    ensures KeyUpEvents(key, focused, isEnableDirectionalNavigation) != []
      <==> KeyDownEvents(key, focused, isEnableDirectionalNavigation, keyText) != []
    ensures KeyDownEvents(key, focused, isEnableDirectionalNavigation, keyText) != [] ==>
      KeyDownEvents(key, focused, isEnableDirectionalNavigation, keyText)[0] == KeyDown(KeyConverter.Convert(key))
      && KeyUpEvents(key, focused, isEnableDirectionalNavigation) == [KeyUp(KeyConverter.Convert(key))]
  {
  }

  /** A character follows a forwarded key-down exactly when the key's text is one character other than NUL. */
  lemma CharFollowsKeyDown(key: Keys, focused: Option<Element>, isEnableDirectionalNavigation: bool, keyText: Keys -> string)
    requires KeyDownEvents(key, focused, isEnableDirectionalNavigation, keyText) != []
    ensures |KeyDownEvents(key, focused, isEnableDirectionalNavigation, keyText)| <= 2
    ensures |KeyDownEvents(key, focused, isEnableDirectionalNavigation, keyText)| == 2
      <==> |keyText(key)| == 1 && keyText(key)[0] != '\0'
    ensures |KeyDownEvents(key, focused, isEnableDirectionalNavigation, keyText)| == 2 ==>
      KeyDownEvents(key, focused, isEnableDirectionalNavigation, keyText)[1] == Char(keyText(key)[0])
  {
  }

  /**
   * The repeat timer: a held key has repeats due once it has been held one interval
   * past the delay, and after they are sent the stored time lies within one interval
   * past the delay; with none due the time is stored as it is.
   */
  lemma RepeatTimer(heldTime: real, settings: KeyboardSettings)
    requires settings.keyRepeatIntervalSeconds > 0.0
    ensures RepeatCount(heldTime, settings) > 0
      <==> heldTime - settings.keyRepeatDelaySeconds >= settings.keyRepeatIntervalSeconds
    ensures RepeatCount(heldTime, settings) > 0 ==>
      settings.keyRepeatDelaySeconds <= HeldTimeAfterRepeats(heldTime, settings)
        < settings.keyRepeatDelaySeconds + settings.keyRepeatIntervalSeconds
    ensures RepeatCount(heldTime, settings) <= 0 ==> HeldTimeAfterRepeats(heldTime, settings) == heldTime
  {
    var delay := settings.keyRepeatDelaySeconds;
    var interval := settings.keyRepeatIntervalSeconds;
    var quotient := (heldTime - delay) / interval;
    var count := RepeatCount(heldTime, settings);
    TruncationBounds(quotient);
    QuotientTimesDivisor(heldTime - delay, interval);
    if heldTime - delay >= interval && quotient < 1.0 {
      ScaledBelow(quotient, interval, 0.0, heldTime - delay);
    }
    if count > 0 {
      var c := count as real;
      ScaledAbove(quotient, interval, c, heldTime - delay);
      ScaledBelow(quotient, interval, c, heldTime - delay);
      ScaledAbove(c, interval, 1.0, c * interval);
    }
  }

  /**
   * The timer with a negative interval, which the configuration accepts: repeats are
   * due once the key has been held at least one (absolute) interval SHORT of the delay,
   * and after they are sent the stored time lies within one interval below the delay.
   */
  lemma NegativeIntervalTimer(heldTime: real, settings: KeyboardSettings)
    requires settings.keyRepeatIntervalSeconds < 0.0
    ensures RepeatCount(heldTime, settings) > 0
      <==> heldTime - settings.keyRepeatDelaySeconds <= settings.keyRepeatIntervalSeconds
    ensures RepeatCount(heldTime, settings) > 0 ==>
      settings.keyRepeatDelaySeconds + settings.keyRepeatIntervalSeconds < HeldTimeAfterRepeats(heldTime, settings)
        <= settings.keyRepeatDelaySeconds
    ensures RepeatCount(heldTime, settings) <= 0 ==> HeldTimeAfterRepeats(heldTime, settings) == heldTime
  {
    var delay := settings.keyRepeatDelaySeconds;
    var interval := settings.keyRepeatIntervalSeconds;
    var x, y := delay - heldTime, -interval;
    var quotient := (heldTime - delay) / interval;
    assert quotient == x / y;
    var count := RepeatCount(heldTime, settings);
    TruncationBounds(quotient);
    QuotientTimesDivisor(x, y);
    if x >= y && quotient < 1.0 {
      ScaledBelow(quotient, y, 0.0, x);
    }
    if count > 0 {
      var c := count as real;
      ScaledAbove(quotient, y, c, x);
      ScaledBelow(quotient, y, c, x);
      ScaledAbove(c, y, 1.0, c * y);
      assert HeldTimeAfterRepeats(heldTime, settings) == heldTime + c * y;
    }
  }

  /** Scaling the bound `q < m + 1` by a positive `y`, where `q * y == x`. */
  lemma ScaledBelow(q: real, y: real, m: real, x: real)
    requires y > 0.0 && q < m + 1.0 && q * y == x
    ensures x < m * y + y
  {
    var d := m + 1.0 - q;
    assert d * y > 0.0;
    assert d * y == m * y + y - q * y;
    assert m * y + y - x > 0.0;
  }

  /** Scaling the bound `m <= q` by a positive `y`, where `q * y == x`. */
  lemma ScaledAbove(q: real, y: real, m: real, x: real)
    requires y > 0.0 && m <= q && q * y == x
    ensures m * y <= x
  {
    var d := q - m;
    assert d * y >= 0.0;
    assert d * y == q * y - m * y;
    assert x - m * y >= 0.0;
  }

  lemma QuotientTimesDivisor(x: real, y: real)
    requires y > 0.0
    ensures (x / y) * y == x
  {
  }

  /** How many key-downs a sequence of view calls holds. */
  function KeyDownCount(events: seq<ViewEvent>): nat
  {
    if events == [] then 0
    else KeyDownCount(events[..|events| - 1]) + (if events[|events| - 1].KeyDown? then 1 else 0)
  }

  lemma {:induction false} KeyDownCountAppend(a: seq<ViewEvent>, b: seq<ViewEvent>)
    ensures KeyDownCount(a + b) == KeyDownCount(a) + KeyDownCount(b)
    decreases |b|
  {
    if b == [] {
      assert a + b == a;
    } else {
      var b' := b[..|b| - 1];
      assert (a + b)[..|a + b| - 1] == a + b';
      assert (a + b)[|a + b| - 1] == b[|b| - 1];
      KeyDownCountAppend(a, b');
    }
  }

  /** The calls for one key-down hold one key-down when the key reaches the view, none otherwise. */
  lemma KeyDownEventsHoldOneKeyDown(key: Keys, focused: Option<Element>, isEnableDirectionalNavigation: bool, keyText: Keys -> string)
    ensures KeyDownCount(KeyDownEvents(key, focused, isEnableDirectionalNavigation, keyText))
      == if KeyDownEvents(key, focused, isEnableDirectionalNavigation, keyText) == [] then 0 else 1
  {
    var down := KeyDownEvents(key, focused, isEnableDirectionalNavigation, keyText);
    if |down| == 2 {
      assert down[..1] == [down[0]];
      assert down[..1][..0] == [];
      assert KeyDownCount(down[..1]) == 1;
      assert !down[1].KeyDown?;
    } else if |down| == 1 {
      assert down[..0] == [];
    }
  }

  /** Sending a group of calls `n` times sends `n` times its key-downs. */
  lemma {:induction false} RepeatedKeyDownCount(events: seq<ViewEvent>, n: nat)
    ensures KeyDownCount(Repeated(events, n)) == n * KeyDownCount(events)
  {
    if n > 0 {
      var once := KeyDownCount(events);
      RepeatedKeyDownCount(events, n - 1);
      KeyDownCountAppend(Repeated(events, n - 1), events);
      assert (n - 1) * once + once == n * once;
    }
  }

  /** A newly pressed key gets held time 0 and the calls of one initial key-down. */
  lemma NewKeyGetsOneKeyDown(key: Keys, settings: KeyboardSettings, frame: KeyboardFrame)
    requires settings.Valid()
    ensures NewHeldTime(key, Option.None, settings, frame) == 0.0
    ensures PressEvents(key, Option.None, settings, frame)
      == KeyDownEvents(key, frame.focused, settings.isEnableDirectionalNavigation, frame.keyText)
    ensures KeyDownCount(PressEvents(key, Option.None, settings, frame)) <= 1
  {
    KeyDownEventsHoldOneKeyDown(key, frame.focused, settings.isEnableDirectionalNavigation, frame.keyText);
  }

  /** A held modifier key sends nothing and keeps its stored time. */
  lemma ModifierKeysNeverRepeat(key: Keys, time: real, settings: KeyboardSettings, frame: KeyboardFrame)
    requires settings.Valid() && IsKeyModifier(key)
    ensures PressEvents(key, Some(time), settings, frame) == []
    ensures NewHeldTime(key, Some(time), settings, frame) == time
  {
  }

  /**
   * A held key that is not a modifier and reaches the view gets exactly as many
   * key-downs as repeats are due.
   */
  lemma HeldKeyRepeats(key: Keys, time: real, settings: KeyboardSettings, frame: KeyboardFrame)
    requires settings.Valid() && !IsKeyModifier(key)
    requires KeyDownEvents(key, frame.focused, settings.isEnableDirectionalNavigation, frame.keyText) != []
    ensures var count := RepeatCount(time + frame.elapsedSeconds, settings);
      KeyDownCount(PressEvents(key, Some(time), settings, frame)) == (if count > 0 then count else 0)
  {
    var down := KeyDownEvents(key, frame.focused, settings.isEnableDirectionalNavigation, frame.keyText);
    var count := RepeatCount(time + frame.elapsedSeconds, settings);
    KeyDownEventsHoldOneKeyDown(key, frame.focused, settings.isEnableDirectionalNavigation, frame.keyText);
    if count > 0 {
      assert PressEvents(key, Some(time), settings, frame) == Repeated(down, count);
      RepeatedKeyDownCount(down, count);
    } else {
      assert PressEvents(key, Some(time), settings, frame) == [];
    }
  }

  /** A held key that is not a modifier has its stored time advanced by the frame, less one interval per repeat sent. */
  lemma HeldKeyTimeAdvances(key: Keys, time: real, settings: KeyboardSettings, frame: KeyboardFrame)
    requires settings.Valid() && !IsKeyModifier(key)
    ensures var count := RepeatCount(time + frame.elapsedSeconds, settings);
      NewHeldTime(key, Some(time), settings, frame)
        == (if count > 0 then time + frame.elapsedSeconds - count as real * settings.keyRepeatIntervalSeconds
            else time + frame.elapsedSeconds)
  {
  }

  /** What the first loop does for a held key that is not a modifier: the repeat step on its time plus this frame's. */
  lemma HeldKeyUnfolds(key: Keys, time: real, settings: KeyboardSettings, frame: KeyboardFrame)
    requires settings.Valid() && !IsKeyModifier(key)
    ensures var count := RepeatCount(time + frame.elapsedSeconds, settings);
      PressEvents(key, Some(time), settings, frame)
        == if count > 0 then Repeated(KeyDownEvents(key, frame.focused, settings.isEnableDirectionalNavigation, frame.keyText), count) else []
    ensures NewHeldTime(key, Some(time), settings, frame) == HeldTimeAfterRepeats(time + frame.elapsedSeconds, settings)
  {
  }

  /** The keys `ConsumedOf` lists are the consumed keys of `order`, in order, each as often as in `order`. */
  lemma {:induction false} ConsumedOfSelects(order: seq<Keys>, focused: Option<Element>)
    ensures forall key :: key in ConsumedOf(order, focused) <==> key in order && IsConsumed(focused, key)
    ensures NoDuplicates(order) ==> NoDuplicates(ConsumedOf(order, focused))
  {
    if order != [] {
      var prefix := order[..|order| - 1];
      ConsumedOfSelects(prefix, focused);
      assert order == prefix + [order[|order| - 1]];
      if NoDuplicates(order) {
        assert NoDuplicates(prefix);
        assert order[|order| - 1] !in prefix;
      }
    }
  }

  /**
   * The keys consumed in one frame: every key pressed this frame or released since
   * the last one that the consumption rule claims, each exactly once.
   */
  lemma FrameConsumption(downOrder: seq<Keys>, upOrder: seq<Keys>, pressed: set<Keys>, released: set<Keys>, focused: Option<Element>)
    requires Enumerates(downOrder, pressed) && Enumerates(upOrder, released) && pressed !! released
    ensures forall key :: (key in ConsumedOf(downOrder, focused) + ConsumedOf(upOrder, focused)
      <==> (key in pressed || key in released) && IsConsumed(focused, key))
    ensures NoDuplicates(ConsumedOf(downOrder, focused) + ConsumedOf(upOrder, focused))
  {
    ConsumedOfSelects(downOrder, focused);
    ConsumedOfSelects(upOrder, focused);
    NoDuplicatesConcat(ConsumedOf(downOrder, focused), ConsumedOf(upOrder, focused));
  }

  /** Two duplicate-free sequences with no common member concatenate to a duplicate-free one. */
  lemma NoDuplicatesConcat(a: seq<Keys>, b: seq<Keys>)
    requires NoDuplicates(a) && NoDuplicates(b) && forall key | key in a :: key !in b
    ensures NoDuplicates(a + b)
  {
    forall i, j | 0 <= i < j < |a + b|
      ensures (a + b)[i] != (a + b)[j]
    {
      if j < |a| {
      } else if i >= |a| {
        assert (a + b)[i] == b[i - |a|] && (a + b)[j] == b[j - |a|];
      } else {
        assert (a + b)[i] in a && (a + b)[j] in b;
      }
    }
  }

  /** The released keys' calls are key-ups only, and include every key-up of every released key. */
  lemma {:induction false} ReleaseEventsAreKeyUps(order: seq<Keys>, focused: Option<Element>, isEnableDirectionalNavigation: bool)
    ensures forall e | e in ReleaseEventsOf(order, focused, isEnableDirectionalNavigation) :: e.KeyUp?
    ensures forall key, e | key in order && e in KeyUpEvents(key, focused, isEnableDirectionalNavigation) ::
      e in ReleaseEventsOf(order, focused, isEnableDirectionalNavigation)
  {
    if order != [] {
      var prefix := order[..|order| - 1];
      ReleaseEventsAreKeyUps(prefix, focused, isEnableDirectionalNavigation);
      assert order == prefix + [order[|order| - 1]];
    }
  }

  class Keyboard {
    var consumedKeys: seq<Keys>
    var heldKeysTime: map<Keys, real>
    var currentKeys: set<Keys>
    var previousKeys: set<Keys>
    const isEnableDirectionalNavigation: bool
    const keyRepeatDelaySeconds: real
    const keyRepeatIntervalSeconds: real
    const noesisKeyboard: KeyboardFocus
    const view: View

    function Settings(): KeyboardSettings
    {
      KeyboardSettings(isEnableDirectionalNavigation, keyRepeatDelaySeconds, keyRepeatIntervalSeconds)
    }

    /** The held-time table always has exactly last frame's keys. */
    ghost predicate Valid()
      reads this
    {
      Settings().Valid() && heldKeysTime.Keys == previousKeys
    }

    constructor (view: View, noesisKeyboard: KeyboardFocus, settings: KeyboardSettings)
      requires settings.Valid()
      ensures Valid() && Settings() == settings
      ensures this.view == view && this.noesisKeyboard == noesisKeyboard
      ensures consumedKeys == [] && heldKeysTime == map[] && currentKeys == {} && previousKeys == {}
    {
      this.view := view;
      this.noesisKeyboard := noesisKeyboard;
      isEnableDirectionalNavigation := settings.isEnableDirectionalNavigation;
      keyRepeatDelaySeconds := settings.keyRepeatDelaySeconds;
      keyRepeatIntervalSeconds := settings.keyRepeatIntervalSeconds;
      consumedKeys := [];
      heldKeysTime := map[];
      currentKeys := {};
      previousKeys := {};
    }

    /**
     * One frame. `pressedKeys` is what the host keyboard reports as pressed (read only
     * while the window is active) and `keyText` the platform's key-to-text lookup.
     * The ghost results are the orders in which the two hash-set loops visited the
     * pressed and the released keys.
     */
    method UpdateKeyboard(gameTime: GameTime, isWindowActive: bool, pressedKeys: seq<Keys>, keyText: Keys -> string)
      returns (ghost downOrder: seq<Keys>, ghost upOrder: seq<Keys>)
      requires Valid()
      modifies this, view
      ensures Valid()
      ensures previousKeys == (if isWindowActive then set key | key in pressedKeys else {})
      ensures currentKeys == old(previousKeys)
      ensures Enumerates(downOrder, previousKeys)
      ensures Enumerates(upOrder, old(previousKeys) - previousKeys)
      ensures consumedKeys == ConsumedOf(downOrder, noesisKeyboard.focused) + ConsumedOf(upOrder, noesisKeyboard.focused)
      ensures forall key | key in heldKeysTime ::
        heldKeysTime[key] == NewHeldTime(key, HeldTime(old(heldKeysTime), key), Settings(), KeyboardFrame(noesisKeyboard.focused, ElapsedSeconds(gameTime), keyText))
      ensures view.events == old(view.events)
        + PressEventsOf(downOrder, old(heldKeysTime), Settings(), KeyboardFrame(noesisKeyboard.focused, ElapsedSeconds(gameTime), keyText))
        + ReleaseEventsOf(upOrder, noesisKeyboard.focused, isEnableDirectionalNavigation)
    {
      if |consumedKeys| > 0 {
        consumedKeys := [];
      }
      if |currentKeys| > 0 {
        currentKeys := {};
      }
      var currentKeysArray := if isWindowActive then pressedKeys else [];
      FillCurrentKeys(currentKeysArray);
      downOrder, upOrder := ProcessKeys(gameTime, keyText);
      currentKeys, previousKeys := previousKeys, currentKeys;
    }

    /** The two loops of a frame: this frame's keys, then last frame's keys no longer pressed. */
    method ProcessKeys(gameTime: GameTime, keyText: Keys -> string) returns (ghost downOrder: seq<Keys>, ghost upOrder: seq<Keys>)
      requires Settings().Valid() && consumedKeys == [] && heldKeysTime.Keys == previousKeys
      modifies this`consumedKeys, this`heldKeysTime, view
      ensures Enumerates(downOrder, currentKeys)
      ensures Enumerates(upOrder, previousKeys - currentKeys)
      ensures consumedKeys == ConsumedOf(downOrder, noesisKeyboard.focused) + ConsumedOf(upOrder, noesisKeyboard.focused)
      ensures heldKeysTime.Keys == currentKeys
      ensures forall key | key in heldKeysTime ::
        heldKeysTime[key] == NewHeldTime(key, HeldTime(old(heldKeysTime), key), Settings(), KeyboardFrame(noesisKeyboard.focused, ElapsedSeconds(gameTime), keyText))
      ensures view.events == old(view.events)
        + PressEventsOf(downOrder, old(heldKeysTime), Settings(), KeyboardFrame(noesisKeyboard.focused, ElapsedSeconds(gameTime), keyText))
        + ReleaseEventsOf(upOrder, noesisKeyboard.focused, isEnableDirectionalNavigation)
    {
      downOrder := ProcessPressedKeys(gameTime, keyText);
      upOrder := ProcessReleasedKeys();
      FrameTableHolds(old(heldKeysTime), downOrder, currentKeys, Settings(), KeyboardFrame(noesisKeyboard.focused, ElapsedSeconds(gameTime), keyText));
    }

    /** The order in which a hash-set loop visits the members of `keys`. */
    static method IterationOrder(keys: set<Keys>) returns (order: seq<Keys>)
      ensures Enumerates(order, keys) && NoDuplicates(order)
    {
      var pending := keys;
      order := [];
      while pending != {}
        invariant pending <= keys
        invariant Enumerates(order, keys - pending)
        decreases pending
      {
        NonEmptyHasKey(pending);
        var key :| key in pending;
        EnumeratesExtend(order, keys - pending, key);
        assert (keys - pending) + {key} == keys - (pending - {key});
        pending := pending - {key};
        order := order + [key];
      }
    }

    /** Adds the keys of `keys` to the (emptied) current-key set. */
    method FillCurrentKeys(keys: seq<Keys>)
      requires currentKeys == {}
      modifies this`currentKeys
      ensures currentKeys == set key | key in keys
    {
      var i := 0;
      while i < |keys|
        invariant 0 <= i <= |keys|
        invariant currentKeys == set key | key in keys[..i]
      {
        assert keys[..i + 1] == keys[..i] + [keys[i]];
        currentKeys := currentKeys + {keys[i]};
        i := i + 1;
      }
      assert keys[..i] == keys;
    }

    /** The first loop: every key pressed this frame, visited in the returned order. */
    method ProcessPressedKeys(gameTime: GameTime, keyText: Keys -> string) returns (ghost order: seq<Keys>)
      requires Settings().Valid() && consumedKeys == []
      modifies this`consumedKeys, this`heldKeysTime, view
      ensures Enumerates(order, currentKeys)
      ensures consumedKeys == ConsumedOf(order, noesisKeyboard.focused)
      ensures heldKeysTime == HeldAfterPresses(old(heldKeysTime), order, Settings(), KeyboardFrame(noesisKeyboard.focused, ElapsedSeconds(gameTime), keyText))
      ensures view.events == old(view.events)
        + PressEventsOf(order, old(heldKeysTime), Settings(), KeyboardFrame(noesisKeyboard.focused, ElapsedSeconds(gameTime), keyText))
    {
      var keys := IterationOrder(currentKeys);
      ProcessPressedKeysInOrder(keys, gameTime, keyText);
      order := keys;
    }

    /** The first loop's body run for each of `keys`, in order. */
    method ProcessPressedKeysInOrder(keys: seq<Keys>, gameTime: GameTime, keyText: Keys -> string)
      requires Settings().Valid() && consumedKeys == [] && NoDuplicates(keys)
      modifies this`consumedKeys, this`heldKeysTime, view
      ensures consumedKeys == ConsumedOf(keys, noesisKeyboard.focused)
      ensures heldKeysTime == HeldAfterPresses(old(heldKeysTime), keys, Settings(), KeyboardFrame(noesisKeyboard.focused, ElapsedSeconds(gameTime), keyText))
      ensures view.events == old(view.events)
        + PressEventsOf(keys, old(heldKeysTime), Settings(), KeyboardFrame(noesisKeyboard.focused, ElapsedSeconds(gameTime), keyText))
    {
      ghost var frame := KeyboardFrame(noesisKeyboard.focused, ElapsedSeconds(gameTime), keyText);
      ghost var oldHeld := heldKeysTime;
      var i := 0;
      while i < |keys|
        invariant 0 <= i <= |keys|
        invariant consumedKeys == ConsumedOf(keys[..i], frame.focused)
        invariant view.events == old(view.events) + PressEventsOf(keys[..i], oldHeld, Settings(), frame)
        invariant heldKeysTime == HeldAfterPresses(oldHeld, keys[..i], Settings(), frame)
      {
        PressStep(keys, i, oldHeld, Settings(), frame);
        AppendIsAssociative(old(view.events), PressEventsOf(keys[..i], oldHeld, Settings(), frame),
          PressEvents(keys[i], HeldTime(oldHeld, keys[i]), Settings(), frame));
        ProcessPressedKey(keys[i], gameTime, keyText);
        i := i + 1;
      }
      assert keys[..i] == keys;
    }

    /** One pass of the first loop's body, for a key pressed this frame. */
    method ProcessPressedKey(key: Keys, gameTime: GameTime, keyText: Keys -> string)
      requires Settings().Valid()
      modifies this`consumedKeys, this`heldKeysTime, view
      ensures consumedKeys == old(consumedKeys) + (if IsConsumed(noesisKeyboard.focused, key) then [key] else [])
      ensures heldKeysTime == old(heldKeysTime)[key := NewHeldTime(key, HeldTime(old(heldKeysTime), key), Settings(),
        KeyboardFrame(noesisKeyboard.focused, ElapsedSeconds(gameTime), keyText))]
      ensures view.events == old(view.events) + PressEvents(key, HeldTime(old(heldKeysTime), key), Settings(),
        KeyboardFrame(noesisKeyboard.focused, ElapsedSeconds(gameTime), keyText))
    {
      TryConsumeKey(key);
      PressOrRepeatKey(key, gameTime, keyText);
    }

    /** The rest of the first loop's body: an initial key-down for a new key, the repeat step for a held one. */
    method PressOrRepeatKey(key: Keys, gameTime: GameTime, keyText: Keys -> string)
      requires Settings().Valid()
      modifies this`heldKeysTime, view
      ensures heldKeysTime == old(heldKeysTime)[key := NewHeldTime(key, HeldTime(old(heldKeysTime), key), Settings(),
        KeyboardFrame(noesisKeyboard.focused, ElapsedSeconds(gameTime), keyText))]
      ensures view.events == old(view.events) + PressEvents(key, HeldTime(old(heldKeysTime), key), Settings(),
        KeyboardFrame(noesisKeyboard.focused, ElapsedSeconds(gameTime), keyText))
    {
      if key !in heldKeysTime {
        heldKeysTime := heldKeysTime[key := 0.0];
        OnXnaKeyDown(key, keyText);
      } else {
        HeldKeyStep(key, gameTime, keyText);
      }
    }

    /** The first loop's body for a key already held: modifiers keep their time, other keys take the repeat step. */
    method HeldKeyStep(key: Keys, gameTime: GameTime, keyText: Keys -> string)
      requires Settings().Valid() && key in heldKeysTime
      modifies this`heldKeysTime, view
      ensures heldKeysTime == old(heldKeysTime)[key := NewHeldTime(key, Some(old(heldKeysTime)[key]), Settings(),
        KeyboardFrame(noesisKeyboard.focused, ElapsedSeconds(gameTime), keyText))]
      ensures view.events == old(view.events) + PressEvents(key, Some(old(heldKeysTime)[key]), Settings(),
        KeyboardFrame(noesisKeyboard.focused, ElapsedSeconds(gameTime), keyText))
    {
      if IsKeyModifier(key) {
        assert heldKeysTime == heldKeysTime[key := heldKeysTime[key]];
        return;
      }
      HeldKeyUnfolds(key, heldKeysTime[key], Settings(), KeyboardFrame(noesisKeyboard.focused, ElapsedSeconds(gameTime), keyText));
      var heldTime := RepeatHeldKey(key, heldKeysTime[key] + ElapsedSeconds(gameTime), keyText);
      heldKeysTime := heldKeysTime[key := heldTime];
    }

    /** The repeat step for a held key that is not a modifier: sends the repeats due and answers the time to store. */
    method RepeatHeldKey(key: Keys, heldTime: real, keyText: Keys -> string) returns (newHeldTime: real)
      requires Settings().Valid()
      modifies view
      ensures newHeldTime == HeldTimeAfterRepeats(heldTime, Settings())
      ensures var count := RepeatCount(heldTime, Settings());
        view.events == old(view.events)
          + if count > 0 then Repeated(KeyDownEvents(key, noesisKeyboard.focused, isEnableDirectionalNavigation, keyText), count) else []
    {
      newHeldTime := heldTime;
      var count := TruncateToInt((newHeldTime - keyRepeatDelaySeconds) / keyRepeatIntervalSeconds);
      assert count == RepeatCount(heldTime, Settings());
      if count > 0 {
        newHeldTime := newHeldTime - count as real * keyRepeatIntervalSeconds;
        assert newHeldTime == HeldTimeAfterRepeats(heldTime, Settings());
        SendRepeats(key, keyText, count);
      }
    }

    /** The second loop: every key of last frame not pressed now, visited in the returned order. */
    method ProcessReleasedKeys() returns (ghost order: seq<Keys>)
      modifies this`consumedKeys, this`heldKeysTime, view
      ensures Enumerates(order, previousKeys - currentKeys)
      ensures consumedKeys == old(consumedKeys) + ConsumedOf(order, noesisKeyboard.focused)
      ensures heldKeysTime == old(heldKeysTime) - (previousKeys - currentKeys)
      ensures view.events == old(view.events) + ReleaseEventsOf(order, noesisKeyboard.focused, isEnableDirectionalNavigation)
    {
      ghost var seen: set<Keys> := {};
      ghost var released: set<Keys> := {};
      var pending := previousKeys;
      order := [];
      while pending != {}
        invariant seen <= previousKeys && pending == previousKeys - seen
        invariant released == seen - currentKeys
        invariant Enumerates(order, released)
        invariant consumedKeys == old(consumedKeys) + ConsumedOf(order, noesisKeyboard.focused)
        invariant view.events == old(view.events) + ReleaseEventsOf(order, noesisKeyboard.focused, isEnableDirectionalNavigation)
        invariant heldKeysTime == old(heldKeysTime) - released
        decreases pending
      {
        NonEmptyHasKey(pending);
        var key :| key in pending;
        ReleaseBookkeeping(previousKeys, currentKeys, seen, key, old(heldKeysTime));
        pending := pending - {key};
        if key !in currentKeys {
          ProcessReleasedKey(key);
          EnumeratesExtend(order, released, key);
          ReleaseOneMore(order, key, noesisKeyboard.focused, isEnableDirectionalNavigation);
          ConsumeOneMore(order, key, noesisKeyboard.focused);
          AppendIsAssociative(old(view.events), ReleaseEventsOf(order, noesisKeyboard.focused, isEnableDirectionalNavigation),
            KeyUpEvents(key, noesisKeyboard.focused, isEnableDirectionalNavigation));
          AppendIsAssociative(old(consumedKeys), ConsumedOf(order, noesisKeyboard.focused),
            if IsConsumed(noesisKeyboard.focused, key) then [key] else []);
          order := order + [key];
          released := released + {key};
        }
        seen := seen + {key};
      }
    }

    /** One pass of the second loop's body, for a key released since last frame. */
    method ProcessReleasedKey(key: Keys)
      modifies this`consumedKeys, this`heldKeysTime, view
      ensures consumedKeys == old(consumedKeys) + (if IsConsumed(noesisKeyboard.focused, key) then [key] else [])
      ensures heldKeysTime == old(heldKeysTime) - {key}
      ensures view.events == old(view.events) + KeyUpEvents(key, noesisKeyboard.focused, isEnableDirectionalNavigation)
    {
      heldKeysTime := heldKeysTime - {key};
      TryConsumeKey(key);
      OnXnaKeyUp(key);
    }

    /** The repeat loop: `count` more key-downs for a held key. */
    method SendRepeats(key: Keys, keyText: Keys -> string, count: nat)
      modifies view
      ensures view.events == old(view.events)
        + Repeated(KeyDownEvents(key, noesisKeyboard.focused, isEnableDirectionalNavigation, keyText), count)
    {
      var i := 0;
      while i < count
        invariant 0 <= i <= count
        invariant view.events == old(view.events)
          + Repeated(KeyDownEvents(key, noesisKeyboard.focused, isEnableDirectionalNavigation, keyText), i)
      {
        OnXnaKeyDown(key, keyText);
        AppendIsAssociative(old(view.events), Repeated(KeyDownEvents(key, noesisKeyboard.focused, isEnableDirectionalNavigation, keyText), i),
          KeyDownEvents(key, noesisKeyboard.focused, isEnableDirectionalNavigation, keyText));
        i := i + 1;
      }
    }

    method OnXnaKeyDown(key: Keys, keyText: Keys -> string)
      modifies view
      ensures view.events == old(view.events) + KeyDownEvents(key, noesisKeyboard.focused, isEnableDirectionalNavigation, keyText)
    {
      var noesisKey := KeyConverter.Convert(key);
      if noesisKey == Key.None {
        return;
      }
      if IsIgnored(noesisKeyboard.focused, isEnableDirectionalNavigation, key) {
        return;
      }
      view.Send(KeyDown(noesisKey));
      var keyChar := keyText(key);
      if |keyChar| != 1 || keyChar[0] == '\0' {
        return;
      }
      view.Send(Char(keyChar[0]));
    }

    method OnXnaKeyUp(key: Keys)
      modifies view
      ensures view.events == old(view.events) + KeyUpEvents(key, noesisKeyboard.focused, isEnableDirectionalNavigation)
    {
      var noesisKey := KeyConverter.Convert(key);
      if noesisKey == Key.None {
        return;
      }
      if IsIgnored(noesisKeyboard.focused, isEnableDirectionalNavigation, key) {
        return;
      }
      view.Send(KeyUp(noesisKey));
    }

    method TryConsumeKey(key: Keys)
      modifies this`consumedKeys
      ensures consumedKeys == old(consumedKeys) + (if IsConsumed(noesisKeyboard.focused, key) then [key] else [])
    {
      var focused := noesisKeyboard.focused;
      if focused.None? {
        return;
      }
      if focused.value.kind == TextBox {
        consumedKeys := consumedKeys + [key];
        return;
      }
      if (focused.value.kind == ButtonBase || focused.value.kind == ComboBoxItem) && (key == Keys.Enter || key == Keys.Tab) {
        consumedKeys := consumedKeys + [key];
      }
    }
  }
}
