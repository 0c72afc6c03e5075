/**
 * The legacy key table (Input/NoesisKeyCodes.cs, class `MonoGameNoesisKeys`): a
 * dictionary filled by sixty `Add` calls in a static constructor, and `Convert`, which
 * answers the registered key or `None`. This older path was written against an
 * earlier key enumeration of the UI runtime (`Clear`, `Prior`, `Next`, `Pad0`,
 * `Shift`, `Control`, `Alt`, ...), modelled here as `LegacyKey`; letters and the
 * digit row are commented out in the source and so are not registered.
 */
module MonoGameNoesisKeys {
  import opened Wrappers
  import opened Xna

  /** The members of the earlier key enumeration that the table uses, and `None`. */
  datatype LegacyKey =
      None
    | Back
    | Tab
    | Clear
    | Return
    | Pause
    | Escape
    | Space
    | Prior
    | Next
    | End
    | Home
    | Left
    | Up
    | Right
    | Down
    | Select
    | Print
    | Execute
    | Insert
    | Delete
    | Help
    | Pad0
    | Pad1
    | Pad2
    | Pad3
    | Pad4
    | Pad5
    | Pad6
    | Pad7
    | Pad8
    | Pad9
    | Multiply
    | Add
    | Separator
    | Subtract
    | Decimal
    | Divide
    | F1
    | F2
    | F3
    | F4
    | F5
    | F6
    | F7
    | F8
    | F9
    | F10
    | F11
    | F12
    | F13
    | F14
    | F15
    | NumLock
    | Scroll
    | Shift
    | Control
    | Alt

  /** The number of `Add` calls in the static constructor. */
  const AddCount: nat := 60

  /** The `i`-th `Add` call of the static constructor: the host key and the key it registers. */
  function AddCall(i: nat): (Keys, LegacyKey)
    requires i < AddCount
  {
    match i
    case 0 => (Keys.Back, LegacyKey.Back)
    case 1 => (Keys.Tab, LegacyKey.Tab)
    case 2 => (Keys.OemClear, LegacyKey.Clear)
    case 3 => (Keys.Enter, LegacyKey.Return)
    case 4 => (Keys.Pause, LegacyKey.Pause)
    case 5 => (Keys.Escape, LegacyKey.Escape)
    case 6 => (Keys.Space, LegacyKey.Space)
    case 7 => (Keys.PageUp, LegacyKey.Prior)
    case 8 => (Keys.PageDown, LegacyKey.Next)
    case 9 => (Keys.End, LegacyKey.End)
    case 10 => (Keys.Home, LegacyKey.Home)
    case 11 => (Keys.Left, LegacyKey.Left)
    case 12 => (Keys.Up, LegacyKey.Up)
    case 13 => (Keys.Right, LegacyKey.Right)
    case 14 => (Keys.Down, LegacyKey.Down)
    case 15 => (Keys.Select, LegacyKey.Select)
    case 16 => (Keys.Print, LegacyKey.Print)
    case 17 => (Keys.Execute, LegacyKey.Execute)
    case 18 => (Keys.Insert, LegacyKey.Insert)
    case 19 => (Keys.Delete, LegacyKey.Delete)
    case 20 => (Keys.Help, LegacyKey.Help)
    case 21 => (Keys.NumPad0, LegacyKey.Pad0)
    case 22 => (Keys.NumPad1, LegacyKey.Pad1)
    case 23 => (Keys.NumPad2, LegacyKey.Pad2)
    case 24 => (Keys.NumPad3, LegacyKey.Pad3)
    case 25 => (Keys.NumPad4, LegacyKey.Pad4)
    case 26 => (Keys.NumPad5, LegacyKey.Pad5)
    case 27 => (Keys.NumPad6, LegacyKey.Pad6)
    case 28 => (Keys.NumPad7, LegacyKey.Pad7)
    case 29 => (Keys.NumPad8, LegacyKey.Pad8)
    case 30 => (Keys.NumPad9, LegacyKey.Pad9)
    case 31 => (Keys.Multiply, LegacyKey.Multiply)
    case 32 => (Keys.OemPlus, LegacyKey.Add)
    case 33 => (Keys.Separator, LegacyKey.Separator)
    case 34 => (Keys.OemMinus, LegacyKey.Subtract)
    case 35 => (Keys.OemPeriod, LegacyKey.Decimal)
    case 36 => (Keys.Divide, LegacyKey.Divide)
    case 37 => (Keys.F1, LegacyKey.F1)
    case 38 => (Keys.F2, LegacyKey.F2)
    case 39 => (Keys.F3, LegacyKey.F3)
    case 40 => (Keys.F4, LegacyKey.F4)
    case 41 => (Keys.F5, LegacyKey.F5)
    case 42 => (Keys.F6, LegacyKey.F6)
    case 43 => (Keys.F7, LegacyKey.F7)
    case 44 => (Keys.F8, LegacyKey.F8)
    case 45 => (Keys.F9, LegacyKey.F9)
    case 46 => (Keys.F10, LegacyKey.F10)
    case 47 => (Keys.F11, LegacyKey.F11)
    case 48 => (Keys.F12, LegacyKey.F12)
    case 49 => (Keys.F13, LegacyKey.F13)
    case 50 => (Keys.F14, LegacyKey.F14)
    case 51 => (Keys.F15, LegacyKey.F15)
    case 52 => (Keys.NumLock, LegacyKey.NumLock)
    case 53 => (Keys.Scroll, LegacyKey.Scroll)
    case 54 => (Keys.LeftShift, LegacyKey.Shift)
    case 55 => (Keys.RightShift, LegacyKey.Shift)
    case 56 => (Keys.LeftControl, LegacyKey.Control)
    case 57 => (Keys.RightControl, LegacyKey.Control)
    case 58 => (Keys.LeftAlt, LegacyKey.Alt)
    case _ => (Keys.RightAlt, LegacyKey.Alt)
  }

  /**
   * The index of the `Add` call that adds `key`, if any: the table read from the
   * host-key side, one line per call in the same order.
   */
  function Position(key: Keys): Option<nat>
  {
    if key == Keys.Back then Some(0)
    else if key == Keys.Tab then Some(1)
    else if key == Keys.OemClear then Some(2)
    else if key == Keys.Enter then Some(3)
    else if key == Keys.Pause then Some(4)
    else if key == Keys.Escape then Some(5)
    else if key == Keys.Space then Some(6)
    else if key == Keys.PageUp then Some(7)
    else if key == Keys.PageDown then Some(8)
    else if key == Keys.End then Some(9)
    else if key == Keys.Home then Some(10)
    else if key == Keys.Left then Some(11)
    else if key == Keys.Up then Some(12)
    else if key == Keys.Right then Some(13)
    else if key == Keys.Down then Some(14)
    else if key == Keys.Select then Some(15)
    else if key == Keys.Print then Some(16)
    else if key == Keys.Execute then Some(17)
    else if key == Keys.Insert then Some(18)
    else if key == Keys.Delete then Some(19)
    else if key == Keys.Help then Some(20)
    else if key == Keys.NumPad0 then Some(21)
    else if key == Keys.NumPad1 then Some(22)
    else if key == Keys.NumPad2 then Some(23)
    else if key == Keys.NumPad3 then Some(24)
    else if key == Keys.NumPad4 then Some(25)
    else if key == Keys.NumPad5 then Some(26)
    else if key == Keys.NumPad6 then Some(27)
    else if key == Keys.NumPad7 then Some(28)
    else if key == Keys.NumPad8 then Some(29)
    else if key == Keys.NumPad9 then Some(30)
    else if key == Keys.Multiply then Some(31)
    else if key == Keys.OemPlus then Some(32)
    else if key == Keys.Separator then Some(33)
    else if key == Keys.OemMinus then Some(34)
    else if key == Keys.OemPeriod then Some(35)
    else if key == Keys.Divide then Some(36)
    else if key == Keys.F1 then Some(37)
    else if key == Keys.F2 then Some(38)
    else if key == Keys.F3 then Some(39)
    else if key == Keys.F4 then Some(40)
    else if key == Keys.F5 then Some(41)
    else if key == Keys.F6 then Some(42)
    else if key == Keys.F7 then Some(43)
    else if key == Keys.F8 then Some(44)
    else if key == Keys.F9 then Some(45)
    else if key == Keys.F10 then Some(46)
    else if key == Keys.F11 then Some(47)
    else if key == Keys.F12 then Some(48)
    else if key == Keys.F13 then Some(49)
    else if key == Keys.F14 then Some(50)
    else if key == Keys.F15 then Some(51)
    else if key == Keys.NumLock then Some(52)
    else if key == Keys.Scroll then Some(53)
    else if key == Keys.LeftShift then Some(54)
    else if key == Keys.RightShift then Some(55)
    else if key == Keys.LeftControl then Some(56)
    else if key == Keys.RightControl then Some(57)
    else if key == Keys.LeftAlt then Some(58)
    else if key == Keys.RightAlt then Some(59)
    else Option.None
  }

  /** The message `Dictionary.Add` fails with when the dictionary already holds the key. */
  const DuplicateKeyError := "An item with the same key has already been added."

  /**
   * A dictionary built by `Add` calls in order from empty, or the failure raised by
   * the first call that adds a key already present.
   */
  function AddAll(calls: seq<(Keys, LegacyKey)>): Result<map<Keys, LegacyKey>, string>
  {
    if |calls| == 0 then Success(map[])
    else
      match AddAll(calls[..|calls| - 1])
      case Failure(e) => Failure(e)
      case Success(d) =>
        var (key, value) := calls[|calls| - 1];
        if key in d then Failure(DuplicateKeyError) else Success(d[key := value])
  }

  /** The static constructor's `Add` calls, in order. */
  function Calls(): (r: seq<(Keys, LegacyKey)>)
    ensures |r| == AddCount
    ensures forall i | 0 <= i < AddCount :: r[i] == AddCall(i)
  {
    seq(AddCount, i requires 0 <= i < AddCount => AddCall(i))
  }

  /** The dictionary the static constructor builds (or the exception it throws). */
  function Registered(): Result<map<Keys, LegacyKey>, string>
  {
    AddAll(Calls())
  }

  /**
   * `Convert`: the key registered for `key` by its `Add` call, or `None` when no call
   * adds it. `ConvertIsDictionaryLookup` shows this is exactly what looking the key up
   * in the dictionary the static constructor builds answers.
   */
  function Convert(key: Keys): LegacyKey
  {
    match Position(key)
    case Some(i) => if i < AddCount then AddCall(i).1 else LegacyKey.None
    case None => LegacyKey.None
  }

  lemma PositionInvertsCallsBelow20()
    ensures forall i: nat | i < 20 :: Position(AddCall(i).0) == Some(i)
  {
  }

  lemma PositionInvertsCallsFrom20To39()
    ensures forall i: nat | 20 <= i < 40 :: Position(AddCall(i).0) == Some(i)
  {
  }

  lemma PositionInvertsCallsFrom40To49()
    ensures forall i: nat | 40 <= i < 50 :: Position(AddCall(i).0) == Some(i)
  {
  }

  lemma PositionInvertsCallsFrom50To54()
    ensures forall i: nat | 50 <= i < 55 :: Position(AddCall(i).0) == Some(i)
  {
  }

  lemma PositionInvertsCallsFrom55To57()
    ensures forall i: nat | 55 <= i < 58 :: Position(AddCall(i).0) == Some(i)
  {
  }

  lemma PositionInvertsCallsFrom58()
    ensures forall i: nat | 58 <= i < AddCount :: Position(AddCall(i).0) == Some(i)
  {
  }

  /** The reverse listing finds every call's key at that call. */
  lemma PositionInverts(i: nat)
    requires i < AddCount
    ensures Position(AddCall(i).0) == Some(i)
  {
    if i < 20 {
      PositionInvertsCallsBelow20();
    } else if i < 40 {
      PositionInvertsCallsFrom20To39();
    } else if i < 50 {
      PositionInvertsCallsFrom40To49();
    } else if i < 55 {
      PositionInvertsCallsFrom50To54();
    } else if i < 58 {
      PositionInvertsCallsFrom55To57();
    } else {
      PositionInvertsCallsFrom58();
    }
  }

  /** The reverse listing names only calls that add the key it was asked about. */
  lemma PositionIsSound(key: Keys)
    requires Position(key).Some?
    ensures Position(key).value < AddCount && AddCall(Position(key).value).0 == key
  {
  }

  /** No two `Add` calls add the same host key. */
  lemma AddedKeysAreDistinct(i: nat, j: nat)
    requires i < AddCount && j < AddCount && AddCall(i).0 == AddCall(j).0
    ensures i == j
  {
    PositionInverts(i);
    PositionInverts(j);
  }

  /**
   * `Add` calls whose keys are pairwise distinct never throw, and build the dictionary
   * holding exactly their keys, each mapped to the value its call adds.
   */
  lemma {:induction false} AddAllOfDistinctKeys(calls: seq<(Keys, LegacyKey)>)
    requires forall i, j | 0 <= i < j < |calls| :: calls[i].0 != calls[j].0
    ensures AddAll(calls).Success?
    ensures AddAll(calls).value.Keys == set c | c in calls :: c.0
    ensures forall i | 0 <= i < |calls| :: AddAll(calls).value[calls[i].0] == calls[i].1
  {
    if |calls| > 0 {
      var prefix := calls[..|calls| - 1];
      AddAllOfDistinctKeys(prefix);
      var d := AddAll(prefix).value;
      var (key, value) := calls[|calls| - 1];
      assert AddAll(calls) == Success(d[key := value]);
      assert calls == prefix + [(key, value)];
      assert forall c :: c in calls <==> c in prefix || c == (key, value);
    }
  }

  /** The static constructor never throws: every `Add` call adds a key not yet present. */
  lemma StaticConstructorSucceeds()
    ensures Registered().Success?
    ensures Registered().value.Keys == set c | c in Calls() :: c.0
    ensures forall i | 0 <= i < AddCount :: Registered().value[AddCall(i).0] == AddCall(i).1
  {
    var calls := Calls();
    forall i, j | 0 <= i < j < |calls|
      ensures calls[i].0 != calls[j].0
    {
      if calls[i].0 == calls[j].0 {
        AddedKeysAreDistinct(i, j);
      }
    }
    AddAllOfDistinctKeys(calls);
  }

  /**
   * `Convert` is the dictionary's `TryGetValue`: the static constructor succeeds, and
   * `Convert` answers the dictionary's value for a key it holds and `None` for any other.
   */
  lemma ConvertIsDictionaryLookup(key: Keys)
    ensures Registered().Success?
    ensures key in Registered().value ==> Convert(key) == Registered().value[key]
    ensures key !in Registered().value ==> Convert(key) == LegacyKey.None
  {
    StaticConstructorSucceeds();
    if key in Registered().value {
      var c :| c in Calls() && c.0 == key;
      var i :| 0 <= i < AddCount && Calls()[i] == c;
      PositionInverts(i);
    } else if Position(key).Some? {
      PositionIsSound(key);
    }
  }

  /** Every `Add` call's host key converts to the key that call registers. */
  lemma ConvertOfAddCall(i: nat)
    requires i < AddCount
    ensures Convert(AddCall(i).0) == AddCall(i).1
  {
    PositionInverts(i);
  }

  /** Letters and the digit row are commented out of the table, so they convert to `None`. */
  lemma LettersAndDigitRowConvertToNone()
    ensures forall key: Keys | Keys.A <= key <= Keys.Z :: Convert(key) == LegacyKey.None
    ensures forall key: Keys | Keys.D0 <= key <= Keys.D9 :: Convert(key) == LegacyKey.None
  {
  }

  /** The table is many-to-one: both shift keys convert to Shift. */
  lemma ShiftKeysShareAKey()
    ensures forall key: Keys | Keys.LeftShift <= key <= Keys.RightShift :: Convert(key) == LegacyKey.Shift
  {
  }

  /** Both control keys convert to Control. */
  lemma ControlKeysShareAKey()
    ensures forall key: Keys | Keys.LeftControl <= key <= Keys.RightControl :: Convert(key) == LegacyKey.Control
  {
  }

  /** Both alt keys convert to Alt. */
  lemma AltKeysShareAKey()
    ensures forall key: Keys | Keys.LeftAlt <= key <= Keys.RightAlt :: Convert(key) == LegacyKey.Alt
  {
  }

  /** PageUp and PageDown are registered as Prior and Next. */
  lemma PagingKeysAreRenamed()
    ensures Convert(Keys.PageUp) == LegacyKey.Prior && Convert(Keys.PageDown) == LegacyKey.Next
  {
  }

  /** The OEM plus, minus and period keys stand in for the number-pad Add, Subtract and Decimal keys. */
  lemma OemKeysStandInForPadOperators()
    ensures Convert(Keys.OemPlus) == LegacyKey.Add && Convert(Keys.OemMinus) == LegacyKey.Subtract
    ensures Convert(Keys.OemPeriod) == LegacyKey.Decimal
  {
  }

  /** NumPad0 to NumPad3 convert to Pad0 to Pad3. */
  lemma LowerNumPadMapsToPadKeys()
    ensures Convert(Keys.NumPad0) == LegacyKey.Pad0 && Convert(Keys.NumPad1) == LegacyKey.Pad1
    ensures Convert(Keys.NumPad2) == LegacyKey.Pad2 && Convert(Keys.NumPad3) == LegacyKey.Pad3
  {
  }

  /** NumPad4 to NumPad6 convert to Pad4 to Pad6. */
  lemma MiddleNumPadMapsToPadKeys()
    ensures Convert(Keys.NumPad4) == LegacyKey.Pad4 && Convert(Keys.NumPad5) == LegacyKey.Pad5
    ensures Convert(Keys.NumPad6) == LegacyKey.Pad6
  {
  }

  /** NumPad7 to NumPad9 convert to Pad7 to Pad9. */
  lemma UpperNumPadMapsToPadKeys()
    ensures Convert(Keys.NumPad7) == LegacyKey.Pad7 && Convert(Keys.NumPad8) == LegacyKey.Pad8
    ensures Convert(Keys.NumPad9) == LegacyKey.Pad9
  {
  }
}
