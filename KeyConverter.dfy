/**
 * The key-conversion table of the current input path (Helpers/KeyConverter.cs): a
 * dictionary from host keys to UI-runtime keys, filled once by a collection
 * initializer, and `Convert`, which looks a key up and answers `Key.None` for a key
 * the table does not list.
 *
 * The initializer's entries are split below into groups by key code (the order of
 * a dictionary's entries does not affect what a lookup finds once its keys are
 * distinct); each group keeps the initializer's order, and `Lookup` sends a code to
 * the one group whose codes can contain it.
 */
module KeyConverter {
  import opened Wrappers
  import opened Xna
  import opened Noesis

  /** The entry of the `noesisKeys` dictionary for `key`, if the initializer lists one. */
  function Lookup(key: Keys): Option<Key>
  {
    if key == Keys.OemClear || key < Keys.D0 then EditingKeys(key)
    else if key <= Keys.D9 then DigitKeys(key)
    else if key <= Keys.Z then LetterKeys(key)
    else if key <= Keys.RightWindows then ModifierKeys(key)
    else if key <= Keys.Divide then NumPadKeys(key)
    else if key <= Keys.F24 then FunctionKeys(key)
    else if key <= Keys.Scroll then LockKeys(key)
    else if key <= Keys.RightAlt then ModifierKeys(key)
    else OemKeys(key)
  }

  /** The entries for the editing and navigation keys, Back to Help, and OemClear, in the initializer's order. */
  function EditingKeys(key: Keys): Option<Key>
  {
    if key == Keys.Back then Some(Key.Back)
    else if key == Keys.Tab then Some(Key.Tab)
    else if key == Keys.OemClear then Some(Key.OemClear)
    else if key == Keys.Enter then Some(Key.Return)
    else if key == Keys.Pause then Some(Key.Pause)
    else if key == Keys.Escape then Some(Key.Escape)
    else if key == Keys.Space then Some(Key.Space)
    else if key == Keys.PageUp then Some(Key.PageUp)
    else if key == Keys.PageDown then Some(Key.PageDown)
    else if key == Keys.End then Some(Key.End)
    else if key == Keys.Home then Some(Key.Home)
    else if key == Keys.Left then Some(Key.Left)
    else if key == Keys.Up then Some(Key.Up)
    else if key == Keys.Right then Some(Key.Right)
    else if key == Keys.Down then Some(Key.Down)
    else if key == Keys.Select then Some(Key.Select)
    else if key == Keys.Print then Some(Key.Print)
    else if key == Keys.Execute then Some(Key.Execute)
    else if key == Keys.Insert then Some(Key.Insert)
    else if key == Keys.Delete then Some(Key.Delete)
    else if key == Keys.Help then Some(Key.Help)
    else Option.None
  }

  /** The entries for the digit row D0 to D9, in the initializer's order. */
  function DigitKeys(key: Keys): Option<Key>
  {
    if key == Keys.D0 then Some(Key.D0)
    else if key == Keys.D1 then Some(Key.D1)
    else if key == Keys.D2 then Some(Key.D2)
    else if key == Keys.D3 then Some(Key.D3)
    else if key == Keys.D4 then Some(Key.D4)
    else if key == Keys.D5 then Some(Key.D5)
    else if key == Keys.D6 then Some(Key.D6)
    else if key == Keys.D7 then Some(Key.D7)
    else if key == Keys.D8 then Some(Key.D8)
    else if key == Keys.D9 then Some(Key.D9)
    else Option.None
  }

  /** The entries for the letters A to Z, in the initializer's order. */
  function LetterKeys(key: Keys): Option<Key>
  {
    if key == Keys.A then Some(Key.A)
    else if key == Keys.B then Some(Key.B)
    else if key == Keys.C then Some(Key.C)
    else if key == Keys.D then Some(Key.D)
    else if key == Keys.E then Some(Key.E)
    else if key == Keys.F then Some(Key.F)
    else if key == Keys.G then Some(Key.G)
    else if key == Keys.H then Some(Key.H)
    else if key == Keys.I then Some(Key.I)
    else if key == Keys.J then Some(Key.J)
    else if key == Keys.K then Some(Key.K)
    else if key == Keys.L then Some(Key.L)
    else if key == Keys.M then Some(Key.M)
    else if key == Keys.N then Some(Key.N)
    else if key == Keys.O then Some(Key.O)
    else if key == Keys.P then Some(Key.P)
    else if key == Keys.Q then Some(Key.Q)
    else if key == Keys.R then Some(Key.R)
    else if key == Keys.S then Some(Key.S)
    else if key == Keys.T then Some(Key.T)
    else if key == Keys.U then Some(Key.U)
    else if key == Keys.V then Some(Key.V)
    else if key == Keys.W then Some(Key.W)
    else if key == Keys.X then Some(Key.X)
    else if key == Keys.Y then Some(Key.Y)
    else if key == Keys.Z then Some(Key.Z)
    else Option.None
  }

  /** The entries for the number pad: NumPad0 to NumPad9 and its operator keys, in the initializer's order. */
  function NumPadKeys(key: Keys): Option<Key>
  {
    if key == Keys.NumPad0 then Some(Key.NumPad0)
    else if key == Keys.NumPad1 then Some(Key.NumPad1)
    else if key == Keys.NumPad2 then Some(Key.NumPad2)
    else if key == Keys.NumPad3 then Some(Key.NumPad3)
    else if key == Keys.NumPad4 then Some(Key.NumPad4)
    else if key == Keys.NumPad5 then Some(Key.NumPad5)
    else if key == Keys.NumPad6 then Some(Key.NumPad6)
    else if key == Keys.NumPad7 then Some(Key.NumPad7)
    else if key == Keys.NumPad8 then Some(Key.NumPad8)
    else if key == Keys.NumPad9 then Some(Key.NumPad9)
    else if key == Keys.Add then Some(Key.Add)
    else if key == Keys.Separator then Some(Key.Separator)
    else if key == Keys.Subtract then Some(Key.Subtract)
    else if key == Keys.Decimal then Some(Key.Decimal)
    else if key == Keys.Divide then Some(Key.Divide)
    else if key == Keys.Multiply then Some(Key.Multiply)
    else Option.None
  }

  /** The entries for the function keys F1 to F15, in the initializer's order. */
  function FunctionKeys(key: Keys): Option<Key>
  {
    if key == Keys.F1 then Some(Key.F1)
    else if key == Keys.F2 then Some(Key.F2)
    else if key == Keys.F3 then Some(Key.F3)
    else if key == Keys.F4 then Some(Key.F4)
    else if key == Keys.F5 then Some(Key.F5)
    else if key == Keys.F6 then Some(Key.F6)
    else if key == Keys.F7 then Some(Key.F7)
    else if key == Keys.F8 then Some(Key.F8)
    else if key == Keys.F9 then Some(Key.F9)
    else if key == Keys.F10 then Some(Key.F10)
    else if key == Keys.F11 then Some(Key.F11)
    else if key == Keys.F12 then Some(Key.F12)
    else if key == Keys.F13 then Some(Key.F13)
    else if key == Keys.F14 then Some(Key.F14)
    else if key == Keys.F15 then Some(Key.F15)
    else Option.None
  }

  /** The entries for NumLock and Scroll, in the initializer's order. */
  function LockKeys(key: Keys): Option<Key>
  {
    if key == Keys.NumLock then Some(Key.NumLock)
    else if key == Keys.Scroll then Some(Key.Scroll)
    else Option.None
  }

  /** The entries for the OEM punctuation keys, in the initializer's order. */
  function OemKeys(key: Keys): Option<Key>
  {
    if key == Keys.OemPlus then Some(Key.OemPlus)
    else if key == Keys.OemComma then Some(Key.OemComma)
    else if key == Keys.OemMinus then Some(Key.OemMinus)
    else if key == Keys.OemPeriod then Some(Key.OemPeriod)
    else if key == Keys.OemQuestion then Some(Key.OemQuestion)
    else if key == Keys.OemBackslash then Some(Key.OemBackslash)
    else if key == Keys.OemOpenBrackets then Some(Key.OemOpenBrackets)
    else if key == Keys.OemCloseBrackets then Some(Key.OemCloseBrackets)
    else if key == Keys.OemSemicolon then Some(Key.OemSemicolon)
    else if key == Keys.OemQuotes then Some(Key.OemQuotes)
    else if key == Keys.OemTilde then Some(Key.OemTilde)
    else if key == Keys.OemPipe then Some(Key.OemPipe)
    else Option.None
  }

  /** The entries for Shift, Control, Alt and the Windows keys, in the initializer's order. */
  function ModifierKeys(key: Keys): Option<Key>
  {
    if key == Keys.LeftShift then Some(Key.LeftShift)
    else if key == Keys.RightShift then Some(Key.RightShift)
    else if key == Keys.LeftControl then Some(Key.LeftCtrl)
    else if key == Keys.RightControl then Some(Key.RightCtrl)
    else if key == Keys.LeftAlt then Some(Key.LeftAlt)
    else if key == Keys.RightAlt then Some(Key.RightAlt)
    else if key == Keys.LeftWindows then Some(Key.LWin)
    else if key == Keys.RightWindows then Some(Key.RWin)
    else Option.None
  }

  /** `Convert`: the entry for a listed key, and `Key.None` for any other key. */
  function Convert(key: Keys): Key
  {
    match Lookup(key)
    case Some(k) => k
    case None => Key.None
  }

  /** No entry of the table is `Key.None`. */
  lemma NoEntryIsNone(key: Keys)
    requires Lookup(key).Some?
    ensures Lookup(key).value != Key.None
  {
  }

  /**
   * `Convert` answers the table's entry for a listed key and `Key.None` exactly for
   * the keys the table does not list, so a listed key never converts to `None`.
   */
  lemma ConvertIsNoneIffUnlisted(key: Keys)
    ensures Lookup(key).Some? ==> Convert(key) == Lookup(key).value
    ensures Convert(key) == Key.None <==> Lookup(key).None?
  {
    if Lookup(key).Some? {
      NoEntryIsNone(key);
    }
  }

  /** No other host key has the entry of one of the editing and navigation keys, Back to Help, and OemClear. */
  lemma EditingKeysAreDistinct()
    ensures forall a: Keys, b: Keys | EditingKeys(a).Some? && EditingKeys(a) == Lookup(b) :: a == b
  {
  }

  /** No other host key has the entry of one of the digit row D0 to D9. */
  lemma DigitKeysAreDistinct()
    ensures forall a: Keys, b: Keys | DigitKeys(a).Some? && DigitKeys(a) == Lookup(b) :: a == b
  {
  }

  /** No other host key has the entry of one of the letters A to Z. */
  lemma LetterKeysAreDistinct()
    ensures forall a: Keys, b: Keys | LetterKeys(a).Some? && LetterKeys(a) == Lookup(b) :: a == b
  {
  }

  /** No other host key has the entry of one of the number pad: NumPad0 to NumPad9 and its operator keys. */
  lemma NumPadKeysAreDistinct()
    ensures forall a: Keys, b: Keys | NumPadKeys(a).Some? && NumPadKeys(a) == Lookup(b) :: a == b
  {
  }

  /** No other host key has the entry of one of the function keys F1 to F15. */
  lemma FunctionKeysAreDistinct()
    ensures forall a: Keys, b: Keys | FunctionKeys(a).Some? && FunctionKeys(a) == Lookup(b) :: a == b
  {
  }

  /** No other host key has the entry of one of NumLock and Scroll. */
  lemma LockKeysAreDistinct()
    ensures forall a: Keys, b: Keys | LockKeys(a).Some? && LockKeys(a) == Lookup(b) :: a == b
  {
  }

  /** No other host key has the entry of one of the OEM punctuation keys. */
  lemma OemKeysAreDistinct()
    ensures forall a: Keys, b: Keys | OemKeys(a).Some? && OemKeys(a) == Lookup(b) :: a == b
  {
  }

  /** No other host key has the entry of one of Shift, Control, Alt and the Windows keys. */
  lemma ModifierKeysAreDistinct()
    ensures forall a: Keys, b: Keys | ModifierKeys(a).Some? && ModifierKeys(a) == Lookup(b) :: a == b
  {
  }

  /** The table is one-to-one: two host keys that convert to the same key other than `None` are the same key. */
  lemma ConvertIsInjective(a: Keys, b: Keys)
    requires Convert(a) != Key.None && Convert(a) == Convert(b)
    ensures a == b
  {
    ConvertIsNoneIffUnlisted(a);
    ConvertIsNoneIffUnlisted(b);
    if a == Keys.OemClear || a < Keys.D0 {
      EditingKeysAreDistinct();
    } else if a <= Keys.D9 {
      DigitKeysAreDistinct();
    } else if a <= Keys.Z {
      LetterKeysAreDistinct();
    } else if a <= Keys.RightWindows {
      ModifierKeysAreDistinct();
    } else if a <= Keys.Divide {
      NumPadKeysAreDistinct();
    } else if a <= Keys.F24 {
      FunctionKeysAreDistinct();
    } else if a <= Keys.Scroll {
      LockKeysAreDistinct();
    } else if a <= Keys.RightAlt {
      ModifierKeysAreDistinct();
    } else {
      OemKeysAreDistinct();
    }
  }

  /** The entries whose UI-runtime name differs from the host name. */
  lemma RenamedEntries()
    ensures Convert(Keys.Enter) == Key.Return
    ensures Convert(Keys.LeftControl) == Key.LeftCtrl && Convert(Keys.RightControl) == Key.RightCtrl
    ensures Convert(Keys.LeftWindows) == Key.LWin && Convert(Keys.RightWindows) == Key.RWin
  {
  }

  /** Every letter A to Z is listed, and converts to its letter entry. */
  lemma LettersAreListed()
    ensures forall key: Keys | Keys.A <= key <= Keys.Z :: LetterKeys(key).Some? && Convert(key) == LetterKeys(key).value
  {
  }

  /** The letter entries A to M name the same letter on both sides. */
  lemma LetterEntriesAToMAreNamesakes()
    ensures LetterKeys(Keys.A) == Some(Key.A)
    ensures LetterKeys(Keys.B) == Some(Key.B)
    ensures LetterKeys(Keys.C) == Some(Key.C)
    ensures LetterKeys(Keys.D) == Some(Key.D)
    ensures LetterKeys(Keys.E) == Some(Key.E)
    ensures LetterKeys(Keys.F) == Some(Key.F)
    ensures LetterKeys(Keys.G) == Some(Key.G)
    ensures LetterKeys(Keys.H) == Some(Key.H)
    ensures LetterKeys(Keys.I) == Some(Key.I)
    ensures LetterKeys(Keys.J) == Some(Key.J)
    ensures LetterKeys(Keys.K) == Some(Key.K)
    ensures LetterKeys(Keys.L) == Some(Key.L)
    ensures LetterKeys(Keys.M) == Some(Key.M)
  {
  }

  /** The letter entries N to Z name the same letter on both sides. */
  lemma LetterEntriesNToZAreNamesakes()
    ensures LetterKeys(Keys.N) == Some(Key.N)
    ensures LetterKeys(Keys.O) == Some(Key.O)
    ensures LetterKeys(Keys.P) == Some(Key.P)
    ensures LetterKeys(Keys.Q) == Some(Key.Q)
    ensures LetterKeys(Keys.R) == Some(Key.R)
    ensures LetterKeys(Keys.S) == Some(Key.S)
    ensures LetterKeys(Keys.T) == Some(Key.T)
    ensures LetterKeys(Keys.U) == Some(Key.U)
    ensures LetterKeys(Keys.V) == Some(Key.V)
    ensures LetterKeys(Keys.W) == Some(Key.W)
    ensures LetterKeys(Keys.X) == Some(Key.X)
    ensures LetterKeys(Keys.Y) == Some(Key.Y)
    ensures LetterKeys(Keys.Z) == Some(Key.Z)
  {
  }

  /** Every digit D0 to D9 and NumPad0 to NumPad9 is listed, and converts to its entry. */
  lemma DigitsAreListed()
    ensures forall key: Keys | Keys.D0 <= key <= Keys.D9 :: DigitKeys(key).Some? && Convert(key) == DigitKeys(key).value
    ensures forall key: Keys | Keys.NumPad0 <= key <= Keys.NumPad9 :: NumPadKeys(key).Some? && Convert(key) == NumPadKeys(key).value
  {
  }

  /** The digit entries, D0 to D9 and NumPad0 to NumPad9, name the same key on both sides. */
  lemma DigitEntriesAreNamesakes()
    ensures DigitKeys(Keys.D0) == Some(Key.D0)
    ensures DigitKeys(Keys.D1) == Some(Key.D1)
    ensures DigitKeys(Keys.D2) == Some(Key.D2)
    ensures DigitKeys(Keys.D3) == Some(Key.D3)
    ensures DigitKeys(Keys.D4) == Some(Key.D4)
    ensures DigitKeys(Keys.D5) == Some(Key.D5)
    ensures DigitKeys(Keys.D6) == Some(Key.D6)
    ensures DigitKeys(Keys.D7) == Some(Key.D7)
    ensures DigitKeys(Keys.D8) == Some(Key.D8)
    ensures DigitKeys(Keys.D9) == Some(Key.D9)
    ensures NumPadKeys(Keys.NumPad0) == Some(Key.NumPad0)
    ensures NumPadKeys(Keys.NumPad1) == Some(Key.NumPad1)
    ensures NumPadKeys(Keys.NumPad2) == Some(Key.NumPad2)
    ensures NumPadKeys(Keys.NumPad3) == Some(Key.NumPad3)
    ensures NumPadKeys(Keys.NumPad4) == Some(Key.NumPad4)
    ensures NumPadKeys(Keys.NumPad5) == Some(Key.NumPad5)
    ensures NumPadKeys(Keys.NumPad6) == Some(Key.NumPad6)
    ensures NumPadKeys(Keys.NumPad7) == Some(Key.NumPad7)
    ensures NumPadKeys(Keys.NumPad8) == Some(Key.NumPad8)
    ensures NumPadKeys(Keys.NumPad9) == Some(Key.NumPad9)
  {
  }

  /** Every function key F1 to F15 is listed and converts to its entry; F16 to F24 are not listed. */
  lemma FunctionKeysAreListed()
    ensures forall key: Keys | Keys.F1 <= key <= Keys.F15 :: FunctionKeys(key).Some? && Convert(key) == FunctionKeys(key).value
    ensures forall key: Keys | Keys.F16 <= key <= Keys.F24 :: Convert(key) == Key.None
  {
  }

  /** The function-key entries, F1 to F15, name the same key on both sides. */
  lemma FunctionKeyEntriesAreNamesakes()
    ensures FunctionKeys(Keys.F1) == Some(Key.F1)
    ensures FunctionKeys(Keys.F2) == Some(Key.F2)
    ensures FunctionKeys(Keys.F3) == Some(Key.F3)
    ensures FunctionKeys(Keys.F4) == Some(Key.F4)
    ensures FunctionKeys(Keys.F5) == Some(Key.F5)
    ensures FunctionKeys(Keys.F6) == Some(Key.F6)
    ensures FunctionKeys(Keys.F7) == Some(Key.F7)
    ensures FunctionKeys(Keys.F8) == Some(Key.F8)
    ensures FunctionKeys(Keys.F9) == Some(Key.F9)
    ensures FunctionKeys(Keys.F10) == Some(Key.F10)
    ensures FunctionKeys(Keys.F11) == Some(Key.F11)
    ensures FunctionKeys(Keys.F12) == Some(Key.F12)
    ensures FunctionKeys(Keys.F13) == Some(Key.F13)
    ensures FunctionKeys(Keys.F14) == Some(Key.F14)
    ensures FunctionKeys(Keys.F15) == Some(Key.F15)
  {
  }

  /** Some keys the table leaves out; they convert to `None`, so the keyboard never forwards them. */
  lemma UnlistedKeysConvertToNone()
    ensures Convert(Keys.None) == Key.None && Convert(Keys.CapsLock) == Key.None
    ensures Convert(Keys.PrintScreen) == Key.None && Convert(Keys.Apps) == Key.None
    ensures Convert(Keys.ProcessKey) == Key.None
  {
  }
}
