/**
 * The IME bridge of Input/Platforms/Windows/KeyboardImeWinforms.cs, reduced to its
 * string and flag logic. A hidden Windows Forms rich text box receives IME input;
 * each change of its text commits the new part into a pending "finished" string,
 * which the game takes once. While a composition is in progress its current string
 * is mirrored into the focused UI text box.
 *
 * Four of the source's fields are static, so every instance shares them; here they
 * live in one `ImeStatics` object that instances are given.
 */
module KeyboardIme {
  import opened Wrappers
  import NoesisView

  /*
   * The objects the bridge talks to.
   */

  /** A UI text box: the view it belongs to and the selected text the bridge writes. */
  class NoesisTextBox {
    const view: NoesisView.View?
    var selectedText: Option<string>

    constructor (view: NoesisView.View?)
      ensures this.view == view && selectedText == Some("")
    {
      this.view := view;
      selectedText := Some("");
    }
  }

  /** The element given to `EnableInput`: nothing, a UI text box, or some other element. */
  datatype FocusedElement = NoElement | TextBoxElement(textBox: NoesisTextBox) | OtherElement

  /** The hidden rich text box: its `Text` (read while composing), its base text (read otherwise), and its form membership. */
  class RichTextBoxEx {
    var text: string
    var baseText: string
    var isInForm: bool
    var isDisposed: bool
    var isTextChangedHandled: bool

    constructor ()
      ensures text == "" && baseText == "" && !isInForm && !isDisposed && isTextChangedHandled
    {
      text := "";
      baseText := "";
      isInForm := false;
      isDisposed := false;
      isTextChangedHandled := true;
    }
  }

  /** The static fields, shared by every instance. */
  class ImeStatics {
    var focusedNoesisTextBox: Option<NoesisTextBox>
    var currentCompositionString: Option<string>
    var isImeComposingNow: bool
    var lastCompositionString: Option<string>

    constructor ()
      ensures focusedNoesisTextBox == Option.None && currentCompositionString == Option.None
      ensures !isImeComposingNow && lastCompositionString == Some("")
    {
      focusedNoesisTextBox := Option.None;
      currentCompositionString := Option.None;
      isImeComposingNow := false;
      lastCompositionString := Some("");
    }
  }

  /** The window messages the text box's window procedure tells apart. */
  datatype Message =
      CursorBlink
    | KeyMessage
    | ImeStartComposition
    | ImeEndComposition
    | ImeComposition(lParam: bv32)
    | Paint
    | OtherMessage

  /** How the window procedure answers: zero, or by passing the message on to the form's or the text box's own procedure. */
  datatype WndProcResult = ReturnedZero | CalledParentWndProc | CalledTextBoxWndProc

  /** The composition-string flag of a composition message's `lParam`. */
  const GcsCompStr: bv32 := 0x0008

  /** The text prefixed to a commit failure reported through the error callback. */
  const CommitErrorPrefix := "Exception during CommitTextFromWinformsTextbox: "

  /*
   * Committing text, as values.
   */

  /** `s.Replace(c, "")`: every occurrence of `c` removed. */
  function Remove(s: string, c: char): string
  {
    if s == [] then []
    else Remove(s[..|s| - 1], c) + (if s[|s| - 1] == c then [] else [s[|s| - 1]])
  }

  /** The filter applied to committed text: carriage returns, then line feeds, then tabs removed. */
  function FilterControlCharacters(s: string): string
  {
    Remove(Remove(Remove(s, '\r'), '\n'), '\t')
  }

  lemma {:induction false} RemoveMembers(s: string, c: char)
    ensures forall x :: x in Remove(s, c) <==> x in s && x != c
  {
    if s != [] {
      RemoveMembers(s[..|s| - 1], c);
      assert s == s[..|s| - 1] + [s[|s| - 1]];
    }
  }

  lemma {:induction false} RemoveDistributes(a: string, b: string, c: char)
    ensures Remove(a + b, c) == Remove(a, c) + Remove(b, c)
    decreases |b|
  {
    if b == [] {
      assert a + b == a;
    } else {
      var init := b[..|b| - 1];
      assert a + b == (a + init) + [b[|b| - 1]];
      assert (a + b)[..|a + b| - 1] == a + init;
      RemoveDistributes(a, init, c);
    }
  }

  /** Committed text keeps every character except carriage return, line feed and tab, and no others. */
  lemma FilteredCharacters(s: string)
    ensures forall x :: x in FilterControlCharacters(s) <==> x in s && x !in ['\r', '\n', '\t']
  {
    RemoveMembers(s, '\r');
    RemoveMembers(Remove(s, '\r'), '\n');
    RemoveMembers(Remove(Remove(s, '\r'), '\n'), '\t');
  }

  /** Filtering two pieces one after the other gives the filter of the whole. */
  lemma FilterDistributes(a: string, b: string)
    ensures FilterControlCharacters(a + b) == FilterControlCharacters(a) + FilterControlCharacters(b)
  {
    RemoveDistributes(a, b, '\r');
    RemoveDistributes(Remove(a, '\r'), Remove(b, '\r'), '\n');
    RemoveDistributes(Remove(Remove(a, '\r'), '\n'), Remove(Remove(b, '\r'), '\n'), '\t');
  }

  /** What one commit does with the text box's text. */
  datatype CommitResult =
      NothingToCommit
    | SubstringFailed
    | Committed(input: string, newStartIndex: int)

  /**
   * A commit: empty text commits nothing; otherwise the text from the start index
   * on (a failure when the index lies past the end), filtered. While composing the
   * start index moves to the end of the text.
   */
  function CommitOf(text: string, startIndex: int, isComposing: bool): CommitResult
  {
    if |text| == 0 then NothingToCommit
    else if startIndex < 0 || startIndex > |text| then SubstringFailed
    else Committed(FilterControlCharacters(text[startIndex..]), if isComposing then |text| else startIndex)
  }

  /** The pending string after a commit of `input`: unchanged for empty input, else `input` appended (or started). */
  function AppendPending(pending: Option<string>, input: string): Option<string>
  {
    if |input| == 0 then pending
    else if pending.None? then Some(input)
    else Some(pending.value + input)
  }

  /** A commit adds exactly the filtered new text after what was pending. */
  lemma CommitAppendsFilteredText(pending: Option<string>, text: string, startIndex: int, isComposing: bool)
    requires 0 <= startIndex <= |text| && |text| > 0
    ensures var r := CommitOf(text, startIndex, isComposing);
      r.Committed?
      && AppendPending(pending, r.input).GetOr("") == pending.GetOr("") + FilterControlCharacters(text[startIndex..])
      && (AppendPending(pending, r.input).Some? <==> pending.Some? || r.input != "")
      && forall x :: x in r.input ==> x in text[startIndex..] && x !in ['\r', '\n', '\t']
  {
    FilteredCharacters(text[startIndex..]);
  }

  /**
   * While composing, committing a text and then a longer text that extends it adds
   * the same as committing the longer text at once: each piece is taken exactly once.
   */
  lemma {:induction false} IncrementalCommitsTakeEachPieceOnce(text: string, more: string, startIndex: int)
    requires 0 <= startIndex <= |text| && |text| > 0
    ensures var first := CommitOf(text, startIndex, true);
      var second := CommitOf(text + more, first.newStartIndex, true);
      && second.Committed? && second.newStartIndex == |text + more|
      && first.input + second.input == FilterControlCharacters((text + more)[startIndex..])
  {
    assert (text + more)[startIndex..] == text[startIndex..] + more;
    assert (text + more)[|text|..] == more;
    FilterDistributes(text[startIndex..], more);
  }

  /** Once a composing commit has taken the whole text, committing the same text again adds nothing. */
  lemma RecommitAddsNothing(text: string, startIndex: int)
    requires 0 <= startIndex <= |text| && |text| > 0
    ensures CommitOf(text, CommitOf(text, startIndex, true).newStartIndex, true) == Committed("", |text|)
  {
  }

  /** Empty text commits nothing, and an index past the end fails, whatever the mode. */
  lemma CommitEdgeCases(text: string, startIndex: int, isComposing: bool)
    requires startIndex >= 0
    ensures |text| == 0 ==> CommitOf(text, startIndex, isComposing) == NothingToCommit
    ensures |text| > 0 ==> (CommitOf(text, startIndex, isComposing) == SubstringFailed <==> startIndex > |text|)
  {
  }

  /*
   * The bridge.
   */

  class KeyboardImeWinforms {
    const statics: ImeStatics
    const winformsTextBox: RichTextBoxEx
    const hasErrorCallback: bool
    /** The messages passed to the error callback, when there is one. */
    var reportedErrors: seq<string>
    var finishedComposedString: Option<string>
    var imeComposingNowTextStartIndex: int
    var isDisposed: bool
    var isImeInputEnabled: bool

    /** The start index is never negative: it is only ever 0 or a text length. */
    ghost predicate Valid()
      reads this
    {
      imeComposingNowTextStartIndex >= 0
    }

    constructor (statics: ImeStatics, hasErrorCallback: bool)
      ensures Valid() && this.statics == statics && this.hasErrorCallback == hasErrorCallback && fresh(winformsTextBox)
      ensures winformsTextBox.text == "" && !winformsTextBox.isInForm && winformsTextBox.isTextChangedHandled && !winformsTextBox.isDisposed
      ensures reportedErrors == [] && finishedComposedString == Option.None && imeComposingNowTextStartIndex == 0
      ensures !isDisposed && !isImeInputEnabled
    {
      this.statics := statics;
      this.hasErrorCallback := hasErrorCallback;
      winformsTextBox := new RichTextBoxEx();
      reportedErrors := [];
      finishedComposedString := Option.None;
      imeComposingNowTextStartIndex := 0;
      isDisposed := false;
      isImeInputEnabled := false;
    }

    /** Composing, or holding a finished string not yet taken. */
    function IsImeComposingNow(): bool
      reads this, statics
    {
      statics.isImeComposingNow || finishedComposedString.Some?
    }

    method DisableInput()
      modifies statics, this, winformsTextBox
      ensures !old(isImeInputEnabled) ==> unchanged(statics, this, winformsTextBox)
      ensures old(isImeInputEnabled) ==>
        && statics.focusedNoesisTextBox == Option.None && !isImeInputEnabled && !statics.isImeComposingNow
        && statics.lastCompositionString == Option.None && statics.currentCompositionString == Option.None
        && winformsTextBox.isInForm == (old(winformsTextBox.isInForm) && isDisposed)
        && winformsTextBox.text == old(winformsTextBox.text) && winformsTextBox.baseText == old(winformsTextBox.baseText)
        && winformsTextBox.isDisposed == old(winformsTextBox.isDisposed)
        && winformsTextBox.isTextChangedHandled == old(winformsTextBox.isTextChangedHandled)
        && finishedComposedString == old(finishedComposedString) && reportedErrors == old(reportedErrors)
        && imeComposingNowTextStartIndex == old(imeComposingNowTextStartIndex) && isDisposed == old(isDisposed)
    {
      if !isImeInputEnabled {
        return;
      }
      statics.focusedNoesisTextBox := Option.None;
      isImeInputEnabled := false;
      statics.isImeComposingNow := false;
      statics.currentCompositionString := Option.None;
      statics.lastCompositionString := Option.None;
      if !isDisposed {
        winformsTextBox.isInForm := false;
      }
    }

    /** Runs once: marks the bridge disposed, disables input, unhooks and disposes the hidden text box. */
    method Dispose()
      modifies statics, this, winformsTextBox
      ensures old(isDisposed) ==> unchanged(statics, this, winformsTextBox)
      ensures isDisposed
      ensures !old(isDisposed) ==> !isImeInputEnabled && winformsTextBox.isDisposed && !winformsTextBox.isTextChangedHandled
      ensures !old(isDisposed) && old(isImeInputEnabled) ==>
        && statics.focusedNoesisTextBox == Option.None && !statics.isImeComposingNow
        && statics.lastCompositionString == Option.None && statics.currentCompositionString == Option.None
      ensures !old(isDisposed) && !old(isImeInputEnabled) ==> unchanged(statics)
      ensures winformsTextBox.isInForm == old(winformsTextBox.isInForm)
      ensures finishedComposedString == old(finishedComposedString) && reportedErrors == old(reportedErrors)
    {
      if isDisposed {
        return;
      }
      isDisposed := true;
      DisableInput();
      winformsTextBox.isTextChangedHandled := false;
      winformsTextBox.isDisposed := true;
    }

    /**
     * Enables input for the focused element, which must be a UI text box (or
     * nothing); `castFailed` reports the invalid cast of any other element, which
     * happens after the enabled flag is already set.
     */
    method EnableInput(focused: FocusedElement) returns (castFailed: bool)
      requires Valid()
      modifies statics, this, winformsTextBox
      ensures Valid()
      ensures old(isImeInputEnabled) ==> !castFailed && unchanged(statics, this, winformsTextBox)
      ensures !old(isImeInputEnabled) ==> isImeInputEnabled && (castFailed <==> focused.OtherElement?)
      ensures !old(isImeInputEnabled) && focused.OtherElement? ==> unchanged(statics, winformsTextBox)
      ensures !old(isImeInputEnabled) && !focused.OtherElement? ==>
        && statics.focusedNoesisTextBox == (if focused.TextBoxElement? then Some(focused.textBox) else Option.None)
        && winformsTextBox.isInForm && winformsTextBox.text == "" && winformsTextBox.baseText == ""
        && imeComposingNowTextStartIndex == 0
        && statics.currentCompositionString == Option.None && statics.lastCompositionString == Option.None
        && statics.isImeComposingNow == old(statics.isImeComposingNow)
      ensures finishedComposedString == old(finishedComposedString) && reportedErrors == old(reportedErrors) && isDisposed == old(isDisposed)
    {
      if isImeInputEnabled {
        return false;
      }
      isImeInputEnabled := true;
      match focused {
        case OtherElement =>
          return true;
        case NoElement =>
          statics.focusedNoesisTextBox := Option.None;
        case TextBoxElement(textBox) =>
          statics.focusedNoesisTextBox := Some(textBox);
      }
      winformsTextBox.isInForm := true;
      statics.currentCompositionString := Option.None;
      statics.lastCompositionString := Option.None;
      Clean();
      return false;
    }

    /** Hands out the finished string once: a second call right after answers nothing. */
    method TryGetFinishedComposedString() returns (result: Option<string>)
      modifies this, statics
      ensures result == old(finishedComposedString)
      ensures finishedComposedString == Option.None
      ensures statics.lastCompositionString == (if result.Some? then Option.None else old(statics.lastCompositionString))
      ensures IsImeComposingNow() == old(statics.isImeComposingNow)
      ensures statics.focusedNoesisTextBox == old(statics.focusedNoesisTextBox) && statics.isImeComposingNow == old(statics.isImeComposingNow)
      ensures statics.currentCompositionString == old(statics.currentCompositionString)
      ensures imeComposingNowTextStartIndex == old(imeComposingNowTextStartIndex) && reportedErrors == old(reportedErrors)
      ensures isImeInputEnabled == old(isImeInputEnabled) && isDisposed == old(isDisposed)
    {
      result := finishedComposedString;
      if result.Some? {
        finishedComposedString := Option.None;
        statics.lastCompositionString := Option.None;
      }
    }

    /**
     * Mirrors the composition into the focused text box of `view`: only while
     * composing, with that text box focused, no finished string pending and the
     * composition changed since the last write.
     */
    method Update(view: NoesisView.View)
      modifies statics, if statics.focusedNoesisTextBox.Some? then {statics.focusedNoesisTextBox.value} else {}
      ensures var box := old(statics.focusedNoesisTextBox);
        var writes := old(statics.isImeComposingNow) && box.Some? && box.value.view == view
          && finishedComposedString.None? && old(statics.lastCompositionString) != old(statics.currentCompositionString);
        && (writes ==> statics.lastCompositionString == old(statics.currentCompositionString)
                       && box.value.selectedText == old(statics.currentCompositionString))
        && (!writes ==> unchanged(statics) && (box.Some? ==> unchanged(box.value)))
      ensures statics.focusedNoesisTextBox == old(statics.focusedNoesisTextBox) && statics.isImeComposingNow == old(statics.isImeComposingNow)
      ensures statics.currentCompositionString == old(statics.currentCompositionString)
    {
      if !statics.isImeComposingNow || statics.focusedNoesisTextBox.None? || statics.focusedNoesisTextBox.value.view != view {
        return;
      }
      if finishedComposedString.Some? {
        return;
      }
      if statics.lastCompositionString == statics.currentCompositionString {
        return;
      }
      statics.lastCompositionString := statics.currentCompositionString;
      statics.focusedNoesisTextBox.value.selectedText := statics.lastCompositionString;
    }

    /**
     * Empties the hidden text box and resets the start index and both composition
     * strings. (Emptying the text raises the text-changed handler, whose commit of
     * empty text does nothing; see `CommitEdgeCases`.)
     */
    method Clean()
      modifies this, statics, winformsTextBox
      ensures Valid()
      ensures winformsTextBox.text == "" && winformsTextBox.baseText == "" && imeComposingNowTextStartIndex == 0
      ensures statics.currentCompositionString == Option.None && statics.lastCompositionString == Option.None
      ensures statics.focusedNoesisTextBox == old(statics.focusedNoesisTextBox) && statics.isImeComposingNow == old(statics.isImeComposingNow)
      ensures winformsTextBox.isInForm == old(winformsTextBox.isInForm) && winformsTextBox.isDisposed == old(winformsTextBox.isDisposed)
      ensures winformsTextBox.isTextChangedHandled == old(winformsTextBox.isTextChangedHandled)
      ensures finishedComposedString == old(finishedComposedString) && reportedErrors == old(reportedErrors)
      ensures isImeInputEnabled == old(isImeInputEnabled) && isDisposed == old(isDisposed)
    {
      winformsTextBox.text := "";
      winformsTextBox.baseText := "";
      imeComposingNowTextStartIndex := 0;
      statics.currentCompositionString := Option.None;
      statics.lastCompositionString := Option.None;
    }

    /**
     * The text-changed handler: commits the new part of the hidden text box's text
     * into the pending string, then, when not composing, cleans the text box.
     */
    method CommitTextFromWinformsTextbox()
      requires Valid()
      modifies this, statics, winformsTextBox
      ensures Valid()
      ensures var text := if old(statics.isImeComposingNow) then old(winformsTextBox.text) else old(winformsTextBox.baseText);
        var r := CommitOf(text, old(imeComposingNowTextStartIndex), old(statics.isImeComposingNow));
        && (r.NothingToCommit? ==> unchanged(this, statics, winformsTextBox))
        && (r.SubstringFailed? ==>
              && reportedErrors == old(reportedErrors) + (if hasErrorCallback then [CommitErrorPrefix + SubstringErrorMessage] else [])
              && finishedComposedString == old(finishedComposedString)
              && imeComposingNowTextStartIndex == old(imeComposingNowTextStartIndex)
              && unchanged(statics, winformsTextBox))
        && (r.Committed? ==>
              && finishedComposedString == AppendPending(old(finishedComposedString), r.input)
              && reportedErrors == old(reportedErrors)
              && (old(statics.isImeComposingNow) ==> imeComposingNowTextStartIndex == r.newStartIndex && unchanged(statics, winformsTextBox))
              && (!old(statics.isImeComposingNow) ==>
                    && imeComposingNowTextStartIndex == 0 && winformsTextBox.text == "" && winformsTextBox.baseText == ""
                    && statics.currentCompositionString == Option.None && statics.lastCompositionString == Option.None))
      ensures var text := if old(statics.isImeComposingNow) then old(winformsTextBox.text) else old(winformsTextBox.baseText);
        var r := CommitOf(text, old(imeComposingNowTextStartIndex), old(statics.isImeComposingNow));
        IsImeComposingNow() <==> old(IsImeComposingNow()) || (r.Committed? && r.input != "")
      ensures statics.isImeComposingNow == old(statics.isImeComposingNow) && statics.focusedNoesisTextBox == old(statics.focusedNoesisTextBox)
      ensures isImeInputEnabled == old(isImeInputEnabled) && isDisposed == old(isDisposed)
    {
      var text := if statics.isImeComposingNow then winformsTextBox.text else winformsTextBox.baseText;
      ghost var r := CommitOf(text, imeComposingNowTextStartIndex, statics.isImeComposingNow);
      if |text| == 0 {
        return;
      }
      var inputString;
      if imeComposingNowTextStartIndex > |text| {
        if hasErrorCallback {
          reportedErrors := reportedErrors + [CommitErrorPrefix + SubstringErrorMessage];
        }
        return;
      }
      if statics.isImeComposingNow {
        var imeComposingNowTextEndIndex := |text|;
        inputString := text[imeComposingNowTextStartIndex..imeComposingNowTextEndIndex];
        assert inputString == text[imeComposingNowTextStartIndex..];
        imeComposingNowTextStartIndex := imeComposingNowTextEndIndex;
      } else {
        inputString := text[imeComposingNowTextStartIndex..];
      }
      assert r == Committed(FilterControlCharacters(inputString), imeComposingNowTextStartIndex);
      inputString := FilterControlCharacters(inputString);
      if |inputString| > 0 {
        if finishedComposedString.None? {
          finishedComposedString := Some(inputString);
        } else {
          finishedComposedString := Some(finishedComposedString.value + inputString);
        }
      }
      if !statics.isImeComposingNow {
        Clean();
      }
    }

    /** A composition message: when it carries the composition-string flag, the IME's current string is taken. */
    method OnComposition(lParam: bv32, compositionString: string)
      modifies statics
      ensures statics.currentCompositionString
        == if lParam != 0 && lParam & GcsCompStr != 0 then Some(compositionString) else old(statics.currentCompositionString)
      ensures statics.focusedNoesisTextBox == old(statics.focusedNoesisTextBox) && statics.isImeComposingNow == old(statics.isImeComposingNow)
      ensures statics.lastCompositionString == old(statics.lastCompositionString)
    {
      if lParam == 0 {
        return;
      }
      if lParam & GcsCompStr == 0 {
        return;
      }
      statics.currentCompositionString := Some(compositionString);
    }

    /**
     * The hidden text box's window procedure. `compositionString` is what the IME
     * reports as its composition string when asked.
     */
    method WndProc(msg: Message, compositionString: string) returns (r: WndProcResult)
      requires Valid()
      modifies this, statics, winformsTextBox
      ensures Valid()
      ensures r == match msg
        case CursorBlink => ReturnedZero
        case Paint => ReturnedZero
        case KeyMessage => CalledParentWndProc
        case _ => CalledTextBoxWndProc
      ensures msg.ImeStartComposition? ==>
        && statics.isImeComposingNow && winformsTextBox.text == "" && winformsTextBox.baseText == "" && imeComposingNowTextStartIndex == 0
        && statics.currentCompositionString == Option.None && statics.lastCompositionString == Option.None
        && finishedComposedString == old(finishedComposedString)
      ensures msg.ImeStartComposition? ==> IsImeComposingNow()
      ensures msg.ImeEndComposition? ==> (IsImeComposingNow() <==> finishedComposedString.Some?)
      ensures msg.ImeEndComposition? ==>
        && !statics.isImeComposingNow && statics.currentCompositionString == old(statics.currentCompositionString)
        && statics.lastCompositionString == old(statics.lastCompositionString) && unchanged(this, winformsTextBox)
      ensures msg.ImeComposition? ==>
        && statics.currentCompositionString
           == (if msg.lParam != 0 && msg.lParam & GcsCompStr != 0 then Some(compositionString) else old(statics.currentCompositionString))
        && statics.isImeComposingNow == old(statics.isImeComposingNow) && unchanged(this, winformsTextBox)
      ensures !(msg.ImeStartComposition? || msg.ImeEndComposition? || msg.ImeComposition?) ==> unchanged(this, statics, winformsTextBox)
      ensures statics.focusedNoesisTextBox == old(statics.focusedNoesisTextBox)
    {
      match msg {
        case CursorBlink =>
          return ReturnedZero;
        case KeyMessage =>
          return CalledParentWndProc;
        case ImeStartComposition =>
          statics.isImeComposingNow := true;
          Clean();
        case ImeEndComposition =>
          statics.isImeComposingNow := false;
        case ImeComposition(lParam) =>
          OnComposition(lParam, compositionString);
        case Paint =>
          return ReturnedZero;
        case OtherMessage =>
      }
      return CalledTextBoxWndProc;
    }
  }

  /** Stands for the runtime's message of the substring exception; its wording is not part of this model. */
  const SubstringErrorMessage := "startIndex"
}
