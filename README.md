# NoesisGUI.MonoGameWrapper, modelled in Dafny

NoesisGUI.MonoGameWrapper hosts a NoesisGUI user interface inside a MonoGame game.
Every frame it turns the game's keyboard and mouse polls into UI input events.
It reports which keys, buttons and wheel movement the UI claimed, so the game can ignore them.
Around that sit an IME bridge for text composition, a guard that saves and restores the Direct3D 11 pipeline around UI rendering, the configuration object and its validation, the operating system's input timings, and texture providers with their caches.

This project models those parts and proves what they promise:

- `Keyboard.dfy` is the current keyboard device. It covers key-down, repeat and key-up, the held-time table, the focus and arrow-key policy that decides what is forwarded, and the consumption rule.
- `Mouse.dfy` is the mouse device. It covers pointer moves, wheel consumption, button edges, double clicks and the "control under the cursor" walk up the visual tree.
- `InputManager.dfy` is the input manager that updates both devices.
- `KeyConverter.dfy` is the current key-conversion table. It is proved one-to-one and never to answer `None` for a listed key.
- `XnaKeysComparer.dfy` is the key comparer.
- `LegacyInput.dfy` and `MonoGameNoesisKeys.dfy` are the legacy input manager and its many-to-one key table.
- `KeyboardIme.dfy` is the IME commit buffer and its window procedure.
- `DeviceState.dfy` is the save/restore guard over a record of the immediate context's bindings.
- `NoesisConfig.dfy` is the configuration object. `InputSettings.dfy` is the mapping of the system's input settings onto seconds.
- `TextureHelper.dfy` and `TextureProviders.dfy` are the texture format mapping, alpha premultiplication, the case-insensitive weak texture caches and file-name normalisation.
- `ProviderManagers.dfy` is the provider managers, which dispose only once.
- `XnaInput.dfy`, `NoesisKeys.dfy` and `NoesisView.dfy` hold the host framework's and the UI runtime's vocabulary. `Wrappers.dfy` and `Sequences.dfy` are small shared helpers.

Objects the source updates in place are classes with `modifies` clauses. Each state-changing method states its new state in terms of a specification function: for example `FrameEvents`, `PressEventsOf`, `CommitOf` or `Capture`/`Apply`. Lemmas then prove the source's promises about those functions.

The UI view, the renderer and the Direct3D context record the calls they receive as an event log. What the host reads from devices, files or the operating system becomes a parameter: the key poll, the mouse poll, the visual tree, a loaded texture and the system settings.

The keyboard's two hash-set loops visit keys in an unspecified order. The model lets each loop choose any order and states every result in terms of the order chosen.

## Model

| member | source | states |
|---|---|---|
| KeyboardDevice.Keyboard.constructor | NoesisGUI.MonoGameWrapper/Input/Devices/Keyboard.cs:40-50 | The keyboard starts with the settings it was given, nothing consumed, no key held and empty current and previous key sets. |
| KeyboardDevice.Keyboard.UpdateKeyboard | NoesisGUI.MonoGameWrapper/Input/Devices/Keyboard.cs:52-130 | One frame. The new previous-key set is the set pressed this frame, or empty when the window is inactive. The held-time table keeps exactly those keys, each with its new held time. The consumed keys are the claimed keys among those pressed and those released, in visiting order. The view receives the press calls, then the release calls. |
| KeyboardDevice.Keyboard.ProcessKeys | NoesisGUI.MonoGameWrapper/Input/Devices/Keyboard.cs:73-124 | The two loops: this frame's keys are visited in some order and get their press calls and held times. Then last frame's keys that are no longer pressed get removed from the table, considered for consumption and sent key-ups. |
| KeyboardDevice.Keyboard.FillCurrentKeys | NoesisGUI.MonoGameWrapper/Input/Devices/Keyboard.cs:66-70 | The current-key set becomes exactly the keys of the pressed-key array. |
| KeyboardDevice.Keyboard.ProcessPressedKeys | NoesisGUI.MonoGameWrapper/Input/Devices/Keyboard.cs:73-109 | The first loop visits every current key once, in the returned order, and appends the calls `PressEventsOf` that order specifies. The table gains each visited key with its new held time. |
| KeyboardDevice.Keyboard.ProcessPressedKeysInOrder | NoesisGUI.MonoGameWrapper/Input/Devices/Keyboard.cs:73-109 | The first loop's body run over a given order: calls, consumption and held times as `PressEventsOf`, `ConsumedOf` and `HeldAfterPresses` specify. |
| KeyboardDevice.Keyboard.ProcessPressedKey | NoesisGUI.MonoGameWrapper/Input/Devices/Keyboard.cs:75-108 | One pass for a pressed key: its consumption check, then its `PressEvents` and its new held time. |
| KeyboardDevice.Keyboard.PressOrRepeatKey | NoesisGUI.MonoGameWrapper/Input/Devices/Keyboard.cs:77-108 | A key not in the table gets held time 0 and one key-down. A held key takes the held-key step. |
| KeyboardDevice.Keyboard.HeldKeyStep | NoesisGUI.MonoGameWrapper/Input/Devices/Keyboard.cs:85-107 | A held modifier sends nothing and keeps its time. A held non-modifier sends the repeats due and stores the time left after them. |
| KeyboardDevice.Keyboard.RepeatHeldKey | NoesisGUI.MonoGameWrapper/Input/Devices/Keyboard.cs:93-107 | With t = stored time + elapsed and n = trunc((t - delay) / interval): when n > 0 it sends n key-downs and answers t - n * interval. Otherwise it answers t and sends nothing. |
| KeyboardDevice.Keyboard.SendRepeats | NoesisGUI.MonoGameWrapper/Input/Devices/Keyboard.cs:99-103 | The repeat loop appends the key-down calls of the key `count` times. |
| KeyboardDevice.Keyboard.ProcessReleasedKeys | NoesisGUI.MonoGameWrapper/Input/Devices/Keyboard.cs:112-124 | The second loop visits every key of last frame not pressed now exactly once. It removes each from the table, checks it for consumption and sends its key-up calls. |
| KeyboardDevice.Keyboard.ProcessReleasedKey | NoesisGUI.MonoGameWrapper/Input/Devices/Keyboard.cs:121-123 | One released key: removed from the held-time table, offered to the consumption rule, then its key-up calls. |
| KeyboardDevice.Keyboard.OnXnaKeyDown | NoesisGUI.MonoGameWrapper/Input/Devices/Keyboard.cs:178-204 | Appends the key-down calls: nothing for a key converting to None or an ignored key. Otherwise a key-down, then a Char only when the key text is exactly one non-NUL character. |
| KeyboardDevice.Keyboard.OnXnaKeyUp | NoesisGUI.MonoGameWrapper/Input/Devices/Keyboard.cs:206-221 | Appends a key-up for the converted key, unless it converts to None or is ignored. |
| KeyboardDevice.Keyboard.TryConsumeKey | NoesisGUI.MonoGameWrapper/Input/Devices/Keyboard.cs:223-252 | Appends the key to the consumed keys exactly when a text box is focused, or a button or combo-box item is focused and the key is Enter or Tab. |
| KeyboardDevice.TruncationBounds | NoesisGUI.MonoGameWrapper/Input/Devices/Keyboard.cs:94-95 | The `(int)` cast keeps the sign and lies within one of the value, on the side of zero. |
| KeyboardDevice.HeldAfterPressesHolds | NoesisGUI.MonoGameWrapper/Input/Devices/Keyboard.cs:77-107 | Visiting distinct keys sets each visited key's held time and leaves every other entry unchanged. |
| KeyboardDevice.FrameTableHolds | NoesisGUI.MonoGameWrapper/Input/Devices/Keyboard.cs:77-129 | At the end of a frame the held-time table has exactly this frame's keys, each with its new held time. |
| KeyboardDevice.ForwardedKeys | NoesisGUI.MonoGameWrapper/Input/Devices/Keyboard.cs:143-217 | A key reaches the view iff it converts to something other than None, a loaded element is focused, and it is not an arrow key held back because directional navigation is off and the focus is not a text box. Key-down and key-up agree on this. |
| KeyboardDevice.CharFollowsKeyDown | NoesisGUI.MonoGameWrapper/Input/Devices/Keyboard.cs:192-203 | A Char follows a forwarded key-down iff the key text is exactly one character other than NUL. The Char carries that character. |
| KeyboardDevice.RepeatTimer | NoesisGUI.MonoGameWrapper/Input/Devices/Keyboard.cs:93-107 | With a positive interval, repeats are due once the held time is at least delay + interval. After they are sent, the stored time lies within one interval past the delay. With none due, the time is stored unchanged. |
| KeyboardDevice.NegativeIntervalTimer | NoesisGUI.MonoGameWrapper/Input/Devices/Keyboard.cs:93-107 | With a negative interval, which the configuration accepts, repeats are due once the held time is at or below delay + interval, that is, before the delay has passed. After they are sent, the stored time lies in (delay + interval, delay]. With none due, the time is stored unchanged. |
| KeyboardDevice.KeyDownEventsHoldOneKeyDown | NoesisGUI.MonoGameWrapper/Input/Devices/Keyboard.cs:178-204 | The calls for one key-down hold exactly one key-down when the key is forwarded and none otherwise. |
| KeyboardDevice.RepeatedKeyDownCount | NoesisGUI.MonoGameWrapper/Input/Devices/Keyboard.cs:99-103 | Sending a group of calls n times sends n times its key-downs. |
| KeyboardDevice.NewKeyGetsOneKeyDown | NoesisGUI.MonoGameWrapper/Input/Devices/Keyboard.cs:77-83 | A key not held gets held time 0 and exactly one initial key-down (when forwarded). |
| KeyboardDevice.ModifierKeysNeverRepeat | NoesisGUI.MonoGameWrapper/Input/Devices/Keyboard.cs:87-141 | A held shift, control or alt key sends nothing and keeps its stored time. |
| KeyboardDevice.HeldKeyRepeats | NoesisGUI.MonoGameWrapper/Input/Devices/Keyboard.cs:93-104 | A held non-modifier that reaches the view gets exactly as many key-downs as repeats are due. |
| KeyboardDevice.HeldKeyTimeAdvances | NoesisGUI.MonoGameWrapper/Input/Devices/Keyboard.cs:93-107 | A held non-modifier stores its time plus the elapsed time, less one interval per repeat sent. |
| KeyboardDevice.HeldKeyUnfolds | NoesisGUI.MonoGameWrapper/Input/Devices/Keyboard.cs:85-107 | The first loop's calls for a held non-modifier are the repeat step on its time plus this frame's elapsed time. |
| KeyboardDevice.ConsumedOfSelects | NoesisGUI.MonoGameWrapper/Input/Devices/Keyboard.cs:223-252 | The consumed list is the subsequence of visited keys the rule claims, with each key as often as it was visited. |
| KeyboardDevice.FrameConsumption | NoesisGUI.MonoGameWrapper/Input/Devices/Keyboard.cs:54-122 | A frame's consumed keys are exactly the claimed keys among those pressed now or released since the last frame. Each appears once, because the two sets are disjoint. |
| KeyboardDevice.ReleaseEventsAreKeyUps | NoesisGUI.MonoGameWrapper/Input/Devices/Keyboard.cs:112-221 | The released keys' calls are key-ups only and include the key-up of every forwarded released key. |
| MouseDevice.Mouse.constructor | NoesisGUI.MonoGameWrapper/Input/Devices/Mouse.cs:46-55 | The mouse starts at (0, 0) with wheel 0, no scroll pending, the default poll, no press recorded and nothing consumed. |
| MouseDevice.Mouse.UpdateMouse | NoesisGUI.MonoGameWrapper/Input/Devices/Mouse.cs:59-140 | One frame. The control-under-cursor flag is computed at last frame's position. The frame works on the host poll, or on the inactive state when the window is not active. The new tracking state, the consumed wheel delta, the consumed buttons and the view's new events are the `NextTracking`, `WheelDelta`, `ConsumedButtonsOf` and `FrameEvents` of that state. |
| MouseDevice.Mouse.ProcessFrame | NoesisGUI.MonoGameWrapper/Input/Devices/Mouse.cs:94-139 | Pointer, wheel, press pass, release pass and the remembered poll, as `FrameEvents` and `NextTracking` specify. |
| MouseDevice.Mouse.MovePointer | NoesisGUI.MonoGameWrapper/Input/Devices/Mouse.cs:98-106 | A move to the new position is sent iff the position changed or the last frame scrolled. Then the position is recorded and the scrolled flag cleared. |
| MouseDevice.Mouse.ScrollWheel | NoesisGUI.MonoGameWrapper/Input/Devices/Mouse.cs:108-129 | A changed wheel value with a control under the cursor sends a wheel event with delta new - last, consumes that delta and sets the scrolled flag. Otherwise the consumed delta is 0. The last wheel value becomes the current one. |
| MouseDevice.Mouse.ProcessPresses | NoesisGUI.MonoGameWrapper/Input/Devices/Mouse.cs:131-133 | The press pass over Left, Right and Middle appends each button's `ButtonDownEvents` and updates its press record. |
| MouseDevice.Mouse.ProcessReleases | NoesisGUI.MonoGameWrapper/Input/Devices/Mouse.cs:135-137 | The release pass over Left, Right and Middle appends each button's `ButtonUpEvents`. |
| MouseDevice.Mouse.CalculateIsAnyControlUnderMouseCursor | NoesisGUI.MonoGameWrapper/Input/Devices/Mouse.cs:142-164 | The loop answers `ControlUnderCursor`: some element from the hit element up the parent chain is not ignored by the callback. Its invariant is the one-step search `FoundOnWalk`. |
| MouseDevice.Mouse.ProcessMouseButtonDown | NoesisGUI.MonoGameWrapper/Input/Devices/Mouse.cs:166-196 | A pressed button is offered for consumption. On a released-to-pressed change it sends a double click when the last press (0 if none) is less than the interval ago, then a button-down, and records the press time. |
| MouseDevice.Mouse.ProcessMouseButtonUp | NoesisGUI.MonoGameWrapper/Input/Devices/Mouse.cs:198-217 | A released button is offered for consumption. On a pressed-to-released change it sends a button-up. |
| MouseDevice.Mouse.TryConsumeMouseButton | NoesisGUI.MonoGameWrapper/Input/Devices/Mouse.cs:219-226 | The button is appended to the consumed buttons iff a control is under the cursor. |
| MouseDevice.AsFrameworkElement | NoesisGUI.MonoGameWrapper/Input/Devices/Mouse.cs:148-159 | `as FrameworkElement` keeps framework elements and turns anything else into null. |
| MouseDevice.ChainFollowsParents | NoesisGUI.MonoGameWrapper/Input/Devices/Mouse.cs:144-161 | The walk starts at the hit element and goes from each element to its parent (logical first, then visual) until null. |
| MouseDevice.ChainHoldsFrameworkElements | NoesisGUI.MonoGameWrapper/Input/Devices/Mouse.cs:148-159 | Every element the walk visits is a framework element. |
| MouseDevice.NoCallbackNoControl | NoesisGUI.MonoGameWrapper/Input/Devices/Mouse.cs:151 | With no callback no control is ever under the cursor. |
| MouseDevice.HitElementIsEnough | NoesisGUI.MonoGameWrapper/Input/Devices/Mouse.cs:144-156 | With a callback that ignores nothing, a control is under the cursor iff the hit test lands on a framework element. |
| MouseDevice.FoundOnWalkSearchesChain | NoesisGUI.MonoGameWrapper/Input/Devices/Mouse.cs:149-161 | Searching the walk step by step, stopping at the first element not ignored, succeeds exactly when some element of the whole walk is not ignored. |
| MouseDevice.ControlUnderCursorIsFoundOnWalk | NoesisGUI.MonoGameWrapper/Input/Devices/Mouse.cs:144-161 | A control is under the cursor exactly when a callback is set and the step-by-step search from the hit element succeeds. |
| MouseDevice.InactiveStateKeepsPosition | NoesisGUI.MonoGameWrapper/Input/Devices/Mouse.cs:80-92 | While the window is inactive the poll keeps last frame's X, Y and wheel value, and every button reads released. |
| MouseDevice.EachButtonConsumedOnce | NoesisGUI.MonoGameWrapper/Input/Devices/Mouse.cs:131-226 | Left, Right and Middle each pass exactly one consume check. So the consumed buttons are all three when a control is under the cursor and none otherwise. The extra buttons never are. |
| MouseDevice.OneConsumeCheck | NoesisGUI.MonoGameWrapper/Input/Devices/Mouse.cs:171-208 | A button is checked once: by the press pass when pressed, by the release pass when released. |
| MouseDevice.MoveSentOnChange | NoesisGUI.MonoGameWrapper/Input/Devices/Mouse.cs:98-106 | A frame sends a move, to the new position, iff the position changed or the last frame scrolled. |
| MouseDevice.WheelDeltaMatchesEvent | NoesisGUI.MonoGameWrapper/Input/Devices/Mouse.cs:108-129 | The consumed delta is non-zero exactly when a wheel event is sent, and it is that event's delta. The next frame's scrolled flag is set exactly then. |
| MouseDevice.MoveFollowsScroll | NoesisGUI.MonoGameWrapper/Input/Devices/Mouse.cs:100-117 | After a consumed scroll, the next frame sends a move first even if the mouse did not move. |
| MouseDevice.TrackingFollowsState | NoesisGUI.MonoGameWrapper/Input/Devices/Mouse.cs:103-139 | The wheel value, the position and the poll are all remembered for the next frame. |
| MouseDevice.ButtonDownOnPressEdge | NoesisGUI.MonoGameWrapper/Input/Devices/Mouse.cs:171-195 | A button-down (possibly preceded by a double click) is sent only on a released-to-pressed change. The double click is sent iff the last press is less than the interval ago. |
| MouseDevice.ButtonUpOnReleaseEdge | NoesisGUI.MonoGameWrapper/Input/Devices/Mouse.cs:203-216 | A button-up is sent only on a pressed-to-released change. |
| MouseDevice.ExtraButtonsAreIgnored | NoesisGUI.MonoGameWrapper/Input/Devices/Mouse.cs:131-137 | No frame sends a button event for the extra buttons. |
| MouseDevice.SteadyFrameSendsNothing | NoesisGUI.MonoGameWrapper/Input/Devices/Mouse.cs:59-140 | A frame whose poll, position and wheel equal last frame's, with no scroll pending, sends nothing. |
| MouseDevice.SecondPressWithinIntervalIsDoubleClick | NoesisGUI.MonoGameWrapper/Input/Devices/Mouse.cs:184-195 | A press, a release in a later frame and a second press less than the interval after the first give a double click before the second button-down. |
| MouseDevice.FirstEarlyPressIsDoubleClick | NoesisGUI.MonoGameWrapper/Input/Devices/Mouse.cs:184-188 | A button never pressed before counts its last press at time zero. So its first press within the first interval of game time is reported as a double click. |
| MouseDevice.PressCheckReadsOwnRecord | NoesisGUI.MonoGameWrapper/Input/Devices/Mouse.cs:184-195 | Recording one button's press leaves every other button's press events unchanged. |
| InputManagement.InputManager.constructor | NoesisGUI.MonoGameWrapper/Input/InputManager.cs:16-27 | Builds a valid keyboard over the root's keyboard focus and a mouse over the root, both on the same view, with the configured settings. |
| InputManagement.InputManager.Update | NoesisGUI.MonoGameWrapper/Input/InputManager.cs:47-51 | The keyboard frame runs, then the mouse frame, with the same game time and active flag. The view receives the keyboard's calls, then the mouse's, and each device's state is what its own update specifies. |
| InputManagement.InputManager.ConsumedKeyboardKeys | NoesisGUI.MonoGameWrapper/Input/InputManager.cs:33 | The keyboard's consumed list. `Update` states its value after a frame: the consumed keys of the press pass, then of the release pass. |
| InputManagement.InputManager.ConsumedMouseButtons | NoesisGUI.MonoGameWrapper/Input/InputManager.cs:39 | The mouse's consumed list. `Update` states its value after a frame: `ConsumedButtonsOf` the frame's poll. |
| InputManagement.InputManager.ConsumedMouseDeltaWheel | NoesisGUI.MonoGameWrapper/Input/InputManager.cs:45 | The mouse's consumed wheel delta. `Update` states its value after a frame: `WheelDelta` of the frame. |
| KeyConverter.ConvertIsNoneIffUnlisted | NoesisGUI.MonoGameWrapper/Helpers/KeyConverter.cs:135-139 | `Convert` answers the table entry for a listed key and None exactly for keys the table does not list. |
| KeyConverter.NoEntryIsNone | NoesisGUI.MonoGameWrapper/Helpers/KeyConverter.cs:19-131 | No table entry is None, so a listed key never converts to None. |
| KeyConverter.EditingKeysAreDistinct | NoesisGUI.MonoGameWrapper/Helpers/KeyConverter.cs:21-122 | No other key shares the entry of an editing or navigation key. |
| KeyConverter.DigitKeysAreDistinct | NoesisGUI.MonoGameWrapper/Helpers/KeyConverter.cs:42-51 | No other key shares the entry of a digit D0-D9. |
| KeyConverter.LetterKeysAreDistinct | NoesisGUI.MonoGameWrapper/Helpers/KeyConverter.cs:68-93 | No other key shares the entry of a letter A-Z. |
| KeyConverter.NumPadKeysAreDistinct | NoesisGUI.MonoGameWrapper/Helpers/KeyConverter.cs:52-67 | No other key shares the entry of a number-pad key. |
| KeyConverter.FunctionKeysAreDistinct | NoesisGUI.MonoGameWrapper/Helpers/KeyConverter.cs:94-108 | No other key shares the entry of F1-F15. |
| KeyConverter.LockKeysAreDistinct | NoesisGUI.MonoGameWrapper/Helpers/KeyConverter.cs:109-110 | No other key shares the entry of NumLock or Scroll. |
| KeyConverter.OemKeysAreDistinct | NoesisGUI.MonoGameWrapper/Helpers/KeyConverter.cs:111-122 | No other key shares the entry of an OEM punctuation key. |
| KeyConverter.ModifierKeysAreDistinct | NoesisGUI.MonoGameWrapper/Helpers/KeyConverter.cs:123-130 | No other key shares the entry of a shift, control, alt or Windows key. |
| KeyConverter.ConvertIsInjective | NoesisGUI.MonoGameWrapper/Helpers/KeyConverter.cs:19-131 | Two keys that convert to the same key other than None are the same key. |
| KeyConverter.RenamedEntries | NoesisGUI.MonoGameWrapper/Helpers/KeyConverter.cs:24-130 | Enter maps to Return, LeftControl and RightControl to LeftCtrl and RightCtrl, LeftWindows and RightWindows to LWin and RWin. |
| KeyConverter.LettersAreListed | NoesisGUI.MonoGameWrapper/Helpers/KeyConverter.cs:68-93 | Every letter A-Z is listed and converts to its entry. |
| KeyConverter.LetterEntriesAToMAreNamesakes | NoesisGUI.MonoGameWrapper/Helpers/KeyConverter.cs:68-80 | Letters A-M convert to the letter of the same name. |
| KeyConverter.LetterEntriesNToZAreNamesakes | NoesisGUI.MonoGameWrapper/Helpers/KeyConverter.cs:81-93 | Letters N-Z convert to the letter of the same name. |
| KeyConverter.DigitsAreListed | NoesisGUI.MonoGameWrapper/Helpers/KeyConverter.cs:42-61 | D0-D9 and NumPad0-NumPad9 are listed and convert to their entries. |
| KeyConverter.DigitEntriesAreNamesakes | NoesisGUI.MonoGameWrapper/Helpers/KeyConverter.cs:42-61 | D0-D9 and NumPad0-NumPad9 convert to the key of the same name. |
| KeyConverter.FunctionKeysAreListed | NoesisGUI.MonoGameWrapper/Helpers/KeyConverter.cs:94-108 | F1-F15 are listed and convert to their entries. F16-F24 are not listed. |
| KeyConverter.FunctionKeyEntriesAreNamesakes | NoesisGUI.MonoGameWrapper/Helpers/KeyConverter.cs:94-108 | F1-F15 convert to the key of the same name. |
| KeyConverter.UnlistedKeysConvertToNone | NoesisGUI.MonoGameWrapper/Helpers/KeyConverter.cs:135-139 | Keys left out of the table, such as F16, convert to None. |
| XnaKeysComparer.HashMatchesEquality | NoesisGUI.MonoGameWrapper/Helpers/XnaKeysComparer.cs:14-22 | Equal keys have equal hashes, and keys with different codes have different hashes. |
| XnaKeysComparer.HashIsTheKeyCode | NoesisGUI.MonoGameWrapper/Helpers/XnaKeysComparer.cs:19-22 | The hash is the key's integer value. |
| LegacyInput.WithoutMembers | NoesisGUI.MonoGameWrapper/Input/MonoGameNoesisGUIWrapperInputManager.cs:104-127 | The list difference keeps a key iff it is in the first list and not in the other. |
| LegacyInput.WithoutKeepsOrder | NoesisGUI.MonoGameWrapper/Input/MonoGameNoesisGUIWrapperInputManager.cs:108-127 | The difference keeps the order of the first list: it splits over any split of that list. |
| LegacyInput.KeyEventsAreConvertedKeys | NoesisGUI.MonoGameWrapper/Input/MonoGameNoesisGUIWrapperInputManager.cs:130-147 | A key list's calls are exactly one key-down (or key-up) per key whose legacy conversion is not None, in list order. |
| LegacyInput.KeyDownsBeforeKeyUps | NoesisGUI.MonoGameWrapper/Input/MonoGameNoesisGUIWrapperInputManager.cs:130-147 | All key-downs of a frame come before all of its key-ups. |
| LegacyInput.SteadyKeysSendNothing | NoesisGUI.MonoGameWrapper/Input/MonoGameNoesisGUIWrapperInputManager.cs:97-150 | A frame with the same keys held as the last one sends nothing. |
| LegacyInput.WithoutAllIsEmpty | NoesisGUI.MonoGameWrapper/Input/MonoGameNoesisGUIWrapperInputManager.cs:110-123 | Nothing is left when every key is among the others. |
| LegacyInput.ButtonEventsOnEdges | NoesisGUI.MonoGameWrapper/Input/MonoGameNoesisGUIWrapperInputManager.cs:209-235 | A button-down is sent only on a released-to-pressed change and a button-up only on a pressed-to-released one. |
| LegacyInput.SteadyMouseSendsNothing | NoesisGUI.MonoGameWrapper/Input/MonoGameNoesisGUIWrapperInputManager.cs:180-203 | A frame whose poll equals the last one, at the last position sent, sends nothing. |
| LegacyInput.MoveOnlyWhenMoved | NoesisGUI.MonoGameWrapper/Input/MonoGameNoesisGUIWrapperInputManager.cs:186-192 | A move is sent iff X or Y differs from the last position sent, and it carries the new position. |
| LegacyInput.Keyboard.constructor | NoesisGUI.MonoGameWrapper/Input/MonoGameNoesisGUIWrapperInputManager.cs:66-81 | The legacy keyboard starts with no previous keys and empty pressed and released lists. |
| LegacyInput.Keyboard.OnChar | NoesisGUI.MonoGameWrapper/Input/MonoGameNoesisGUIWrapperInputManager.cs:87-90 | Appends a Char call with the character unchanged. |
| LegacyInput.Keyboard.OnKeyDown | NoesisGUI.MonoGameWrapper/Input/MonoGameNoesisGUIWrapperInputManager.cs:92-95 | Appends a key-down call for the key. |
| LegacyInput.Keyboard.UpdateKeyboard | NoesisGUI.MonoGameWrapper/Input/MonoGameNoesisGUIWrapperInputManager.cs:97-150 | The pressed list is the current keys not pressed before, in current order. The released list is the previous keys not pressed now. The renderer receives the key-downs of the pressed list, then the key-ups of the released list. The previous keys become the current array. |
| LegacyInput.Keyboard.FillPressedKeys | NoesisGUI.MonoGameWrapper/Input/MonoGameNoesisGUIWrapperInputManager.cs:104-114 | The pressed list becomes the current keys not among the previous keys, in order. |
| LegacyInput.Keyboard.FillReleasedKeys | NoesisGUI.MonoGameWrapper/Input/MonoGameNoesisGUIWrapperInputManager.cs:117-127 | The released list becomes the previous keys not among the current keys, in order. |
| LegacyInput.Keyboard.SendKeys | NoesisGUI.MonoGameWrapper/Input/MonoGameNoesisGUIWrapperInputManager.cs:130-147 | Appends `KeyEvents` of the list: one call per key converting to something other than None. |
| LegacyInput.Mouse.constructor | NoesisGUI.MonoGameWrapper/Input/MonoGameNoesisGUIWrapperInputManager.cs:159-174 | The legacy mouse starts at (0, 0) with the default poll. |
| LegacyInput.Mouse.UpdateMouse | NoesisGUI.MonoGameWrapper/Input/MonoGameNoesisGUIWrapperInputManager.cs:180-203 | Appends the move (when the position changed) and then the button calls, records the position and remembers the poll. |
| LegacyInput.Mouse.ProcessMouseButtons | NoesisGUI.MonoGameWrapper/Input/MonoGameNoesisGUIWrapperInputManager.cs:194-200 | Appends the button-downs of Left, Right and Middle, then their button-ups. |
| LegacyInput.Mouse.ProcessMouseButtonDown | NoesisGUI.MonoGameWrapper/Input/MonoGameNoesisGUIWrapperInputManager.cs:209-221 | Appends a button-down at (x, y) iff the button changed to pressed. |
| LegacyInput.Mouse.ProcessMouseButtonUp | NoesisGUI.MonoGameWrapper/Input/MonoGameNoesisGUIWrapperInputManager.cs:223-235 | Appends a button-up at (x, y) iff the button changed to released. |
| LegacyInput.MonoGameNoesisGUIWrapperInputManager.constructor | NoesisGUI.MonoGameWrapper/Input/MonoGameNoesisGUIWrapperInputManager.cs:29-33 | Builds a mouse and a keyboard on the same renderer. |
| LegacyInput.MonoGameNoesisGUIWrapperInputManager.OnTextInput | NoesisGUI.MonoGameWrapper/Input/MonoGameNoesisGUIWrapperInputManager.cs:39-52 | Forwards the typed character to the renderer unchanged. |
| LegacyInput.MonoGameNoesisGUIWrapperInputManager.Update | NoesisGUI.MonoGameWrapper/Input/MonoGameNoesisGUIWrapperInputManager.cs:54-58 | The keyboard frame's calls come before the mouse frame's. |
| MonoGameNoesisKeys.Calls | NoesisGUI.MonoGameWrapper/Input/NoesisKeyCodes.cs:27-137 | The static constructor makes sixty `Add` calls, in source order. |
| MonoGameNoesisKeys.PositionInverts | NoesisGUI.MonoGameWrapper/Input/NoesisKeyCodes.cs:27-137 | The reverse listing finds every call's key at that call. |
| MonoGameNoesisKeys.PositionIsSound | NoesisGUI.MonoGameWrapper/Input/NoesisKeyCodes.cs:27-137 | The reverse listing names only calls that add the key it was asked about. |
| MonoGameNoesisKeys.AddedKeysAreDistinct | NoesisGUI.MonoGameWrapper/Input/NoesisKeyCodes.cs:27-137 | No two `Add` calls add the same key. |
| MonoGameNoesisKeys.AddAllOfDistinctKeys | NoesisGUI.MonoGameWrapper/Input/NoesisKeyCodes.cs:23-138 | `Add` calls with pairwise distinct keys never throw, and they build the dictionary holding exactly those keys with their values. |
| MonoGameNoesisKeys.StaticConstructorSucceeds | NoesisGUI.MonoGameWrapper/Input/NoesisKeyCodes.cs:23-138 | The static constructor never throws: every `Add` adds a key not yet present. |
| MonoGameNoesisKeys.ConvertIsDictionaryLookup | NoesisGUI.MonoGameWrapper/Input/NoesisKeyCodes.cs:144-148 | `Convert` is the dictionary lookup: the registered value for a key it holds, None otherwise. |
| MonoGameNoesisKeys.ConvertOfAddCall | NoesisGUI.MonoGameWrapper/Input/NoesisKeyCodes.cs:27-148 | Every `Add` call's key converts to the key that call registers. |
| MonoGameNoesisKeys.LettersAndDigitRowConvertToNone | NoesisGUI.MonoGameWrapper/Input/NoesisKeyCodes.cs:52-109 | Letters and the digit row are commented out, so they convert to None. |
| MonoGameNoesisKeys.ShiftKeysShareAKey | NoesisGUI.MonoGameWrapper/Input/NoesisKeyCodes.cs:130-131 | Both shift keys convert to Shift (the mapping is many-to-one). |
| MonoGameNoesisKeys.ControlKeysShareAKey | NoesisGUI.MonoGameWrapper/Input/NoesisKeyCodes.cs:133-134 | Both control keys convert to Control. |
| MonoGameNoesisKeys.AltKeysShareAKey | NoesisGUI.MonoGameWrapper/Input/NoesisKeyCodes.cs:136-137 | Both alt keys convert to Alt. |
| MonoGameNoesisKeys.PagingKeysAreRenamed | NoesisGUI.MonoGameWrapper/Input/NoesisKeyCodes.cs:36-37 | PageUp converts to Prior and PageDown to Next. |
| MonoGameNoesisKeys.OemKeysStandInForPadOperators | NoesisGUI.MonoGameWrapper/Input/NoesisKeyCodes.cs:77-80 | OemPlus, OemMinus and OemPeriod convert to Add, Subtract and Decimal. |
| MonoGameNoesisKeys.LowerNumPadMapsToPadKeys | NoesisGUI.MonoGameWrapper/Input/NoesisKeyCodes.cs:63-66 | NumPad0-NumPad3 convert to Pad0-Pad3. |
| MonoGameNoesisKeys.MiddleNumPadMapsToPadKeys | NoesisGUI.MonoGameWrapper/Input/NoesisKeyCodes.cs:67-69 | NumPad4-NumPad6 convert to Pad4-Pad6. |
| MonoGameNoesisKeys.UpperNumPadMapsToPadKeys | NoesisGUI.MonoGameWrapper/Input/NoesisKeyCodes.cs:70-72 | NumPad7-NumPad9 convert to Pad7-Pad9. |
| KeyboardIme.ImeStatics.constructor | NoesisGUI.MonoGameWrapper/Input/Platforms/Windows/KeyboardImeWinforms.cs:21-49 | The static fields start with no focused text box, no composition string, not composing and an empty last composition string. |
| KeyboardIme.RichTextBoxEx.constructor | NoesisGUI.MonoGameWrapper/Input/Platforms/Windows/KeyboardImeWinforms.cs:56-62 | The hidden text box, created off-screen with size zero, starts empty, outside any form, not disposed and with its text-changed handler hooked. Its text fields are those the accessors at lines 404-449 read. |
| KeyboardIme.KeyboardImeWinforms.constructor | NoesisGUI.MonoGameWrapper/Input/Platforms/Windows/KeyboardImeWinforms.cs:51-73 | The bridge starts with input disabled, not disposed, no finished string and start index 0. Its hidden text box is fresh, empty, outside any form and hooked, and it shares the static fields it is given. |
| KeyboardIme.KeyboardImeWinforms.DisableInput | NoesisGUI.MonoGameWrapper/Input/Platforms/Windows/KeyboardImeWinforms.cs:78-100 | When enabled: clears the enabled flag, the focused text box, the composing flag and both composition strings. When already disabled: changes nothing. |
| KeyboardIme.KeyboardImeWinforms.Dispose | NoesisGUI.MonoGameWrapper/Input/Platforms/Windows/KeyboardImeWinforms.cs:102-131 | The first call marks the bridge disposed, disables input and unhooks and disposes the hidden text box. Later calls change nothing. |
| KeyboardIme.KeyboardImeWinforms.EnableInput | NoesisGUI.MonoGameWrapper/Input/Platforms/Windows/KeyboardImeWinforms.cs:133-148 | When already enabled: changes nothing. Otherwise it sets the flag, then takes the focused element as the focused text box. A focused element that is not a text box reports an invalid cast after the flag is set. |
| KeyboardIme.KeyboardImeWinforms.TryGetFinishedComposedString | NoesisGUI.MonoGameWrapper/Input/Platforms/Windows/KeyboardImeWinforms.cs:150-162 | Answers the pending string and clears it and the last composition string. A second call right after answers nothing. |
| KeyboardIme.KeyboardImeWinforms.IsImeComposingNow | NoesisGUI.MonoGameWrapper/Input/Platforms/Windows/KeyboardImeWinforms.cs:75-76 | Composing, or holding a finished string not yet taken. `TryGetFinishedComposedString` makes it the bare composing flag, `CommitTextFromWinformsTextbox` raises it exactly when it commits non-empty text, and the start and end of composition set it and clear it down to the pending string. |
| KeyboardIme.KeyboardImeWinforms.Update | NoesisGUI.MonoGameWrapper/Input/Platforms/Windows/KeyboardImeWinforms.cs:164-189 | Writes the composition into the focused text box's selected text iff composing, that text box belongs to the view, no finished string is pending and the composition changed since the last write. That write also records it as the last composition. |
| KeyboardIme.KeyboardImeWinforms.Clean | NoesisGUI.MonoGameWrapper/Input/Platforms/Windows/KeyboardImeWinforms.cs:204-212 | Empties the hidden text box and resets the start index to 0 and both composition strings. |
| KeyboardIme.KeyboardImeWinforms.CommitTextFromWinformsTextbox | NoesisGUI.MonoGameWrapper/Input/Platforms/Windows/KeyboardImeWinforms.cs:214-276 | The pending string and start index become those `CommitOf` gives for the text box's text. A failed substring reports through the error callback and keeps both. When not composing, the text box is cleaned afterwards. `IsImeComposingNow` becomes true exactly when it was or the commit added text. |
| KeyboardIme.KeyboardImeWinforms.OnComposition | NoesisGUI.MonoGameWrapper/Input/Platforms/Windows/KeyboardImeWinforms.cs:278-298 | A composition message with a non-zero lParam holding the composition-string flag (0x0008) takes the IME's current string. Any other leaves it unchanged. |
| KeyboardIme.KeyboardImeWinforms.WndProc | NoesisGUI.MonoGameWrapper/Input/Platforms/Windows/KeyboardImeWinforms.cs:348-386 | The cursor-blink and paint messages answer zero without painting. Key and character messages go to the parent window procedure. Every other message, the IME ones included, goes on to the text box's own procedure. Start of composition first sets the flag and cleans. End of composition clears the flag. A composition message updates the composition string as `OnComposition` states. After the start of composition `IsImeComposingNow` holds; after its end it holds exactly when a finished string is pending. |
| KeyboardIme.FilteredCharacters | NoesisGUI.MonoGameWrapper/Input/Platforms/Windows/KeyboardImeWinforms.cs:257-259 | Committed text keeps every character except carriage return, line feed and tab, and no others, in order. |
| KeyboardIme.FilterDistributes | NoesisGUI.MonoGameWrapper/Input/Platforms/Windows/KeyboardImeWinforms.cs:257-259 | Filtering two pieces one after the other gives the filter of the whole. |
| KeyboardIme.CommitAppendsFilteredText | NoesisGUI.MonoGameWrapper/Input/Platforms/Windows/KeyboardImeWinforms.cs:228-269 | A commit appends exactly the filtered new text, from the start index on, to what was pending. The pending string stays unset when nothing is appended. |
| KeyboardIme.IncrementalCommitsTakeEachPieceOnce | NoesisGUI.MonoGameWrapper/Input/Platforms/Windows/KeyboardImeWinforms.cs:240-275 | While composing, committing a text and then a longer text extending it adds the same as committing the longer text at once. |
| KeyboardIme.RecommitAddsNothing | NoesisGUI.MonoGameWrapper/Input/Platforms/Windows/KeyboardImeWinforms.cs:240-275 | After a composing commit took the whole text, committing the same text again adds nothing. |
| KeyboardIme.CommitEdgeCases | NoesisGUI.MonoGameWrapper/Input/Platforms/Windows/KeyboardImeWinforms.cs:228-255 | Empty text commits nothing, and a start index past the end fails, whatever the mode. |
| DeviceState.CaptureStage | NoesisGUI.MonoGameWrapper/Helpers/DeviceState/DeviceStateHelperD3D11.cs:120-128 | A captured stage holds the shader and the first four constant buffers, samplers and resources of that stage. |
| DeviceState.Capture | NoesisGUI.MonoGameWrapper/Helpers/DeviceState/DeviceStateHelperD3D11.cs:108-131 | The snapshot holds the fixed bindings, render target 0 with its depth-stencil view, both shader stages and vertex buffer 0. |
| DeviceState.Apply | NoesisGUI.MonoGameWrapper/Helpers/DeviceState/DeviceStateHelperD3D11.cs:78-106 | Restoring writes the snapshot back into the same bindings and leaves every other binding unchanged. |
| DeviceState.ReleasedViews | NoesisGUI.MonoGameWrapper/Helpers/DeviceState/DeviceStateHelperD3D11.cs:103-105 | Restore releases render target 0 and then the depth-stencil view, each only when one was bound. |
| DeviceState.StageRoundTrip | NoesisGUI.MonoGameWrapper/Helpers/DeviceState/DeviceStateHelperD3D11.cs:78-131 | Capturing a stage and binding the capture gives the stage back. |
| DeviceState.RestoreUndoesChanges | NoesisGUI.MonoGameWrapper/Helpers/DeviceState/DeviceStateHelperD3D11.cs:78-131 | Save, any changes, then Restore: every binding the snapshot covers is back at its value at save time. |
| DeviceState.StageUnchanged | NoesisGUI.MonoGameWrapper/Helpers/DeviceState/DeviceStateHelperD3D11.cs:78-106 | Binding a stage's own capture changes nothing in the stage. |
| DeviceState.RestoreAfterSaveChangesNothing | NoesisGUI.MonoGameWrapper/Helpers/DeviceState/DeviceStateHelperD3D11.cs:78-131 | Restoring right after saving leaves the context as it was. |
| DeviceState.RestoreKeepsOtherSlots | NoesisGUI.MonoGameWrapper/Helpers/DeviceState/DeviceStateHelperD3D11.cs:78-106 | Restore leaves stage slots from 4 on and vertex buffers from 1 on unchanged. |
| DeviceState.RestoreTwiceBindsTheSame | NoesisGUI.MonoGameWrapper/Helpers/DeviceState/DeviceStateHelperD3D11.cs:78-106 | Restoring the same snapshot twice binds the same as restoring it once. |
| DeviceState.DeviceStateHelperD3D11.Save | NoesisGUI.MonoGameWrapper/Helpers/DeviceState/DeviceStateHelperD3D11.cs:108-131 | The snapshot becomes `Capture` of the context; the context is unchanged. |
| DeviceState.DeviceStateHelperD3D11.Restore | NoesisGUI.MonoGameWrapper/Helpers/DeviceState/DeviceStateHelperD3D11.cs:78-106 | The context becomes `Apply` of the snapshot, and the released views are appended. |
| DeviceState.DeviceStateHelperD3D11.Remember | NoesisGUI.MonoGameWrapper/Helpers/DeviceState/DeviceStateHelper.cs:7-11 | Saves exactly once and returns a fresh restorer bound to this helper. |
| DeviceState.DeviceStateRestorer.Dispose | NoesisGUI.MonoGameWrapper/Helpers/DeviceState/DeviceStateHelper.cs:24-32 | Calls its helper's Restore. There is no disposed flag, so every disposal restores and releases again. |
| DeviceState.RenderWithSavedState | NoesisGUI.MonoGameWrapper/Helpers/DeviceState/DeviceStateHelper.cs:7-32 | A Remember ... Dispose bracket around a body brings back every captured binding and keeps the body's other bindings. |
| Configuration.BackslashPath | NoesisGUI.MonoGameWrapper/Config/NoesisConfig.cs:62-63 | A normalised path has the same length, with every '/' turned into '\' and every other character kept. |
| Configuration.BackslashPathIsNormal | NoesisGUI.MonoGameWrapper/Config/NoesisConfig.cs:62-63 | A normalised path holds no '/', and normalising it again changes nothing. |
| Configuration.ConstructorCheck | NoesisGUI.MonoGameWrapper/Config/NoesisConfig.cs:36-58 | The constructor rejects a missing or empty root path first, then a missing window, then missing graphics. It accepts iff none of these applies. |
| Configuration.NoesisConfig.constructor | NoesisGUI.MonoGameWrapper/Config/NoesisConfig.cs:36-63 | Stores the arguments with both XAML paths normalised. Input is not set up and there is no provider. |
| Configuration.NewNoesisConfig | NoesisGUI.MonoGameWrapper/Config/NoesisConfig.cs:36-63 | The constructor with its checks: the error `ConstructorCheck` names, or a fresh configuration with the normalised root path, no input set up and no provider. |
| Configuration.NoesisConfig.SetupInput | NoesisGUI.MonoGameWrapper/Config/NoesisConfig.cs:103-112 | Stores the three timings (defaults 0.2, 0.05 and 0.25 seconds), marks input set up and leaves the provider choice unchanged. |
| Configuration.NoesisConfig.SetupInputFromWindows | NoesisGUI.MonoGameWrapper/Config/NoesisConfig.cs:114-130 | Stores the timings `GetSystemInputSettings` gives: a delay in [0.25, 1] and an interval in [1/30, 0.4]. |
| Configuration.NoesisConfig.SetupProviderManager | NoesisGUI.MonoGameWrapper/Config/NoesisConfig.cs:137-141 | Stores the factory and drops any folder path. The input flag and the three input timings are unchanged. A provider is configured afterwards exactly when a factory was given. |
| Configuration.NoesisConfig.SetupProviderSimpleFolder | NoesisGUI.MonoGameWrapper/Config/NoesisConfig.cs:148-152 | Stores the folder path and drops any factory. The input flag and the three input timings are unchanged. A provider is configured afterwards exactly when the path is non-empty. |
| Configuration.NoesisConfig.HasProvider | NoesisGUI.MonoGameWrapper/Config/NoesisConfig.cs:156-157 | A resource provider is configured: a factory, or a non-empty folder path. `Validate` rejects a configuration without one first. |
| Configuration.NoesisConfig.Validate | NoesisGUI.MonoGameWrapper/Config/NoesisConfig.cs:154-174 | Answers no error iff a provider is configured, input is set up and the profile is HiDef. Otherwise it answers the first failing check, in that order. |
| SystemInputSettings.Clamp | NoesisGUI.MonoGameWrapper/Input/SystemSettings/WinFormsInputSettingsHelper.cs:32-45 | The value below min gives min, above max gives max, within the range gives itself. |
| SystemInputSettings.Fraction | NoesisGUI.MonoGameWrapper/Input/SystemSettings/WinFormsInputSettingsHelper.cs:47-60 | The clamped input's position along the input range lies in [0, 1]. |
| SystemInputSettings.FractionIsMonotone | NoesisGUI.MonoGameWrapper/Input/SystemSettings/WinFormsInputSettingsHelper.cs:47-60 | A larger input has no smaller position along the range. |
| SystemInputSettings.MapEndpoints | NoesisGUI.MonoGameWrapper/Input/SystemSettings/WinFormsInputSettingsHelper.cs:47-60 | The ends of the input range map to the ends of the output range. |
| SystemInputSettings.MapClampsInput | NoesisGUI.MonoGameWrapper/Input/SystemSettings/WinFormsInputSettingsHelper.cs:47-60 | Inputs outside the range map to the nearer output end. |
| SystemInputSettings.MapStaysInOutputRange | NoesisGUI.MonoGameWrapper/Input/SystemSettings/WinFormsInputSettingsHelper.cs:47-60 | The result lies between the two output ends. |
| SystemInputSettings.MapIsMonotone | NoesisGUI.MonoGameWrapper/Input/SystemSettings/WinFormsInputSettingsHelper.cs:47-60 | A larger input moves the result towards the output maximum, increasing or decreasing. |
| SystemInputSettings.Map | NoesisGUI.MonoGameWrapper/Input/SystemSettings/WinFormsInputSettingsHelper.cs:47-60 | The linear interpolation of the clamped input; `MapEndpoints`, `MapClampsInput`, `MapStaysInOutputRange` and `MapIsMonotone` state its properties. |
| SystemInputSettings.GetSystemInputSettings | NoesisGUI.MonoGameWrapper/Input/SystemSettings/WinFormsInputSettingsHelper.cs:9-30 | The three timings from the system values; `RepeatDelayRange`, `RepeatIntervalRange` and `DoubleClickSeconds` state their ranges and conversion. |
| SystemInputSettings.RepeatDelayRange | NoesisGUI.MonoGameWrapper/Input/SystemSettings/WinFormsInputSettingsHelper.cs:26-27 | The repeat delay lies in [0.25, 1] second: setting 0 gives 0.25, setting 3 gives 1. |
| SystemInputSettings.RepeatIntervalRange | NoesisGUI.MonoGameWrapper/Input/SystemSettings/WinFormsInputSettingsHelper.cs:28 | The repeat interval lies in [1/30, 0.4] second, and a faster speed setting never gives a longer interval. |
| SystemInputSettings.DoubleClickSeconds | NoesisGUI.MonoGameWrapper/Input/SystemSettings/WinFormsInputSettingsHelper.cs:29 | The double-click interval is the millisecond setting divided by 1000. |
| TextureHelper.GetTextureFormat | NoesisGUI.MonoGameWrapper/Helpers/NoesisTextureHelper.cs:57-81 | Color and Bgra32 map to BGRA8 and nothing else does. Dxt1, Dxt3 and Dxt5 map to BC1, BC2 and BC3, each one only from its own format. Alpha8 maps to R8. Every other format fails with an unknown-format error naming it. |
| TextureHelper.CreateNoesisTexture | NoesisGUI.MonoGameWrapper/Helpers/NoesisTextureHelper.cs:19-55 | No texture gives no texture. A disposed texture fails with the disposed error. A live texture fails with the not-implemented error, because the native pointer lookup (lines 50-55) throws before the format is looked up. |
| TextureHelper.TextureFormatIsInjectiveOnKnownFormats | NoesisGUI.MonoGameWrapper/Helpers/NoesisTextureHelper.cs:57-81 | Two known formats map to the same format only when equal or both are the 32-bit colour formats. |
| TextureHelper.WrappingNeverYieldsTexture | NoesisGUI.MonoGameWrapper/Helpers/NoesisTextureHelper.cs:19-55 | No texture gives null, a disposed texture fails with the disposed error, and a live texture fails because the native pointer lookup always throws. |
| TextureHelper.FromNonPremultiplied | NoesisGUI.MonoGameWrapper/Providers/FolderTextureProvider.cs:73-84 | Premultiplying keeps alpha and scales each colour channel down to at most itself and at most alpha. |
| TextureHelper.PremultiplyEnds | NoesisGUI.MonoGameWrapper/Providers/FolderTextureProvider.cs:73-84 | Opaque pixels are unchanged, and fully transparent pixels become transparent black. |
| TextureHelper.Premultiplied | NoesisGUI.MonoGameWrapper/Providers/FolderTextureProvider.cs:73-84 | Every pixel is premultiplied, and the length is kept. |
| TextureHelper.PremultiplyAlpha | NoesisGUI.MonoGameWrapper/Providers/FolderTextureProvider.cs:73-84 | The buffer in place becomes `Premultiplied` of its old contents. |
| TextureHelper.PremultiplyLoadedTexture | NoesisGUI.MonoGameWrapper/Providers/FolderTextureProvider.cs:64-87 | A Color texture gets its pixels premultiplied; any other format is returned unchanged. |
| TextureProviders.CacheKey | NoesisGUI.MonoGameWrapper/Providers/FolderTextureProvider.cs:20-21 | The key keeps the name's length, and each of its characters is the name's character with ASCII letters folded to one case. |
| TextureProviders.CacheKeyIgnoresCase | NoesisGUI.MonoGameWrapper/Providers/FolderTextureProvider.cs:20-21 | Two names reach the same cache entry iff they are equal up to case. |
| TextureProviders.CachedTexture | NoesisGUI.MonoGameWrapper/Providers/FolderTextureProvider.cs:89-105 | A cached texture is handed out only when the entry exists, is alive and its texture is not disposed. |
| TextureProviders.DisposeAll | NoesisGUI.MonoGameWrapper/Providers/FolderTextureProvider.cs:38-49 | Every given texture is disposed, and nothing else of them changes. |
| TextureProviders.WithTrailingSeparator | NoesisGUI.MonoGameWrapper/Providers/FolderTextureProvider.cs:27-36 | The root path ends with a separator, appended only when it did not already end with one. |
| TextureProviders.TrailingSeparatorIsIdempotent | NoesisGUI.MonoGameWrapper/Providers/FolderTextureProvider.cs:27-36 | Normalising the root twice appends nothing more. |
| TextureProviders.Combine | NoesisGUI.MonoGameWrapper/Providers/FolderTextureProvider.cs:89-105 | A rooted name is taken as it is; any other name is appended to the root. |
| TextureProviders.TrimLeadingSeparators | NoesisGUI.MonoGameWrapper/Providers/ContentTextureProvider.cs:65-66 | The trimmed name is a suffix of the name that does not start with a separator, and everything trimmed off is a separator of either kind. |
| TextureProviders.FilesUnderRootShareOneName | NoesisGUI.MonoGameWrapper/Providers/ContentTextureProvider.cs:60-66 | Because `Remove(rootPath.Length)` keeps the root path, every file under the root gets the same asset name, the trimmed root path. |
| TextureProviders.OtherNamesAreTrimmedOnly | NoesisGUI.MonoGameWrapper/Providers/ContentTextureProvider.cs:60-66 | A name outside the root path keeps everything but its leading separators. |
| TextureProviders.FolderTextureProvider.constructor | NoesisGUI.MonoGameWrapper/Providers/FolderTextureProvider.cs:27-36 | The root path is normalised to end with a separator, and the cache starts empty. |
| TextureProviders.FolderTextureProvider.Dispose | NoesisGUI.MonoGameWrapper/Providers/FolderTextureProvider.cs:38-49 | Disposes every texture the cache still reaches and empties the cache. |
| TextureProviders.FolderTextureProvider.GetTexture | NoesisGUI.MonoGameWrapper/Providers/FolderTextureProvider.cs:89-105 | A usable cached texture is returned unchanged. Otherwise the loaded texture from the combined path is premultiplied when it is a Color texture and cached under the name. |
| TextureProviders.FolderTextureProvider.GetTextureInfo | NoesisGUI.MonoGameWrapper/Providers/FolderTextureProvider.cs:51-56 | The size of the texture `GetTexture` returns. |
| TextureProviders.FolderTextureProvider.LoadTexture | NoesisGUI.MonoGameWrapper/Providers/FolderTextureProvider.cs:58-62 | Always fails: a cached texture is live and fails at the native pointer; a loaded one fails there too, or as disposed if it was handed in disposed. The cache is updated as `GetTexture` states. |
| TextureProviders.ContentTextureProvider.constructor | NoesisGUI.MonoGameWrapper/Providers/ContentTextureProvider.cs:24-30 | Keeps the root path and starts with an empty cache. |
| TextureProviders.ContentTextureProvider.Dispose | NoesisGUI.MonoGameWrapper/Providers/ContentTextureProvider.cs:32-43 | Disposes every texture the cache still reaches and empties the cache. |
| TextureProviders.ContentTextureProvider.GetTexture | NoesisGUI.MonoGameWrapper/Providers/ContentTextureProvider.cs:58-78 | The name is normalised by `ContentName`. A usable cached texture is returned unchanged; otherwise the loaded asset is cached under the normalised name. |
| TextureProviders.ContentTextureProvider.GetTextureInfo | NoesisGUI.MonoGameWrapper/Providers/ContentTextureProvider.cs:45-50 | The size of the texture `GetTexture` returns. On a miss the loaded texture is cached under the normalised name; on a hit the cache is unchanged. |
| TextureProviders.ContentTextureProvider.LoadTexture | NoesisGUI.MonoGameWrapper/Providers/ContentTextureProvider.cs:52-56 | Always fails. A usable cached texture fails at the native pointer. On a miss the content manager's asset is cached; it fails at the native pointer, or as disposed when the content manager hands back an asset disposed by an earlier `Dispose`. |
| TextureProviders.SecondFileUnderRootGetsFirstTexture | NoesisGUI.MonoGameWrapper/Providers/ContentTextureProvider.cs:58-78 | After one file under the root is loaded, asking for a different file under the root returns the first one's texture without loading. |
| ProviderManagement.DisposableInOrder | NoesisGUI.MonoGameWrapper/Config/BaseNoesisProviderManager.cs:32-46 | The providers disposed are exactly the disposable ones among XAML, font and texture, at most three. |
| ProviderManagement.DisposalOrder | NoesisGUI.MonoGameWrapper/Config/BaseNoesisProviderManager.cs:41-43 | Disposal goes XAML, then font, then texture. |
| ProviderManagement.NothingDisposableNothingDisposed | NoesisGUI.MonoGameWrapper/Config/BaseNoesisProviderManager.cs:41-43 | A bundle with no disposable provider has nothing disposed. |
| ProviderManagement.BaseNoesisProviderManager.constructor | NoesisGUI.MonoGameWrapper/Config/BaseNoesisProviderManager.cs:12-23 | Keeps the three providers and starts not disposed. |
| ProviderManagement.BaseNoesisProviderManager.Dispose | NoesisGUI.MonoGameWrapper/Config/BaseNoesisProviderManager.cs:32-46 | The first call disposes the disposable providers in order and suppresses finalization. Later calls change nothing. |
| ProviderManagement.BaseNoesisProviderManager.Finalize | NoesisGUI.MonoGameWrapper/Config/BaseNoesisProviderManager.cs:25-28 | The finalizer disposes as `Dispose` does. |
| ProviderManagement.DisposeTwice | NoesisGUI.MonoGameWrapper/Config/BaseNoesisProviderManager.cs:32-46 | Disposing twice disposes each disposable provider once. |
| ProviderManagement.NoesisProviderManager.constructor | NoesisGUI.MonoGameWrapper/Providers/NoesisProviderManager.cs:10-21 | Keeps the bundle of the three providers. |
| ProviderManagement.NoesisProviderManager.Dispose | NoesisGUI.MonoGameWrapper/Providers/NoesisProviderManager.cs:25-36 | With a bundle it disposes its disposable providers in order and drops the bundle. Without one it changes nothing. |

## Left out

- Floating-point arithmetic: the source's `float` and `double` values (held times, repeat delay and interval, the system-settings mapping) are exact reals, so rounding is not modelled. The `(int)` cast of the repeat count is modelled as truncation toward zero.
- KeyboardDevice.Keyboard.constructor: requires a non-zero repeat interval. With a zero interval the source divides by zero in floating point, and the model does not follow the resulting infinity or NaN through the `(int)` cast. Negative intervals are accepted and follow the source's arithmetic (`NegativeIntervalTimer`).
- InputManagement.InputManager.constructor: requires a non-zero repeat interval, for the same reason, since it builds the keyboard with the configured settings.
- Game time is a count of `TimeSpan` ticks. `TimeSpan.FromSeconds` rounding of the double-click interval is not modelled: the mouse is given the interval in ticks.
- The platform's key-to-text lookup (`InputVirtualKeyHelper`) and the host's polls (`Keyboard.GetState`, `Mouse.GetState`) are parameters.
- The UI runtime's hit test, its keyboard focus and element types are not modelled. The model takes a visual tree of elements with parents and a focused element. The focused element is read once and fixed for the whole keyboard frame, whereas the source asks for it again for every key, so a Tab key-down that moves focus does not change how later keys of the same frame are treated in the model.
- `Keys` is an unbounded integer. The enum's 32-bit range is not enforced, so `HashIsTheKeyCode` states the hash's range only for keys within it. The hash sets and dictionaries that use the comparer are Dafny sets and maps over the key values.
- `KeyboardImeWinforms.cs`: the window subclassing, the IMM calls (`ImmGetContext`, `ImmGetCompositionString`), `UpdateCursor`'s caret geometry and the form and thread handling are not modelled. The composition string is a parameter of `WndProc`.
- Win32Native.cs is not part of this model. Window messages are a datatype rather than their numeric codes, and the composition-string flag is the Windows value 0x0008.
- KeyboardIme.KeyboardImeWinforms.CommitTextFromWinformsTextbox: a failed substring hands the error callback the source's message prefix followed by a fixed placeholder. The runtime's own exception message text is not modelled.
- The four static fields of the IME bridge are one shared `ImeStatics` object given to each instance; the model does not enforce that there is only one.
- `DeviceStateHelperD3D11`: render-target slots other than slot 0 are not modelled, nor what `SetRenderTargets` does to them. The COM reference counting behind `Dispose` of views and states is recorded only as a log of released views.
- `NoesisConfig`: the error and exception callbacks and the renderer options object are stored in the source but do not affect any modelled behaviour, so they are left out. `Validate` throws in the source; the model answers the error instead.
- The texture caches hold weak references. Garbage collection is represented only by entries that may already be `Collected`.
- Case-insensitive cache keys fold ASCII letters only. The content provider's culture-sensitive `StartsWith` is modelled as an ordinal prefix test.
- Texture loading itself (`Texture2D.FromStream`, the content manager, file streams) is a parameter: the loaded texture is given to `GetTexture`.
- What disposing a XAML, font or texture provider does is outside the model; the provider managers record which providers they dispose, in order.
