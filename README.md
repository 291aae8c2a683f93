# Hard-key modifier locks and layouts of the titan soft keyboard

This project models the part of the Android input method `SoftKeyboard` that
has real state: how it reacts to hardware key presses and releases, and how it
switches between its four on-screen layouts.

It models these parts:

- **Translation table** (`KeyTranslation`). `translateKeyToIndex` maps the 26
  letter keys of a physical QWERTY keyboard to positions of the on-screen
  symbol layout. Q..P go to 0..9, A..L to 10..18 and Z..M to 20..26. Every
  other key gives -1.
- **Layouts** (`Layers`). The four layouts are Qwerty, Numeric, Symbols and
  SymbolsShifted. The module holds the layout chosen for an editor's input
  class, the Alt+Shift cycle, the on-screen mode-change key and the on-screen
  shift key.
- **Events** (`Events`). These are what the service hands to the editor's
  input connection: key presses, key releases, committed characters and the
  clearing of meta state. They are kept as a log.
- **Transitions** (`KeyHandling`). The whole state is a value `State`: the
  Alt and Shift locks, the Alt chord flag, the two tap times, the session
  layout, the shown layout and the layouts flagged shifted. Key down, key up
  and on-screen keys are pure functions of that state and the event.
  `KeyHandlingProperties` proves what these functions promise.
- **Service object** (`SoftKeyboardService.SoftKeyboard`). A class with the
  Java fields, updated in place by the framework callbacks. Each callback is
  proved to perform the matching transition of `KeyHandling`. It also keeps
  an invariant: the session layout is Qwerty or Numeric, only symbol layouts
  are flagged shifted, and each lock is set exactly when the last Alt (or
  Shift) key event the service sent to the editor was a press. This is about
  key events only: the Alt+Shift cycle also clears the editor's Alt meta
  state and leaves the Alt lock set.

Replacements for the host environment:

- The clock is a `now` argument of each key release.
- The event's `isAltPressed()` is an `altPressed` argument.
- `isInputViewShown()` is a `viewShown` argument.
- The layout contents are a `Layouts` value: each key's primary code, in
  layout order.
- Android's key codes, input classes and on-screen key codes are constants
  with the framework's values (`android_constants.dfy`).

Behaviour of the code that the model keeps as it is:

- The double-tap window is 600 ms. Unlocking has no cooldown.
- Shift lock and Alt lock are independent. Setting one does not clear the other.
- There is no Ctrl handling, and Space, Enter and Back are not substituted.
- Layouts are cycled by Shift-left released while Alt is held.
- In a numeric editor every key press becomes a delete press.
- Ending a session or showing the view does not reset the locks.

## Model

| member | source | states |
|---|---|---|
| `KeyTranslation.TranslateKeyToIndex` | app/src/main/java/com/runo/softkeyboard/SoftKeyboard.java:785-875 | the index is -1 or in 0..26, never 19, and it is not -1 exactly for the letter keys A..Z |
| `KeyTranslation.TranslateThenLocate` | app/src/main/java/com/runo/softkeyboard/SoftKeyboard.java:785-875 | every mapped key is the letter found at its index in the QWERTY rows (Q..P from 0, A..L from 10, Z..M from 20) |
| `KeyTranslation.LocateThenTranslate` | app/src/main/java/com/runo/softkeyboard/SoftKeyboard.java:785-875 | every letter of the QWERTY rows translates back to its index |
| `KeyTranslation.TranslateInjective` | app/src/main/java/com/runo/softkeyboard/SoftKeyboard.java:785-875 | two keys with the same index other than -1 are the same key |
| `KeyTranslation.RowsGiveIndices` | app/src/main/java/com/runo/softkeyboard/SoftKeyboard.java:789-869 | the n-th key of the top, middle and bottom row maps to n, 10 + n and 20 + n |
| `KeyTranslation.LetterKeyCode` | app/src/main/java/com/runo/softkeyboard/SoftKeyboard.java:789-869 | a letter's key code is a letter key |
| `Layers.InputClass` | app/src/main/java/com/runo/softkeyboard/SoftKeyboard.java:167 | `inputType & TYPE_MASK_CLASS` lies in 0..15 and differs from the input type by a multiple of 16 |
| `Layers.LayerForInputType` | app/src/main/java/com/runo/softkeyboard/SoftKeyboard.java:167-221 | the chosen layout is Qwerty or Numeric, and it is Numeric exactly for the NUMBER, DATETIME and PHONE classes |
| `Layers.OnlyClassBitsMatter` | app/src/main/java/com/runo/softkeyboard/SoftKeyboard.java:167 | variation and flag bits above the class bits never change the chosen layout |
| `Layers.CycleSymbols` | app/src/main/java/com/runo/softkeyboard/SoftKeyboard.java:492-498 | with a session layout as anchor, a layout changes exactly when it is the anchor or a symbol layout, and the cycle stays within those three |
| `Layers.CycleHasOrderThree` | app/src/main/java/com/runo/softkeyboard/SoftKeyboard.java:492-498 | three cycles return to the starting layout |
| `Layers.ModeChangeTarget` | app/src/main/java/com/runo/softkeyboard/SoftKeyboard.java:598-604 | mode change always toggles between symbol and non-symbol layouts: symbols go to Qwerty, everything else goes to Symbols |
| `Layers.ModeChangeForgetsNumeric` | app/src/main/java/com/runo/softkeyboard/SoftKeyboard.java:599-602 | two mode changes from Numeric end on Qwerty, not Numeric |
| `Layers.ShiftTarget` | app/src/main/java/com/runo/softkeyboard/SoftKeyboard.java:695-703 | handleShift moves between the two symbol layouts and leaves other layouts unchanged |
| `Layers.ShiftTargetInvolution` | app/src/main/java/com/runo/softkeyboard/SoftKeyboard.java:695-703 | two shifts return to the starting layout |
| `Events.ToChar` | app/src/main/java/com/runo/softkeyboard/SoftKeyboard.java:375 | the `(char)` cast keeps the int modulo 2^16, and code units are unchanged |
| `Events.HeldBySent` | app/src/main/java/com/runo/softkeyboard/SoftKeyboard.java:446-451 | whether the last press or release of a key that the service sent was a press; it is true only if a press was sent. Clearing meta state is not a key event and is ignored |
| `Events.HeldBySentIgnores` | app/src/main/java/com/runo/softkeyboard/SoftKeyboard.java:446-451 | events that do not mention a key leave its held state unchanged |
| `Events.HeldAfterLast` | app/src/main/java/com/runo/softkeyboard/SoftKeyboard.java:446-451 | a sent press holds the key and a sent release lets it go |
| `KeyHandling.ToUpperAscii` | app/src/main/java/com/runo/softkeyboard/SoftKeyboard.java:708-709 | the result is never a lower-case ASCII letter; lower-case letters move to upper case and other codes are unchanged |
| `KeyHandlingProperties.AltReleaseAfterChord` | app/src/main/java/com/runo/softkeyboard/SoftKeyboard.java:439-441 | on Qwerty, an Alt release after a chord only clears the chord flag, sends nothing and goes to default handling |
| `KeyHandlingProperties.FirstAltReleaseAbsorbed` | app/src/main/java/com/runo/softkeyboard/SoftKeyboard.java:74-78 | the chord flag starts set, so the first Alt release leaves the lock off and the tap time at 0 |
| `KeyHandlingProperties.AltRelease` | app/src/main/java/com/runo/softkeyboard/SoftKeyboard.java:443-456 | an Alt release outside a chord has three outcomes. Locked: unlock, send an Alt release and consume. Unlocked within 600 ms of the last tap: lock, send an Alt press and consume. Otherwise: record the tap time only |
| `KeyHandlingProperties.DoubleTapLocksAlt` | app/src/main/java/com/runo/softkeyboard/SoftKeyboard.java:443-456 | two Alt releases less than 600 ms apart lock Alt; the tap time stays at the first release |
| `KeyHandlingProperties.UnlockKeepsStaleTapTime` | app/src/main/java/com/runo/softkeyboard/SoftKeyboard.java:443-453 | unlocking does not refresh the tap time, so one more release within 600 ms of the old tap locks again |
| `KeyHandlingProperties.ShiftRelease` | app/src/main/java/com/runo/softkeyboard/SoftKeyboard.java:462-478 | a Shift release on Qwerty toggles the Shift lock by the same 600 ms rule, sending a Shift release or press; there is no chord suppression |
| `KeyHandlingProperties.KeyUpOffQwertyKeepsLocks` | app/src/main/java/com/runo/softkeyboard/SoftKeyboard.java:437-485 | off Qwerty no release changes the locks or tap times; apart from Alt+Shift it changes nothing at all |
| `KeyHandlingProperties.AltShiftCycles` | app/src/main/java/com/runo/softkeyboard/SoftKeyboard.java:487-504 | Shift released with Alt held, when the Shift-lock block did not return first, does three things: it advances the cycle, sets the chord flag and clears Alt meta state. It is consumed |
| `KeyHandlingProperties.ShiftLockPreemptsCycle` | app/src/main/java/com/runo/softkeyboard/SoftKeyboard.java:462-478 | on Qwerty a Shift-lock change returns before the cycle: the layout and the chord flag stay |
| `KeyHandlingProperties.ThreeChordsReturn` | app/src/main/java/com/runo/softkeyboard/SoftKeyboard.java:487-504 | three Alt+Shift chords go from the session layout through Symbols and SymbolsShifted and back, leaving the locks alone |
| `KeyHandlingProperties.DeleteSuppression` | app/src/main/java/com/runo/softkeyboard/SoftKeyboard.java:364-367 | a key press sends one delete press and release exactly when Alt is locked and the key is delete, or the editor is numeric; that press is consumed |
| `KeyHandlingProperties.SymbolTranslation` | app/src/main/java/com/runo/softkeyboard/SoftKeyboard.java:369-381 | without delete suppression, a press commits a symbol exactly when Symbols is shown and the key maps inside the layout; the symbol is the key's code cast to char. Otherwise nothing is sent |
| `KeyHandlingProperties.OnKeyKeepsModifiers` | app/src/main/java/com/runo/softkeyboard/SoftKeyboard.java:574-624 | on-screen keys change only the shown layout and the shifted flags |
| `KeyHandlingProperties.ModeChangeFromSymbols` | app/src/main/java/com/runo/softkeyboard/SoftKeyboard.java:596-604 | mode change from a symbol layout shows Qwerty, even in a numeric editor |
| `KeyHandlingProperties.HandleShiftFlagsShown` | app/src/main/java/com/runo/softkeyboard/SoftKeyboard.java:695-703 | after handleShift the shown symbol layout is flagged shifted exactly when it is SymbolsShifted |
| `KeyHandlingProperties.CharacterCase` | app/src/main/java/com/runo/softkeyboard/SoftKeyboard.java:706-723 | a lower-case ASCII letter is committed in upper case exactly when the view is shown and its layout is flagged shifted |
| `KeyHandlingProperties.SessionLayoutsNeverShift` | app/src/main/java/com/runo/softkeyboard/SoftKeyboard.java:706-723 | on Qwerty and Numeric every code is committed as is, because those layouts are never flagged shifted |
| `KeyHandlingProperties.KeyUpKeepsInvariant` | app/src/main/java/com/runo/softkeyboard/SoftKeyboard.java:431-508 | key release keeps the state valid, and each lock stays set exactly when the last Alt (or Shift) key event sent was a press |
| `KeyHandlingProperties.KeyDownKeepsInvariant` | app/src/main/java/com/runo/softkeyboard/SoftKeyboard.java:360-422 | key press sends no Alt or Shift key event, so each lock still matches the last Alt (or Shift) key event sent |
| `KeyHandlingProperties.OnKeyKeepsInvariant` | app/src/main/java/com/runo/softkeyboard/SoftKeyboard.java:574-624 | on-screen keys keep the state valid, and each lock still matches the last Alt (or Shift) key event sent |
| `KeyHandlingProperties.CycleClearsAltMetaUnderLock` | app/src/main/java/com/runo/softkeyboard/SoftKeyboard.java:487-504 | the Alt+Shift cycle with Alt locked keeps the lock, and the last Alt key event sent is still a press. Yet the last thing sent is the clearing of the editor's Alt meta state, so lock and editor can disagree |
| `SoftKeyboardService.SoftKeyboard.constructor` | app/src/main/java/com/runo/softkeyboard/SoftKeyboard.java:74-78 | both locks start off, the chord flag starts on, the tap times start at 0, the view starts on Qwerty and the session layout comes from the first editor |
| `SoftKeyboardService.SoftKeyboard.OnStartInput` | app/src/main/java/com/runo/softkeyboard/SoftKeyboard.java:147-226 | the session layout becomes the one chosen for the input class; nothing else changes |
| `SoftKeyboardService.SoftKeyboard.OnFinishInput` | app/src/main/java/com/runo/softkeyboard/SoftKeyboard.java:233-251 | the session layout becomes Qwerty; the shown layout and the locks stay |
| `SoftKeyboardService.SoftKeyboard.OnStartInputView` | app/src/main/java/com/runo/softkeyboard/SoftKeyboard.java:254-262 | the view shows the session layout; nothing else changes |
| `SoftKeyboardService.SoftKeyboard.KeyDownUp` | app/src/main/java/com/runo/softkeyboard/SoftKeyboard.java:547-552 | one press and one release of the key are appended to what was sent |
| `SoftKeyboardService.SoftKeyboard.OnKeyDown` | app/src/main/java/com/runo/softkeyboard/SoftKeyboard.java:360-422 | sends and answers as the key-down transition says, changes no state and keeps the invariant |
| `SoftKeyboardService.SoftKeyboard.OnKeyUp` | app/src/main/java/com/runo/softkeyboard/SoftKeyboard.java:431-508 | the new fields, the events sent and the answer are those of the key-up transition; keeps the invariant |
| `SoftKeyboardService.SoftKeyboard.AltTapBlock` | app/src/main/java/com/runo/softkeyboard/SoftKeyboard.java:439-458 | performs the Alt block of key release and says whether it returned |
| `SoftKeyboardService.SoftKeyboard.ShiftTapBlock` | app/src/main/java/com/runo/softkeyboard/SoftKeyboard.java:462-478 | performs the Shift block of key release and says whether it returned |
| `SoftKeyboardService.SoftKeyboard.HandleShift` | app/src/main/java/com/runo/softkeyboard/SoftKeyboard.java:684-704 | swaps the symbol layouts and sets their shifted flags as the handleShift transition says; keeps the invariant |
| `SoftKeyboardService.SoftKeyboard.HandleCharacter` | app/src/main/java/com/runo/softkeyboard/SoftKeyboard.java:706-723 | commits the one character of the handleCharacter transition; keeps the invariant |
| `SoftKeyboardService.SoftKeyboard.OnKey` | app/src/main/java/com/runo/softkeyboard/SoftKeyboard.java:574-624 | the new layout, flags and events are those of the on-screen key transition; keeps the invariant |

The transitions these rows refer to are the functions `KeyHandling.KeyUp`
(with `AltTap` and `ShiftTap`), `KeyHandling.KeyDown`, `KeyHandling.OnKey`
(with `HandleShift`, `ModeChange` and `HandleCharacter`) and
`KeyHandling.Initial`. They carry no contract of their own. What they promise
is stated by the `KeyHandlingProperties` lemmas above.

## Left out

- KeyboardSettings.java is not part of this model. It only opens the system's input-method picker.
- A missing input connection or keyboard view is not modelled. The model assumes `getCurrentInputConnection()` and `mInputView` are present. In the source, a missing connection throws on most paths. The Alt+Shift cycle checks for it, and the symbol commit catches the exception.
- SoftKeyboardService.SoftKeyboard.constructor: models creation together with the first `onStartInput`. The interval in which `mCurKeyboard` is still null is not modelled.
- SoftKeyboardService.SoftKeyboard.OnKeyUp: the source reads the clock twice, at lines 449 and 455. The model uses one `now` for both reads.
- Timestamps and input types are unbounded integers. Overflow of Java `long` clock values is not modelled.
- What the framework's default handling (`super.onKeyDown`, `super.onKeyUp`) does with a key is not modelled. The model only records that the key was passed on.
- SoftKeyboardService.SoftKeyboard.HandleCharacter: upper-cases only ASCII letters. `Character.toUpperCase` on other code points is not modelled.
- SoftKeyboardService.SoftKeyboard.OnKeyDown: a key is its primary code only. A key with an empty `codes` array is not modelled; in the source that exception is caught and the key falls through.
- View and lifecycle glue has no state worth modelling, so these are left out: `handleClose` (hides the window), the options key 4096 (it only reads and logs modifier keys), `setImeOptions`, `setSubtypeOnSpaceKey`, `closing`, `onCreate`, `onInitializeInterface`, `onCreateCandidatesView`, `onCurrentInputMethodSubtypeChanged`, `onUpdateSelection`, the swipe and press callbacks, and logging.
- The `keyCodes` argument of `onKey` is not used by the shown code, so it is not modelled.
- Commented-out code (composing text, candidates, `translateKeyDown`, `sendKey`, `handleBackspace`) is dead and not modelled.
