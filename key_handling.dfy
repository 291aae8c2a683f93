/**
 * The hard-key modifier-lock and layout state machine of the soft keyboard
 * service, as pure transitions over a value `State`. The service class in
 * SoftKeyboardService is proved to perform exactly these transitions.
 */
module KeyHandling {
  import KeyEvent
  import ScreenKey
  import opened Layers
  import opened Events
  import opened KeyTranslation

  /** Two releases of Alt or Shift closer than this many milliseconds are a double tap. */
  const DoubleTapWindow := 600

  datatype State = State(
    altLock: bool,
    shiftLock: bool,
    altShortcut: bool,    // the next Alt release ends a chord and is not a tap
    lastAltTime: int,     // time of the last Alt release counted as a first tap
    lastShiftTime: int,   // time of the last Shift release counted as a first tap
    session: Layer,       // mCurKeyboard, the layout chosen for the current editor
    shown: Layer,         // the layout the keyboard view currently shows
    shifted: set<Layer>)  // the layouts whose keyboard object has its shifted flag set

  /** What every reachable state satisfies. */
  predicate Valid(s: State) {
    IsSessionLayer(s.session) && forall l :: l in s.shifted ==> IsSymbolLayer(l)
  }

  /** Each lock is set exactly when the last Alt (or Shift) key event sent was a press. */
  predicate LocksEchoed(s: State, sent: seq<Event>) {
    s.altLock == HeldBySent(sent, KeyEvent.AltRight) &&
    s.shiftLock == HeldBySent(sent, KeyEvent.ShiftLeft)
  }

  /** The field initialisers, the view showing Qwerty, and the first editor's layout. */
  function Initial(inputType: int): State {
    State(false, false, true, 0, 0, LayerForInputType(inputType), Qwerty, {})
  }

  /** The new state, what was sent, and the answer to the framework. */
  datatype KeyResult = KeyResult(state: State, sent: seq<Event>, disposition: Disposition)

  /** What was sent and the answer, for handlers that change no state. */
  datatype Reply = Reply(sent: seq<Event>, disposition: Disposition)

  /** The new state and what was sent, for handlers that answer nothing. */
  datatype Effect = Effect(state: State, sent: seq<Event>)

  // ---------------------------------------------------------------- key up

  /**
   * The ALT_RIGHT block of onKeyUp on the Qwerty layout. `Consumed` means the
   * block returned true; `DefaultHandling` means control fell through.
   */
  function AltTap(s: State, now: int): KeyResult {
    if s.altShortcut then KeyResult(s.(altShortcut := false), [], DefaultHandling)
    else if s.altLock then KeyResult(s.(altLock := false), [Up(KeyEvent.AltRight)], Consumed)
    else if now - s.lastAltTime < DoubleTapWindow then
      KeyResult(s.(altLock := true), [Down(KeyEvent.AltRight)], Consumed)
    else KeyResult(s.(lastAltTime := now), [], DefaultHandling)
  }

  /** The SHIFT_LEFT block of onKeyUp on the Qwerty layout; same conventions as AltTap. */
  function ShiftTap(s: State, now: int): KeyResult {
    if s.shiftLock then KeyResult(s.(shiftLock := false), [Up(KeyEvent.ShiftLeft)], Consumed)
    else if now - s.lastShiftTime < DoubleTapWindow then
      KeyResult(s.(shiftLock := true), [Down(KeyEvent.ShiftLeft)], Consumed)
    else KeyResult(s.(lastShiftTime := now), [], DefaultHandling)
  }

  /** onKeyUp: `altPressed` is the event's isAltPressed(), `now` the clock reading. */
  function KeyUp(s: State, keyCode: int, altPressed: bool, now: int): KeyResult {
    var tap :=
      if s.shown == Qwerty && keyCode == KeyEvent.AltRight then AltTap(s, now)
      else if s.shown == Qwerty && keyCode == KeyEvent.ShiftLeft then ShiftTap(s, now)
      else KeyResult(s, [], DefaultHandling);
    if tap.disposition == Consumed then tap
    else if altPressed && keyCode == KeyEvent.ShiftLeft then
      var t := tap.state;
      KeyResult(t.(shown := CycleSymbols(s.shown, t.session), altShortcut := true),
                [ClearMeta(KeyEvent.MetaAltOn)], Consumed)
    else KeyResult(tap.state, [], DefaultHandling)
  }

  // -------------------------------------------------------------- key down

  /** Whether onKeyDown replaces the key by a plain delete. */
  predicate SuppressedByDelete(s: State, keyCode: int) {
    (s.altLock && keyCode == KeyEvent.Del) || s.session == Numeric
  }

  /** onKeyDown; it never changes the state. */
  function KeyDown(s: State, layouts: Layouts, keyCode: int): Reply {
    if SuppressedByDelete(s, keyCode) then
      Reply([Down(KeyEvent.Del), Up(KeyEvent.Del)], Consumed)
    else if s.shown == Symbols || s.session == SymbolsShifted then
      var index := TranslateKeyToIndex(keyCode);
      var keys := layouts.Keys(s.shown);
      if index != -1 && index < |keys| then Reply([Commit(ToChar(keys[index]))], Consumed)
      else Reply([], DefaultHandling)  // no mapping, or the lookup failed and was caught
    else Reply([], DefaultHandling)
  }

  // -------------------------------------------------------- on-screen keys

  /** handleShift: swap the two symbol layouts, marking the shifted one shifted. */
  function HandleShift(s: State): State {
    if s.shown == Symbols then
      s.(shown := ShiftTarget(s.shown), shifted := s.shifted + {Symbols, SymbolsShifted})
    else if s.shown == SymbolsShifted then
      s.(shown := ShiftTarget(s.shown), shifted := s.shifted - {Symbols, SymbolsShifted})
    else s
  }

  /** The mode-change key of onKey: entering Symbols also clears its shifted flag. */
  function ModeChange(s: State): State {
    var next := ModeChangeTarget(s.shown);
    s.(shown := next, shifted := if next == Symbols then s.shifted - {Symbols} else s.shifted)
  }

  predicate IsAsciiLower(code: int) {
    'a' as int <= code <= 'z' as int
  }

  /** Character.toUpperCase restricted to ASCII. */
  function ToUpperAscii(code: int): (upper: int)
    ensures !IsAsciiLower(upper)
    ensures IsAsciiLower(code) ==> upper == code - ('a' as int - 'A' as int)
    ensures !IsAsciiLower(code) ==> upper == code
  {
    if IsAsciiLower(code) then code - ('a' as int - 'A' as int) else code
  }

  /** handleCharacter: `viewShown` is isInputViewShown(). */
  function HandleCharacter(s: State, primaryCode: int, viewShown: bool): seq<Event> {
    var code := if viewShown && s.shown in s.shifted then ToUpperAscii(primaryCode) else primaryCode;
    [Commit(ToChar(code))]
  }

  /** onKey, the listener of the on-screen keyboard view. */
  function OnKey(s: State, primaryCode: int, viewShown: bool): Effect {
    if primaryCode == ScreenKey.Shift then Effect(HandleShift(s), [])
    else if primaryCode == ScreenKey.Cancel then Effect(s, [])  // handleClose only hides the window
    else if primaryCode == ScreenKey.ModeChange then Effect(ModeChange(s), [])
    else if primaryCode == ScreenKey.CursorLeft then
      Effect(s, [Down(KeyEvent.DpadLeft), Up(KeyEvent.DpadLeft)])
    else if primaryCode == ScreenKey.CursorRight then
      Effect(s, [Down(KeyEvent.DpadRight), Up(KeyEvent.DpadRight)])
    else if primaryCode == ScreenKey.Options then Effect(s, [])
    else Effect(s, HandleCharacter(s, primaryCode, viewShown))
  }
}
