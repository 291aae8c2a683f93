/** What the key-handling transitions promise, alone and in sequence. */
module KeyHandlingProperties {
  import KeyEvent
  import ScreenKey
  import opened Layers
  import opened Events
  import opened KeyTranslation
  import opened KeyHandling

  // ------------------------------------------------------ Alt lock (key up)

  /** After a chord, an Alt release on Qwerty only clears the shortcut flag. */
  lemma AltReleaseAfterChord(s: State, altPressed: bool, now: int)
    requires s.shown == Qwerty && s.altShortcut
    ensures KeyUp(s, KeyEvent.AltRight, altPressed, now) == KeyResult(s.(altShortcut := false), [], DefaultHandling)
  {
  }

  /** The first Alt release after the service starts is absorbed, whatever its timing. */
  lemma FirstAltReleaseAbsorbed(inputType: int, altPressed: bool, now: int)
    ensures var r := KeyUp(Initial(inputType), KeyEvent.AltRight, altPressed, now);
      !r.state.altLock && !r.state.altShortcut && r.state.lastAltTime == 0 && r.sent == []
  {
  }

  /** An Alt release on Qwerty outside a chord: unlock, lock on a double tap, or record the tap. */
  lemma AltRelease(s: State, altPressed: bool, now: int)
    requires s.shown == Qwerty && !s.altShortcut
    ensures var r := KeyUp(s, KeyEvent.AltRight, altPressed, now);
      && (s.altLock ==>
            r == KeyResult(s.(altLock := false), [Up(KeyEvent.AltRight)], Consumed))
      && (!s.altLock && now - s.lastAltTime < DoubleTapWindow ==>
            r == KeyResult(s.(altLock := true), [Down(KeyEvent.AltRight)], Consumed))
      && (!s.altLock && now - s.lastAltTime >= DoubleTapWindow ==>
            r == KeyResult(s.(lastAltTime := now), [], DefaultHandling))
  {
  }

  /** Two Alt releases, the second within the window of the first, set the Alt lock. */
  lemma DoubleTapLocksAlt(s: State, t1: int, t2: int)
    requires s.shown == Qwerty && !s.altShortcut && !s.altLock
    requires t1 - s.lastAltTime >= DoubleTapWindow && t2 - t1 < DoubleTapWindow
    ensures var r1 := KeyUp(s, KeyEvent.AltRight, false, t1);
      var r2 := KeyUp(r1.state, KeyEvent.AltRight, false, t2);
      && r1.sent == [] && r1.disposition == DefaultHandling
      && r2.state.altLock && r2.sent == [Down(KeyEvent.AltRight)] && r2.disposition == Consumed
      && r2.state.lastAltTime == t1
  {
  }

  /**
   * Setting or clearing the lock does not refresh the tap time: after an
   * unlock, one more release within the window of the last recorded tap
   * locks again at once.
   */
  lemma UnlockKeepsStaleTapTime(s: State, t1: int, t2: int)
    requires s.shown == Qwerty && !s.altShortcut && s.altLock
    requires t2 - s.lastAltTime < DoubleTapWindow
    ensures var r1 := KeyUp(s, KeyEvent.AltRight, false, t1);
      var r2 := KeyUp(r1.state, KeyEvent.AltRight, false, t2);
      && !r1.state.altLock && r1.state.lastAltTime == s.lastAltTime
      && r2.state.altLock && r2.sent == [Down(KeyEvent.AltRight)]
  {
  }

  // ---------------------------------------------------- Shift lock (key up)

  /** A Shift release on Qwerty toggles the Shift lock by the same double-tap rule, with no chord flag. */
  lemma ShiftRelease(s: State, altPressed: bool, now: int)
    requires s.shown == Qwerty
    ensures var r := KeyUp(s, KeyEvent.ShiftLeft, altPressed, now);
      && (s.shiftLock ==>
            r == KeyResult(s.(shiftLock := false), [Up(KeyEvent.ShiftLeft)], Consumed))
      && (!s.shiftLock && now - s.lastShiftTime < DoubleTapWindow ==>
            r == KeyResult(s.(shiftLock := true), [Down(KeyEvent.ShiftLeft)], Consumed))
      && (!s.shiftLock && now - s.lastShiftTime >= DoubleTapWindow && !altPressed ==>
            r == KeyResult(s.(lastShiftTime := now), [], DefaultHandling))
  {
  }

  /** Away from the Qwerty layout no key release touches the locks or the tap times. */
  lemma KeyUpOffQwertyKeepsLocks(s: State, keyCode: int, altPressed: bool, now: int)
    requires s.shown != Qwerty
    ensures var r := KeyUp(s, keyCode, altPressed, now);
      && r.state.altLock == s.altLock && r.state.shiftLock == s.shiftLock
      && r.state.lastAltTime == s.lastAltTime && r.state.lastShiftTime == s.lastShiftTime
      && (!(altPressed && keyCode == KeyEvent.ShiftLeft) ==> r == KeyResult(s, [], DefaultHandling))
  {
  }

  // ------------------------------------------------- Alt+Shift layout cycle

  /**
   * Shift released with Alt held, when the Shift-lock block did not return
   * first, advances the cycle, marks a chord and is consumed.
   */
  lemma AltShiftCycles(s: State, now: int)
    requires s.shown != Qwerty || (!s.shiftLock && now - s.lastShiftTime >= DoubleTapWindow)
    ensures var r := KeyUp(s, KeyEvent.ShiftLeft, true, now);
      && r.disposition == Consumed
      && r.sent == [ClearMeta(KeyEvent.MetaAltOn)]
      && r.state == s.(shown := CycleSymbols(s.shown, s.session), altShortcut := true,
                       lastShiftTime := if s.shown == Qwerty then now else s.lastShiftTime)
  {
  }

  /** On Qwerty the Shift-lock block runs first: a lock change pre-empts the cycle. */
  lemma ShiftLockPreemptsCycle(s: State, now: int)
    requires s.shown == Qwerty && (s.shiftLock || now - s.lastShiftTime < DoubleTapWindow)
    ensures var r := KeyUp(s, KeyEvent.ShiftLeft, true, now);
      r.state.shown == Qwerty && r.state.altShortcut == s.altShortcut && r.state.shiftLock != s.shiftLock
  {
  }

  /** Three Alt+Shift chords from the session layout return to it, through Symbols and SymbolsShifted. */
  lemma ThreeChordsReturn(s: State, t1: int, t2: int, t3: int)
    requires Valid(s) && s.shown == s.session
    requires s.shown != Qwerty || (!s.shiftLock && t1 - s.lastShiftTime >= DoubleTapWindow)
    ensures var r1 := KeyUp(s, KeyEvent.ShiftLeft, true, t1);
      var r2 := KeyUp(r1.state, KeyEvent.ShiftLeft, true, t2);
      var r3 := KeyUp(r2.state, KeyEvent.ShiftLeft, true, t3);
      && r1.state.shown == Symbols && r2.state.shown == SymbolsShifted && r3.state.shown == s.shown
      && r3.state.altLock == s.altLock && r3.state.shiftLock == s.shiftLock && r3.state.altShortcut
  {
  }

  // --------------------------------------------------------------- key down

  /** A key is replaced by one delete press exactly when Alt is locked and it is delete, or the editor is numeric. */
  lemma DeleteSuppression(s: State, layouts: Layouts, keyCode: int)
    ensures var r := KeyDown(s, layouts, keyCode);
      && (r.sent == [Down(KeyEvent.Del), Up(KeyEvent.Del)] <==>
            (s.altLock && keyCode == KeyEvent.Del) || s.session == Numeric)
      && (SuppressedByDelete(s, keyCode) ==> r.disposition == Consumed)
  {
  }

  /**
   * With the session on Qwerty or Numeric, a key press commits a symbol
   * exactly when Symbols is shown and the key maps to a position of its
   * layout; otherwise nothing is sent and the default handling runs.
   */
  lemma SymbolTranslation(s: State, layouts: Layouts, keyCode: int)
    requires Valid(s) && !SuppressedByDelete(s, keyCode)
    ensures var r := KeyDown(s, layouts, keyCode);
      var index := TranslateKeyToIndex(keyCode);
      && (r.disposition == Consumed <==>
            s.shown == Symbols && IsLetterKey(keyCode) && index < |layouts.symbols|)
      && (r.disposition == Consumed ==> r.sent == [Commit(ToChar(layouts.symbols[index]))])
      && (r.disposition == DefaultHandling ==> r.sent == [])
  {
  }

  // --------------------------------------------------------- on-screen keys

  /** On-screen keys change only the shown layout and the shifted flags. */
  lemma OnKeyKeepsModifiers(s: State, primaryCode: int, viewShown: bool)
    ensures var r := OnKey(s, primaryCode, viewShown);
      r.state == s.(shown := r.state.shown, shifted := r.state.shifted)
  {
  }

  /** Mode change from a symbol layout always goes to Qwerty, even in a numeric editor. */
  lemma ModeChangeFromSymbols(s: State, viewShown: bool)
    requires IsSymbolLayer(s.shown)
    ensures OnKey(s, ScreenKey.ModeChange, viewShown).state.shown == Qwerty
  {
  }

  /** After handleShift on a symbol layout, the shown layout is flagged shifted exactly when it is SymbolsShifted. */
  lemma HandleShiftFlagsShown(s: State)
    requires IsSymbolLayer(s.shown)
    ensures var t := HandleShift(s);
      IsSymbolLayer(t.shown) && (t.shown in t.shifted <==> t.shown == SymbolsShifted)
  {
  }

  /** A lower-case ASCII letter is committed upper-case exactly when the shown layout is shifted and the view is shown. */
  lemma CharacterCase(s: State, primaryCode: int, viewShown: bool)
    requires IsAsciiLower(primaryCode)
    ensures HandleCharacter(s, primaryCode, viewShown) ==
      if viewShown && s.shown in s.shifted then [Commit(primaryCode - 32)] else [Commit(primaryCode)]
  {
  }

  /** Characters typed on Qwerty or Numeric are never upper-cased: those layouts are never flagged shifted. */
  lemma SessionLayoutsNeverShift(s: State, primaryCode: int, viewShown: bool)
    requires Valid(s) && IsSessionLayer(s.shown)
    ensures HandleCharacter(s, primaryCode, viewShown) == [Commit(ToChar(primaryCode))]
  {
  }

  // ------------------------------------------------------------ invariants

  /** Every handler keeps the state valid and the locks in step with the Alt/Shift key events sent. */
  lemma KeyUpKeepsInvariant(s: State, sent: seq<Event>, keyCode: int, altPressed: bool, now: int)
    requires Valid(s) && LocksEchoed(s, sent)
    ensures var r := KeyUp(s, keyCode, altPressed, now);
      Valid(r.state) && LocksEchoed(r.state, sent + r.sent)
  {
    var r := KeyUp(s, keyCode, altPressed, now);
    if s.shown == Qwerty && keyCode == KeyEvent.AltRight && AltTap(s, now).disposition == Consumed {
      // the Alt block locked or unlocked: one Alt event, nothing about Shift
      assert r == AltTap(s, now);
      assert r.sent == [Up(KeyEvent.AltRight)] || r.sent == [Down(KeyEvent.AltRight)];
      assert forall i :: 0 <= i < |r.sent| ==> !Mentions(r.sent[i], KeyEvent.ShiftLeft);
      HeldBySentIgnores(sent, r.sent, KeyEvent.ShiftLeft);
    } else if s.shown == Qwerty && keyCode == KeyEvent.ShiftLeft && ShiftTap(s, now).disposition == Consumed {
      // the Shift block locked or unlocked: one Shift event, nothing about Alt
      assert r == ShiftTap(s, now);
      assert r.sent == [Up(KeyEvent.ShiftLeft)] || r.sent == [Down(KeyEvent.ShiftLeft)];
      assert forall i :: 0 <= i < |r.sent| ==> !Mentions(r.sent[i], KeyEvent.AltRight);
      HeldBySentIgnores(sent, r.sent, KeyEvent.AltRight);
    } else {
      // no lock changed: nothing sent, or only the clearing of Alt meta state
      assert r.state.altLock == s.altLock && r.state.shiftLock == s.shiftLock;
      assert r.sent == [] || r.sent == [ClearMeta(KeyEvent.MetaAltOn)];
      assert forall i :: 0 <= i < |r.sent| ==>
        !Mentions(r.sent[i], KeyEvent.AltRight) && !Mentions(r.sent[i], KeyEvent.ShiftLeft);
      HeldBySentIgnores(sent, r.sent, KeyEvent.AltRight);
      HeldBySentIgnores(sent, r.sent, KeyEvent.ShiftLeft);
    }
  }

  lemma KeyDownKeepsInvariant(s: State, sent: seq<Event>, layouts: Layouts, keyCode: int)
    requires LocksEchoed(s, sent)
    ensures LocksEchoed(s, sent + KeyDown(s, layouts, keyCode).sent)
  {
    var extra := KeyDown(s, layouts, keyCode).sent;
    assert forall i :: 0 <= i < |extra| ==>
      !Mentions(extra[i], KeyEvent.AltRight) && !Mentions(extra[i], KeyEvent.ShiftLeft);
    HeldBySentIgnores(sent, extra, KeyEvent.AltRight);
    HeldBySentIgnores(sent, extra, KeyEvent.ShiftLeft);
  }

  lemma OnKeyKeepsInvariant(s: State, sent: seq<Event>, primaryCode: int, viewShown: bool)
    requires Valid(s) && LocksEchoed(s, sent)
    ensures var r := OnKey(s, primaryCode, viewShown);
      Valid(r.state) && LocksEchoed(r.state, sent + r.sent)
  {
    var r := OnKey(s, primaryCode, viewShown);
    assert r.state.session == s.session && r.state.altLock == s.altLock && r.state.shiftLock == s.shiftLock;
    assert r.state.shifted <= s.shifted + {Symbols, SymbolsShifted};
    assert forall i :: 0 <= i < |r.sent| ==>
      !Mentions(r.sent[i], KeyEvent.AltRight) && !Mentions(r.sent[i], KeyEvent.ShiftLeft);
    HeldBySentIgnores(sent, r.sent, KeyEvent.AltRight);
    HeldBySentIgnores(sent, r.sent, KeyEvent.ShiftLeft);
  }

  /**
   * The Alt+Shift cycle clears the editor's Alt meta state but leaves the
   * Alt lock set: after it, the lock is on while the last thing sent is the
   * clearing of Alt meta state.
   */
  lemma CycleClearsAltMetaUnderLock(s: State, sent: seq<Event>, now: int)
    requires Valid(s) && LocksEchoed(s, sent) && s.altLock
    requires s.shown != Qwerty || (!s.shiftLock && now - s.lastShiftTime >= DoubleTapWindow)
    ensures var r := KeyUp(s, KeyEvent.ShiftLeft, true, now);
      && r.state.altLock
      && HeldBySent(sent + r.sent, KeyEvent.AltRight)
      && (sent + r.sent)[|sent + r.sent| - 1] == ClearMeta(KeyEvent.MetaAltOn)
  {
    AltShiftCycles(s, now);
    KeyUpKeepsInvariant(s, sent, KeyEvent.ShiftLeft, true, now);
  }
}
