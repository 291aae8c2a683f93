/**
 * The input-method service object: the fields it updates in place and the
 * framework callbacks that update them. Every callback is proved to perform
 * the matching transition of KeyHandling and to keep the object invariant:
 * the session layout is Qwerty or Numeric, only symbol layouts are flagged
 * shifted, and the Alt and Shift locks agree with the Alt/Shift key events
 * the service has sent to the editor.
 */
module SoftKeyboardService {
  import KeyEvent
  import ScreenKey
  import opened Layers
  import opened Events
  import opened KeyTranslation
  import opened KeyHandling
  import KeyHandlingProperties

  class SoftKeyboard {
    var altLock: bool
    var shiftLock: bool
    var altShortcut: bool
    var lastAltTime: int
    var lastShiftTime: int
    var curKeyboard: Layer           // the session layout
    var shownKeyboard: Layer         // the layout the keyboard view shows
    var shiftedKeyboards: set<Layer> // layouts whose keyboard object is flagged shifted
    var sent: seq<Event>             // everything handed to the editor's input connection
    const layouts: Layouts

    ghost function Snapshot(): State
      reads this
    {
      State(altLock, shiftLock, altShortcut, lastAltTime, lastShiftTime,
            curKeyboard, shownKeyboard, shiftedKeyboards)
    }

    ghost predicate Valid()
      reads this
    {
      KeyHandling.Valid(Snapshot()) && LocksEchoed(Snapshot(), sent)
    }

    /** Creation with the field initialisers, the view set to Qwerty, and the first editor started. */
    constructor (inputType: int, layouts: Layouts)
      ensures Valid()
      ensures Snapshot() == Initial(inputType) && sent == [] && this.layouts == layouts
    {
      lastShiftTime, lastAltTime := 0, 0;
      altLock, shiftLock, altShortcut := false, false, true;
      shownKeyboard := Qwerty;
      shiftedKeyboards := {};
      curKeyboard := LayerForInputType(inputType);
      sent := [];
      this.layouts := layouts;
    }

    /** onStartInput: choose the session layout from the editor's input class. */
    method OnStartInput(inputType: int)
      requires Valid()
      modifies this`curKeyboard
      ensures Valid()
      ensures curKeyboard == LayerForInputType(inputType)
    {
      curKeyboard := LayerForInputType(inputType);
    }

    /** onFinishInput: the session layout falls back to Qwerty; the shown layout stays. */
    method OnFinishInput()
      requires Valid()
      modifies this`curKeyboard
      ensures Valid()
      ensures curKeyboard == Qwerty
    {
      curKeyboard := Qwerty;
    }

    /** onStartInputView: the view shows the session layout. */
    method OnStartInputView()
      requires Valid()
      modifies this`shownKeyboard
      ensures Valid()
      ensures shownKeyboard == curKeyboard
    {
      shownKeyboard := curKeyboard;
    }

    /** keyDownUp: one press and release of `keyCode`. */
    method KeyDownUp(keyCode: int)
      modifies this`sent
      ensures sent == old(sent) + [Down(keyCode), Up(keyCode)]
    {
      sent := sent + [Down(keyCode)];
      sent := sent + [Up(keyCode)];
    }

    /** onKeyDown: delete suppression and symbol translation of a hardware key. */
    method OnKeyDown(keyCode: int) returns (disposition: Disposition)
      requires Valid()
      modifies this`sent
      ensures Valid()
      ensures var r := KeyDown(old(Snapshot()), layouts, keyCode);
        sent == old(sent) + r.sent && disposition == r.disposition
    {
      KeyHandlingProperties.KeyDownKeepsInvariant(Snapshot(), sent, layouts, keyCode);
      if (altLock && keyCode == KeyEvent.Del) || curKeyboard == Numeric {
        KeyDownUp(KeyEvent.Del);
        return Consumed;
      }
      var current := shownKeyboard;
      if current == Symbols || curKeyboard == SymbolsShifted {
        var pressedKey := TranslateKeyToIndex(keyCode);
        if pressedKey != -1 {
          var keys := layouts.Keys(current);
          if pressedKey < |keys| {
            sent := sent + [Commit(ToChar(keys[pressedKey]))];
            return Consumed;
          }
          // an index past the layout throws, is caught, and falls through
        }
      }
      return DefaultHandling;
    }

    /** onKeyUp: double-tap Alt/Shift locks on Qwerty and the Alt+Shift layout cycle. */
    method OnKeyUp(keyCode: int, altPressed: bool, now: int) returns (disposition: Disposition)
      requires Valid()
      modifies this
      ensures Valid()
      ensures var r := KeyUp(old(Snapshot()), keyCode, altPressed, now);
        Snapshot() == r.state && sent == old(sent) + r.sent && disposition == r.disposition
    {
      ghost var r := KeyUp(Snapshot(), keyCode, altPressed, now);
      ghost var sent0 := sent;
      KeyHandlingProperties.KeyUpKeepsInvariant(Snapshot(), sent, keyCode, altPressed, now);
      var current := shownKeyboard;
      if current == Qwerty {
        if keyCode == KeyEvent.AltRight {
          var consumed := AltTapBlock(now);
          if consumed {
            return Consumed;
          }
        }
        if keyCode == KeyEvent.ShiftLeft {
          var consumed := ShiftTapBlock(now);
          if consumed {
            return Consumed;
          }
        }
      }
      if altPressed && keyCode == KeyEvent.ShiftLeft {
        shownKeyboard := CycleSymbols(current, curKeyboard);
        sent := sent + [ClearMeta(KeyEvent.MetaAltOn)];
        altShortcut := true;
        assert Snapshot() == r.state && sent == sent0 + r.sent;
        return Consumed;
      }
      return DefaultHandling;
    }

    /** The ALT_RIGHT block of onKeyUp; `consumed` is whether it returns true. */
    method AltTapBlock(now: int) returns (consumed: bool)
      modifies this`altLock, this`altShortcut, this`lastAltTime, this`sent
      ensures var r := AltTap(old(Snapshot()), now);
        Snapshot() == r.state && sent == old(sent) + r.sent && consumed == (r.disposition == Consumed)
    {
      if altShortcut {
        altShortcut := false;
      } else if altLock {
        altLock := false;
        sent := sent + [Up(KeyEvent.AltRight)];
        return true;
      } else if now - lastAltTime < DoubleTapWindow {
        sent := sent + [Down(KeyEvent.AltRight)];
        altLock := true;
        return true;
      } else {
        lastAltTime := now;
      }
      return false;
    }

    /** The SHIFT_LEFT block of onKeyUp; `consumed` is whether it returns true. */
    method ShiftTapBlock(now: int) returns (consumed: bool)
      modifies this`shiftLock, this`lastShiftTime, this`sent
      ensures var r := ShiftTap(old(Snapshot()), now);
        Snapshot() == r.state && sent == old(sent) + r.sent && consumed == (r.disposition == Consumed)
    {
      if shiftLock {
        shiftLock := false;
        sent := sent + [Up(KeyEvent.ShiftLeft)];
        return true;
      } else if now - lastShiftTime < DoubleTapWindow {
        sent := sent + [Down(KeyEvent.ShiftLeft)];
        shiftLock := true;
        return true;
      } else {
        lastShiftTime := now;
      }
      return false;
    }

    /** handleShift: swap the symbol layouts and set their shifted flags. */
    method HandleShift()
      requires Valid()
      modifies this`shownKeyboard, this`shiftedKeyboards
      ensures Valid()
      ensures Snapshot() == KeyHandling.HandleShift(old(Snapshot()))
    {
      var currentKeyboard := shownKeyboard;
      if currentKeyboard == Symbols {
        shiftedKeyboards := shiftedKeyboards + {Symbols};
        shownKeyboard := ShiftTarget(currentKeyboard);
        shiftedKeyboards := shiftedKeyboards + {SymbolsShifted};
      } else if currentKeyboard == SymbolsShifted {
        shiftedKeyboards := shiftedKeyboards - {SymbolsShifted};
        shownKeyboard := ShiftTarget(currentKeyboard);
        shiftedKeyboards := shiftedKeyboards - {Symbols};
      }
    }

    /** handleCharacter: commit the character, upper-cased when the shown layout is shifted. */
    method HandleCharacter(primaryCode: int, viewShown: bool)
      requires Valid()
      modifies this`sent
      ensures Valid()
      ensures sent == old(sent) + KeyHandling.HandleCharacter(old(Snapshot()), primaryCode, viewShown)
    {
      var code := primaryCode;
      if viewShown && shownKeyboard in shiftedKeyboards {
        code := ToUpperAscii(code);
      }
      sent := sent + [Commit(ToChar(code))];
    }

    /** onKey: dispatch of an on-screen key. */
    method OnKey(primaryCode: int, viewShown: bool)
      requires Valid()
      modifies this`shownKeyboard, this`shiftedKeyboards, this`sent
      ensures Valid()
      ensures var r := KeyHandling.OnKey(old(Snapshot()), primaryCode, viewShown);
        Snapshot() == r.state && sent == old(sent) + r.sent
    {
      KeyHandlingProperties.OnKeyKeepsInvariant(Snapshot(), sent, primaryCode, viewShown);
      if primaryCode == ScreenKey.Shift {
        HandleShift();
      } else if primaryCode == ScreenKey.Cancel {
        return;
      } else if primaryCode == ScreenKey.ModeChange {
        var current := ModeChangeTarget(shownKeyboard);
        shownKeyboard := current;
        if current == Symbols {
          shiftedKeyboards := shiftedKeyboards - {Symbols};
        }
      } else if primaryCode == ScreenKey.CursorLeft {
        KeyDownUp(KeyEvent.DpadLeft);
      } else if primaryCode == ScreenKey.CursorRight {
        KeyDownUp(KeyEvent.DpadRight);
      } else if primaryCode == ScreenKey.Options {
      } else {
        HandleCharacter(primaryCode, viewShown);
      }
    }
  }
}
