/**
 * What the service hands to the editor's InputConnection, recorded as a log
 * of events, and what an event handler answers the framework.
 */
module Events {
  /** A Java `char`: one UTF-16 code unit. */
  type Utf16Unit = x: int | 0 <= x < 0x1_0000

  /** The Java cast `(char) code`: keeps the low 16 bits of the int. */
  function ToChar(code: int): (u: Utf16Unit)
    ensures (code - u) % 0x1_0000 == 0
    ensures 0 <= code < 0x1_0000 ==> u == code
  {
    code % 0x1_0000
  }

  datatype Event =
    | Down(code: int)        // sendKeyEvent(new KeyEvent(ACTION_DOWN, code))
    | Up(code: int)          // sendKeyEvent(new KeyEvent(ACTION_UP, code))
    | Commit(ch: Utf16Unit)  // commitText(String.valueOf(ch), 1)
    | ClearMeta(states: int) // clearMetaKeyStates(states)

  /** `return true` from onKeyDown/onKeyUp, or the answer of the framework's default handling. */
  datatype Disposition = Consumed | DefaultHandling

  predicate Mentions(e: Event, code: int) {
    (e.Down? || e.Up?) && e.code == code
  }

  /**
   * Whether the last press or release of key `code` in `sent` was a press.
   * Only key events count: a later ClearMeta, which drops the editor's own
   * meta state, is ignored, so this is not necessarily what the editor sees.
   */
  function HeldBySent(sent: seq<Event>, code: int): (held: bool)
    ensures held ==> exists i :: 0 <= i < |sent| && sent[i] == Down(code)
  {
    if sent == [] then false
    else
      var last := sent[|sent| - 1];
      if last == Down(code) then true
      else if last == Up(code) then false
      else HeldBySent(sent[..|sent| - 1], code)
  }

  /** Events that do not mention a key leave its held state alone. */
  lemma {:induction false} HeldBySentIgnores(sent: seq<Event>, extra: seq<Event>, code: int)
    requires forall i :: 0 <= i < |extra| ==> !Mentions(extra[i], code)
    ensures HeldBySent(sent + extra, code) == HeldBySent(sent, code)
  {
    if extra == [] {
      assert sent + extra == sent;
    } else {
      var init := extra[..|extra| - 1];
      assert (sent + extra)[..|sent + extra| - 1] == sent + init;
      assert !Mentions(extra[|extra| - 1], code);
      HeldBySentIgnores(sent, init, code);
    }
  }

  /** A down event leaves its key held; an up event releases it. */
  lemma HeldAfterLast(sent: seq<Event>, code: int)
    ensures HeldBySent(sent + [Down(code)], code)
    ensures !HeldBySent(sent + [Up(code)], code)
  {
  }
}
