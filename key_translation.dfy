/**
 * The hard-key to symbol-layout lookup of translateKeyToIndex: a letter key of
 * the physical QWERTY keyboard selects the on-screen key at the same visual
 * position of the symbol layout. Layout index 19 belongs to the delete key
 * and is never produced; every key without a mapping yields -1.
 */
module KeyTranslation {
  import KeyEvent

  /** The letter keys, true for KEYCODE_A .. KEYCODE_Z. */
  predicate IsLetterKey(keyCode: int) {
    KeyEvent.A <= keyCode <= KeyEvent.Z
  }

  function TranslateKeyToIndex(keyCode: int): (index: int)
    ensures index == -1 || 0 <= index <= 26
    ensures index != 19
    ensures index != -1 <==> IsLetterKey(keyCode)
  {
    // top row
    if keyCode == KeyEvent.Q then 0
    else if keyCode == KeyEvent.W then 1
    else if keyCode == KeyEvent.E then 2
    else if keyCode == KeyEvent.R then 3
    else if keyCode == KeyEvent.T then 4
    else if keyCode == KeyEvent.Y then 5
    else if keyCode == KeyEvent.U then 6
    else if keyCode == KeyEvent.I then 7
    else if keyCode == KeyEvent.O then 8
    else if keyCode == KeyEvent.P then 9
    // middle row
    else if keyCode == KeyEvent.A then 10
    else if keyCode == KeyEvent.S then 11
    else if keyCode == KeyEvent.D then 12
    else if keyCode == KeyEvent.F then 13
    else if keyCode == KeyEvent.G then 14
    else if keyCode == KeyEvent.H then 15
    else if keyCode == KeyEvent.J then 16
    else if keyCode == KeyEvent.K then 17
    else if keyCode == KeyEvent.L then 18
    // bottom row (the delete key, index 19, and enter, index 27, are not remapped)
    else if keyCode == KeyEvent.Z then 20
    else if keyCode == KeyEvent.X then 21
    else if keyCode == KeyEvent.C then 22
    else if keyCode == KeyEvent.V then 23
    else if keyCode == KeyEvent.B then 24
    else if keyCode == KeyEvent.N then 25
    else if keyCode == KeyEvent.M then 26
    else -1
  }

  // An independent description of the table: the three letter rows of a
  // QWERTY keyboard, each starting at a fixed index of the symbol layout.

  const TopRow := "QWERTYUIOP"
  const MiddleRow := "ASDFGHJKL"
  const BottomRow := "ZXCVBNM"

  const MiddleRowStart := 10
  const BottomRowStart := 20

  /** The Android key code of an upper-case letter. */
  function LetterKeyCode(c: char): (keyCode: int)
    requires 'A' <= c <= 'Z'
    ensures IsLetterKey(keyCode)
  {
    KeyEvent.A + (c as int - 'A' as int)
  }

  /** The physical key that sits at `index` of the symbol layout, or -1. */
  function KeyAtIndex(index: int): int {
    if 0 <= index < |TopRow| then LetterKeyCode(TopRow[index])
    else if MiddleRowStart <= index < MiddleRowStart + |MiddleRow| then LetterKeyCode(MiddleRow[index - MiddleRowStart])
    else if BottomRowStart <= index < BottomRowStart + |BottomRow| then LetterKeyCode(BottomRow[index - BottomRowStart])
    else -1
  }

  /** Every mapped key is the key found at its index: the table agrees with the rows. */
  lemma TranslateThenLocate(keyCode: int)
    ensures TranslateKeyToIndex(keyCode) != -1 ==> KeyAtIndex(TranslateKeyToIndex(keyCode)) == keyCode
  {
  }

  /** Every key found in the rows translates back to its index. */
  lemma LocateThenTranslate(index: int)
    ensures KeyAtIndex(index) != -1 ==> TranslateKeyToIndex(KeyAtIndex(index)) == index
  {
  }

  /** No two letter keys share a symbol position. */
  lemma TranslateInjective(a: int, b: int)
    requires TranslateKeyToIndex(a) == TranslateKeyToIndex(b) != -1
    ensures a == b
  {
  }

  /** The row positions used by the symbol layout: Q..P are 0..9, A..L are 10..18, Z..M are 20..26. */
  lemma RowsGiveIndices(col: nat)
    ensures col < |TopRow| ==> TranslateKeyToIndex(LetterKeyCode(TopRow[col])) == col
    ensures col < |MiddleRow| ==> TranslateKeyToIndex(LetterKeyCode(MiddleRow[col])) == MiddleRowStart + col
    ensures col < |BottomRow| ==> TranslateKeyToIndex(LetterKeyCode(BottomRow[col])) == BottomRowStart + col
  {
  }
}
