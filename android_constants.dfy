// Constants of the Android framework that SoftKeyboard.java refers to by name.
// Their values are those of android.view.KeyEvent, android.text.InputType and
// android.inputmethodservice.Keyboard; the two cursor codes and the options code
// are the app's own on-screen key codes.

/** Hardware key codes and meta flags (android.view.KeyEvent). */
module KeyEvent {
  const DpadLeft := 21
  const DpadRight := 22

  const A := 29
  const B := 30
  const C := 31
  const D := 32
  const E := 33
  const F := 34
  const G := 35
  const H := 36
  const I := 37
  const J := 38
  const K := 39
  const L := 40
  const M := 41
  const N := 42
  const O := 43
  const P := 44
  const Q := 45
  const R := 46
  const S := 47
  const T := 48
  const U := 49
  const V := 50
  const W := 51
  const X := 52
  const Y := 53
  const Z := 54

  const AltRight := 58
  const ShiftLeft := 59
  const Del := 67

  /** META_ALT_ON, the mask handed to clearMetaKeyStates. */
  const MetaAltOn := 0x02
}

/** Editor input classes (android.text.InputType). */
module InputType {
  const MaskClass := 0x0f
  const ClassText := 1
  const ClassNumber := 2
  const ClassPhone := 3
  const ClassDatetime := 4
}

/** Codes delivered by on-screen keys to onKey. */
module ScreenKey {
  const Shift := -1        // Keyboard.KEYCODE_SHIFT
  const ModeChange := -2   // Keyboard.KEYCODE_MODE_CHANGE
  const Cancel := -3       // Keyboard.KEYCODE_CANCEL
  const CursorLeft := 1
  const CursorRight := 2
  const Options := 4096
}
