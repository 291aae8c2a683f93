/**
 * The four keyboard layouts the service switches between, and the layout
 * transitions that do not depend on modifier state. The source compares
 * LatinKeyboard objects by identity; here the objects are the values of
 * `Layer`.
 */
module Layers {
  import InputType

  datatype Layer = Qwerty | Numeric | Symbols | SymbolsShifted

  /** The layouts a session starts on (the only values mCurKeyboard is given). */
  predicate IsSessionLayer(l: Layer) {
    l == Qwerty || l == Numeric
  }

  predicate IsSymbolLayer(l: Layer) {
    l == Symbols || l == SymbolsShifted
  }

  /** The primary code (codes[0]) of every key of each layout, in layout order. */
  datatype Layouts = Layouts(qwerty: seq<int>, numeric: seq<int>, symbols: seq<int>, symbolsShifted: seq<int>)
  {
    function Keys(l: Layer): seq<int> {
      match l
      case Qwerty => qwerty
      case Numeric => numeric
      case Symbols => symbols
      case SymbolsShifted => symbolsShifted
    }
  }

  /** `inputType & TYPE_MASK_CLASS`; on a two's-complement int this is the Euclidean remainder by 16. */
  function InputClass(inputType: int): (c: int)
    ensures 0 <= c <= InputType.MaskClass
    ensures (inputType - c) % (InputType.MaskClass + 1) == 0
  {
    inputType % (InputType.MaskClass + 1)
  }

  /** The layout onStartInput chooses for an editor's input type. */
  function LayerForInputType(inputType: int): (l: Layer)
    ensures IsSessionLayer(l)
    ensures l == Numeric <==>
      InputClass(inputType) in {InputType.ClassNumber, InputType.ClassDatetime, InputType.ClassPhone}
  {
    var c := InputClass(inputType);
    if c == InputType.ClassNumber || c == InputType.ClassDatetime || c == InputType.ClassPhone then Numeric
    else if c == InputType.ClassText then Qwerty
    else Qwerty
  }

  /** Variation and flag bits above the class bits never change the chosen layout. */
  lemma OnlyClassBitsMatter(cls: int, upper: int)
    requires 0 <= cls <= InputType.MaskClass
    ensures LayerForInputType(cls + (InputType.MaskClass + 1) * upper) == LayerForInputType(cls)
  {
    var t := cls + (InputType.MaskClass + 1) * upper;
    assert t == cls + 16 * upper;  // the mask is the literal 0x0f
    assert t % 16 == cls;
    assert InputClass(t) == cls;
  }

  /** The Alt+Shift-left cycle of onKeyUp, anchored at the session layout `base`. */
  function CycleSymbols(shown: Layer, base: Layer): (next: Layer)
    ensures IsSessionLayer(base) ==>
      (next == shown <==> !(shown == base || IsSymbolLayer(shown)))
    ensures shown == base || IsSymbolLayer(shown) ==> next == base || IsSymbolLayer(next)
  {
    if shown == base then Symbols
    else if shown == Symbols then SymbolsShifted
    else if shown == SymbolsShifted then base
    else shown
  }

  /** Cycling three times from any layout returns to it. */
  lemma CycleHasOrderThree(shown: Layer, base: Layer)
    requires IsSessionLayer(base)
    ensures CycleSymbols(CycleSymbols(CycleSymbols(shown, base), base), base) == shown
  {
  }

  /** The on-screen mode-change key: symbol layouts go to Qwerty, anything else to Symbols. */
  function ModeChangeTarget(shown: Layer): (next: Layer)
    ensures IsSymbolLayer(next) != IsSymbolLayer(shown)
    ensures IsSymbolLayer(shown) ==> next == Qwerty
    ensures !IsSymbolLayer(shown) ==> next == Symbols
  {
    if shown == Symbols || shown == SymbolsShifted then Qwerty else Symbols
  }

  /** Mode change twice from the numeric layout ends on Qwerty, not on Numeric. */
  lemma ModeChangeForgetsNumeric()
    ensures ModeChangeTarget(ModeChangeTarget(Numeric)) == Qwerty
  {
  }

  /** The layout handleShift shows: it swaps the two symbol layouts and leaves the others. */
  function ShiftTarget(shown: Layer): (next: Layer)
    ensures IsSymbolLayer(shown) ==> IsSymbolLayer(next) && next != shown
    ensures !IsSymbolLayer(shown) ==> next == shown
  {
    if shown == Symbols then SymbolsShifted
    else if shown == SymbolsShifted then Symbols
    else shown
  }

  lemma ShiftTargetInvolution(shown: Layer)
    ensures ShiftTarget(ShiftTarget(shown)) == shown
  {
  }
}
