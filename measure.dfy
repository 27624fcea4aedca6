/** The two measurement readings and the placement of their labels. The
    centimetre reading is taken from the left edge; the inch reading from the
    right edge, because the inch scale is drawn turned through 180 degrees. */
module Measure {
  import opened Decimal
  import opened MarkLayout

  /** `getCMValue`: centimetres from the left edge to the indicator. */
  function CmValue(position: real, oneMMToPX: real): (cm: real)
    requires oneMMToPX > 0.0
    ensures cm * 10.0 * oneMMToPX == position
  {
    position / oneMMToPX / 10.0
  }

  /** `getInchValue`: inches from the indicator to the right edge. */
  function InchValue(canvasWidth: int, position: real, oneInchToPX: real): (inch: real)
    requires oneInchToPX > 0.0
    ensures position + inch * oneInchToPX == canvasWidth as real
  {
    (canvasWidth as real - position) / oneInchToPX
  }

  /** With the indicator on a big tick of the millimetre pass, the centimetre
      reading is the number the tick's label shows. */
  lemma CmValueAtBigMark(width: int, oneMMToPX: real, k: nat)
    requires oneMMToPX > 0.0 && k < |Marks(width, oneMMToPX)| && Marks(width, oneMMToPX)[k].BigMark?
    ensures AllDigits(Marks(width, oneMMToPX)[k].caption)
    ensures CmValue(Marks(width, oneMMToPX)[k].x, oneMMToPX) == ParseDecimal(Marks(width, oneMMToPX)[k].caption) as real
  {
    var m := Marks(width, oneMMToPX)[k];
    MarkKinds(width, oneMMToPX, k);
    LabelCountsBigDivisions(width, oneMMToPX, k);
    CmAtWholeCentimetres(k, ParseDecimal(m.caption), oneMMToPX);
  }

  lemma CmAtWholeCentimetres(k: nat, n: nat, oneMMToPX: real)
    requires oneMMToPX > 0.0 && k == 10 * n
    ensures CmValue(k as real * oneMMToPX, oneMMToPX) == n as real
  {
    var cm := CmValue(k as real * oneMMToPX, oneMMToPX);
    assert cm * (10.0 * oneMMToPX) == n as real * (10.0 * oneMMToPX);
    Cancel(cm, n as real, 10.0 * oneMMToPX);
  }

  /** The inch pass (one tick per tenth of an inch) is drawn turned through 180
      degrees about the centre, so its tick at `x` shows at `width - x`. With the
      indicator there, the inch reading is the number the tick's label shows. */
  lemma InchValueAtMirroredBigMark(width: int, oneInchToPX: real, k: nat)
    requires oneInchToPX > 0.0
    requires k < |Marks(width, oneInchToPX / 10.0)| && Marks(width, oneInchToPX / 10.0)[k].BigMark?
    ensures AllDigits(Marks(width, oneInchToPX / 10.0)[k].caption)
    ensures InchValue(width, width as real - Marks(width, oneInchToPX / 10.0)[k].x, oneInchToPX)
            == ParseDecimal(Marks(width, oneInchToPX / 10.0)[k].caption) as real
  {
    var unit := oneInchToPX / 10.0;
    var m := Marks(width, unit)[k];
    MarkKinds(width, unit, k);
    LabelCountsBigDivisions(width, unit, k);
    InchAtWholeInches(width, k, ParseDecimal(m.caption), oneInchToPX);
  }

  lemma InchAtWholeInches(width: int, k: nat, n: nat, oneInchToPX: real)
    requires oneInchToPX > 0.0 && k == 10 * n
    ensures InchValue(width, width as real - k as real * (oneInchToPX / 10.0), oneInchToPX) == n as real
  {
    var x := k as real * (oneInchToPX / 10.0);
    assert x == n as real * oneInchToPX;
    var inch := InchValue(width, width as real - x, oneInchToPX);
    assert inch * oneInchToPX == n as real * oneInchToPX;
    Cancel(inch, n as real, oneInchToPX);
  }

  lemma Cancel(a: real, b: real, c: real)
    requires c != 0.0 && a * c == b * c
    ensures a == b
  {
    assert (a - b) * c == 0.0;
  }

  /** x at which a value label `textWidth` pixels wide is drawn beside an
      indicator at `anchor`: to its left when the label and the gap fit between
      the edge and the indicator, otherwise to its right. */
  function LabelX(anchor: real, textWidth: nat, gap: real): (x: real)
    ensures anchor > textWidth as real + gap ==> x + textWidth as real + gap == anchor
    ensures anchor <= textWidth as real + gap ==> x == anchor + gap
    ensures 0.0 <= gap ==> x + textWidth as real <= anchor - gap || anchor + gap <= x
    ensures 0.0 <= gap && 0.0 <= anchor ==> 0.0 <= x
  {
    if anchor > textWidth as real + gap then anchor - textWidth as real - gap else anchor + gap
  }
}
