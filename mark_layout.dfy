/** The tick layout of one scale (`drawMark`, `drawBigMark`, `drawSmallMark`),
    identical in both widgets: tick `i` sits at `i * unit` for every `i` with
    `i < width / unit`; every tenth tick is big and labelled with `i / 10`. */
module MarkLayout {
  import opened Graphics
  import opened Decimal

  /** Lengths of the two kinds of mark and the gap between a big mark and its label. */
  datatype MarkStyle = MarkStyle(bigMarkLength: real, smallMarkLength: real, textMarkGap: real)

  /** One tick of a scale. */
  datatype Mark = BigMark(x: real, caption: string) | SmallMark(x: real)

  /** Number of iterations of `for (int i = 0; i < width / unit; i++)`: the least
      natural number not below `width / unit`. */
  function TickCount(width: int, unit: real): (n: nat)
    requires unit > 0.0
    ensures width as real / unit <= n as real
    ensures n == 0 || (n - 1) as real < width as real / unit
  {
    var q := width as real / unit;
    if q <= 0.0 then 0 else if q.Floor as real == q then q.Floor else q.Floor + 1
  }

  /** The tick with index `k`. */
  function MarkAt(k: nat, unit: real): Mark
  {
    if k % 10 == 0 then BigMark(k as real * unit, NatToString(k / 10)) else SmallMark(k as real * unit)
  }

  /** The ticks one pass draws across a canvas `width` pixels wide, in drawing order. */
  function Marks(width: int, unit: real): seq<Mark>
    requires unit > 0.0
  {
    seq(TickCount(width, unit), k requires 0 <= k => MarkAt(k, unit))
  }

  /** A tick is drawn exactly when its position lies strictly left of the canvas's
      right edge. */
  lemma MarksExactly(width: int, unit: real, k: nat)
    requires unit > 0.0
    ensures k < |Marks(width, unit)| <==> k as real * unit < width as real
  {
    var q := width as real / unit;
    QuotientTimesDivisor(width as real, unit);
    TickCountGuard(width, unit, k);
    if k as real < q {
      ScaleStrict(k as real, q, unit);
    } else {
      ScaleWeak(q, k as real, unit);
    }
  }

  /** The loop guard `i < width / unit` holds exactly for the indices of `Marks`. */
  lemma TickCountGuard(width: int, unit: real, i: nat)
    requires unit > 0.0
    ensures i as real < width as real / unit <==> i < TickCount(width, unit)
  {}

  lemma QuotientTimesDivisor(a: real, u: real)
    requires u != 0.0
    ensures a / u * u == a
  {}

  lemma ScaleStrict(a: real, b: real, u: real)
    requires a < b && 0.0 < u
    ensures a * u < b * u
  {
    assert b * u - a * u == (b - a) * u;
  }

  lemma ScaleWeak(a: real, b: real, u: real)
    requires a <= b && 0.0 < u
    ensures a * u <= b * u
  {
    assert b * u - a * u == (b - a) * u;
  }

  /** A canvas without width gets no tick. */
  lemma MarksEmptyWithoutWidth(width: int, unit: real)
    requires unit > 0.0 && width <= 0
    ensures Marks(width, unit) == []
  {
    MarksExactly(width, unit, 0);
  }

  /** Tick `k` sits at `k * unit`; it is big exactly when `k % 10 == 0`, and then
      its caption is `k / 10` in decimal. */
  lemma MarkKinds(width: int, unit: real, k: nat)
    requires unit > 0.0 && k < |Marks(width, unit)|
    ensures Marks(width, unit)[k].x == k as real * unit
    ensures Marks(width, unit)[k].BigMark? <==> k % 10 == 0
    ensures Marks(width, unit)[k].BigMark? ==> Marks(width, unit)[k].caption == NatToString(k / 10)
  {}

  /** Ticks are drawn left to right. */
  lemma MarksAscending(width: int, unit: real, j: nat, k: nat)
    requires unit > 0.0 && j < k < |Marks(width, unit)|
    ensures Marks(width, unit)[j].x < Marks(width, unit)[k].x
  {
    MarkKinds(width, unit, j);
    MarkKinds(width, unit, k);
    ScaleStrict(j as real, k as real, unit);
  }

  /** A big tick's label counts the big divisions from the origin: ten times
      the number it reads is the tick's index, so the tick sits at that many
      tens of units. */
  lemma LabelCountsBigDivisions(width: int, unit: real, k: nat)
    requires unit > 0.0 && k < |Marks(width, unit)| && Marks(width, unit)[k].BigMark?
    ensures AllDigits(Marks(width, unit)[k].caption)
    ensures 10 * ParseDecimal(Marks(width, unit)[k].caption) == k
  {
    assert Marks(width, unit)[k].caption == NatToString(k / 10);
    ParseNatToString(k / 10);
  }

  /** The canvas calls for one tick. */
  function MarkCommands(m: Mark, style: MarkStyle, measure: TextMeasure): seq<Command>
  {
    match m
    case BigMark(x, caption) =>
      var bounds := measure(ScaleTextPaint, caption);
      [Line(x, 0.0, x, style.bigMarkLength, BigMarkPaint),
       Text(caption, x - (bounds.width / 2) as real,
            style.bigMarkLength + style.textMarkGap + (bounds.height / 2) as real, ScaleTextPaint)]
    case SmallMark(x) =>
      [Line(x, 0.0, x, style.smallMarkLength, SmallMarkPaint)]
  }

  /** The canvas calls for a run of ticks, in order. */
  function PassCommands(ms: seq<Mark>, style: MarkStyle, measure: TextMeasure): seq<Command>
  {
    if ms == [] then [] else PassCommands(ms[..|ms| - 1], style, measure) + MarkCommands(ms[|ms| - 1], style, measure)
  }

  /** The canvas calls of one pass of `drawMark`. */
  function MarkPass(width: int, unit: real, style: MarkStyle, measure: TextMeasure): seq<Command>
    requires unit > 0.0
  {
    PassCommands(Marks(width, unit), style, measure)
  }

  /** `drawSmallMark`: a short line down from the top edge. */
  method DrawSmallMark(canvas: Canvas, startX: real, style: MarkStyle)
    modifies canvas
    ensures canvas.commands == old(canvas.commands) + [Line(startX, 0.0, startX, style.smallMarkLength, SmallMarkPaint)]
  {
    canvas.DrawLine(startX, 0.0, startX, style.smallMarkLength, SmallMarkPaint);
  }

  /** `drawBigMark`: a long line and, below it, the label centred on it. */
  method DrawBigMark(canvas: Canvas, i: nat, startX: real, style: MarkStyle, measure: TextMeasure)
    modifies canvas
    ensures canvas.commands == old(canvas.commands) + MarkCommands(BigMark(startX, NatToString(i)), style, measure)
  {
    canvas.DrawLine(startX, 0.0, startX, style.bigMarkLength, BigMarkPaint);
    var value := NatToString(i);
    var rect := measure(ScaleTextPaint, value);
    canvas.DrawText(value, startX - (rect.width / 2) as real,
                    style.bigMarkLength + style.textMarkGap + (rect.height / 2) as real, ScaleTextPaint);
  }

  /** Drawing one more tick appends that tick's calls. */
  lemma PassCommandsSnoc(ms: seq<Mark>, i: nat, style: MarkStyle, measure: TextMeasure)
    requires i < |ms|
    ensures PassCommands(ms[..i + 1], style, measure) == PassCommands(ms[..i], style, measure) + MarkCommands(ms[i], style, measure)
  {
    assert ms[..i + 1][..i] == ms[..i];
  }

  /** `drawMark`: one pass of ticks across the whole canvas width. */
  method DrawMark(canvas: Canvas, unit: real, style: MarkStyle, measure: TextMeasure)
    requires unit > 0.0
    modifies canvas
    ensures canvas.commands == old(canvas.commands) + MarkPass(canvas.width, unit, style, measure)
  {
    ghost var marks := Marks(canvas.width, unit);
    var i := 0;
    while (i as real) < canvas.width as real / unit
      invariant 0 <= i <= |marks|
      invariant canvas.commands == old(canvas.commands) + PassCommands(marks[..i], style, measure)
      decreases |marks| - i
    {
      TickCountGuard(canvas.width, unit, i);
      var startX := i as real * unit;
      if i % 10 == 0 {
        DrawBigMark(canvas, i / 10, startX, style, measure);
      } else {
        DrawSmallMark(canvas, startX, style);
      }
      assert marks[i] == MarkAt(i, unit);
      PassCommandsSnoc(marks, i, style, measure);
      i := i + 1;
    }
    TickCountGuard(canvas.width, unit, i);
    assert marks[..i] == marks;
  }
}
