/** The drawing surface as the widgets see it: a canvas of a fixed size that
    records, in order, every drawing call made on it. Paint objects are named by
    the role they play; their colours and stroke widths are configuration. */
module Graphics {
  import opened Geometry

  /** The paint objects of the two widgets, by role. */
  datatype Paint =
    | BigMarkPaint
    | SmallMarkPaint
    | ScaleTextPaint
    | LeftAreaPaint
    | RightAreaPaint
    | ScannedAreaPaint
    | DraggableLinePaint
    | MeasureValuePaint
    | IndicatorPaint

  /** Width and height of the bounding box `getTextBounds` reports for a text. */
  datatype TextBounds = TextBounds(width: nat, height: nat)

  /** Text measurement, supplied by the platform. */
  type TextMeasure = (Paint, string) -> TextBounds

  /** One call on the canvas. `Scale` and `Rotate` are recorded as markers only. */
  datatype Command =
    | Background
    | Line(x0: real, y0: real, x1: real, y1: real, paint: Paint)
    | FillRect(rect: Rect, paint: Paint)
    | Text(text: string, x: real, y: real, paint: Paint)
    | Save
    | Restore
    | Scale(sx: real, sy: real, px: real, py: real)
    | Rotate(degrees: real, px: real, py: real)

  /** The canvas returned by `lockCanvas`. */
  class Canvas {
    const width: nat
    const height: nat
    var commands: seq<Command>

    constructor (width: nat, height: nat)
      ensures this.width == width && this.height == height
      ensures commands == []
    {
      this.width := width;
      this.height := height;
      commands := [];
    }

    /** The background, a colour or an image depending on configuration. */
    method DrawBackground()
      modifies this
      ensures commands == old(commands) + [Background]
    {
      commands := commands + [Background];
    }

    method DrawLine(x0: real, y0: real, x1: real, y1: real, paint: Paint)
      modifies this
      ensures commands == old(commands) + [Line(x0, y0, x1, y1, paint)]
    {
      commands := commands + [Line(x0, y0, x1, y1, paint)];
    }

    method DrawRect(rect: Rect, paint: Paint)
      modifies this
      ensures commands == old(commands) + [FillRect(rect, paint)]
    {
      commands := commands + [FillRect(rect, paint)];
    }

    method DrawText(text: string, x: real, y: real, paint: Paint)
      modifies this
      ensures commands == old(commands) + [Text(text, x, y, paint)]
    {
      commands := commands + [Text(text, x, y, paint)];
    }

    method SaveState()
      modifies this
      ensures commands == old(commands) + [Save]
    {
      commands := commands + [Save];
    }

    method RestoreState()
      modifies this
      ensures commands == old(commands) + [Restore]
    {
      commands := commands + [Restore];
    }

    method ScaleBy(sx: real, sy: real, px: real, py: real)
      modifies this
      ensures commands == old(commands) + [Scale(sx, sy, px, py)]
    {
      commands := commands + [Scale(sx, sy, px, py)];
    }

    method RotateBy(degrees: real, px: real, py: real)
      modifies this
      ensures commands == old(commands) + [Rotate(degrees, px, py)]
    {
      commands := commands + [Rotate(degrees, px, py)];
    }
  }
}
