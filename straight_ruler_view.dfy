/** `StraightRulerView`: the configurable ruler. A redraw paints the background,
    the areas left and right of the indicator, a millimetre scale along the top
    and, turned through 180 degrees, a second scale chosen by the display mode,
    then the draggable line with its indicator and the two readings. Dragging
    the indicator moves it along the ruler. */
module StraightRuler {
  import opened Geometry
  import opened Graphics
  import opened Touch
  import opened MarkLayout
  import opened Measure
  import opened Wrappers

  /** Display modes (`showMode`). */
  const ShowBoth: int := 0
  const HideInch: int := 1
  const AllCm: int := 2

  /** What the widget reads once at construction: dimensions in pixels (from its
      attributes and the display density), the two show flags and the mode. */
  datatype Config = Config(
    bigMarkLength: real,
    smallMarkLength: real,
    textMarkGap: real,
    indicatorWidth: real,
    indicatorHeight: real,
    oneMMToPX: real,
    oneInchToPX: real,
    showDraggableLine: bool,
    showMeasureValue: bool,
    showMode: int)

  /** Pixel sizes of a millimetre and an inch are positive on every display. */
  predicate ValidConfig(c: Config)
  {
    c.oneMMToPX > 0.0 && c.oneInchToPX > 0.0
  }

  function Style(c: Config): MarkStyle
  {
    MarkStyle(c.bigMarkLength, c.smallMarkLength, c.textMarkGap)
  }

  /** The painted indicator: centred on the position and on the canvas's
      vertical middle, half the configured width and height to each side. */
  function IndicatorRect(position: real, height: nat, c: Config): Rect
  {
    CenteredRect(position, (height / 2) as real, c.indicatorWidth / 2.0, c.indicatorHeight / 2.0)
  }

  /** `getIndicatorRegion`: the touch region, twice the painted indicator in each
      direction so that a finger can grab the thin line. */
  function TouchRegion(position: real, height: nat, c: Config): (r: Rect)
    ensures 0.0 <= c.indicatorWidth ==> r.left <= Trunc(position) <= r.right
    ensures 0.0 <= c.indicatorHeight ==> r.top <= height / 2 <= r.bottom
    ensures 2.0 * c.indicatorWidth - 2.0 < (r.right - r.left) as real < 2.0 * c.indicatorWidth + 2.0
    ensures 2.0 * c.indicatorHeight - 2.0 < (r.bottom - r.top) as real < 2.0 * c.indicatorHeight + 2.0
  {
    CenteredRect(position, (height / 2) as real, c.indicatorWidth, c.indicatorHeight)
  }

  /** Every pixel of the painted indicator also answers to a touch. */
  lemma TouchRegionCoversIndicator(position: real, height: nat, c: Config, x: int, y: int)
    requires 0.0 <= c.indicatorWidth && 0.0 <= c.indicatorHeight
    requires Contains(IndicatorRect(position, height, c), x, y)
    ensures Contains(TouchRegion(position, height, c), x, y)
  {
    CenteredRectGrows(position, (height / 2) as real, c.indicatorWidth / 2.0, c.indicatorHeight / 2.0,
                      c.indicatorWidth, c.indicatorHeight, x, y);
  }

  /** A touch-down on the indicator line at the canvas's vertical middle grabs it. */
  lemma TouchAtIndicatorGrabs(position: real, height: nat, c: Config)
    requires 2.0 <= c.indicatorWidth && 2.0 <= c.indicatorHeight
    ensures Contains(TouchRegion(position, height, c), Trunc(position), height / 2)
  {
    CenteredRectHitsCentre(position, (height / 2) as real, c.indicatorWidth, c.indicatorHeight);
  }

  /** A touch-down more than the indicator width plus two pixels away from the
      line misses it. */
  lemma TouchFarFromIndicatorMisses(position: real, height: nat, c: Config, x: real, y: real)
    requires x >= position + c.indicatorWidth + 2.0 || x <= position - c.indicatorWidth - 2.0
    ensures !Contains(TouchRegion(position, height, c), Trunc(x), Trunc(y))
  {
    CenteredRectMissesFar(position, (height / 2) as real, c.indicatorWidth, c.indicatorHeight, x, Trunc(y));
  }

  /** The area left of the indicator. */
  function LeftArea(position: real, height: nat): Rect
  {
    Rect(0, 0, Trunc(position), height)
  }

  /** The area right of the indicator. */
  function RightArea(position: real, width: nat, height: nat): Rect
  {
    Rect(Trunc(position), 0, width, height)
  }

  /** While the indicator is not right of the canvas, the two areas split every
      canvas pixel between them at the truncated position; an indicator left of
      the canvas leaves the left area empty. */
  lemma AreasSplitCanvas(position: real, width: nat, height: nat, x: int, y: int)
    requires position <= width as real
    requires 0 <= x < width && 0 <= y < height
    ensures Contains(LeftArea(position, height), x, y) <==> x < Trunc(position)
    ensures Contains(RightArea(position, width, height), x, y) <==> !Contains(LeftArea(position, height), x, y)
  {
    TruncMonotone(position, width as real);
  }

  /** The calls `drawDraggedArea` makes. */
  function DraggedAreaCommands(position: real, width: nat, height: nat): seq<Command>
  {
    [FillRect(LeftArea(position, height), LeftAreaPaint), FillRect(RightArea(position, width, height), RightAreaPaint)]
  }

  /** The second, turned mark pass the mode selects: tenths of an inch for
      SHOW_BOTH, millimetres again for ALL_CM, none otherwise. */
  function SecondPass(c: Config, width: nat, measure: TextMeasure): seq<Command>
    requires ValidConfig(c)
  {
    if c.showMode == ShowBoth then MarkPass(width, c.oneInchToPX / 10.0, Style(c), measure)
    else if c.showMode == AllCm then MarkPass(width, c.oneMMToPX, Style(c), measure)
    else []
  }

  /** The calls `drawMarkLayer` makes. */
  function MarkLayerCommands(c: Config, width: nat, height: nat, measure: TextMeasure): seq<Command>
    requires ValidConfig(c)
  {
    [Scale(0.97, 1.0, (width / 2) as real, 0.0)]
    + MarkPass(width, c.oneMMToPX, Style(c), measure)
    + [Save, Rotate(180.0, (width / 2) as real, (height / 2) as real)]
    + SecondPass(c, width, measure)
    + [Restore]
  }

  /** The calls `drawDraggableLine` and `drawIndicator` make. */
  function IndicatorCommands(position: real, height: nat, c: Config): seq<Command>
  {
    [Line(position, 0.0, position, height as real, DraggableLinePaint), FillRect(IndicatorRect(position, height, c), IndicatorPaint)]
  }

  /** Baseline of the centimetre reading: just above the middle when the inch
      reading sits below it, centred otherwise, and 0 for an unknown mode. */
  function CmLabelY(c: Config, height: nat, textHeight: nat): (y: int)
    ensures c.showMode == ShowBoth && 0.0 <= c.textMarkGap ==> y <= height / 2
    ensures c.showMode == ShowBoth ==> (height / 2) as real - c.textMarkGap / 2.0 - 1.0 < y as real < (height / 2) as real - c.textMarkGap / 2.0 + 1.0
    ensures c.showMode == HideInch || c.showMode == AllCm ==> height / 2 - textHeight <= y <= height / 2
    ensures c.showMode !in {ShowBoth, HideInch, AllCm} ==> y == 0
  {
    if c.showMode == ShowBoth then Trunc((height / 2) as real - c.textMarkGap / 2.0)
    else if c.showMode == HideInch || c.showMode == AllCm then height / 2 - textHeight / 2
    else 0
  }

  function CmLabel(c: Config, format: real -> string, position: real): string
    requires ValidConfig(c)
  {
    format(CmValue(position, c.oneMMToPX)) + " cm"
  }

  function InchLabel(c: Config, format: real -> string, canvasWidth: int, position: real): string
    requires ValidConfig(c)
  {
    format(InchValue(canvasWidth, position, c.oneInchToPX)) + " inch"
  }

  /** The call `drawCMValue` makes: the centimetre reading beside the indicator. */
  function CmValueCommand(c: Config, measure: TextMeasure, format: real -> string, position: real, height: nat): Command
    requires ValidConfig(c)
  {
    var text := CmLabel(c, format, position);
    var bounds := measure(MeasureValuePaint, text);
    Text(text, LabelX(position, bounds.width, c.textMarkGap), CmLabelY(c, height, bounds.height) as real, MeasureValuePaint)
  }

  /** The calls `drawInchValue` makes: the inch reading, in the turned frame,
      beside the indicator's mirror image. */
  function InchValueCommands(c: Config, measure: TextMeasure, format: real -> string,
                             canvasWidth: int, position: real, width: nat, height: nat): seq<Command>
    requires ValidConfig(c)
  {
    var text := InchLabel(c, format, canvasWidth, position);
    var bounds := measure(MeasureValuePaint, text);
    [Save, Rotate(180.0, (width / 2) as real, (height / 2) as real),
     Text(text, LabelX(canvasWidth as real - position, bounds.width, c.textMarkGap),
          Trunc((height / 2) as real - c.textMarkGap / 2.0) as real, MeasureValuePaint),
     Restore]
  }

  /** The calls `drawMeasureValue` makes: the inch reading only in SHOW_BOTH. */
  function MeasureValueCommands(c: Config, measure: TextMeasure, format: real -> string,
                                position: real, width: nat, height: nat): seq<Command>
    requires ValidConfig(c)
  {
    [CmValueCommand(c, measure, format, position, height)]
    + (if c.showMode == ShowBoth then InchValueCommands(c, measure, format, width, position, width, height) else [])
  }

  /** One whole frame posted by `draw` on a canvas of the given size. */
  function Frame(c: Config, measure: TextMeasure, format: real -> string,
                 position: real, width: nat, height: nat): seq<Command>
    requires ValidConfig(c)
  {
    [Background]
    + DraggedAreaCommands(position, width, height)
    + MarkLayerCommands(c, width, height, measure)
    + (if c.showDraggableLine then IndicatorCommands(position, height, c) else [])
    + (if c.showMeasureValue then MeasureValueCommands(c, measure, format, position, width, height) else [])
  }

  class StraightRulerView {
    const config: Config
    /** `getTextBounds`, supplied by the platform. */
    const measure: TextMeasure
    /** `DecimalFormat("0.00").format`, supplied by the platform. */
    const format: real -> string

    /** Indicator position in pixels from the left edge. */
    var scannedAreaWidth: real
    /** Touch region of the indicator; absent until a frame has drawn the indicator. */
    var indicatorRegion: Option<Rect>
    /** Whether the current gesture started on the indicator. */
    var startInIndicatorRegion: bool
    /** Width of the canvas of the last frame. */
    var canvasWidth: int
    /** Every frame posted to the surface, oldest first. */
    var frames: seq<seq<Command>>
    /** Height of the canvas of the last frame. */
    ghost var lastHeight: nat

    /** The configuration is sound and a present region belongs to a widget
        that draws its indicator. */
    ghost predicate WellFormed()
      reads this
    {
      ValidConfig(config) && (indicatorRegion.Some? ==> config.showDraggableLine)
    }

    /** Besides, the touch region always surrounds the current position: every
        position change is followed by a redraw in the same event. */
    ghost predicate Valid()
      reads this
    {
      WellFormed()
      && (indicatorRegion.Some? ==> indicatorRegion.value == TouchRegion(scannedAreaWidth, lastHeight, config))
    }

    constructor (config: Config, measure: TextMeasure, format: real -> string)
      requires ValidConfig(config)
      ensures Valid()
      ensures this.config == config && this.measure == measure && this.format == format
      ensures scannedAreaWidth == 200.0 && indicatorRegion == None && !startInIndicatorRegion
      ensures canvasWidth == 0 && frames == []
    {
      this.config := config;
      this.measure := measure;
      this.format := format;
      scannedAreaWidth := 200.0;
      indicatorRegion := None;
      startInIndicatorRegion := false;
      canvasWidth := 0;
      frames := [];
      lastHeight := 0;
    }

    /** `drawMarkLayer`: the millimetre pass, then, turned, the pass of the mode. */
    method DrawMarkLayer(canvas: Canvas)
      requires ValidConfig(config)
      modifies canvas
      ensures canvas.commands == old(canvas.commands) + MarkLayerCommands(config, canvas.width, canvas.height, measure)
    {
      canvas.ScaleBy(0.97, 1.0, (canvas.width / 2) as real, 0.0);
      DrawMark(canvas, config.oneMMToPX, Style(config), measure);
      canvas.SaveState();
      canvas.RotateBy(180.0, (canvas.width / 2) as real, (canvas.height / 2) as real);
      if config.showMode == ShowBoth {
        DrawMark(canvas, config.oneInchToPX / 10.0, Style(config), measure);
      } else if config.showMode == HideInch {
      } else if config.showMode == AllCm {
        DrawMark(canvas, config.oneMMToPX, Style(config), measure);
      }
      canvas.RestoreState();
    }

    /** `drawCMValue`. */
    method DrawCMValue(canvas: Canvas)
      requires ValidConfig(config)
      modifies canvas
      ensures canvas.commands == old(canvas.commands) + [CmValueCommand(config, measure, format, scannedAreaWidth, canvas.height)]
    {
      var cmValue := CmValue(scannedAreaWidth, config.oneMMToPX);
      var cmValueFormat := format(cmValue) + " cm";
      var rect := measure(MeasureValuePaint, cmValueFormat);
      var y := 0;
      if config.showMode == ShowBoth {
        y := Trunc((canvas.height / 2) as real - config.textMarkGap / 2.0);
      } else if config.showMode == HideInch || config.showMode == AllCm {
        y := canvas.height / 2 - rect.height / 2;
      }
      if scannedAreaWidth > rect.width as real + config.textMarkGap {
        canvas.DrawText(cmValueFormat, scannedAreaWidth - rect.width as real - config.textMarkGap, y as real, MeasureValuePaint);
      } else {
        canvas.DrawText(cmValueFormat, scannedAreaWidth + config.textMarkGap, y as real, MeasureValuePaint);
      }
    }

    /** `drawInchValue`. */
    method DrawInchValue(canvas: Canvas)
      requires ValidConfig(config)
      modifies canvas
      ensures canvas.commands == old(canvas.commands)
                                 + InchValueCommands(config, measure, format, canvasWidth, scannedAreaWidth, canvas.width, canvas.height)
    {
      var inchValue := InchValue(canvasWidth, scannedAreaWidth, config.oneInchToPX);
      var inchValueFormat := format(inchValue) + " inch";
      var rect := measure(MeasureValuePaint, inchValueFormat);
      canvas.SaveState();
      canvas.RotateBy(180.0, (canvas.width / 2) as real, (canvas.height / 2) as real);
      var y := Trunc((canvas.height / 2) as real - config.textMarkGap / 2.0);
      var indicatorX := canvasWidth as real - scannedAreaWidth;
      if indicatorX > rect.width as real + config.textMarkGap {
        canvas.DrawText(inchValueFormat, indicatorX - rect.width as real - config.textMarkGap, y as real, MeasureValuePaint);
      } else {
        canvas.DrawText(inchValueFormat, indicatorX + config.textMarkGap, y as real, MeasureValuePaint);
      }
      canvas.RestoreState();
    }

    /** `drawMeasureValue`. */
    method DrawMeasureValue(canvas: Canvas)
      requires ValidConfig(config) && canvasWidth == canvas.width
      modifies canvas
      ensures canvas.commands == old(canvas.commands)
                                 + MeasureValueCommands(config, measure, format, scannedAreaWidth, canvas.width, canvas.height)
    {
      DrawCMValue(canvas);
      if config.showMode == ShowBoth {
        DrawInchValue(canvas);
      }
    }

    /** `drawDraggedArea`. */
    method DrawDraggedArea(canvas: Canvas)
      modifies canvas
      ensures canvas.commands == old(canvas.commands) + DraggedAreaCommands(scannedAreaWidth, canvas.width, canvas.height)
    {
      var leftRect := Rect(0, 0, Trunc(scannedAreaWidth), canvas.height);
      canvas.DrawRect(leftRect, LeftAreaPaint);
      var rightRect := Rect(Trunc(scannedAreaWidth), 0, canvas.width, canvas.height);
      canvas.DrawRect(rightRect, RightAreaPaint);
    }

    /** `drawDraggableLine`. */
    method DrawDraggableLine(canvas: Canvas)
      modifies canvas
      ensures canvas.commands == old(canvas.commands) + [Line(scannedAreaWidth, 0.0, scannedAreaWidth, canvas.height as real, DraggableLinePaint)]
    {
      canvas.DrawLine(scannedAreaWidth, 0.0, scannedAreaWidth, canvas.height as real, DraggableLinePaint);
    }

    /** `drawIndicator`: paints the indicator and records its touch region. */
    method DrawIndicator(canvas: Canvas)
      modifies canvas, this`indicatorRegion
      ensures indicatorRegion == Some(TouchRegion(scannedAreaWidth, canvas.height, config))
      ensures canvas.commands == old(canvas.commands) + [FillRect(IndicatorRect(scannedAreaWidth, canvas.height, config), IndicatorPaint)]
    {
      var left := scannedAreaWidth - config.indicatorWidth / 2.0;
      var top := (canvas.height / 2) as real - config.indicatorHeight / 2.0;
      var right := scannedAreaWidth + config.indicatorWidth / 2.0;
      var bottom := (canvas.height / 2) as real + config.indicatorHeight / 2.0;
      var rect := Rect(Trunc(left), Trunc(top), Trunc(right), Trunc(bottom));
      indicatorRegion := Some(TouchRegion(scannedAreaWidth, canvas.height, config));
      canvas.DrawRect(rect, IndicatorPaint);
    }

    /** `draw`: one frame on a canvas of the surface's current size. */
    method Draw(width: nat, height: nat)
      requires WellFormed()
      modifies this
      ensures Valid()
      ensures frames == old(frames) + [Frame(config, measure, format, scannedAreaWidth, width, height)]
      ensures canvasWidth == width
      ensures indicatorRegion == if config.showDraggableLine then Some(TouchRegion(scannedAreaWidth, height, config))
                                 else old(indicatorRegion)
      ensures scannedAreaWidth == old(scannedAreaWidth) && startInIndicatorRegion == old(startInIndicatorRegion)
    {
      var canvas := new Canvas(width, height);
      canvasWidth := canvas.width;
      canvas.DrawBackground();
      DrawDraggedArea(canvas);
      DrawMarkLayer(canvas);
      ghost var layers := canvas.commands;
      if config.showDraggableLine {
        DrawDraggableLine(canvas);
        DrawIndicator(canvas);
        assert canvas.commands == layers + IndicatorCommands(scannedAreaWidth, height, config);
      }
      ghost var painted := canvas.commands;
      if config.showMeasureValue {
        DrawMeasureValue(canvas);
      }
      assert layers == [Background] + DraggedAreaCommands(scannedAreaWidth, width, height) + MarkLayerCommands(config, width, height, measure);
      assert painted == layers + (if config.showDraggableLine then IndicatorCommands(scannedAreaWidth, height, config) else []);
      assert canvas.commands == painted + (if config.showMeasureValue then MeasureValueCommands(config, measure, format, scannedAreaWidth, width, height) else []);
      frames := frames + [canvas.commands];
      lastHeight := height;
    }

    /** `onTouchEvent`, with the size of the surface a move redraws on. */
    method OnTouchEvent(event: MotionEvent, width: nat, height: nat) returns (handled: bool)
      requires Valid()
      requires event.action == ActionDown ==> indicatorRegion.Some?
      modifies this
      ensures Valid() && handled
      ensures event.action == ActionDown ==>
        && startInIndicatorRegion == Contains(old(indicatorRegion).value, Trunc(event.x), Trunc(event.y))
        && scannedAreaWidth == old(scannedAreaWidth) && indicatorRegion == old(indicatorRegion)
        && canvasWidth == old(canvasWidth) && frames == old(frames)
      ensures event.action == ActionMove ==>
        && scannedAreaWidth == (if old(startInIndicatorRegion) then UpperClamp(event.x, old(canvasWidth)) else old(scannedAreaWidth))
        && startInIndicatorRegion == old(startInIndicatorRegion)
        && canvasWidth == width
        && indicatorRegion == (if config.showDraggableLine then Some(TouchRegion(scannedAreaWidth, height, config))
                               else old(indicatorRegion))
        && frames == old(frames) + [Frame(config, measure, format, scannedAreaWidth, width, height)]
      ensures event.action == ActionUp ==>
        && !startInIndicatorRegion
        && scannedAreaWidth == old(scannedAreaWidth) && indicatorRegion == old(indicatorRegion)
        && canvasWidth == old(canvasWidth) && frames == old(frames)
      ensures event.action == ActionOther ==>
        && startInIndicatorRegion == old(startInIndicatorRegion)
        && scannedAreaWidth == old(scannedAreaWidth) && indicatorRegion == old(indicatorRegion)
        && canvasWidth == old(canvasWidth) && frames == old(frames)
    {
      handled := true;
      match event.action {
        case ActionDown =>
          startInIndicatorRegion := Contains(indicatorRegion.value, Trunc(event.x), Trunc(event.y));
        case ActionMove =>
          if startInIndicatorRegion {
            scannedAreaWidth := event.x;
            if scannedAreaWidth > canvasWidth as real {
              scannedAreaWidth := canvasWidth as real;
            }
          }
          Draw(width, height);
        case ActionUp =>
          startInIndicatorRegion := false;
        case ActionOther =>
      }
    }
  }
}


/** A drag on a 1000 x 500 surface, as a caller sees it through the contracts:
    a touch 5 pixels from the line grabs the indicator, a move past the right
    edge stops it at the edge, after the finger lifts a move no longer shifts
    it, and a second touch at the edge grabs it again. */
module StraightRulerScenario {
  import opened Geometry
  import opened Graphics
  import opened Touch
  import opened StraightRuler

  method DragPastRightEdge()
  {
    var config := Config(40.0, 20.0, 10.0, 20.0, 50.0, 10.0, 254.0, true, true, ShowBoth);
    var view := new StraightRulerView(config, (p, s) => TextBounds(10 * |s|, 20), v => "0.00");
    view.Draw(1000, 500);
    assert view.indicatorRegion.value == Rect(180, 200, 220, 300);
    var handled := view.OnTouchEvent(MotionEvent(ActionDown, 205.0, 250.0), 1000, 500);
    assert view.startInIndicatorRegion;
    handled := view.OnTouchEvent(MotionEvent(ActionMove, 1500.0, 250.0), 1000, 500);
    assert view.scannedAreaWidth == 1000.0;
    handled := view.OnTouchEvent(MotionEvent(ActionUp, 1500.0, 250.0), 1000, 500);
    handled := view.OnTouchEvent(MotionEvent(ActionMove, 300.0, 250.0), 1000, 500);
    assert view.scannedAreaWidth == 1000.0 && |view.frames| == 3;
    assert view.indicatorRegion.value == Rect(980, 200, 1020, 300);
    handled := view.OnTouchEvent(MotionEvent(ActionDown, 995.0, 260.0), 1000, 500);
    assert view.startInIndicatorRegion;
    handled := view.OnTouchEvent(MotionEvent(ActionMove, 400.0, 260.0), 1000, 500);
    assert view.scannedAreaWidth == 400.0 && |view.frames| == 4;
  }
}
