/** `RulerView`: the fixed-style ruler. A redraw paints the scanned area, a
    millimetre scale along the top and, turned through 180 degrees, a scale of
    tenths of an inch, then the draggable line and its indicator. Its touch
    region is the painted indicator itself. */
module Ruler {
  import opened Geometry
  import opened Graphics
  import opened Touch
  import opened MarkLayout
  import opened Wrappers

  /** The widget's pixel dimensions, from the display density. */
  datatype Dimensions = Dimensions(
    bigMarkLength: real,
    smallMarkLength: real,
    textMarkGap: real,
    indicatorWidth: real,
    indicatorHeight: real,
    oneMMToPX: real,
    oneInchToPX: real)

  predicate ValidDimensions(d: Dimensions)
  {
    d.oneMMToPX > 0.0 && d.oneInchToPX > 0.0
  }

  function Style(d: Dimensions): MarkStyle
  {
    MarkStyle(d.bigMarkLength, d.smallMarkLength, d.textMarkGap)
  }

  /** The painted indicator, which is also the touch region. */
  function IndicatorRect(position: real, height: nat, d: Dimensions): Rect
  {
    CenteredRect(position, (height / 2) as real, d.indicatorWidth / 2.0, d.indicatorHeight / 2.0)
  }

  /** The scanned area: from the left edge to the truncated position, full height. */
  function ScannedArea(position: real, height: nat): Rect
  {
    Rect(0, 0, Trunc(position), height)
  }

  /** A touch-down on the line at the canvas's vertical middle grabs the
      indicator once the painted indicator is at least 4 pixels wide and high. */
  lemma TouchAtIndicatorGrabs(position: real, height: nat, d: Dimensions)
    requires 4.0 <= d.indicatorWidth && 4.0 <= d.indicatorHeight
    ensures Contains(IndicatorRect(position, height, d), Trunc(position), height / 2)
  {
    CenteredRectHitsCentre(position, (height / 2) as real, d.indicatorWidth / 2.0, d.indicatorHeight / 2.0);
  }

  /** A touch-down more than half the indicator width plus two pixels away from
      the line misses it. */
  lemma TouchFarFromIndicatorMisses(position: real, height: nat, d: Dimensions, x: real, y: real)
    requires x >= position + d.indicatorWidth / 2.0 + 2.0 || x <= position - d.indicatorWidth / 2.0 - 2.0
    ensures !Contains(IndicatorRect(position, height, d), Trunc(x), Trunc(y))
  {
    CenteredRectMissesFar(position, (height / 2) as real, d.indicatorWidth / 2.0, d.indicatorHeight / 2.0, x, Trunc(y));
  }

  /** The calls `drawDraggableLine` makes. */
  function DraggableLineCommands(position: real, height: nat, d: Dimensions): seq<Command>
  {
    [Line(position, 0.0, position, height as real, BigMarkPaint), FillRect(IndicatorRect(position, height, d), IndicatorPaint)]
  }

  /** The calls `drawMarkLayer` makes: always two mark passes, millimetres and
      then, turned, tenths of an inch. */
  function MarkLayerCommands(d: Dimensions, measure: TextMeasure, position: real, width: nat, height: nat): seq<Command>
    requires ValidDimensions(d)
  {
    [Scale(0.97, 1.0, (width / 2) as real, 0.0), Background, FillRect(ScannedArea(position, height), ScannedAreaPaint)]
    + MarkPass(width, d.oneMMToPX, Style(d), measure)
    + [Save, Rotate(180.0, (width / 2) as real, (height / 2) as real)]
    + MarkPass(width, d.oneInchToPX / 10.0, Style(d), measure)
    + [Restore]
    + DraggableLineCommands(position, height, d)
  }

  /** One whole frame posted by `draw`. */
  function Frame(d: Dimensions, measure: TextMeasure, position: real, width: nat, height: nat): seq<Command>
    requires ValidDimensions(d)
  {
    [FillRect(ScannedArea(position, height), ScannedAreaPaint)]
    + MarkLayerCommands(d, measure, position, width, height)
    + DraggableLineCommands(position, height, d)
  }

  class RulerView {
    const dims: Dimensions
    /** `getTextBounds`, supplied by the platform. */
    const measure: TextMeasure

    /** Indicator position in pixels from the left edge. */
    var scannedAreaWidth: real
    /** Touch region of the indicator; absent until a frame has drawn the indicator. */
    var indicatorRegion: Option<Rect>
    /** Whether the current gesture started on the indicator. */
    var startInIndicatorRegion: bool
    /** Width of the canvas of the last frame. */
    var canvasWidth: int
    /** Every frame posted to the surface, oldest first. */
    var frames: seq<seq<Command>>
    /** Height of the canvas of the last frame. */
    ghost var lastHeight: nat

    /** The touch region, once drawn, always surrounds the current position. */
    ghost predicate Valid()
      reads this
    {
      ValidDimensions(dims)
      && (indicatorRegion.Some? ==> indicatorRegion.value == IndicatorRect(scannedAreaWidth, lastHeight, dims))
    }

    constructor (dims: Dimensions, measure: TextMeasure)
      requires ValidDimensions(dims)
      ensures Valid()
      ensures this.dims == dims && this.measure == measure
      ensures scannedAreaWidth == 200.0 && indicatorRegion == None && !startInIndicatorRegion
      ensures canvasWidth == 0 && frames == []
    {
      this.dims := dims;
      this.measure := measure;
      scannedAreaWidth := 200.0;
      indicatorRegion := None;
      startInIndicatorRegion := false;
      canvasWidth := 0;
      frames := [];
      lastHeight := 0;
    }

    /** `drawScannedArea`. */
    method DrawScannedArea(canvas: Canvas)
      modifies canvas
      ensures canvas.commands == old(canvas.commands) + [FillRect(ScannedArea(scannedAreaWidth, canvas.height), ScannedAreaPaint)]
    {
      var rect := Rect(0, 0, Trunc(scannedAreaWidth), canvas.height);
      canvas.DrawRect(rect, ScannedAreaPaint);
    }

    /** `drawDraggableLine`: paints the line and the indicator and records the
        painted indicator as the touch region. */
    method DrawDraggableLine(canvas: Canvas)
      modifies canvas, this`indicatorRegion
      ensures indicatorRegion == Some(IndicatorRect(scannedAreaWidth, canvas.height, dims))
      ensures canvas.commands == old(canvas.commands) + DraggableLineCommands(scannedAreaWidth, canvas.height, dims)
    {
      canvas.DrawLine(scannedAreaWidth, 0.0, scannedAreaWidth, canvas.height as real, BigMarkPaint);
      var left := scannedAreaWidth - dims.indicatorWidth / 2.0;
      var top := (canvas.height / 2) as real - dims.indicatorHeight / 2.0;
      var right := scannedAreaWidth + dims.indicatorWidth / 2.0;
      var bottom := (canvas.height / 2) as real + dims.indicatorHeight / 2.0;
      var rect := Rect(Trunc(left), Trunc(top), Trunc(right), Trunc(bottom));
      indicatorRegion := Some(rect);
      canvas.DrawRect(rect, IndicatorPaint);
    }

    /** `drawMarkLayer`. */
    method DrawMarkLayer(canvas: Canvas)
      requires ValidDimensions(dims)
      modifies canvas, this`indicatorRegion
      ensures indicatorRegion == Some(IndicatorRect(scannedAreaWidth, canvas.height, dims))
      ensures canvas.commands == old(canvas.commands) + MarkLayerCommands(dims, measure, scannedAreaWidth, canvas.width, canvas.height)
    {
      ghost var before := canvas.commands;
      canvas.ScaleBy(0.97, 1.0, (canvas.width / 2) as real, 0.0);
      canvas.DrawBackground();
      DrawScannedArea(canvas);
      var oneMMToPX := dims.oneMMToPX;
      DrawMark(canvas, oneMMToPX, Style(dims), measure);
      canvas.SaveState();
      canvas.RotateBy(180.0, (canvas.width / 2) as real, (canvas.height / 2) as real);
      var oneInchToPX := dims.oneInchToPX;
      DrawMark(canvas, oneInchToPX / 10.0, Style(dims), measure);
      canvas.RestoreState();
      ghost var marked := canvas.commands;
      DrawDraggableLine(canvas);
      assert canvas.commands == marked + DraggableLineCommands(scannedAreaWidth, canvas.height, dims);
    }

    /** `draw`: one frame on a canvas of the surface's current size. */
    method Draw(width: nat, height: nat)
      requires ValidDimensions(dims)
      modifies this
      ensures Valid()
      ensures frames == old(frames) + [Frame(dims, measure, scannedAreaWidth, width, height)]
      ensures canvasWidth == width
      ensures indicatorRegion == Some(IndicatorRect(scannedAreaWidth, height, dims))
      ensures scannedAreaWidth == old(scannedAreaWidth) && startInIndicatorRegion == old(startInIndicatorRegion)
    {
      var canvas := new Canvas(width, height);
      canvasWidth := canvas.width;
      DrawScannedArea(canvas);
      DrawMarkLayer(canvas);
      ghost var layered := canvas.commands;
      assert layered == [FillRect(ScannedArea(scannedAreaWidth, height), ScannedAreaPaint)]
                        + MarkLayerCommands(dims, measure, scannedAreaWidth, width, height);
      DrawDraggableLine(canvas);
      assert canvas.commands == layered + DraggableLineCommands(scannedAreaWidth, height, dims);
      frames := frames + [canvas.commands];
      lastHeight := height;
    }

    /** `onTouchEvent`, with the size of the surface a move redraws on. */
    method OnTouchEvent(event: MotionEvent, width: nat, height: nat) returns (handled: bool)
      requires Valid()
      requires event.action == ActionDown ==> indicatorRegion.Some?
      modifies this
      ensures Valid() && handled
      ensures event.action == ActionDown ==>
        && startInIndicatorRegion == Contains(old(indicatorRegion).value, Trunc(event.x), Trunc(event.y))
        && scannedAreaWidth == old(scannedAreaWidth) && indicatorRegion == old(indicatorRegion)
        && canvasWidth == old(canvasWidth) && frames == old(frames)
      ensures event.action == ActionMove ==>
        && scannedAreaWidth == (if old(startInIndicatorRegion) then UpperClamp(event.x, old(canvasWidth)) else old(scannedAreaWidth))
        && startInIndicatorRegion == old(startInIndicatorRegion)
        && canvasWidth == width
        && indicatorRegion == Some(IndicatorRect(scannedAreaWidth, height, dims))
        && frames == old(frames) + [Frame(dims, measure, scannedAreaWidth, width, height)]
      ensures event.action == ActionUp ==>
        && !startInIndicatorRegion
        && scannedAreaWidth == old(scannedAreaWidth) && indicatorRegion == old(indicatorRegion)
        && canvasWidth == old(canvasWidth) && frames == old(frames)
      ensures event.action == ActionOther ==>
        && startInIndicatorRegion == old(startInIndicatorRegion)
        && scannedAreaWidth == old(scannedAreaWidth) && indicatorRegion == old(indicatorRegion)
        && canvasWidth == old(canvasWidth) && frames == old(frames)
    {
      handled := true;
      match event.action {
        case ActionDown =>
          startInIndicatorRegion := Contains(indicatorRegion.value, Trunc(event.x), Trunc(event.y));
        case ActionMove =>
          if startInIndicatorRegion {
            scannedAreaWidth := event.x;
            if scannedAreaWidth > canvasWidth as real {
              scannedAreaWidth := canvasWidth as real;
            }
          }
          Draw(width, height);
        case ActionUp =>
          startInIndicatorRegion := false;
        case ActionOther =>
      }
    }
  }
}


/** Two drags on a 1000 x 500 surface, as a caller sees them through the
    contracts: the first stops at the right edge, the second starts there. */
module RulerScenario {
  import opened Geometry
  import opened Graphics
  import opened Touch
  import opened Wrappers
  import opened Ruler

  /** The first drag: grabbed at the line, pushed past the right edge, released. */
  method DragToRightEdge(dims: Dimensions) returns (view: RulerView)
    requires ValidDimensions(dims) && dims.indicatorWidth == 20.0 && dims.indicatorHeight == 50.0
    ensures fresh(view) && view.Valid() && view.canvasWidth == 1000 && !view.startInIndicatorRegion
    ensures view.scannedAreaWidth == 1000.0 && view.indicatorRegion == Some(Rect(990, 225, 1010, 275))
  {
    view := new RulerView(dims, (p, s) => TextBounds(10 * |s|, 20));
    view.Draw(1000, 500);
    assert view.indicatorRegion == Some(IndicatorRect(200.0, 500, dims));
    assert IndicatorRect(200.0, 500, dims) == Rect(190, 225, 210, 275);
    var handled := view.OnTouchEvent(MotionEvent(ActionDown, 205.0, 250.0), 1000, 500);
    assert view.startInIndicatorRegion;
    handled := view.OnTouchEvent(MotionEvent(ActionMove, 1500.0, 250.0), 1000, 500);
    assert view.indicatorRegion == Some(IndicatorRect(1000.0, 500, dims));
    assert IndicatorRect(1000.0, 500, dims) == Rect(990, 225, 1010, 275);
    handled := view.OnTouchEvent(MotionEvent(ActionUp, 1500.0, 250.0), 1000, 500);
  }

  /** The second drag starts where the first one left the indicator. */
  method DragFromRightEdge(view: RulerView)
    requires view.Valid() && view.canvasWidth == 1000
    requires view.indicatorRegion == Some(Rect(990, 225, 1010, 275))
    modifies view
    ensures view.scannedAreaWidth == 400.0 && |view.frames| == |old(view.frames)| + 1
  {
    var handled := view.OnTouchEvent(MotionEvent(ActionDown, 1003.0, 250.0), 1000, 500);
    assert view.startInIndicatorRegion;
    handled := view.OnTouchEvent(MotionEvent(ActionMove, 400.0, 250.0), 1000, 500);
  }

  method DragTwice()
  {
    var view := DragToRightEdge(Dimensions(40.0, 20.0, 10.0, 20.0, 50.0, 10.0, 254.0));
    DragFromRightEdge(view);
  }
}
