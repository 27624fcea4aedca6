/** Pointer input as delivered to `onTouchEvent`. */
module Touch {

  /** `MotionEvent.getAction()`: the three actions the widgets react to, and any other. */
  datatype Action = ActionDown | ActionMove | ActionUp | ActionOther

  /** One event with its float coordinates in surface pixels. */
  datatype MotionEvent = MotionEvent(action: Action, x: real, y: real)
}
