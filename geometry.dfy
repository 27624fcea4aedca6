/** Integer pixel geometry shared by both ruler widgets: Java's `(int)` cast of a
    float coordinate, integer rectangles and the single-rectangle region used for
    hit-testing, and the one-sided clamp applied to a dragged position. */
module Geometry {

  /** Java's `(int)` cast of a float: rounds toward zero. */
  function Trunc(x: real): (n: int)
    ensures 0.0 <= x ==> n as real <= x < n as real + 1.0
    ensures x < 0.0 ==> n as real - 1.0 < x <= n as real
  {
    if x >= 0.0 then x.Floor else -((-x).Floor)
  }

  lemma TruncMonotone(a: real, b: real)
    requires a <= b
    ensures Trunc(a) <= Trunc(b)
  {}

  /** Two coordinates at least two pixels apart never truncate to the same integer. */
  lemma TruncSeparates(a: real, b: real)
    requires a + 2.0 <= b
    ensures Trunc(a) < Trunc(b)
  {}

  /** android.graphics.Rect: integer corners, right and bottom exclusive. */
  datatype Rect = Rect(left: int, top: int, right: int, bottom: int)

  /** `Region.contains(x, y)` for a region built from one rectangle: half-open on
      the right and the bottom, so an empty rectangle contains no point. */
  predicate Contains(r: Rect, x: int, y: int)
    ensures Contains(r, x, y) ==> r.left < r.right && r.top < r.bottom
  {
    r.left <= x < r.right && r.top <= y < r.bottom
  }

  /** The rectangle `new Rect((int) (cx - hw), (int) (cy - hh), (int) (cx + hw), (int) (cy + hh))`. */
  function CenteredRect(cx: real, cy: real, halfWidth: real, halfHeight: real): Rect
  {
    Rect(Trunc(cx - halfWidth), Trunc(cy - halfHeight), Trunc(cx + halfWidth), Trunc(cy + halfHeight))
  }

  /** Widening the half-extents of a centred rectangle only adds points. */
  lemma CenteredRectGrows(cx: real, cy: real, hw: real, hh: real, hw': real, hh': real, x: int, y: int)
    requires 0.0 <= hw <= hw' && 0.0 <= hh <= hh'
    ensures Contains(CenteredRect(cx, cy, hw, hh), x, y) ==> Contains(CenteredRect(cx, cy, hw', hh'), x, y)
  {
    TruncMonotone(cx - hw', cx - hw);
    TruncMonotone(cy - hh', cy - hh);
    TruncMonotone(cx + hw, cx + hw');
    TruncMonotone(cy + hh, cy + hh');
  }

  /** A touch at the centre, truncated like the touch coordinates are, lies in
      the rectangle as soon as both half-extents are at least two pixels. */
  lemma CenteredRectHitsCentre(cx: real, cy: real, hw: real, hh: real)
    requires 2.0 <= hw && 2.0 <= hh
    ensures Contains(CenteredRect(cx, cy, hw, hh), Trunc(cx), Trunc(cy))
  {
    TruncMonotone(cx - hw, cx);
    TruncSeparates(cx, cx + hw);
    TruncMonotone(cy - hh, cy);
    TruncSeparates(cy, cy + hh);
  }

  /** A touch two pixels or more beyond the half-width on either side misses. */
  lemma CenteredRectMissesFar(cx: real, cy: real, hw: real, hh: real, x: real, y: int)
    requires x >= cx + hw + 2.0 || x <= cx - hw - 2.0
    ensures !Contains(CenteredRect(cx, cy, hw, hh), Trunc(x), y)
  {
    if x >= cx + hw + 2.0 {
      TruncSeparates(cx + hw, x);
    } else {
      TruncSeparates(x, cx - hw);
    }
  }

  /** `p = x; if (p > bound) p = bound;` — the drag clamp, which bounds the
      position from above only. */
  function UpperClamp(x: real, bound: int): (r: real)
    ensures r <= bound as real && r <= x
    ensures r == x || r == bound as real
  {
    if x > bound as real then bound as real else x
  }
}
