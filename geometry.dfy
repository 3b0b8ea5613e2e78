/**
 * Rectangles, sizes and the constants that fix a block's visual
 * appearance (js/block.js, js/controlblock.js, js/startblock.js), and the
 * rectangle intersection test of js/svg.js.
 *
 * Coordinates are `real`: positions are moved by pointer deltas divided by
 * the view scale, so they are not integers in general.
 */
module Geometry {
  import opened Wrappers

  datatype Point = Point(x: real, y: real)
  datatype Size = Size(width: real, height: real)
  datatype Rect = Rect(x: real, y: real, width: real, height: real)

  // Block constants.  Connector: __/===\__
  const CONNECTOR_WIDTH: real := 20.0
  const CONNECTOR_MARGIN: real := 12.0
  const CONNECTOR_TRANSITION_WIDTH: real := 5.0
  const CONNECTOR_TOTAL_WIDTH: real := CONNECTOR_WIDTH + 2.0 * CONNECTOR_MARGIN + 2.0 * CONNECTOR_TRANSITION_WIDTH
  const CONNECTOR_HEIGHT: real := 5.0
  const CORNER_RADIUS: real := 5.0
  const MIN_HEIGHT: real := 60.0
  const MIN_WIDTH: real := 50.0  // not counting the connector width

  // Control block constants
  const END_SEGMENT_HEIGHT: real := 15.0
  const SEGMENT_MIN_HEIGHT: real := 30.0
  const CONTROL_MIN_HEIGHT: real := 60.0
  const SEGMENT_WIDTH: real := 30.0
  const SEGMENT_TOTAL_WIDTH: real := SEGMENT_WIDTH + CONNECTOR_TOTAL_WIDTH
  /** The x offset of every nested branch (hard-coded in the source). */
  const BRANCH_X: real := 15.0

  // Start block constant
  const ARC_RADIUS: real := (CONNECTOR_TOTAL_WIDTH + MIN_WIDTH) / 2.0

  function Abs(v: real): real { if v < 0.0 then -v else v }

  /**
   * Separating-axis test on the centres: the rectangles intersect iff on
   * each axis the distance of their centres is below the sum of their
   * half extents.
   */
  function RectsIntersect(a: Rect, b: Rect): (r: bool)
    ensures r <==> (a.x < b.x + b.width && b.x < a.x + a.width &&
                    a.y < b.y + b.height && b.y < a.y + a.height)
  {
    var w1, h1 := a.width / 2.0, a.height / 2.0;
    var x1, y1 := a.x + w1, a.y + h1;
    var w2, h2 := b.width / 2.0, b.height / 2.0;
    var x2, y2 := b.x + w2, b.y + h2;
    Abs(x1 - x2) < w1 + w2 && Abs(y1 - y2) < h1 + h2
  }

  lemma RectsIntersectSymmetric(a: Rect, b: Rect)
    ensures RectsIntersect(a, b) == RectsIntersect(b, a)
  {
  }

  /** Rectangles that only share an edge do not intersect (the test is strict). */
  lemma TouchingRectsDoNotIntersect(a: Rect, b: Rect)
    requires a.x + a.width == b.x || a.y + a.height == b.y
    ensures !RectsIntersect(a, b)
  {
  }

  lemma RectIntersectsItself(a: Rect)
    requires a.width > 0.0 && a.height > 0.0
    ensures RectsIntersect(a, a)
  {
  }

  /** `v < lo ? lo : v`, the clamp used by every `size()`. */
  function AtLeast(v: real, lo: real): (r: real)
    ensures r >= lo && r >= v
    ensures r == v || r == lo
  {
    if v < lo then lo else v
  }

  /**
   * The size of a block from its measured bounding box, which may be
   * unavailable (the measurement throws); the connector below the block is
   * not counted in the height, and both dimensions are raised to the
   * given minimums.
   */
  function ClampedSize(bbox: Option<Size>, minWidth: real, minHeight: real): (s: Size)
    ensures s.width >= minWidth && s.height >= minHeight
    ensures bbox.None? && minWidth >= 0.0 && minHeight >= 0.0 ==> s == Size(minWidth, minHeight)
    ensures bbox.Some? && bbox.value.width >= minWidth ==> s.width == bbox.value.width
    ensures bbox.Some? && bbox.value.height - CONNECTOR_HEIGHT >= minHeight
            ==> s.height == bbox.value.height - CONNECTOR_HEIGHT
  {
    var height := if bbox.Some? then bbox.value.height - CONNECTOR_HEIGHT else 0.0;
    var width := if bbox.Some? then bbox.value.width else 0.0;
    Size(AtLeast(width, minWidth), AtLeast(height, minHeight))
  }

  /**
   * The band around the bottom edge of a block at `pos` with `size`, to
   * which other chains connect: 10 units above the edge and 5 below it.
   */
  function ReceivingArea(pos: Point, size: Size): (r: Rect)
    ensures r.x == pos.x && r.width == CONNECTOR_TOTAL_WIDTH
    ensures r.y + 10.0 == pos.y + size.height && r.y + r.height == pos.y + size.height + 5.0
  {
    Rect(pos.x, pos.y + size.height - CONNECTOR_HEIGHT - 5.0,
         CONNECTOR_TOTAL_WIDTH, CONNECTOR_HEIGHT + 10.0)
  }

  /**
   * The band around the top edge of a block at `pos`, with which the block
   * connects to others: 10 units above the edge and 5 below it.
   */
  function ConnectingArea(pos: Point): (r: Rect)
    ensures r.x == pos.x && r.width == CONNECTOR_TOTAL_WIDTH
    ensures r.y + 10.0 == pos.y && r.y + r.height == pos.y + 5.0
  {
    Rect(pos.x, pos.y - CONNECTOR_HEIGHT - 5.0,
         CONNECTOR_TOTAL_WIDTH, CONNECTOR_HEIGHT + 10.0)
  }

  /**
   * A block whose top edge lies within 15 units vertically and 54
   * horizontally of another block's bottom edge is close enough to
   * attach there; further away it is not.
   */
  lemma {:induction false} AttachWindow(upper: Point, size: Size, lower: Point)
    ensures RectsIntersect(ConnectingArea(lower), ReceivingArea(upper, size))
        <==> (Abs(lower.x - upper.x) < CONNECTOR_TOTAL_WIDTH &&
              Abs(lower.y - (upper.y + size.height)) < CONNECTOR_HEIGHT + 10.0)
  {
    var a, b := ConnectingArea(lower), ReceivingArea(upper, size);
    assert a.y - b.y == lower.y - (upper.y + size.height);
  }
}
