/**
 * The three kinds of block (js/block.js, js/controlblock.js,
 * js/startblock.js) as values: the per-instance overrides of `size`,
 * the connector list and the control block's branch layout dispatch on
 * the block's `Kind`.
 */
module Blocks {
  import opened Wrappers
  import opened Geometry

  type GroupId = int

  /** `cnt` is the control block's branch count, as given to its constructor. */
  datatype Kind = Plain | Control(cnt: int) | Start

  /**
   * The payload the interpreter reads from `block.data`: a statement
   * block (`data.statement` may be absent) or a loop repeating its first
   * branch `cnt` times.
   */
  datatype Payload = Statement(statement: Option<string>) | Loop(cnt: int)

  /**
   * What a block is given when it is made and keeps: its kind, its
   * payload, the measured bounding box (`None` when measuring throws) and,
   * for a control block, its nested groups (`connectorGroups`).
   */
  datatype Info = Info(kind: Kind, payload: Option<Payload>, bbox: Option<Size>, nested: seq<GroupId>)

  /** `opts.cnt || 1`: an absent or zero count becomes one. */
  function DefaultCount(cnt: Option<int>): (r: int)
    ensures r != 0
    ensures cnt.Some? && cnt.value != 0 ==> r == cnt.value
    ensures cnt.None? || cnt.value == 0 ==> r == 1
  {
    if cnt.None? || cnt.value == 0 then 1 else cnt.value
  }

  function Max0(n: int): (r: nat)
    ensures r >= n && (n >= 0 ==> r == n)
  {
    if n < 0 then 0 else n
  }

  /** How many nested groups the constructor creates (`for i = 1; i <= cnt`). */
  function NestedCount(k: Kind): (r: nat)
    ensures k.Control? && k.cnt >= 0 ==> r == k.cnt
    ensures !k.Control? ==> r == 0
  {
    if k.Control? then Max0(k.cnt) else 0
  }

  /** How many connectors the constructor creates; indices run from 0. */
  function ConnectorCount(k: Kind): (r: nat)
    ensures k.Control? && k.cnt >= 0 ==> r == k.cnt + 1
    ensures !k.Control? ==> r == 1
  {
    if k.Control? then Max0(k.cnt + 1) else 1
  }

  /** The smallest width a plain or control block reports. */
  const BLOCK_MIN_WIDTH: real := MIN_WIDTH + CONNECTOR_TOTAL_WIDTH

  /** The smallest height a control block with `cnt` branches reports. */
  function ControlMinHeight(cnt: int): real
  {
    END_SEGMENT_HEIGHT + (cnt as real) * (SEGMENT_MIN_HEIGHT + CONTROL_MIN_HEIGHT)
  }

  /** `size()` of a block of kind `k` whose bounding box measured `bbox`. */
  function SizeOf(k: Kind, bbox: Option<Size>): (s: Size)
    ensures k.Plain? ==> s.width >= 104.0 && s.height >= 60.0
    ensures k.Plain? && bbox.None? ==> s == Size(104.0, 60.0)
    ensures k.Control? ==> s.width >= 104.0 && s.height >= 15.0 + (k.cnt as real) * 90.0
    ensures k.Control? && bbox.None? && k.cnt >= 0 ==> s == Size(104.0, 15.0 + (k.cnt as real) * 90.0)
    ensures k.Start? ==> s == Size(104.0, 57.0)
  {
    match k
    case Plain => ClampedSize(bbox, BLOCK_MIN_WIDTH, MIN_HEIGHT)
    case Control(cnt) => ClampedSize(bbox, BLOCK_MIN_WIDTH, ControlMinHeight(cnt))
    case Start => Size(2.0 * ARC_RADIUS, ARC_RADIUS + CORNER_RADIUS)
  }

  /** `setSegmentHeight`: a branch is drawn at least `SEGMENT_MIN_HEIGHT` tall. */
  function SegmentHeight(height: real): (r: real)
    ensures r >= SEGMENT_MIN_HEIGHT
    ensures height >= SEGMENT_MIN_HEIGHT ==> r == height
    ensures height < SEGMENT_MIN_HEIGHT ==> r == SEGMENT_MIN_HEIGHT
  {
    if height < SEGMENT_MIN_HEIGHT then SEGMENT_MIN_HEIGHT else height
  }

  /**
   * The y offset `h_i` of branch `i` (1-based) of a control block whose
   * nested groups measure `heights`: `h_1 = 60` and
   * `h_{i+1} = h_i + SegmentHeight(heights[i-1] - 5) + 60`.
   */
  function BranchTop(heights: seq<real>, i: nat): real
    requires 1 <= i <= |heights|
  {
    if i == 1 then CONTROL_MIN_HEIGHT
    else BranchTop(heights, i - 1) + SegmentHeight(heights[i - 2] - CONNECTOR_HEIGHT) + CONTROL_MIN_HEIGHT
  }

  /** Branches are at least 90 apart, so no two branches overlap. */
  lemma {:induction false} BranchTopsSpread(heights: seq<real>, i: nat, j: nat)
    requires 1 <= i <= j <= |heights|
    ensures BranchTop(heights, j) >= BranchTop(heights, i) + ((j - i) as real) * 90.0
    decreases j
  {
    if i < j {
      BranchTopsSpread(heights, i, j - 1);
    }
  }

  /** Branch `i` starts at least `60 + 90 * (i - 1)` below the block's top. */
  lemma BranchTopLowerBound(heights: seq<real>, i: nat)
    requires 1 <= i <= |heights|
    ensures BranchTop(heights, i) >= 60.0 + ((i - 1) as real) * 90.0
  {
    BranchTopsSpread(heights, 1, i);
  }
}
