/**
 * Where a dragged chain may attach: the global position of blocks and
 * groups, the connector areas of each kind of block (`connectorArea` of
 * js/block.js, js/controlblock.js and js/startblock.js), and the
 * first-match scans of `Connector.attachable`, `Block.attachable`,
 * `ControlBlock.attachable`, the group's `attachable` and
 * `BlockEditor.attachable`.
 */
module Attach {
  import opened Wrappers
  import opened Geometry
  import opened Chains
  import opened Blocks
  import opened Arena
  import opened Operations

  /** A connector (js/connector.js:9-12): its owner block and its index among the owner's connectors. */
  datatype Connector = Connector(block: BlockId, index: nat)

  /** What a call returns, or that it threw. */
  datatype Outcome<T> = Returns(value: T) | Throws

  function Offset(p: Point, q: Point): Point
  {
    Point(p.x + q.x, p.y + q.y)
  }

  // ---------------------------------------------------------------------
  // Global positions

  /** Every block and group has a position, and every group's parent block a `group` entry. */
  ghost predicate Positioned(st: Structure, d: Drawing)
  {
    && (forall b | b in st.group ::
          b in d.pos && (st.group[b].Some? ==> st.group[b].value in st.groupInfo && st.group[b].value in d.groupPos))
    && (forall g | g in st.groupInfo ::
          g in d.groupPos && (st.groupInfo[g].parent.Some? ==> st.groupInfo[g].parent.value in st.group))
  }

  lemma OkPositioned(st: Structure, suffix: Suffixes, d: Drawing)
    requires StructureOk(st, suffix) && Fits(st, d)
    ensures Positioned(st, d)
  {
    assert Keyed(st.next, st.group, st.first);
    forall b | b in st.group
      ensures b in d.pos && (st.group[b].Some? ==> st.group[b].value in st.groupInfo && st.group[b].value in d.groupPos)
    {
      assert b in st.next;
      if st.group[b].Some? {
        var g := st.group[b].value;
        assert g in st.first;
        assert g in st.groupInfo && g in d.groupPos;
      }
    }
    forall g | g in st.groupInfo && st.groupInfo[g].parent.Some?
      ensures st.groupInfo[g].parent.value in st.group
    {
      assert st.groupInfo[g].parent.value in st.info;
    }
  }

  /**
   * `globalPosition()` of group `g`, which js/block.js:243 calls but
   * js/blockgroup.js does not define: a global group is at its own
   * position; a nested group is offset by its parent block's global
   * position.  `fuel` bounds the nesting depth followed.
   */
  function GroupPosition(st: Structure, d: Drawing, g: GroupId, fuel: nat): (r: Option<Point>)
    requires Positioned(st, d) && g in st.groupInfo
    ensures st.groupInfo[g].parent.None? ==> r == Some(d.groupPos[g])
    decreases fuel, 0
  {
    match st.groupInfo[g].parent
    case None => Some(d.groupPos[g])
    case Some(p) =>
      if fuel == 0 then None
      else
        match BlockPosition(st, d, p, fuel - 1)
        case None => None
        case Some(q) => Some(Offset(d.groupPos[g], q))
  }

  /**
   * `globalPosition()` of block `b` (js/block.js:242-248): its position in
   * its group plus the group's global position.  A block without a group
   * has none (the source dereferences the missing group).
   */
  function BlockPosition(st: Structure, d: Drawing, b: BlockId, fuel: nat): (r: Option<Point>)
    requires Positioned(st, d) && b in st.group
    ensures st.group[b].None? ==> r.None?
    ensures st.group[b].Some? && st.groupInfo[st.group[b].value].parent.None? ==>
              r == Some(Offset(d.pos[b], d.groupPos[st.group[b].value]))
    decreases fuel, 1
  {
    match st.group[b]
    case None => None
    case Some(g) =>
      match GroupPosition(st, d, g, fuel)
      case None => None
      case Some(q) => Some(Offset(d.pos[b], q))
  }

  /** More fuel never changes a position that was found. */
  lemma {:induction false} BlockPositionFuel(st: Structure, d: Drawing, b: BlockId, fuel: nat, more: nat)
    requires Positioned(st, d) && b in st.group && fuel <= more && BlockPosition(st, d, b, fuel).Some?
    ensures BlockPosition(st, d, b, more) == BlockPosition(st, d, b, fuel)
    decreases fuel
  {
    var g := st.group[b].value;
    match st.groupInfo[g].parent
    case None =>
    case Some(p) =>
      BlockPositionFuel(st, d, p, fuel - 1, more - 1);
  }

  /** The global position of block `b`, following at most as many nestings as there are groups. */
  function GlobalPosition(st: Structure, d: Drawing, b: BlockId): (r: Option<Point>)
    requires Positioned(st, d) && b in st.group
    ensures st.group[b].None? ==> r.None?
    ensures st.group[b].Some? && st.groupInfo[st.group[b].value].parent.None? ==>
              r == Some(Offset(d.pos[b], d.groupPos[st.group[b].value]))
  {
    BlockPosition(st, d, b, st.groupCount)
  }

  // ---------------------------------------------------------------------
  // Connector areas

  /**
   * `connectorArea(index)` of a block of kind `k` at global position `pos`
   * with size `size` and connector positions `cps`; `index` is `None` when
   * no index is given.  Without an index it is the area with which the
   * block connects (a start block has none); index 0, and any index of a
   * plain or start block, is the area to which others connect; index
   * `i > 0` of a control block is the area at its connector position `i`.
   */
  function AreaAt(k: Kind, pos: Point, size: Size, cps: seq<Point>, index: Option<nat>): (r: Option<Rect>)
    requires index.Some? && k.Control? && index.value > 0 ==> index.value < |cps|
    ensures r.None? <==> k.Start? && index.None?
    ensures r.Some? ==> r.value.width == 54.0 && r.value.height == 15.0
    ensures index.None? && !k.Start? ==> r == Some(ConnectingArea(pos))
    ensures index.Some? && (!k.Control? || index.value == 0) ==> r == Some(ReceivingArea(pos, size))
    ensures index.Some? && k.Control? && index.value > 0 ==>
              r == Some(Rect(cps[index.value].x + pos.x, cps[index.value].y + pos.y, 54.0, 15.0))
  {
    match k
    case Start =>
      if index.None? then None else Some(ReceivingArea(pos, size))
    case Plain =>
      if index.None? then Some(ConnectingArea(pos)) else Some(ReceivingArea(pos, size))
    case Control(_) =>
      if index.None? then Some(ConnectingArea(pos))
      else if index.value == 0 then Some(ReceivingArea(pos, size))
      else
        var p := cps[index.value];
        Some(Rect(p.x + pos.x, p.y + pos.y, CONNECTOR_TOTAL_WIDTH, CONNECTOR_HEIGHT + 10.0))
  }

  /**
   * `connectorArea()` of the dragged block `b`, the area with which it
   * connects: `None` for a start block (or a block whose position is
   * unknown).
   */
  function CandidateArea(st: Structure, d: Drawing, b: BlockId): (r: Option<Rect>)
    requires Positioned(st, d) && b in st.group && b in st.info && b in d.connectorPositions
    ensures st.info[b].kind.Start? ==> r.None?
    ensures r.Some? <==> !st.info[b].kind.Start? && GlobalPosition(st, d, b).Some?
    ensures r.Some? ==> GlobalPosition(st, d, b).Some? && r.value == ConnectingArea(GlobalPosition(st, d, b).value)
  {
    match GlobalPosition(st, d, b)
    case None => None
    case Some(pos) => AreaAt(st.info[b].kind, pos, Arena.Size(st, b), d.connectorPositions[b], None)
  }

  /** `c` names a connector its block has. */
  ghost predicate ConnectorOk(st: Structure, d: Drawing, c: Connector)
  {
    && c.block in st.info && c.block in st.group && c.block in d.connectorPositions
    && c.index < ConnectorCount(st.info[c.block].kind)
    && (st.info[c.block].kind.Control? ==> c.index < |d.connectorPositions[c.block]|)
  }

  /**
   * `Connector.attachable(block)` (js/connector.js:30-34) for a dragged
   * block whose connecting area is `cand`: the connector's own area
   * intersects it.
   */
  predicate Matches(st: Structure, d: Drawing, c: Connector, cand: Rect)
    requires Positioned(st, d) && ConnectorOk(st, d, c)
  {
    match GlobalPosition(st, d, c.block)
    case None => false
    case Some(pos) =>
      var a := AreaAt(st.info[c.block].kind, pos, Arena.Size(st, c.block), d.connectorPositions[c.block], Some(c.index));
      a.Some? && RectsIntersect(cand, a.value)
  }

  /** A connector of a block in the drawing, whose area intersects `cand`. */
  ghost predicate Found(st: Structure, d: Drawing, c: Connector, cand: Rect)
  {
    Positioned(st, d) && ConnectorOk(st, d, c) && Matches(st, d, c, cand)
  }

  /**
   * `Connector.attachable(block)` as written, where the dragged block's
   * connecting area may be `null`: `rectsIntersect` then reads `width` of
   * `null` and throws.
   */
  function ConnectorAttachableAsWritten(st: Structure, d: Drawing, c: Connector, cand: Option<Rect>): (r: Outcome<bool>)
    requires Positioned(st, d) && ConnectorOk(st, d, c)
    ensures r.Throws? <==> cand.None?
    ensures cand.Some? ==> r == Returns(Matches(st, d, c, cand.value))
  {
    match cand
    case None => Throws
    case Some(a) => Returns(Matches(st, d, c, a))
  }

  // ---------------------------------------------------------------------
  // The first-match scans

  /** The block `b` is in the structure and the drawing, with a position per connector. */
  ghost predicate Scanned(st: Structure, d: Drawing, b: BlockId)
  {
    && Positioned(st, d) && b in st.info && b in st.group && b in d.connectorPositions
    && (st.info[b].kind.Control? ==> ConnectorCount(st.info[b].kind) <= |d.connectorPositions[b]|)
  }

  lemma OkScanned(st: Structure, suffix: Suffixes, d: Drawing, b: BlockId)
    requires StructureOk(st, suffix) && Fits(st, d) && b in st.next
    ensures Scanned(st, d, b)
  {
    OkPositioned(st, suffix, d);
    assert WellNested(st.info, st.groupInfo, b);
  }

  /**
   * The connectors of `b` from index `from` on, in index order: the first
   * one that matches (`Block.attachable`, js/block.js:278-284).
   */
  function FirstConnector(st: Structure, d: Drawing, b: BlockId, cand: Rect, from: nat): (r: Option<Connector>)
    requires Scanned(st, d, b) && from <= ConnectorCount(st.info[b].kind)
    ensures r.Some? ==> r.value.block == b && from <= r.value.index && Found(st, d, r.value, cand)
    ensures forall j | from <= j < (if r.Some? then r.value.index else ConnectorCount(st.info[b].kind)) ::
              !Matches(st, d, Connector(b, j), cand)
    decreases ConnectorCount(st.info[b].kind) - from
  {
    if from == ConnectorCount(st.info[b].kind) then None
    else if Matches(st, d, Connector(b, from), cand) then Some(Connector(b, from))
    else FirstConnector(st, d, b, cand, from + 1)
  }

  /** `y` is in a group that is nested in some block. */
  predicate InNestedGroup(st: Structure, y: BlockId)
  {
    y in st.group && st.group[y].Some? && st.group[y].value in st.groupInfo && st.groupInfo[st.group[y].value].parent.Some?
  }

  /**
   * The group's `attachable(block)`, which js/blockeditor.js:200 calls but
   * js/blockgroup.js does not define: the first match along its chain.
   * Every match is in group `g` or in a group nested in some block.
   * `fuel` bounds how deep nested groups are searched.
   */
  function GroupAttachable(st: Structure, ghost suffix: Suffixes, d: Drawing, g: GroupId, cand: Rect, fuel: nat)
    : (r: Option<Connector>)
    requires StructureOk(st, suffix) && Fits(st, d) && g in st.first
    ensures r.Some? ==> Found(st, d, r.value, cand)
    ensures r.Some? ==> st.group[r.value.block] == Some(g) || InNestedGroup(st, r.value.block)
    ensures st.first[g].None? ==> r.None?
    decreases fuel, 3, 0
  {
    match st.first[g]
    case None => None
    case Some(h) => ChainAttachable(st, suffix, d, h, cand, fuel)
  }

  /** The first match on the chain from `x`, in chain order. */
  function ChainAttachable(st: Structure, ghost suffix: Suffixes, d: Drawing, x: BlockId, cand: Rect, fuel: nat)
    : (r: Option<Connector>)
    requires StructureOk(st, suffix) && Fits(st, d) && x in st.next && st.group[x].Some?
    ensures r.Some? ==> Found(st, d, r.value, cand)
    ensures r.Some? ==> st.group[r.value.block] == st.group[x] || InNestedGroup(st, r.value.block)
    decreases fuel, 2, |suffix[x]|
  {
    match BlockAttachable(st, suffix, d, x, cand, fuel)
    case Some(c) => Some(c)
    case None =>
      match st.next[x]
      case None => None
      case Some(n) =>
        Step(st.prev, st.next, suffix, x);
        ChainAttachable(st, suffix, d, n, cand, fuel)
  }

  /** No block of the chain from `x` has a match. */
  ghost predicate NoneAlong(st: Structure, suffix: Suffixes, d: Drawing, x: BlockId, cand: Rect, fuel: nat)
    requires StructureOk(st, suffix) && Fits(st, d) && x in st.next
  {
    forall i | 0 <= i < |suffix[x]| ::
      suffix[x][i] in st.next && BlockAttachable(st, suffix, d, suffix[x][i], cand, fuel).None?
  }

  /** `NoneAlong` from `x` is `x` without a match followed by `NoneAlong` from its `next`. */
  lemma NoneAlongStep(st: Structure, suffix: Suffixes, d: Drawing, x: BlockId, cand: Rect, fuel: nat)
    requires StructureOk(st, suffix) && Fits(st, d) && x in st.next && st.next[x].Some?
    ensures st.next[x].value in st.next
    ensures NoneAlong(st, suffix, d, x, cand, fuel) <==>
              BlockAttachable(st, suffix, d, x, cand, fuel).None? && NoneAlong(st, suffix, d, st.next[x].value, cand, fuel)
  {
    var n := st.next[x].value;
    Step(st.prev, st.next, suffix, x);
    if NoneAlong(st, suffix, d, x, cand, fuel) {
      assert suffix[x][0] == x;
      forall j | 0 <= j < |suffix[n]|
        ensures suffix[n][j] in st.next && BlockAttachable(st, suffix, d, suffix[n][j], cand, fuel).None?
      {
        assert suffix[n][j] == suffix[x][j + 1];
      }
    }
    if BlockAttachable(st, suffix, d, x, cand, fuel).None? && NoneAlong(st, suffix, d, n, cand, fuel) {
      forall i | 0 <= i < |suffix[x]|
        ensures suffix[x][i] in st.next && BlockAttachable(st, suffix, d, suffix[x][i], cand, fuel).None?
      {
        if i > 0 {
          assert suffix[x][i] == suffix[n][i - 1];
        }
      }
    }
  }

  /**
   * `attachable(block)` of block `x`: a control block searches its nested
   * groups in order before its own connectors (js/controlblock.js:143-151);
   * other blocks search their connectors (js/block.js:278-284).
   */
  function BlockAttachable(st: Structure, ghost suffix: Suffixes, d: Drawing, x: BlockId, cand: Rect, fuel: nat)
    : (r: Option<Connector>)
    requires StructureOk(st, suffix) && Fits(st, d) && x in st.next
    ensures r.Some? ==> Found(st, d, r.value, cand)
    ensures r.Some? ==> r.value.block == x || InNestedGroup(st, r.value.block)
    decreases fuel, 1, 0
  {
    OkScanned(st, suffix, d, x);
    if st.info[x].kind.Control? then
      match NestedAttachable(st, suffix, d, x, 0, cand, fuel)
      case Some(c) => Some(c)
      case None => FirstConnector(st, d, x, cand, 0)
    else FirstConnector(st, d, x, cand, 0)
  }

  /** The nested groups of `x` from index `i` on, in order: the first match. */
  function NestedAttachable(st: Structure, ghost suffix: Suffixes, d: Drawing, x: BlockId, i: nat, cand: Rect, fuel: nat)
    : (r: Option<Connector>)
    requires StructureOk(st, suffix) && Fits(st, d) && x in st.info && i <= |st.info[x].nested|
    ensures r.Some? ==> Found(st, d, r.value, cand) && InNestedGroup(st, r.value.block)
    decreases fuel, 0, |st.info[x].nested| - i
  {
    var nested := st.info[x].nested;
    if i == |nested| || fuel == 0 then None
    else
      assert WellNested(st.info, st.groupInfo, x);
      match GroupAttachable(st, suffix, d, nested[i], cand, fuel - 1)
      case Some(c) => Some(c)
      case None => NestedAttachable(st, suffix, d, x, i + 1, cand, fuel)
  }

  /**
   * The global groups `groups` in order, skipping `skip` (the dragged
   * block's own group): the first match of a group's `attachable`.
   */
  function ScanGroups(st: Structure, ghost suffix: Suffixes, d: Drawing, groups: seq<GroupId>, skip: GroupId,
                      cand: Rect, fuel: nat): (r: Option<Connector>)
    requires StructureOk(st, suffix) && Fits(st, d) && forall i | 0 <= i < |groups| :: groups[i] in st.first
    ensures r.Some? ==> Found(st, d, r.value, cand)
    ensures r.Some? ==> (st.group[r.value.block].Some? &&
                         ((st.group[r.value.block].value in groups && st.group[r.value.block] != Some(skip)) ||
                          InNestedGroup(st, r.value.block)))
    ensures r.None? <==>
              forall i | 0 <= i < |groups| && groups[i] != skip :: GroupAttachable(st, suffix, d, groups[i], cand, fuel).None?
    decreases |groups|
  {
    if groups == [] then None
    else
      var rest := ScanGroups(st, suffix, d, groups[1..], skip, cand, fuel);
      assert forall i | 1 <= i < |groups| :: groups[i] == groups[1..][i - 1];
      if groups[0] == skip then rest
      else
        match GroupAttachable(st, suffix, d, groups[0], cand, fuel)
        case Some(c) => Some(c)
        case None => rest
  }

  /**
   * `BlockEditor.attachable(block)` (js/blockeditor.js:196-203): the first
   * match over the global groups other than the dragged block's own,
   * against the area with which the dragged block connects.  A block
   * without such an area (a start block) attaches nowhere.  When the
   * dragged block's group is global, no match comes from it: it is
   * skipped, and every other match is in another global group or in a
   * nested one.  Nothing is returned exactly when the block has no such
   * area or no scanned group has a match.
   */
  function Attachable(st: Structure, ghost suffix: Suffixes, d: Drawing, groups: seq<GroupId>, block: BlockId)
    : (r: Option<Connector>)
    requires StructureOk(st, suffix) && Fits(st, d) && block in st.next && st.group[block].Some?
    requires forall i | 0 <= i < |groups| :: groups[i] in st.first
    ensures r.Some? ==> Positioned(st, d) && CandidateArea(st, d, block).Some? &&
                        Found(st, d, r.value, CandidateArea(st, d, block).value)
    ensures st.info[block].kind.Start? ==> r.None?
    ensures r.Some? && !HasParent(st, st.group[block].value) ==> st.group[r.value.block] != st.group[block]
    ensures Scanned(st, d, block)
    ensures CandidateArea(st, d, block).None? ==> r.None?
    ensures CandidateArea(st, d, block).Some? ==>
              (r.None? <==> forall i | 0 <= i < |groups| && groups[i] != st.group[block].value ::
                              GroupAttachable(st, suffix, d, groups[i], CandidateArea(st, d, block).value, st.groupCount).None?)
  {
    OkScanned(st, suffix, d, block);
    match CandidateArea(st, d, block)
    case None => None
    case Some(cand) => ScanGroups(st, suffix, d, groups, st.group[block].value, cand, st.groupCount)
  }

  /**
   * The match `ScanGroups` returns is the first one in `groups` order: it
   * comes from the group at index `i`, and no group before it, other than
   * `skip`, has a match.
   */
  lemma {:induction false} ScanGroupsFirst(st: Structure, suffix: Suffixes, d: Drawing, groups: seq<GroupId>, skip: GroupId,
                                           cand: Rect, fuel: nat) returns (i: nat)
    requires StructureOk(st, suffix) && Fits(st, d) && forall j | 0 <= j < |groups| :: groups[j] in st.first
    requires ScanGroups(st, suffix, d, groups, skip, cand, fuel).Some?
    ensures i < |groups| && groups[i] != skip
    ensures GroupAttachable(st, suffix, d, groups[i], cand, fuel) == ScanGroups(st, suffix, d, groups, skip, cand, fuel)
    ensures forall j | 0 <= j < i && groups[j] != skip :: GroupAttachable(st, suffix, d, groups[j], cand, fuel).None?
    decreases |groups|
  {
    if groups[0] != skip && GroupAttachable(st, suffix, d, groups[0], cand, fuel).Some? {
      i := 0;
    } else {
      var rest := groups[1..];
      ScanGroupsStep(st, suffix, d, groups, skip, cand, fuel);
      var k := ScanGroupsFirst(st, suffix, d, rest, skip, cand, fuel);
      i := k + 1;
      assert groups[i] == rest[k];
      forall j | 0 <= j < i && groups[j] != skip
        ensures GroupAttachable(st, suffix, d, groups[j], cand, fuel).None?
      {
        if j > 0 {
          assert groups[j] == rest[j - 1];
        }
      }
    }
  }

  /** Past a group without a match, or the skipped one, the scan goes on with the rest. */
  lemma ScanGroupsStep(st: Structure, suffix: Suffixes, d: Drawing, groups: seq<GroupId>, skip: GroupId,
                       cand: Rect, fuel: nat)
    requires StructureOk(st, suffix) && Fits(st, d) && forall j | 0 <= j < |groups| :: groups[j] in st.first
    requires groups != [] && (groups[0] == skip || GroupAttachable(st, suffix, d, groups[0], cand, fuel).None?)
    ensures forall j | 0 <= j < |groups[1..]| :: groups[1..][j] in st.first
    ensures ScanGroups(st, suffix, d, groups, skip, cand, fuel) == ScanGroups(st, suffix, d, groups[1..], skip, cand, fuel)
  {
  }

  /** A group has no match exactly when no block of its chain has one. */
  lemma GroupAttachableNone(st: Structure, suffix: Suffixes, d: Drawing, g: GroupId, cand: Rect, fuel: nat)
    requires StructureOk(st, suffix) && Fits(st, d) && g in st.first && st.first[g].Some?
    ensures st.first[g].value in st.next
    ensures GroupAttachable(st, suffix, d, g, cand, fuel).None? <==> NoneAlong(st, suffix, d, st.first[g].value, cand, fuel)
  {
    ChainAttachableNone(st, suffix, d, st.first[g].value, cand, fuel);
  }

  /** The chain from `x` has no match exactly when none of its blocks has one. */
  lemma {:induction false} ChainAttachableNone(st: Structure, suffix: Suffixes, d: Drawing, x: BlockId, cand: Rect,
                                               fuel: nat)
    requires StructureOk(st, suffix) && Fits(st, d) && x in st.next && st.group[x].Some?
    ensures ChainAttachable(st, suffix, d, x, cand, fuel).None? <==> NoneAlong(st, suffix, d, x, cand, fuel)
    decreases |suffix[x]|
  {
    assert suffix[x][0] == x;
    if st.next[x].None? {
      assert suffix[x] == [x];
    } else {
      var n := st.next[x].value;
      Step(st.prev, st.next, suffix, x);
      NoneAlongStep(st, suffix, d, x, cand, fuel);
      ChainAttachableNone(st, suffix, d, n, cand, fuel);
    }
  }

  /**
   * Without fuel the nested groups are not searched; with fuel left, the
   * branches of `x` from `i` on have no match exactly when none of them has
   * one.
   */
  lemma {:induction false} NestedAttachableNone(st: Structure, suffix: Suffixes, d: Drawing, x: BlockId, i: nat,
                                                cand: Rect, fuel: nat)
    requires StructureOk(st, suffix) && Fits(st, d) && x in st.info && i <= |st.info[x].nested|
    ensures fuel == 0 ==> NestedAttachable(st, suffix, d, x, i, cand, fuel).None?
    ensures fuel > 0 ==>
              (NestedAttachable(st, suffix, d, x, i, cand, fuel).None? <==>
                 forall j | i <= j < |st.info[x].nested| ::
                   && st.info[x].nested[j] in st.first
                   && GroupAttachable(st, suffix, d, st.info[x].nested[j], cand, fuel - 1).None?)
    decreases |st.info[x].nested| - i
  {
    assert WellNested(st.info, st.groupInfo, x);
    if i < |st.info[x].nested| && fuel > 0 {
      NestedAttachableNone(st, suffix, d, x, i + 1, cand, fuel);
    }
  }

  /**
   * A control block searches its nested groups before its own connectors:
   * a match there is the result; otherwise the result is that of its own
   * connectors, and there is none exactly when neither search finds one.
   */
  lemma BlockAttachableOrder(st: Structure, suffix: Suffixes, d: Drawing, x: BlockId, cand: Rect, fuel: nat)
    requires StructureOk(st, suffix) && Fits(st, d) && x in st.next
    ensures Scanned(st, d, x)
    ensures st.info[x].kind.Control? && NestedAttachable(st, suffix, d, x, 0, cand, fuel).Some? ==>
              BlockAttachable(st, suffix, d, x, cand, fuel) == NestedAttachable(st, suffix, d, x, 0, cand, fuel)
    ensures !st.info[x].kind.Control? || NestedAttachable(st, suffix, d, x, 0, cand, fuel).None? ==>
              BlockAttachable(st, suffix, d, x, cand, fuel) == FirstConnector(st, d, x, cand, 0)
    ensures BlockAttachable(st, suffix, d, x, cand, fuel).None? <==>
              (!st.info[x].kind.Control? || NestedAttachable(st, suffix, d, x, 0, cand, fuel).None?) &&
              FirstConnector(st, d, x, cand, 0).None?
  {
    OkScanned(st, suffix, d, x);
  }

  /**
   * The match `ChainAttachable` returns is the first one in chain order:
   * it is that of the block at index `i` of the chain, and no block before
   * it has one.
   */
  lemma {:induction false} ChainAttachableFirst(st: Structure, suffix: Suffixes, d: Drawing, x: BlockId, cand: Rect,
                                                fuel: nat) returns (i: nat)
    requires StructureOk(st, suffix) && Fits(st, d) && x in st.next && st.group[x].Some?
    requires ChainAttachable(st, suffix, d, x, cand, fuel).Some?
    ensures i < |suffix[x]| && suffix[x][i] in st.next
    ensures BlockAttachable(st, suffix, d, suffix[x][i], cand, fuel) == ChainAttachable(st, suffix, d, x, cand, fuel)
    ensures forall j | 0 <= j < i :: suffix[x][j] in st.next && BlockAttachable(st, suffix, d, suffix[x][j], cand, fuel).None?
    decreases |suffix[x]|
  {
    assert suffix[x][0] == x;
    if BlockAttachable(st, suffix, d, x, cand, fuel).Some? {
      i := 0;
    } else {
      var n := ChainAttachableStep(st, suffix, d, x, cand, fuel);
      var k := ChainAttachableFirst(st, suffix, d, n, cand, fuel);
      i := k + 1;
      assert suffix[x][i] == suffix[n][k];
      forall j | 0 <= j < i
        ensures suffix[x][j] in st.next && BlockAttachable(st, suffix, d, suffix[x][j], cand, fuel).None?
      {
        if j > 0 {
          assert suffix[x][j] == suffix[n][j - 1];
        }
      }
    }
  }

  /** Past a block without a match, the chain's search goes on from its `next`. */
  lemma ChainAttachableStep(st: Structure, suffix: Suffixes, d: Drawing, x: BlockId, cand: Rect, fuel: nat)
    returns (n: BlockId)
    requires StructureOk(st, suffix) && Fits(st, d) && x in st.next && st.group[x].Some?
    requires ChainAttachable(st, suffix, d, x, cand, fuel).Some? && BlockAttachable(st, suffix, d, x, cand, fuel).None?
    ensures st.next[x] == Some(n) && n in st.next && st.group[n] == st.group[x] && suffix[x] == [x] + suffix[n]
    ensures ChainAttachable(st, suffix, d, n, cand, fuel) == ChainAttachable(st, suffix, d, x, cand, fuel)
  {
    n := st.next[x].value;
    Step(st.prev, st.next, suffix, x);
  }

  /**
   * The match `NestedAttachable` returns is the first one in branch order:
   * it is that of branch `k`, and no branch from `i` up to `k` has one.
   */
  lemma {:induction false} NestedAttachableFirst(st: Structure, suffix: Suffixes, d: Drawing, x: BlockId, i: nat,
                                                 cand: Rect, fuel: nat) returns (k: nat)
    requires StructureOk(st, suffix) && Fits(st, d) && x in st.info && i <= |st.info[x].nested|
    requires NestedAttachable(st, suffix, d, x, i, cand, fuel).Some?
    ensures fuel > 0 && i <= k < |st.info[x].nested| && st.info[x].nested[k] in st.first
    ensures GroupAttachable(st, suffix, d, st.info[x].nested[k], cand, fuel - 1) == NestedAttachable(st, suffix, d, x, i, cand, fuel)
    ensures forall j | i <= j < k ::
              st.info[x].nested[j] in st.first && GroupAttachable(st, suffix, d, st.info[x].nested[j], cand, fuel - 1).None?
    decreases |st.info[x].nested| - i
  {
    assert WellNested(st.info, st.groupInfo, x);
    var nested := st.info[x].nested;
    if GroupAttachable(st, suffix, d, nested[i], cand, fuel - 1).Some? {
      k := i;
    } else {
      k := NestedAttachableFirst(st, suffix, d, x, i + 1, cand, fuel);
    }
  }

  /**
   * The scan of js/blockeditor.js:196-203 as a loop over the global
   * groups; it returns `Attachable`.
   */
  method EditorAttachable(st: Structure, ghost suffix: Suffixes, d: Drawing, groups: seq<GroupId>, block: BlockId)
    returns (r: Option<Connector>)
    requires StructureOk(st, suffix) && Fits(st, d) && block in st.next && st.group[block].Some?
    requires forall i | 0 <= i < |groups| :: groups[i] in st.first
    ensures r == Attachable(st, suffix, d, groups, block)
  {
    OkScanned(st, suffix, d, block);
    var cand := CandidateArea(st, d, block);
    if cand.None? {
      return None;
    }
    var skip := st.group[block].value;
    for i := 0 to |groups|
      invariant ScanGroups(st, suffix, d, groups, skip, cand.value, st.groupCount)
             == ScanGroups(st, suffix, d, groups[i..], skip, cand.value, st.groupCount)
    {
      assert groups[i..][1..] == groups[i + 1..];
      var bg := groups[i];
      if bg != skip {
        var b := GroupAttachable(st, suffix, d, bg, cand.value, st.groupCount);
        if b.Some? {
          return b;
        }
      }
    }
    return None;
  }

  /**
   * The loop of `ControlBlock.attachable` (js/controlblock.js:143-151)
   * over the nested groups, then that of `Block.attachable`; for a plain
   * or start block only the latter.  It returns `BlockAttachable`.
   */
  method BlockAttachableScan(st: Structure, ghost suffix: Suffixes, d: Drawing, x: BlockId, cand: Rect, fuel: nat)
    returns (r: Option<Connector>)
    requires StructureOk(st, suffix) && Fits(st, d) && x in st.next
    ensures r == BlockAttachable(st, suffix, d, x, cand, fuel)
  {
    OkScanned(st, suffix, d, x);
    if st.info[x].kind.Control? {
      var groups := st.info[x].nested;
      for i := 0 to |groups|
        invariant NestedAttachable(st, suffix, d, x, 0, cand, fuel) == NestedAttachable(st, suffix, d, x, i, cand, fuel)
      {
        if fuel > 0 {
          assert WellNested(st.info, st.groupInfo, x);
          var connector := GroupAttachable(st, suffix, d, groups[i], cand, fuel - 1);
          if connector.Some? {
            return connector;
          }
        }
      }
    }
    r := ConnectorScan(st, d, x, cand);
  }

  /** The loop of `Block.attachable` (js/block.js:278-284); it returns `FirstConnector`. */
  method ConnectorScan(st: Structure, d: Drawing, b: BlockId, cand: Rect) returns (r: Option<Connector>)
    requires Scanned(st, d, b)
    ensures r == FirstConnector(st, d, b, cand, 0)
  {
    for i := 0 to ConnectorCount(st.info[b].kind)
      invariant FirstConnector(st, d, b, cand, 0) == FirstConnector(st, d, b, cand, i)
    {
      if Matches(st, d, Connector(b, i), cand) {
        return Some(Connector(b, i));
      }
    }
    return None;
  }

  /**
   * `BlockEditor.attachable(block)` as written: a start block has no
   * connecting area, and the scan throws as soon as it tests a connector
   * against it; any other block scans as `Attachable` does.
   */
  function AttachableAsWritten(st: Structure, ghost suffix: Suffixes, d: Drawing, groups: seq<GroupId>, block: BlockId)
    : (r: Outcome<Option<Connector>>)
    requires StructureOk(st, suffix) && Fits(st, d) && block in st.next && st.group[block].Some?
    requires forall i | 0 <= i < |groups| :: groups[i] in st.first
    ensures !st.info[block].kind.Start? ==> r == Returns(Attachable(st, suffix, d, groups, block))
    ensures r.Throws? <==> st.info[block].kind.Start? &&
                           exists i | 0 <= i < |groups| :: groups[i] != st.group[block].value && st.first[groups[i]].Some?
  {
    if st.info[block].kind.Start? then ScanGroupsNull(st, groups, st.group[block].value)
    else Returns(Attachable(st, suffix, d, groups, block))
  }

  /**
   * `BlockEditor.attachable(block)` as written when the dragged block has
   * no connecting area (a start block): the first group tested that has a
   * block leads to `Connector.attachable` on that block's first
   * connector, which throws; with no such group it returns nothing.
   */
  function ScanGroupsNull(st: Structure, groups: seq<GroupId>, skip: GroupId): (r: Outcome<Option<Connector>>)
    requires forall i | 0 <= i < |groups| :: groups[i] in st.first
    ensures r.Throws? <==> exists i | 0 <= i < |groups| :: groups[i] != skip && st.first[groups[i]].Some?
    ensures r.Returns? ==> r.value.None?
    decreases |groups|
  {
    if groups == [] then Returns(None)
    else if groups[0] != skip && st.first[groups[0]].Some? then Throws
    else
      assert forall i | 1 <= i < |groups| :: groups[i] == groups[1..][i - 1];
      ScanGroupsNull(st, groups[1..], skip)
  }
}
