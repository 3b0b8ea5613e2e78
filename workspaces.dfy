/**
 * The blocks and block groups of the editor, changed in place: the
 * methods of `Block` (js/block.js), `ControlBlock` (js/controlblock.js),
 * `StartBlock` (js/startblock.js) and `BlockGroup` (js/blockgroup.js).
 *
 * One `Workspace` object holds every block and group, addressed by id;
 * `st` holds the fields the chain operations change and `d` where things
 * are drawn.  The ghost `suffix` is the chain that starts at each block;
 * `Valid()` ties it to the `next` links, so it also proves that no chain
 * has a cycle.
 */
module Workspaces {
  import opened Wrappers
  import opened Geometry
  import opened Chains
  import opened Blocks
  import opened Arena
  import opened Operations
  import opened Layout

  class Workspace {
    var st: Structure
    var d: Drawing
    ghost var suffix: Suffixes

    ghost predicate Valid()
      reads this
    {
      StructureOk(st, suffix) && Fits(st, d)
    }

    /** An empty workspace. */
    constructor ()
      ensures Valid()
      ensures st.next == map[] && st.first == map[] && st.blockCount == 0 && st.groupCount == 0
    {
      st := Structure(map[], map[], map[], map[], map[], map[], 0, 0);
      d := Drawing(map[], map[], map[], {}, {});
      suffix := map[];
    }

    // -------------------------------------------------------------------
    // Creating blocks and groups

    /**
     * `new Block(opts)` (js/block.js:7-43) or `new StartBlock(opts)`
     * (js/startblock.js:5-54): a block at (0, 0) with no group, no `prev`
     * and no `next`.  `bbox` is what measuring the block gives, or `None`
     * when measuring fails; `payload` is the block's `data`.
     */
    method NewBlock(start: bool, payload: Option<Payload>, bbox: Option<Size>) returns (b: BlockId)
      requires Valid()
      modifies this
      ensures Valid()
      ensures b == old(st.blockCount) && b !in old(st.next)
      ensures st == WithBlock(old(st), Info(if start then Start else Plain, payload, bbox, []))
      ensures st.prev[b].None? && st.next[b].None? && st.group[b].None?
      ensures d == old(d).(pos := old(d.pos)[b := Point(0.0, 0.0)], connectorPositions := old(d.connectorPositions)[b := []])
      ensures suffix == old(suffix)[b := [b]]
    {
      var info := Info(if start then Start else Plain, payload, bbox, []);
      WithBlockOk(st, suffix, d, info, []);
      b := st.blockCount;
      st := WithBlock(st, info);
      d := d.(pos := d.pos[b := Point(0.0, 0.0)], connectorPositions := d.connectorPositions[b := []]);
      suffix := suffix[b := [b]];
    }

    /**
     * `new ControlBlock(opts)` (js/controlblock.js:5-43): `cnt` defaults
     * to one; the block makes `cnt` nested groups whose parent it is, and
     * keeps `cnt + 1` connector positions, all at (0, 0).
     */
    method NewControlBlock(cnt: Option<int>, payload: Option<Payload>, bbox: Option<Size>) returns (b: BlockId)
      requires Valid() && (cnt.None? || cnt.value >= 0)
      modifies this
      ensures Valid()
      ensures b == old(st.blockCount) && b !in old(st.next)
      ensures st == WithControl(old(st), DefaultCount(cnt), payload, bbox)
      ensures st.info[b].kind == Control(DefaultCount(cnt)) && |st.info[b].nested| == DefaultCount(cnt)
      ensures d == old(d).(pos := old(d.pos)[b := Point(0.0, 0.0)],
                           connectorPositions := old(d.connectorPositions)[b := seq(DefaultCount(cnt) + 1, i => Point(0.0, 0.0))],
                           groupPos := Placed(old(d.groupPos), old(st.groupCount), DefaultCount(cnt)))
      ensures suffix == old(suffix)[b := [b]]
    {
      var st0, d0 := st, d;
      var n := DefaultCount(cnt);
      b := st0.blockCount;
      var s, gp := AddBranches(st0, d0.groupPos, b, n);
      var cps := Origins(n + 1);
      var st1 := WithBlock(s, ControlInfo(st0, n, payload, bbox));
      assert st1 == WithControl(st0, n, payload, bbox);
      var d1 := d0.(pos := d0.pos[b := Point(0.0, 0.0)], connectorPositions := d0.connectorPositions[b := cps], groupPos := gp);
      NewControlOk(st0, suffix, d0, n, payload, bbox);
      st, d, suffix := st1, d1, suffix[b := [b]];
    }

    /**
     * The group loop of js/controlblock.js:26-33: `n` new groups, each
     * owned by block `b` and placed at (0, 0).
     */
    static method AddBranches(st0: Structure, gp0: map<GroupId, Point>, b: BlockId, n: nat)
      returns (s: Structure, gp: map<GroupId, Point>)
      ensures s == WithNested(st0, b, n) && gp == Placed(gp0, st0.groupCount, n)
      ensures s.groupCount == st0.groupCount + n
    {
      s, gp := st0, gp0;
      for i := 0 to n
        invariant s == WithNested(st0, b, i)
        invariant gp == Placed(gp0, st0.groupCount, i)
      {
        gp := gp[s.groupCount := Point(0.0, 0.0)];
        s := WithGroup(s, Some(b));
      }
    }

    /** The connector loop of js/controlblock.js:35-43: `n` positions at (0, 0). */
    static method Origins(n: nat) returns (cps: seq<Point>)
      ensures cps == seq(n, i => Point(0.0, 0.0))
    {
      cps := [];
      for i := 0 to n
        invariant cps == seq(i, j => Point(0.0, 0.0))
      {
        cps := cps + [Point(0.0, 0.0)];
      }
    }

    /** `new BlockGroup()` (js/blockgroup.js:8-22): at (0, 0), without a parent block and without a `first` block. */
    method NewGroup() returns (g: GroupId)
      requires Valid()
      modifies this
      ensures Valid()
      ensures g == old(st.groupCount) && g !in old(st.first)
      ensures st == WithGroup(old(st), None) && st.first[g].None? && st.groupInfo[g].parent.None?
      ensures d == old(d).(groupPos := old(d.groupPos)[g := Point(0.0, 0.0)])
      ensures suffix == old(suffix)
    {
      WithGroupOk(st, suffix, d);
      g := st.groupCount;
      st := WithGroup(st, None);
      d := d.(groupPos := d.groupPos[g := Point(0.0, 0.0)]);
    }

    // -------------------------------------------------------------------
    // Moving blocks and groups

    /** `translate(x, y)` of a block: its position within its group becomes (x, y). */
    method Translate(b: BlockId, x: real, y: real)
      requires Valid() && b in st.next
      modifies this
      ensures Valid() && st == old(st) && suffix == old(suffix)
      ensures d == old(d).(pos := old(d.pos)[b := Point(x, y)])
    {
      MovedFits(st, d, d.(pos := d.pos[b := Point(x, y)]));
      d := d.(pos := d.pos[b := Point(x, y)]);
    }

    /** `translateBy(x, y)` of a block: it moves by (x, y). */
    method TranslateBy(b: BlockId, x: real, y: real)
      requires Valid() && b in st.next
      modifies this
      ensures Valid() && st == old(st) && suffix == old(suffix)
      ensures b in old(d.pos)
      ensures d == old(d).(pos := old(d.pos)[b := Point(old(d.pos[b].x) + x, old(d.pos[b].y) + y)])
    {
      var p := d.pos[b];
      var d' := d.(pos := d.pos[b := Point(p.x + x, p.y + y)]);
      MovedFits(st, d, d');
      d := d';
    }

    /** `translate(x, y)` of a group: its position becomes (x, y). */
    method GroupTranslate(g: GroupId, x: real, y: real)
      requires Valid() && g in st.first
      modifies this
      ensures Valid() && st == old(st) && suffix == old(suffix)
      ensures d == old(d).(groupPos := old(d.groupPos)[g := Point(x, y)])
    {
      MovedFits(st, d, d.(groupPos := d.groupPos[g := Point(x, y)]));
      d := d.(groupPos := d.groupPos[g := Point(x, y)]);
    }

    /** `translateBy(x, y)` of a group: it moves by (x, y). */
    method GroupTranslateBy(g: GroupId, x: real, y: real)
      requires Valid() && g in st.first
      modifies this
      ensures Valid() && st == old(st) && suffix == old(suffix)
      ensures g in old(d.groupPos)
      ensures d == old(d).(groupPos := old(d.groupPos)[g := Point(old(d.groupPos[g].x) + x, old(d.groupPos[g].y) + y)])
    {
      var p := d.groupPos[g];
      GroupTranslate(g, p.x + x, p.y + y);
    }
    // -------------------------------------------------------------------
    // The chain operations of js/block.js

    /**
     * `remove()` (js/block.js:94-109): `b` leaves its chain, which closes
     * up behind it, and its old successor's chain is updated.
     */
    method Remove(b: BlockId)
      requires Valid() && b in st.next
      modifies this
      ensures Valid()
      ensures st == Removed(old(st), b)
      ensures old(st.next[b]).None? ==> d == old(d)
      ensures old(st.next[b]).Some? ==> var n := old(st.next[b]).value;
        Settled(st, d, suffix[n]) && Restacked(st, suffix[n], old(d), d)
    {
      st, suffix, d := RemoveFrom(st, suffix, d, b);
    }

    /**
     * `removeChain()` (js/block.js:113-128): the chain from `b` is cut off
     * its predecessor and leaves its group; nothing is redrawn.
     */
    method RemoveChain(b: BlockId)
      requires Valid() && b in st.next
      modifies this
      ensures Valid() && d == old(d)
      ensures st == ChainRemoved(old(st), old(suffix), b)
    {
      st, suffix := RemoveChainFrom(st, suffix, d, b);
    }

    /**
     * `append(block)` (js/block.js:133-147): `b` is removed from where it
     * was, which updates the chain of its old successor as `remove()`
     * does, and is put right after `t`; in a group it takes the group and
     * the chain from `b` is updated.  Only those two chains are redrawn.
     */
    method Append(t: BlockId, b: BlockId)
      requires Valid() && t in st.next && b in st.next && t != b
      modifies this
      ensures Valid()
      ensures st == Appended(old(st), old(suffix), t, b)
      ensures old(st.group[t]).None? && old(st.next[b]).None? ==> d == old(d)
      ensures old(st.group[t]).None? ==>
                Settled(Removed(old(st), b), d, Redrawn(old(st), old(suffix), b)) &&
                Restacked(st, Redrawn(old(st), old(suffix), b), old(d), d)
      ensures old(st.group[t]).Some? ==>
                Settled(st, d, suffix[b]) && Restacked(st, Redrawn(old(st), old(suffix), b) + suffix[b], old(d), d)
    {
      st, suffix, d := AppendTo(st, suffix, d, t, b);
      assert StructureOk(st, suffix) && Fits(st, d);
    }

    /**
     * `appendChain(block)` (js/block.js:150-172): the chain from `b` is
     * cut off and spliced in after `t`; in a group it takes the group and
     * is updated, otherwise nothing is redrawn.
     */
    method AppendChain(t: BlockId, b: BlockId)
      requires Valid() && t in st.next && b in st.next && t !in suffix[b]
      modifies this
      ensures Valid()
      ensures st == ChainAppended(old(st), old(suffix), t, b)
      ensures old(st.group[t]).None? ==> d == old(d)
      ensures old(st.group[t]).Some? ==> Settled(st, d, suffix[b]) && Restacked(st, suffix[b], old(d), d)
    {
      st, suffix, d := AppendChainTo(st, suffix, d, t, b);
      assert StructureOk(st, suffix) && Fits(st, d);
    }

    /**
     * `append(block)` of group `g` (js/blockgroup.js:24-28): `b` becomes
     * the group's `first` block and joins it; its links are not touched.
     * Only a lone, ungrouped block appended to an empty group keeps the
     * chains consistent (see `GroupAppendOverwrites` and
     * `GroupAppendStrands` for what happens otherwise).
     */
    method GroupAppend(g: GroupId, b: BlockId)
      requires Valid() && g in st.first && st.first[g].None? && b in st.next
      requires st.prev[b].None? && st.next[b].None? && st.group[b].None?
      modifies this
      ensures Valid() && d == old(d) && suffix == old(suffix)
      ensures st == GroupAppended(old(st), g, b)
    {
      GroupAppendedOk(st, suffix, g, b);
      st := st.(first := st.first[g := Some(b)], group := st.group[b := Some(g)]);
    }

    /**
     * `prependChain(block)` of group `g`, which js/controlblock.js:130
     * calls but js/blockgroup.js does not define: the chain from `b` is
     * cut off and put in front of the group's chain, and is updated.
     */
    method PrependChain(g: GroupId, b: BlockId)
      requires Valid() && b in st.next && g in st.first
      modifies this
      ensures Valid()
      ensures st == ChainGrouped(old(st), old(suffix), g, b)
      ensures Settled(st, d, suffix[b]) && Restacked(st, suffix[b], old(d), d)
    {
      st, suffix, d := PrependChainTo(st, suffix, d, g, b);
      assert StructureOk(st, suffix) && Fits(st, d);
    }

    /**
     * `appendChain(block)` of group `g`, which js/blockeditor.js:79 and
     * js/blockeditor.js:176 call but js/blockgroup.js does not define: into
     * an empty group the chain from `b` becomes its chain; otherwise it is
     * appended after the group's last block.
     */
    method GroupAppendChain(g: GroupId, b: BlockId)
      requires Valid() && b in st.next && g in st.first
      requires st.first[g].Some? ==> st.first[g].value in st.next && LastInChain(st, suffix, st.first[g].value) !in suffix[b]
      modifies this
      ensures Valid()
      ensures old(st.first[g]).None? ==> st == ChainGrouped(old(st), old(suffix), g, b)
      ensures old(st.first[g]).Some? ==> st == ChainAppended(old(st), old(suffix), LastInChain(old(st), old(suffix), old(st.first[g]).value), b)
      ensures Settled(st, d, suffix[b]) && Restacked(st, suffix[b], old(d), d)
    {
      st, suffix, d := GroupAppendChainTo(st, suffix, d, g, b);
      assert StructureOk(st, suffix) && Fits(st, d);
    }

    /**
     * `connect(block, index)` of block `t` (js/block.js:203-207,
     * js/controlblock.js:126-132), which a connector's `appendChain`
     * (js/connector.js:26-28) calls with its own index: index 0 appends
     * the chain from `b` after `t`; on a control block index `i` puts it in
     * front of branch `i`.  Any other index changes nothing: a plain or
     * start block ignores it, and on a control block it names no branch,
     * so the call throws before changing anything.
     */
    method Connect(t: BlockId, b: BlockId, index: int)
      requires Valid() && t in st.next && b in st.next
      requires index == 0 ==> t !in suffix[b]
      modifies this
      ensures Valid()
      ensures index == 0 ==> st == ChainAppended(old(st), old(suffix), t, b)
      ensures index != 0 && BranchOf(old(st), t, index).Some? ==>
                st == ChainGrouped(old(st), old(suffix), BranchOf(old(st), t, index).value, b)
      ensures index != 0 && BranchOf(old(st), t, index).None? ==> st == old(st) && d == old(d)
      ensures index == 0 && old(st.group[t]).None? ==> d == old(d)
      ensures (index == 0 && old(st.group[t]).Some?) || (index != 0 && BranchOf(old(st), t, index).Some?) ==>
                Settled(st, d, suffix[b]) && Restacked(st, suffix[b], old(d), d)
    {
      st, suffix, d := ConnectTo(st, suffix, d, t, b, index);
      assert StructureOk(st, suffix) && Fits(st, d);
    }

    // -------------------------------------------------------------------
    // Hover and drag feedback

    /**
     * `onHoverStart` of connector `index` of block `t`
     * (js/connector.js:14-16): the block shows the connector's path, which
     * for a plain or start block is always path 0 (js/block.js:289-291)
     * and for a control block the connector's own (js/controlblock.js:135-137).
     */
    method HoverStart(t: BlockId, index: nat)
      requires Valid() && t in st.info && index < ConnectorCount(st.info[t].kind)
      modifies this
      ensures Valid() && st == old(st) && suffix == old(suffix)
      ensures d == old(d).(shown := old(d.shown) + {(t, PathOf(st.info[t].kind, index))})
    {
      d := d.(shown := d.shown + {(t, PathOf(st.info[t].kind, index))});
    }

    /** `onHoverEnd` of connector `index` of block `t` (js/connector.js:18-20): the path is hidden again. */
    method HoverEnd(t: BlockId, index: nat)
      requires Valid() && t in st.info && index < ConnectorCount(st.info[t].kind)
      modifies this
      ensures Valid() && st == old(st) && suffix == old(suffix)
      ensures d == old(d).(shown := old(d.shown) - {(t, PathOf(st.info[t].kind, index))})
    {
      d := d.(shown := d.shown - {(t, PathOf(st.info[t].kind, index))});
    }

    /** `onDragStart()` (js/block.js:308-310): the group of `b` is styled as dragged. */
    method DragStart(b: BlockId)
      requires Valid() && b in st.group && st.group[b].Some?
      modifies this
      ensures Valid() && st == old(st) && suffix == old(suffix)
      ensures d == old(d).(dragging := old(d.dragging) + {st.group[b].value})
    {
      d := d.(dragging := d.dragging + {st.group[b].value});
    }

    /** `onDragEnd()` (js/block.js:313-315): the group of `b` is no longer styled as dragged. */
    method DragEnd(b: BlockId)
      requires Valid() && b in st.group && st.group[b].Some?
      modifies this
      ensures Valid() && st == old(st) && suffix == old(suffix)
      ensures d == old(d).(dragging := old(d.dragging) - {st.group[b].value})
    {
      d := d.(dragging := d.dragging - {st.group[b].value});
    }

    /**
     * The loop of js/block.js:123-126 (and js/block.js:155-162): every
     * block of `chain`, walked along `next` from `b`, gets group `g`.
     */
    static method SetGroups(group0: Groups, next: Links, ghost chain: seq<BlockId>, b: BlockId, g: Option<GroupId>)
      returns (group: Groups)
      requires Walks(next, chain) && chain != [] && chain[0] == b && group0.Keys == next.Keys
      ensures group == Regroup(group0, chain, g)
    {
      group := group0;
      var x := Some(b);
      ghost var k := 0;
      assert chain[..0] == [];
      while x.Some?
        invariant 0 <= k <= |chain|
        invariant x.Some? <==> k < |chain|
        invariant x.Some? ==> x.value == chain[k]
        invariant group == Regroup(group0, chain[..k], g)
        decreases |chain| - k
      {
        var y := x.value;
        assert Hop(next, chain, k);
        RegroupStep(group0, chain[..k], y, g);
        assert chain[..k + 1] == chain[..k] + [y];
        group := group[y := g];
        x := next[y];
        k := k + 1;
      }
      assert chain[..k] == chain;
    }
  }

  // ---------------------------------------------------------------------
  // The chain operations on the values of a workspace

  /** `remove()` on the values of a workspace; see `Workspace.Remove`. */
  method RemoveFrom(st: Structure, ghost suffix: Suffixes, d: Drawing, b: BlockId)
    returns (st': Structure, ghost suffix': Suffixes, d': Drawing)
    requires StructureOk(st, suffix) && Fits(st, d) && b in st.next
    ensures StructureOk(st', suffix') && Fits(st', d')
    ensures st' == Removed(st, b)
    ensures st.next[b].None? ==> d' == d
    ensures st.next[b].Some? ==> var n := st.next[b].value;
      Settled(st', d', suffix'[n]) && Restacked(st', suffix'[n], d, d')
  {
    RemovedOk(st, suffix, b);
    st', suffix' := Removed(st, b), RemoveSuffix(suffix, b);
    ReadyAfter(st, suffix, st', suffix', d);
    d' := d;
    if st.next[b].Some? {
      d' := Update(st', suffix', d, st.next[b].value);
    }
  }

  /** `removeChain()` on the values of a workspace; see `Workspace.RemoveChain`. */
  method RemoveChainFrom(st: Structure, ghost suffix: Suffixes, d: Drawing, b: BlockId)
    returns (st': Structure, ghost suffix': Suffixes)
    requires StructureOk(st, suffix) && Fits(st, d) && b in st.next
    ensures StructureOk(st', suffix') && Fits(st', d)
    ensures st' == ChainRemoved(st, suffix, b)
  {
    var group := st.group;
    if HasGroup(st, b) {
      SuffixWalks(st.prev, st.next, suffix, b);
      group := Workspace.SetGroups(st.group, st.next, suffix[b], b, None);
    } else {
      UngroupedChain(st, suffix, b);
    }
    ChainRemovedOk(st, suffix, b);
    st' := st.(prev := st.prev[b := None], next := CutNext(st.prev, st.next, b),
               group := group, first := CutFirst(st.group, st.first, b));
    suffix' := CutSuffix(suffix, b);
    ReadyAfter(st, suffix, st', suffix', d);
  }

  /** `append(block)` on the values of a workspace; see `Workspace.Append`. */
  method AppendTo(st: Structure, ghost suffix: Suffixes, d: Drawing, t: BlockId, b: BlockId)
    returns (st': Structure, ghost suffix': Suffixes, d': Drawing)
    requires StructureOk(st, suffix) && Fits(st, d) && t in st.next && b in st.next && t != b
    ensures StructureOk(st', suffix') && Fits(st', d')
    ensures st' == Appended(st, suffix, t, b)
    ensures st.group[t].None? && st.next[b].None? ==> d' == d
    ensures st.group[t].None? ==>
              Settled(Removed(st, b), d', Redrawn(st, suffix, b)) && Restacked(st', Redrawn(st, suffix, b), d, d')
    ensures st.group[t].Some? ==> Settled(st', d', suffix'[b]) && Restacked(st', Redrawn(st, suffix, b) + suffix'[b], d, d')
  {
    RemovedReady(st, suffix, t, b);
    var st1, s1, d1 := RemoveFrom(st, suffix, d, b);
    SuffixesUnique(st1.prev, st1.next, s1, RemoveSuffix(suffix, b));
    ghost var redrawn := RemoveRedrawn(st, suffix, b, st1, s1, d, d1);
    assert st1.group[t] == st.group[t];
    st', suffix', d' := SpliceAfter(st1, s1, d1, t, b, redrawn, d);
  }

  /**
   * The second half of `append(block)`: the lone block `b` is put right
   * after `t` and takes its group; in a group, the chain from `b` is
   * updated after the blocks `redrawn` were.
   */
  method SpliceAfter(st: Structure, ghost suffix: Suffixes, d: Drawing, t: BlockId, b: BlockId,
                     ghost redrawn: seq<BlockId>, ghost d0: Drawing)
    returns (st': Structure, ghost suffix': Suffixes, d': Drawing)
    requires StructureOk(st, suffix) && Fits(st, d) && CanInsert(st.prev, st.next, suffix, st.group, st.first, t, b)
    requires suffix[b] == [b] && Restacked(st, redrawn, d0, d)
    ensures StructureOk(st', suffix') && Fits(st', d')
    ensures st' == st.(prev := SplicePrev(st.prev, st.next, t, b, b), next := SpliceNext(st.next, t, b, b),
                       group := st.group[b := st.group[t]])
    ensures st.group[t].None? ==> d' == d && Restacked(st', redrawn, d0, d')
    ensures st.group[t].Some? ==> Settled(st', d', suffix'[b]) && Restacked(st', redrawn + suffix'[b], d0, d')
  {
    var g := st.group[t];
    st' := st.(prev := SplicePrev(st.prev, st.next, t, b, b), next := SpliceNext(st.next, t, b, b), group := st.group[b := g]);
    suffix' := SpliceSuffix(suffix, t, b);
    SpliceReady(st, suffix, d, t, b, redrawn, d0);
    d' := UpdateIfGrouped(st', suffix', d, b, g.Some?, redrawn, d0);
  }

  /** The chain from `b` is updated when `grouped`, after the blocks `redrawn` were restacked. */
  method UpdateIfGrouped(st: Structure, ghost suffix: Suffixes, d: Drawing, b: BlockId, grouped: bool,
                         ghost redrawn: seq<BlockId>, ghost d0: Drawing) returns (d': Drawing)
    requires StructureOk(st, suffix) && Fits(st, d) && b in st.next && Restacked(st, redrawn, d0, d)
    ensures Fits(st, d')
    ensures !grouped ==> d' == d && Restacked(st, redrawn, d0, d')
    ensures grouped ==> Settled(st, d', suffix[b]) && Restacked(st, redrawn + suffix[b], d0, d')
  {
    d' := d;
    if grouped {
      ReadyAfter(st, suffix, st, suffix, d);
      d' := Update(st, suffix, d, b);
      RestackedConcat(st, redrawn, suffix[b], d0, d, d');
    }
  }

  /** Splicing the lone block `b` in after `t` keeps the invariant and what was restacked before. */
  lemma SpliceReady(st: Structure, suffix: Suffixes, d: Drawing, t: BlockId, b: BlockId, redrawn: seq<BlockId>, d0: Drawing)
    requires StructureOk(st, suffix) && Fits(st, d) && CanInsert(st.prev, st.next, suffix, st.group, st.first, t, b)
    requires suffix[b] == [b] && Restacked(st, redrawn, d0, d)
    ensures var st' := st.(prev := SplicePrev(st.prev, st.next, t, b, b), next := SpliceNext(st.next, t, b, b),
                           group := st.group[b := st.group[t]]);
            && StructureOk(st', SpliceSuffix(suffix, t, b)) && Fits(st', d) && b in st'.next && Restacked(st', redrawn, d0, d)
  {
    var st' := st.(prev := SplicePrev(st.prev, st.next, t, b, b), next := SpliceNext(st.next, t, b, b),
                   group := st.group[b := st.group[t]]);
    InsertedOk(st, suffix, t, b);
    InsertedOne(st, suffix, t, b);
    ReadyAfter(st, suffix, st', SpliceSuffix(suffix, t, b), d);
    RestackedSameGroups(st, st', redrawn, d0, d);
  }

  /** Inserting a one-block chain sets the links around it and its group. */
  lemma InsertedOne(st: Structure, suffix: Suffixes, t: BlockId, b: BlockId)
    requires Linked(st.prev, st.next, suffix) && CanInsert(st.prev, st.next, suffix, st.group, st.first, t, b)
    requires suffix[b] == [b]
    ensures Inserted(st, suffix, t, b) ==
              st.(prev := SplicePrev(st.prev, st.next, t, b, b), next := SpliceNext(st.next, t, b, b),
                  group := st.group[b := st.group[t]])
  {
    assert Last(suffix, b) == b;
    RegroupOne(st.group, b, st.group[t]);
  }

  /** What `RemoveFrom` promises about the drawing, in terms of `Redrawn`. */
  lemma RemoveRedrawn(st: Structure, suffix: Suffixes, b: BlockId, st1: Structure, s1: Suffixes, d: Drawing, d1: Drawing)
    returns (redrawn: seq<BlockId>)
    requires StructureOk(st, suffix) && b in st.next && s1 == RemoveSuffix(suffix, b)
    requires st.next[b].None? ==> d1 == d
    requires st.next[b].Some? ==> var n := st.next[b].value;
      n in s1 && Settled(st1, d1, s1[n]) && Restacked(st1, s1[n], d, d1)
    ensures redrawn == Redrawn(st, suffix, b)
    ensures Settled(st1, d1, redrawn) && Restacked(st1, redrawn, d, d1)
  {
    redrawn := Redrawn(st, suffix, b);
    if st.next[b].Some? {
      var n := st.next[b].value;
      Step(st.prev, st.next, suffix, b);
      InSuffix(st.prev, st.next, suffix, b, n);
      assert s1[n] == suffix[n];
    }
  }

  /** The blocks `remove()` of `b` redraws: the chain of its old successor. */
  ghost function Redrawn(st: Structure, suffix: Suffixes, b: BlockId): seq<BlockId>
    requires Linked(st.prev, st.next, suffix) && b in st.next
  {
    match st.next[b]
    case None => []
    case Some(n) => suffix[n]
  }

  /** `Restacked` reads only which groups are nested in which block. */
  lemma RestackedSameGroups(st: Structure, st': Structure, chain: seq<BlockId>, d: Drawing, d': Drawing)
    requires st.groupInfo == st'.groupInfo && Restacked(st, chain, d, d')
    ensures Restacked(st', chain, d, d')
  {
  }

  /** `appendChain(block)` on the values of a workspace; see `Workspace.AppendChain`. */
  method AppendChainTo(st: Structure, ghost suffix: Suffixes, d: Drawing, t: BlockId, b: BlockId)
    returns (st': Structure, ghost suffix': Suffixes, d': Drawing)
    requires StructureOk(st, suffix) && Fits(st, d) && t in st.next && b in st.next && t !in suffix[b]
    ensures StructureOk(st', suffix') && Fits(st', d')
    ensures st' == ChainAppended(st, suffix, t, b)
    ensures st.group[t].None? ==> d' == d
    ensures st.group[t].Some? ==> Settled(st', d', suffix'[b]) && Restacked(st', suffix'[b], d, d')
  {
    CutReady(st, suffix, t, b);
    ChainAppendedInserts(st, suffix, t, b);
    var st1, s1 := RemoveChainFrom(st, suffix, d, b);
    SuffixesUnique(st1.prev, st1.next, s1, CutSuffix(suffix, b));
    var g := st1.group[t];
    var group := st1.group;
    if g.Some? {
      SuffixWalks(st1.prev, st1.next, s1, b);
      group := Workspace.SetGroups(st1.group, st1.next, s1[b], b, g);
    } else {
      UngroupedChain(st1, s1, b);
    }
    var last := LastInChain(st1, s1, b);
    st' := st1.(prev := SplicePrev(st1.prev, st1.next, t, b, last), next := SpliceNext(st1.next, t, b, last), group := group);
    InsertedOk(st1, s1, t, b);
    suffix' := SpliceSuffix(s1, t, b);
    ReadyAfter(st1, s1, st', suffix', d);
    d' := d;
    if g.Some? {
      d' := Update(st', suffix', d, b);
    }
  }

  /** A group's `prependChain(block)` on the values of a workspace; see `Workspace.PrependChain`. */
  method PrependChainTo(st: Structure, ghost suffix: Suffixes, d: Drawing, g: GroupId, b: BlockId)
    returns (st': Structure, ghost suffix': Suffixes, d': Drawing)
    requires StructureOk(st, suffix) && Fits(st, d) && b in st.next && g in st.first
    ensures StructureOk(st', suffix') && Fits(st', d')
    ensures st' == ChainGrouped(st, suffix, g, b)
    ensures Settled(st', d', suffix'[b]) && Restacked(st', suffix'[b], d, d')
  {
    CutGroupReady(st, suffix, g, b);
    var st1, s1 := RemoveChainFrom(st, suffix, d, b);
    SuffixesUnique(st1.prev, st1.next, s1, CutSuffix(suffix, b));
    SuffixWalks(st1.prev, st1.next, s1, b);
    var group := Workspace.SetGroups(st1.group, st1.next, s1[b], b, Some(g));
    if st1.first[g].None? {
      InstalledOk(st1, s1, g, b);
      st' := st1.(group := group, first := st1.first[g := Some(b)]);
      suffix' := s1;
    } else {
      var f := st1.first[g].value;
      var last := LastInChain(st1, s1, b);
      PrependedOk(st1, s1, g, b);
      st' := st1.(prev := st1.prev[f := Some(last)], next := st1.next[last := Some(f)],
                  group := group, first := st1.first[g := Some(b)]);
      suffix' := JoinSuffix(s1, last, f);
    }
    ReadyAfter(st1, s1, st', suffix', d);
    d' := Update(st', suffix', d, b);
  }

  /** The group connector `index` of block `t` leads into: branch `index` of a control block, if it has one. */
  function BranchOf(st: Structure, t: BlockId, index: int): (r: Option<GroupId>)
    requires t in st.info
    ensures r.Some? <==> st.info[t].kind.Control? && 1 <= index <= |st.info[t].nested|
    ensures r.Some? ==> r.value == st.info[t].nested[index - 1]
  {
    var info := st.info[t];
    if info.kind.Control? && 1 <= index <= |info.nested| then Some(info.nested[index - 1]) else None
  }

  /**
   * The group connector `index` leads into is an existing group nested in
   * `t`, so a chain prepended there is owned by `t`.
   */
  lemma BranchOwned(st: Structure, suffix: Suffixes, t: BlockId, index: int)
    requires StructureOk(st, suffix) && t in st.info
    ensures BranchOf(st, t, index).Some? ==>
              var g := BranchOf(st, t, index).value;
              g in st.first && g in st.groupInfo && st.groupInfo[g].parent == Some(t)
  {
    assert WellNested(st.info, st.groupInfo, t);
  }

  /** `connect(block, index)` on the values of a workspace; see `Workspace.Connect`. */
  method ConnectTo(st: Structure, ghost suffix: Suffixes, d: Drawing, t: BlockId, b: BlockId, index: int)
    returns (st': Structure, ghost suffix': Suffixes, d': Drawing)
    requires StructureOk(st, suffix) && Fits(st, d) && t in st.next && b in st.next
    requires index == 0 ==> t !in suffix[b]
    ensures StructureOk(st', suffix') && Fits(st', d')
    ensures index == 0 ==> st' == ChainAppended(st, suffix, t, b)
    ensures index != 0 && BranchOf(st, t, index).Some? ==> st' == ChainGrouped(st, suffix, BranchOf(st, t, index).value, b)
    ensures index != 0 && BranchOf(st, t, index).None? ==> st' == st && d' == d
    ensures index == 0 && st.group[t].None? ==> d' == d
    ensures (index == 0 && st.group[t].Some?) || (index != 0 && BranchOf(st, t, index).Some?) ==>
              Settled(st', d', suffix'[b]) && Restacked(st', suffix'[b], d, d')
  {
    if index == 0 {
      st', suffix', d' := AppendChainTo(st, suffix, d, t, b);
    } else {
      var branch := BranchOf(st, t, index);
      if branch.Some? {
        assert WellNested(st.info, st.groupInfo, t);
        st', suffix', d' := PrependChainTo(st, suffix, d, branch.value, b);
      } else {
        st', suffix', d' := st, suffix, d;
      }
    }
  }

  /** A group's `appendChain(block)` on the values of a workspace; see `Workspace.GroupAppendChain`. */
  method GroupAppendChainTo(st: Structure, ghost suffix: Suffixes, d: Drawing, g: GroupId, b: BlockId)
    returns (st': Structure, ghost suffix': Suffixes, d': Drawing)
    requires StructureOk(st, suffix) && Fits(st, d) && b in st.next && g in st.first
    requires st.first[g].Some? ==> st.first[g].value in st.next && LastInChain(st, suffix, st.first[g].value) !in suffix[b]
    ensures StructureOk(st', suffix') && Fits(st', d')
    ensures st.first[g].None? ==> st' == ChainGrouped(st, suffix, g, b)
    ensures st.first[g].Some? ==> st' == ChainAppended(st, suffix, LastInChain(st, suffix, st.first[g].value), b)
    ensures Settled(st', d', suffix'[b]) && Restacked(st', suffix'[b], d, d')
  {
    if st.first[g].None? {
      st', suffix', d' := PrependChainTo(st, suffix, d, g, b);
    } else {
      var last := LastInChain(st, suffix, st.first[g].value);
      FirstReaches(st.prev, st.next, suffix, st.group, st.first, g, last);
      st', suffix', d' := AppendChainTo(st, suffix, d, last, b);
    }
  }

  /** The connector path that hovering over connector `index` shows: a control block has one per connector, other blocks only path 0. */
  function PathOf(k: Kind, index: nat): (p: nat)
    ensures k.Control? ==> p == index
    ensures !k.Control? ==> p == 0
  {
    if k.Control? then index else 0
  }
}
