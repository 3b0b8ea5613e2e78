/**
 * Where blocks are drawn: `updatePosition()`, `updateSize()` and
 * `update()` of js/block.js and js/controlblock.js, on the values of the
 * structure and the drawing.
 */
module Layout {
  import opened Wrappers
  import opened Geometry
  import opened Chains
  import opened Blocks
  import opened Arena

  /** `updatePosition()`: a head sits at (0, 0) in its group, any other block right under its `prev`. */
  ghost predicate StackedAt(st: Structure, d: Drawing, x: BlockId)
  {
    && x in st.prev && x in d.pos
    && match st.prev[x]
       case None => d.pos[x] == Point(0.0, 0.0)
       case Some(p) => p in st.info && p in d.pos && d.pos[x] == Point(0.0, d.pos[p].y + Arena.Size(st, p).height)
  }

  /** The measured heights of the nested groups of `x`, in branch order. */
  function NestedHeights(st: Structure, x: BlockId): (hs: seq<real>)
    requires x in st.info
    ensures |hs| == |st.info[x].nested|
  {
    var nested := st.info[x].nested;
    seq(|nested|, i requires 0 <= i < |nested| => if nested[i] in st.groupInfo then st.groupInfo[nested[i]].height else 0.0)
  }

  /**
   * `updateSize()` of a control block: branch `i` has its connector and its
   * nested group at (15, h_i), and the main connector is at the block's
   * height.  Other blocks keep no connector positions.
   */
  ghost predicate LaidOut(st: Structure, d: Drawing, x: BlockId)
  {
    && x in st.info && x in d.connectorPositions
    && var info, cp, hs := st.info[x], d.connectorPositions[x], NestedHeights(st, x);
       info.kind.Control? ==>
         && |cp| == |info.nested| + 1
         && cp[0].y == Arena.Size(st, x).height
         && (forall i | 1 <= i <= |info.nested| ::
               && cp[i] == Point(BRANCH_X, BranchTop(hs, i))
               && info.nested[i - 1] in d.groupPos && d.groupPos[info.nested[i - 1]] == cp[i])
  }

  /** What `update` relies on: linked chains, the nested groups of each block, and a drawing that fits. */
  ghost predicate Ready(st: Structure, suffix: Suffixes, d: Drawing)
  {
    && Linked(st.prev, st.next, suffix) && st.info.Keys == st.next.Keys
    && Nesting(st.info, st.groupInfo) && st.groupInfo.Keys == st.first.Keys && Fits(st, d)
  }

  /** A change to the chains alone keeps a fitting drawing ready for `update`. */
  lemma ReadyAfter(st: Structure, suffix: Suffixes, st': Structure, suffix': Suffixes, d: Drawing)
    requires StructureOk(st, suffix) && StructureOk(st', suffix') && Fits(st, d)
    requires st'.info == st.info && st'.groupInfo == st.groupInfo
    ensures Ready(st', suffix', d) && Fits(st', d)
    ensures st'.next.Keys == st.next.Keys && st'.first.Keys == st.first.Keys
  {
  }

  /** Group `g` is nested in a block of `chain`. */
  ghost predicate OwnedBy(st: Structure, g: GroupId, chain: seq<BlockId>)
  {
    g in st.groupInfo && st.groupInfo[g].parent.Some? && st.groupInfo[g].parent.value in chain
  }

  /**
   * `d'` differs from `d` at most in where the blocks of `chain` and the
   * groups nested in them are drawn.
   */
  ghost predicate Restacked(st: Structure, chain: seq<BlockId>, d: Drawing, d': Drawing)
  {
    && d'.pos.Keys == d.pos.Keys && d'.connectorPositions.Keys == d.connectorPositions.Keys
    && d'.groupPos.Keys == d.groupPos.Keys && d'.shown == d.shown && d'.dragging == d.dragging
    && (forall x | x in d.connectorPositions :: |d'.connectorPositions[x]| == |d.connectorPositions[x]|)
    && (forall x | x in d.pos && x !in chain :: d'.pos[x] == d.pos[x])
    && (forall x | x in d.connectorPositions && x !in chain :: d'.connectorPositions[x] == d.connectorPositions[x])
    && (forall g | g in d.groupPos && !OwnedBy(st, g, chain) :: d'.groupPos[g] == d.groupPos[g])
  }

  lemma RestackedTrans(st: Structure, c1: seq<BlockId>, c2: seq<BlockId>, c: seq<BlockId>, d0: Drawing, d1: Drawing, d2: Drawing)
    requires Restacked(st, c1, d0, d1) && Restacked(st, c2, d1, d2)
    requires forall x | x in c1 :: x in c
    requires forall x | x in c2 :: x in c
    ensures Restacked(st, c, d0, d2)
  {
    forall g | OwnedBy(st, g, c1) ensures OwnedBy(st, g, c) {
      var p := st.groupInfo[g].parent.value;
      assert p in c1;
      assert p in c;
    }
    forall g | OwnedBy(st, g, c2) ensures OwnedBy(st, g, c) {
      var p := st.groupInfo[g].parent.value;
      assert p in c2;
      assert p in c;
    }
  }

  /** Restacking `c1` and then `c2` restacks `c1 + c2`. */
  lemma RestackedConcat(st: Structure, c1: seq<BlockId>, c2: seq<BlockId>, d0: Drawing, d1: Drawing, d2: Drawing)
    requires Restacked(st, c1, d0, d1) && Restacked(st, c2, d1, d2)
    ensures Restacked(st, c1 + c2, d0, d2)
  {
    RestackedTrans(st, c1, c2, c1 + c2, d0, d1, d2);
  }

  lemma RestackedFits(st: Structure, chain: seq<BlockId>, d: Drawing, d': Drawing)
    requires Fits(st, d) && Restacked(st, chain, d, d')
    ensures Fits(st, d')
  {
  }

  /** A block off `chain`, whose `prev` is off it too, stays stacked and laid out when `chain` is restacked. */
  lemma LayoutKept(st: Structure, chain: seq<BlockId>, d: Drawing, d': Drawing, x: BlockId)
    requires x in st.info && WellNested(st.info, st.groupInfo, x)
    requires Restacked(st, chain, d, d') && x !in chain
    requires x in st.prev && (st.prev[x].None? || st.prev[x].value !in chain)
    requires StackedAt(st, d, x) && LaidOut(st, d, x)
    ensures StackedAt(st, d', x) && LaidOut(st, d', x)
  {
    var info := st.info[x];
    assert d'.connectorPositions[x] == d.connectorPositions[x];
    if info.kind.Control? {
      forall j | 0 <= j < |info.nested|
        ensures info.nested[j] in d'.groupPos && d'.groupPos[info.nested[j]] == d.groupPos[info.nested[j]]
      {
        var i := j + 1;
        assert d.connectorPositions[x][i] == Point(BRANCH_X, BranchTop(NestedHeights(st, x), i));
        assert info.nested[i - 1] in d.groupPos;
        assert !OwnedBy(st, info.nested[j], chain);
      }
    }
  }

  /** `updateSize()` after `updatePosition()` keeps the block stacked. */
  lemma LayoutKept1(st: Structure, d: Drawing, d0: Drawing, d1: Drawing, b: BlockId)
    requires Restacked(st, [b], d, d0)
    requires StackedAt(st, d0, b) && d1.pos == d0.pos && Restacked(st, [b], d0, d1)
    ensures StackedAt(st, d1, b) && Restacked(st, [b], d, d1)
  {
    RestackedTrans(st, [b], [b], [b], d, d0, d1);
  }

  /** The blocks of `chain` are all stacked and laid out. */
  ghost predicate Settled(st: Structure, d: Drawing, chain: seq<BlockId>)
  {
    forall x | x in chain :: StackedAt(st, d, x) && LaidOut(st, d, x)
  }

  /**
   * Moving a group without a parent, or changing which groups are styled
   * as dragged, leaves a laid-out chain laid out and a restacking of it a
   * restacking: no block's layout reads the position of such a group.
   */
  lemma RootMoved(st: Structure, chain: seq<BlockId>, d: Drawing, d': Drawing, g: GroupId, p: Point,
                  dragging: set<GroupId>)
    requires Nesting(st.info, st.groupInfo) && g in st.groupInfo && st.groupInfo[g].parent.None?
    requires Settled(st, d', chain) && Restacked(st, chain, d, d') && g in d.groupPos
    ensures Settled(st, d'.(groupPos := d'.groupPos[g := p], dragging := dragging), chain)
    ensures Restacked(st, chain, d.(groupPos := d.groupPos[g := p], dragging := dragging),
                      d'.(groupPos := d'.groupPos[g := p], dragging := dragging))
  {
    var e := d'.(groupPos := d'.groupPos[g := p], dragging := dragging);
    forall x | x in chain
      ensures StackedAt(st, e, x) && LaidOut(st, e, x)
    {
      assert StackedAt(st, d', x) && LaidOut(st, d', x);
      assert WellNested(st.info, st.groupInfo, x);
      var nested, cp := st.info[x].nested, d'.connectorPositions[x];
      forall j | 0 <= j < |nested|
        ensures nested[j] != g
      {
        assert st.groupInfo[nested[j]].parent == Some(x);
      }
      if st.info[x].kind.Control? {
        forall i | 1 <= i <= |nested|
          ensures nested[i - 1] in e.groupPos && e.groupPos[nested[i - 1]] == cp[i]
        {
          LaidOutBranch(st, d', x, i);
        }
      }
    }
  }

  /** Branch `i` of a laid-out control block `x`: its group is drawn at connector `i`. */
  lemma LaidOutBranch(st: Structure, d: Drawing, x: BlockId, i: nat)
    requires LaidOut(st, d, x) && st.info[x].kind.Control? && 1 <= i <= |st.info[x].nested|
    ensures |d.connectorPositions[x]| == |st.info[x].nested| + 1
    ensures st.info[x].nested[i - 1] in d.groupPos && d.groupPos[st.info[x].nested[i - 1]] == d.connectorPositions[x][i]
  {
    var info, cp, hs := st.info[x], d.connectorPositions[x], NestedHeights(st, x);
    assert cp[i] == Point(BRANCH_X, BranchTop(hs, i)) && info.nested[i - 1] in d.groupPos;
  }

  /** One step of `update`: `b` is settled first, then the rest of its chain, which leaves `b` alone. */
  lemma UpdateStep(st: Structure, suffix: Suffixes, d: Drawing, d1: Drawing, d2: Drawing, b: BlockId, n: BlockId)
    requires b in st.info && WellNested(st.info, st.groupInfo, b) && b in suffix && n in suffix
    requires suffix[b] == [b] + suffix[n] && b !in suffix[n]
    requires b in st.prev && (st.prev[b].None? || st.prev[b].value !in suffix[n])
    requires StackedAt(st, d1, b) && LaidOut(st, d1, b) && Restacked(st, [b], d, d1)
    requires Settled(st, d2, suffix[n]) && Restacked(st, suffix[n], d1, d2)
    ensures Settled(st, d2, suffix[b]) && Restacked(st, suffix[b], d, d2)
  {
    LayoutKept(st, suffix[n], d1, d2, b);
    RestackedTrans(st, [b], suffix[n], suffix[b], d, d1, d2);
  }

  /**
   * Positions after `update` are determined by the structure: two drawings
   * that are both stacked along the chain from a head `h` agree on every
   * block of it.  So running `update` again without a structural change
   * gives the same positions.
   */
  lemma {:induction false} StackedUnique(st: Structure, suffix: Suffixes, d1: Drawing, d2: Drawing, h: BlockId, x: BlockId)
    requires Linked(st.prev, st.next, suffix) && h in st.next && st.prev[h].None? && x in st.next && x in suffix[h]
    requires forall y | y in suffix[h] :: StackedAt(st, d1, y) && StackedAt(st, d2, y)
    ensures x in d1.pos && x in d2.pos && d1.pos[x] == d2.pos[x]
    decreases |suffix[h]| - |suffix[x]|
  {
    InSuffix(st.prev, st.next, suffix, h, x);
    assert StackedAt(st, d1, x) && StackedAt(st, d2, x);
    if x != h {
      PrevInSuffix(st.prev, st.next, suffix, h, x);
      var p := st.prev[x].value;
      assert st.next[p] == Some(x);
      Unfold(st.prev, st.next, suffix, p);
      InSuffix(st.prev, st.next, suffix, h, p);
      StackedUnique(st, suffix, d1, d2, h, p);
    }
  }


  /** `gp` after the first `k` branches of a control block have placed their groups. */
  function PlaceBranches(gp: map<GroupId, Point>, nested: seq<GroupId>, hs: seq<real>, k: nat): map<GroupId, Point>
    requires |hs| == |nested| && k <= |nested|
  {
    if k == 0 then gp else PlaceBranches(gp, nested, hs, k - 1)[nested[k - 1] := Point(BRANCH_X, BranchTop(hs, k))]
  }

  /** Branch `i`'s group is at (15, h_i), since no later branch names the same group. */
  lemma {:induction false} PlaceBranchesAt(gp: map<GroupId, Point>, nested: seq<GroupId>, hs: seq<real>, k: nat, i: nat)
    requires |hs| == |nested| && k <= |nested| && 1 <= i <= k
    requires forall a, b | 0 <= a < b < |nested| :: nested[a] != nested[b]
    ensures nested[i - 1] in PlaceBranches(gp, nested, hs, k)
    ensures PlaceBranches(gp, nested, hs, k)[nested[i - 1]] == Point(BRANCH_X, BranchTop(hs, i))
    decreases k
  {
    if i < k {
      PlaceBranchesAt(gp, nested, hs, k - 1, i);
    }
  }

  /** A group that is not a branch keeps its position; the branches are added. */
  lemma {:induction false} PlaceBranchesOther(gp: map<GroupId, Point>, nested: seq<GroupId>, hs: seq<real>, k: nat, g: GroupId)
    requires |hs| == |nested| && k <= |nested|
    ensures g in PlaceBranches(gp, nested, hs, k) <==> g in gp || g in nested[..k]
    ensures g in gp && g !in nested[..k] ==> PlaceBranches(gp, nested, hs, k)[g] == gp[g]
    decreases k
  {
    if k > 0 {
      PlaceBranchesOther(gp, nested, hs, k - 1, g);
      assert nested[..k] == nested[..k - 1] + [nested[k - 1]];
    }
  }

  // ---------------------------------------------------------------------
  // The methods

  /** `updatePosition()`: a head goes to (0, 0), any other block right under its `prev`. */
  method UpdatePosition(st: Structure, ghost suffix: Suffixes, d: Drawing, b: BlockId) returns (d': Drawing)
    requires Linked(st.prev, st.next, suffix) && st.info.Keys == st.next.Keys && Fits(st, d) && b in st.next
    ensures StackedAt(st, d', b) && Restacked(st, [b], d, d')
    ensures b in d.pos && d' == d.(pos := d.pos[b := d'.pos[b]])
  {
    match st.prev[b]
    case None =>
      d' := d.(pos := d.pos[b := Point(0.0, 0.0)]);
    case Some(p) =>
      PrevOutside(st.prev, st.next, suffix, b);
      Ends(st.prev, st.next, suffix, b);
      d' := d.(pos := d.pos[b := Point(0.0, d.pos[p].y + Arena.Size(st, p).height)]);
  }

  /**
   * The branch loop of `updateSize()` of a control block: branch `i`
   * (from 1) gets its connector and its nested group at (15, h_i), where
   * `h_i` is `BranchTop(hs, i)`; `hs` are the heights of the nested groups.
   */
  method LayOutBranches(nested: seq<GroupId>, hs: seq<real>, cp0: seq<Point>, gp0: map<GroupId, Point>)
    returns (cp: seq<Point>, gp: map<GroupId, Point>)
    requires |hs| == |nested| && |cp0| == |nested| + 1
    requires forall i, j | 0 <= i < j < |nested| :: nested[i] != nested[j]
    ensures |cp| == |cp0| && cp[0] == cp0[0]
    ensures forall i | 1 <= i <= |nested| ::
              cp[i] == Point(BRANCH_X, BranchTop(hs, i)) && nested[i - 1] in gp && gp[nested[i - 1]] == cp[i]
    ensures forall g :: g in gp <==> g in gp0 || g in nested
    ensures forall g | g in gp0 && g !in nested :: gp[g] == gp0[g]
  {
    cp, gp := PlaceLoop(nested, hs, cp0, gp0);
    forall i | 1 <= i <= |nested|
      ensures nested[i - 1] in gp && gp[nested[i - 1]] == cp[i]
    {
      PlaceBranchesAt(gp0, nested, hs, |nested|, i);
    }
    forall g
      ensures g in gp <==> g in gp0 || g in nested
      ensures g in gp0 && g !in nested ==> gp[g] == gp0[g]
    {
      PlaceBranchesOther(gp0, nested, hs, |nested|, g);
      assert nested[..|nested|] == nested;
    }
  }

  /** The loop itself: connector `i` at (15, h_i), the groups placed by `PlaceBranches`. */
  method PlaceLoop(nested: seq<GroupId>, hs: seq<real>, cp0: seq<Point>, gp0: map<GroupId, Point>)
    returns (cp: seq<Point>, gp: map<GroupId, Point>)
    requires |hs| == |nested| && |cp0| == |nested| + 1
    ensures |cp| == |cp0| && cp[0] == cp0[0]
    ensures forall i | 1 <= i <= |nested| :: cp[i] == Point(BRANCH_X, BranchTop(hs, i))
    ensures gp == PlaceBranches(gp0, nested, hs, |nested|)
  {
    cp, gp := cp0, gp0;
    var h: real := 0.0;
    for i := 1 to |nested| + 1
      invariant |cp| == |cp0| && cp[0] == cp0[0]
      invariant h == if i == 1 then 0.0 else BranchTop(hs, i - 1) + SegmentHeight(hs[i - 2] - CONNECTOR_HEIGHT)
      invariant forall k | 1 <= k < i :: cp[k] == Point(BRANCH_X, BranchTop(hs, k))
      invariant gp == PlaceBranches(gp0, nested, hs, i - 1)
    {
      h := h + CONTROL_MIN_HEIGHT;
      cp := cp[i := Point(BRANCH_X, h)];
      gp := gp[nested[i - 1] := Point(BRANCH_X, h)];
      var gheight := hs[i - 1] - CONNECTOR_HEIGHT;
      h := h + SegmentHeight(gheight);
    }
  }

  /**
   * `updateSize()`: a control block lays out its branches and puts its
   * main connector at its height; for the other blocks it only moves an
   * SVG path, so nothing the model keeps changes.
   */
  method UpdateSize(st: Structure, d: Drawing, b: BlockId) returns (d': Drawing)
    requires st.info.Keys == st.next.Keys && Nesting(st.info, st.groupInfo) && st.groupInfo.Keys == st.first.Keys
    requires Fits(st, d) && b in st.next
    ensures LaidOut(st, d', b) && Restacked(st, [b], d, d') && d'.pos == d.pos
    ensures !st.info[b].kind.Control? ==> d' == d
  {
    var info := st.info[b];
    d' := d;
    if info.kind.Control? {
      assert WellNested(st.info, st.groupInfo, b);
      var cp, gp := LayOutBranches(info.nested, NestedHeights(st, b), d.connectorPositions[b], d.groupPos);
      forall g | g in info.nested
        ensures g in d.groupPos && OwnedBy(st, g, [b])
      {
      }
      forall g ensures g in gp <==> g in d.groupPos {
        assert g in gp <==> g in d.groupPos || g in info.nested;
      }
      assert gp.Keys == d.groupPos.Keys;
      cp := cp[0 := cp[0].(y := Arena.Size(st, b).height)];
      d' := d.(connectorPositions := d.connectorPositions[b := cp], groupPos := gp);
    }
  }

  /**
   * `update()`: every block on the chain from `b` is stacked under its
   * `prev` and laid out, and nothing off the chain moves except the groups
   * nested in its blocks.  At the end of a grouped chain the source also
   * calls the group's `update()`, which is not part of this model.
   */
  method Update(st: Structure, ghost suffix: Suffixes, d: Drawing, b: BlockId) returns (d': Drawing)
    requires Ready(st, suffix, d) && b in st.next
    ensures Fits(st, d') && Settled(st, d', suffix[b]) && Restacked(st, suffix[b], d, d')
    decreases |suffix[b]|
  {
    var d1 := UpdateHead(st, suffix, d, b);
    if st.next[b].Some? {
      var n := st.next[b].value;
      ChainStep(st, suffix, b);
      d' := Update(st, suffix, d1, n);
      UpdateStep(st, suffix, d, d1, d', b, n);
    } else {
      UpdateLast(st, suffix, d, d1, b);
      d' := d1;
    }
  }

  /** What `update` needs to know about the step from `b` to `b.next`. */
  lemma ChainStep(st: Structure, suffix: Suffixes, b: BlockId)
    requires Linked(st.prev, st.next, suffix) && st.info.Keys == st.next.Keys && Nesting(st.info, st.groupInfo)
    requires b in st.next && st.next[b].Some?
    ensures var n := st.next[b].value;
            && n in st.next && b in suffix && n in suffix && |suffix[n]| < |suffix[b]|
            && suffix[b] == [b] + suffix[n] && b !in suffix[n]
            && b in st.info && WellNested(st.info, st.groupInfo, b)
            && b in st.prev && (st.prev[b].None? || st.prev[b].value !in suffix[n])
  {
    var n := st.next[b].value;
    Step(st.prev, st.next, suffix, b);
    InSuffix(st.prev, st.next, suffix, b, n);
    if st.prev[b].Some? {
      PrevOutside(st.prev, st.next, suffix, b);
    }
  }

  /** The last block of a chain: settling it settles the whole (one-block) rest of the chain. */
  lemma UpdateLast(st: Structure, suffix: Suffixes, d: Drawing, d1: Drawing, b: BlockId)
    requires Linked(st.prev, st.next, suffix) && b in st.next && st.next[b].None?
    requires StackedAt(st, d1, b) && LaidOut(st, d1, b) && Restacked(st, [b], d, d1)
    ensures Settled(st, d1, suffix[b]) && Restacked(st, suffix[b], d, d1)
  {
    assert suffix[b] == [b];
  }

  /** `updatePosition()` then `updateSize()` of one block. */
  method UpdateHead(st: Structure, ghost suffix: Suffixes, d: Drawing, b: BlockId) returns (d': Drawing)
    requires Ready(st, suffix, d) && b in st.next
    ensures Fits(st, d') && StackedAt(st, d', b) && LaidOut(st, d', b) && Restacked(st, [b], d, d')
  {
    var d0 := UpdatePosition(st, suffix, d, b);
    RestackedFits(st, [b], d, d0);
    d' := UpdateSize(st, d0, b);
    RestackedFits(st, [b], d0, d');
    LayoutKept1(st, d, d0, d', b);
  }
}
