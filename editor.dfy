/**
 * The block editor of js/blockeditor.js: the list of global groups, the
 * drag state machine driven by mouse events, the throttled search for a
 * connector under the dragged block, and the helpers that build groups
 * and chains.  Browser events and the timer become method calls: a check
 * is pending from the `MouseMove` that schedules it to its `TimerFire`.
 */
module Editors {
  import opened Wrappers
  import opened Geometry
  import opened Chains
  import opened Blocks
  import opened Arena
  import opened Operations
  import opened Attach
  import opened Workspaces
  import opened Layout

  /** `dragState` (js/blockeditor.js:31-37): the dragged block, its attachee and the last pointer position. */
  datatype DragState = DragState(block: Option<BlockId>, attachee: Option<Connector>, firstMovement: bool, x: real, y: real)

  const Idle := DragState(None, None, false, 0.0, 0.0)

  // ---------------------------------------------------------------------
  // The invariant of the editor

  /** Every global group exists. */
  ghost predicate GroupsOk(st: Structure, groups: seq<GroupId>)
  {
    (set g | g in groups) <= st.first.Keys
  }

  /** The same fact, one entry of the sequence at a time, as the attachee search asks for it. */
  lemma GroupsIn(st: Structure, groups: seq<GroupId>)
    requires GroupsOk(st, groups)
    ensures forall i | 0 <= i < |groups| :: groups[i] in st.first
  {
    forall i | 0 <= i < |groups| ensures groups[i] in st.first {
      assert groups[i] in (set g | g in groups);
    }
  }

  /** Group `g` holds blocks and sits directly on the surface: it has a `first` block and no parent. */
  ghost predicate Rooted(st: Structure, g: GroupId)
  {
    g in st.first && st.first[g].Some? && g in st.groupInfo && st.groupInfo[g].parent.None?
  }

  /**
   * No group is global twice, and every group that holds blocks and has
   * no parent is global: such groups are made only by `createBlockGroup`,
   * which adds them to the list.
   */
  ghost predicate GlobalOk(st: Structure, groups: seq<GroupId>)
  {
    NoDuplicates(groups) && forall g | Rooted(st, g) :: g in groups
  }

  /** What the editor keeps of its global groups and its drag, on top of the workspace's own invariant. */
  ghost predicate EditorOk(st: Structure, groups: seq<GroupId>, drag: DragState)
  {
    GroupsOk(st, groups) && GlobalOk(st, groups) && DragOk(st, drag)
  }

  /** A fresh group without a parent, added to the list, keeps the list complete and free of repeats. */
  lemma NewGlobal(st: Structure, suffix: Suffixes, groups: seq<GroupId>)
    requires StructureOk(st, suffix) && GroupsOk(st, groups) && GlobalOk(st, groups)
    ensures st.groupCount !in groups && GlobalOk(WithGroup(st, None), groups + [st.groupCount])
  {
    var g, gs := st.groupCount, groups + [st.groupCount];
    forall i | 0 <= i < |groups|
      ensures groups[i] != g
    {
      assert groups[i] in (set h | h in groups);
      assert groups[i] in st.first;
    }
    forall i, j | 0 <= i < j < |gs|
      ensures gs[i] != gs[j]
    {
      assert gs[i] == groups[i];
      if j < |groups| {
        assert gs[j] == groups[j];
      }
    }
    forall h | Rooted(WithGroup(st, None), h)
      ensures h in gs
    {
      if h != g {
        assert Rooted(st, h);
      }
    }
  }

  /**
   * A group's `prependChain`, or `appendChain` on an empty group, fills
   * `g` and empties at most the group `b` headed, so when `g` is global
   * every rooted group still is.
   */
  lemma FillGlobal(st: Structure, suffix: Suffixes, g: GroupId, b: BlockId, groups: seq<GroupId>)
    requires Linked(st.prev, st.next, suffix) && Grouped(st.prev, st.next, st.group, st.first)
    requires b in st.next && g in st.first && GlobalOk(st, groups) && g in groups
    ensures GlobalOk(ChainGrouped(st, suffix, g, b), groups)
  {
    ChainGroupedFirst(st, suffix, g, b);
    forall h | Rooted(ChainGrouped(st, suffix, g, b), h)
      ensures h in groups
    {
      if h != g {
        assert Rooted(st, h);
      }
    }
  }

  /** A block that heads a group without a parent heads a global group. */
  lemma HeadGlobal(st: Structure, suffix: Suffixes, groups: seq<GroupId>, b: BlockId)
    requires StructureOk(st, suffix) && GlobalOk(st, groups) && b in st.next && b in st.prev && b in st.group
    requires st.prev[b].None? && st.group[b].Some? && st.group[b].value in st.groupInfo
    requires st.groupInfo[st.group[b].value].parent.None?
    ensures st.group[b].value in groups
  {
    assert Rooted(st, st.group[b].value);
  }

  /** Connector `c` exists, and its block is grouped, outside the group of the dragged block `b`. */
  ghost predicate AttacheeOk(st: Structure, b: BlockId, c: Connector)
    requires b in st.group
  {
    && c.block in st.next && c.block in st.info && c.block in st.group
    && c.index < ConnectorCount(st.info[c.block].kind)
    && st.group[c.block].Some? && st.group[c.block] != st.group[b]
  }

  /**
   * The dragged block is grouped; once it has moved it heads a group
   * without a parent; an attachee exists only for a block that has moved.
   */
  ghost predicate DragOk(st: Structure, drag: DragState)
  {
    match drag.block
    case None => drag.attachee.None?
    case Some(b) =>
      && b in st.next && b in st.prev && b in st.group && st.group[b].Some? && st.group[b].value in st.groupInfo
      && (!drag.firstMovement ==> st.prev[b].None? && st.groupInfo[st.group[b].value].parent.None?)
      && (drag.attachee.Some? ==> !drag.firstMovement && AttacheeOk(st, b, drag.attachee.value))
  }

  /**
   * `st'` keeps everything of `st` that a drag depends on: the blocks, the
   * groups and their parents, and the group and `prev` of every grouped
   * block.
   */
  ghost predicate GroupedKept(st: Structure, st': Structure)
  {
    && st.next.Keys <= st'.next.Keys && st.first.Keys <= st'.first.Keys
    && (forall x | x in st.info :: x in st'.info && st'.info[x] == st.info[x])
    && (forall g | g in st.groupInfo :: g in st'.groupInfo && st'.groupInfo[g] == st.groupInfo[g])
    && (forall x | x in st.group && st.group[x].Some? ::
          x in st'.group && st'.group[x] == st.group[x] && (x in st.prev ==> x in st'.prev && st'.prev[x] == st.prev[x]))
  }

  lemma DragKept(st: Structure, st': Structure, groups: seq<GroupId>, drag: DragState)
    requires GroupsOk(st, groups) && DragOk(st, drag) && GroupedKept(st, st')
    ensures GroupsOk(st', groups) && DragOk(st', drag)
  {
    if drag.block.Some? {
      var b := drag.block.value;
      var g := st.group[b].value;
      assert st'.group[b] == st.group[b] && st'.groupInfo[g] == st.groupInfo[g];
      if drag.attachee.Some? {
        var c := drag.attachee.value;
        assert st'.group[c.block] == st.group[c.block];
      }
    }
  }

  lemma WithBlockKept(st: Structure, suffix: Suffixes, info: Info)
    requires StructureOk(st, suffix)
    ensures GroupedKept(st, WithBlock(st, info)) && Lone(WithBlock(st, info), [st.blockCount])
  {
    assert st.blockCount !in st.next;
  }

  lemma WithGroupKept(st: Structure, suffix: Suffixes, parent: Option<BlockId>)
    requires StructureOk(st, suffix)
    ensures GroupedKept(st, WithGroup(st, parent))
  {
    assert st.groupCount !in st.groupInfo;
  }

  lemma WithControlKept(st: Structure, suffix: Suffixes, n: nat, payload: Option<Payload>, bbox: Option<Size>)
    requires StructureOk(st, suffix)
    ensures GroupedKept(st, WithControl(st, n, payload, bbox))
  {
    var st1 := WithNested(st, st.blockCount, n);
    forall g | g in st.groupInfo
      ensures g in st1.groupInfo && st1.groupInfo[g] == st.groupInfo[g] && g in st1.first
    {
      WithNestedGroup(st, st.blockCount, n, g);
    }
    assert st.blockCount !in st.next;
  }

  lemma ControlLone(st: Structure, n: nat, payload: Option<Payload>, bbox: Option<Size>)
    ensures Lone(WithControl(st, n, payload, bbox), [st.blockCount])
  {
    var st1 := WithNested(st, st.blockCount, n);
    assert st1.blockCount == st.blockCount;
  }

  // ---------------------------------------------------------------------
  // Chains built from lone blocks

  /** Blocks as `createBlock` makes them: no `prev`, no `next`, no group. */
  ghost predicate Lone(st: Structure, bs: seq<BlockId>)
  {
    forall i | 0 <= i < |bs| ::
      bs[i] in st.next && bs[i] in st.prev && bs[i] in st.group
      && st.prev[bs[i]].None? && st.next[bs[i]].None? && st.group[bs[i]].None?
  }

  /** The links `createChain(bs)` makes: each block of `bs` after the one before it. */
  function Chained(st: Structure, bs: seq<BlockId>): Structure
    decreases |bs|
  {
    if |bs| <= 1 then st
    else
      var k := |bs| - 1;
      var st1 := Chained(st, bs[..k]);
      st1.(prev := st1.prev[bs[k] := Some(bs[k - 1])], next := st1.next[bs[k - 1] := Some(bs[k])])
  }

  /** Linking changes only `prev` and `next`. */
  lemma {:induction false} ChainedFrame(st: Structure, bs: seq<BlockId>)
    ensures var st' := Chained(st, bs); st' == st.(prev := st'.prev, next := st'.next)
    decreases |bs|
  {
    if |bs| > 1 {
      ChainedFrame(st, bs[..|bs| - 1]);
    }
  }

  lemma LonePrefix(st: Structure, bs: seq<BlockId>, k: nat)
    requires Lone(st, bs) && NoDuplicates(bs) && k <= |bs|
    ensures Lone(st, bs[..k]) && NoDuplicates(bs[..k])
  {
    assert forall i | 0 <= i < k :: bs[..k][i] == bs[i];
  }

  /** Linking lone blocks keeps the blocks that have links. */
  lemma {:induction false} ChainedKeys(st: Structure, bs: seq<BlockId>)
    requires Lone(st, bs) && NoDuplicates(bs)
    ensures Chained(st, bs).prev.Keys == st.prev.Keys && Chained(st, bs).next.Keys == st.next.Keys
    decreases |bs|
  {
    if |bs| > 1 {
      LonePrefix(st, bs, |bs| - 1);
      ChainedKeys(st, bs[..|bs| - 1]);
    }
  }

  /** A block off `bs` keeps its links. */
  lemma {:induction false} ChainedOutside(st: Structure, bs: seq<BlockId>, x: BlockId)
    requires x !in bs
    ensures var st' := Chained(st, bs); (x in st'.prev <==> x in st.prev) && (x in st'.next <==> x in st.next)
    ensures var st' := Chained(st, bs); x in st.prev ==> st'.prev[x] == st.prev[x]
    ensures var st' := Chained(st, bs); x in st.next ==> st'.next[x] == st.next[x]
    decreases |bs|
  {
    if |bs| > 1 {
      var k := |bs| - 1;
      assert x != bs[k] && x != bs[k - 1];
      assert x !in bs[..k];
      ChainedOutside(st, bs[..k], x);
    }
  }

  /**
   * In the chain of distinct lone blocks `bs`, once linked, each block's
   * `prev` is the block before it and its `next` the block after it; the
   * ends stay open.
   */
  lemma {:induction false} ChainedInside(st: Structure, bs: seq<BlockId>, i: nat)
    requires Lone(st, bs) && NoDuplicates(bs) && i < |bs|
    ensures var st' := Chained(st, bs); bs[i] in st'.prev && bs[i] in st'.next
    ensures Chained(st, bs).prev[bs[i]] == if i == 0 then None else Some(bs[i - 1])
    ensures Chained(st, bs).next[bs[i]] == if i == |bs| - 1 then None else Some(bs[i + 1])
    decreases |bs|
  {
    ChainedKeys(st, bs);
    if |bs| > 1 {
      var k := |bs| - 1;
      var front := bs[..k];
      LonePrefix(st, bs, k);
      ChainedKeys(st, front);
      if i == k {
        assert bs[k] !in front;
        ChainedOutside(st, front, bs[k]);
      } else {
        assert front[i] == bs[i];
        ChainedInside(st, front, i);
        assert i > 0 ==> front[i - 1] == bs[i - 1];
        assert i + 1 < k ==> front[i + 1] == bs[i + 1];
      }
    }
  }

  /** `t.append(b)` of a lone block `b` after the open end `t` of an ungrouped chain only links the two. */
  lemma AppendLone(st: Structure, suffix: Suffixes, t: BlockId, b: BlockId)
    requires StructureOk(st, suffix) && t in st.next && b in st.next && t != b
    requires st.next[t].None? && st.group[t].None?
    requires st.prev[b].None? && st.next[b].None? && st.group[b].None?
    ensures Appended(st, suffix, t, b) == st.(prev := st.prev[b := Some(t)], next := st.next[t := Some(b)])
  {
    var st1 := Removed(st, b);
    assert st1.prev == st.prev && st1.next == st.next && st1.group == st.group && st1.first == st.first;
    assert st1 == st;
  }

  /** Linking lone blocks touches no grouped block. */
  lemma ChainedKept(st: Structure, bs: seq<BlockId>)
    requires Lone(st, bs) && NoDuplicates(bs)
    ensures GroupedKept(st, Chained(st, bs))
  {
    ChainedFrame(st, bs);
    ChainedKeys(st, bs);
    forall x | x in st.group && st.group[x].Some? && x in st.prev
      ensures Chained(st, bs).prev[x] == st.prev[x]
    {
      assert x !in bs;
      ChainedOutside(st, bs, x);
    }
  }

  /** One round of `createChain`: appending the next lone block to the chain built so far only links the two. */
  lemma ChainedStep(st: Structure, suffix: Suffixes, bs: seq<BlockId>, i: nat)
    requires Lone(st, bs) && NoDuplicates(bs) && 1 <= i < |bs|
    requires StructureOk(Chained(st, bs[..i]), suffix)
    ensures var st1 := Chained(st, bs[..i]);
      && bs[i - 1] in st1.next && bs[i] in st1.next && bs[i - 1] != bs[i]
      && Appended(st1, suffix, bs[i - 1], bs[i]) == Chained(st, bs[..i + 1])
  {
    ChainedOpen(st, bs, i);
    ChainedSnoc(st, bs, i);
    AppendLone(Chained(st, bs[..i]), suffix, bs[i - 1], bs[i]);
  }

  lemma ChainedSnoc(st: Structure, bs: seq<BlockId>, i: nat)
    requires 1 <= i < |bs|
    ensures var st1 := Chained(st, bs[..i]);
      Chained(st, bs[..i + 1]) == st1.(prev := st1.prev[bs[i] := Some(bs[i - 1])], next := st1.next[bs[i - 1] := Some(bs[i])])
  {
    assert bs[..i + 1][..i] == bs[..i];
  }

  /** Before round `i` of `createChain`, the chain built so far ends in `bs[i - 1]`, and `bs[i]` is still lone. */
  lemma ChainedOpen(st: Structure, bs: seq<BlockId>, i: nat)
    requires Lone(st, bs) && NoDuplicates(bs) && 1 <= i < |bs|
    ensures var st1 := Chained(st, bs[..i]);
      && bs[i - 1] in st1.next && bs[i] in st1.next && bs[i] in st1.prev && bs[i - 1] != bs[i]
      && bs[i - 1] in st1.group && bs[i] in st1.group
      && st1.next[bs[i - 1]].None? && st1.group[bs[i - 1]].None?
      && st1.prev[bs[i]].None? && st1.next[bs[i]].None? && st1.group[bs[i]].None?
  {
    var front := bs[..i];
    LonePrefix(st, bs, i);
    ChainedFrame(st, front);
    ChainedInside(st, front, i - 1);
    assert bs[i] !in front;
    ChainedOutside(st, front, bs[i]);
  }

  lemma ChainedDragOk(st: Structure, bs: seq<BlockId>, groups: seq<GroupId>, drag: DragState)
    requires Lone(st, bs) && NoDuplicates(bs) && GroupsOk(st, groups) && DragOk(st, drag)
    ensures GroupsOk(Chained(st, bs), groups) && DragOk(Chained(st, bs), drag)
    ensures var st' := Chained(st, bs); ChainOf(st'.prev, st'.next, bs) && st' == st.(prev := st'.prev, next := st'.next)
  {
    ChainedChain(st, bs);
    ChainedFrame(st, bs);
    ChainedKept(st, bs);
    DragKept(st, Chained(st, bs), groups, drag);
  }

  /** `bs` is one whole chain: each block's `prev` is the block before it, its `next` the block after it, and the ends are open. */
  ghost predicate ChainOf(prev: Links, next: Links, bs: seq<BlockId>)
  {
    forall i | 0 <= i < |bs| :: LinkedAt(prev, next, bs, i)
  }

  ghost predicate LinkedAt(prev: Links, next: Links, bs: seq<BlockId>, i: nat)
    requires i < |bs|
  {
    && bs[i] in prev && bs[i] in next
    && prev[bs[i]] == (if i == 0 then None else Some(bs[i - 1]))
    && next[bs[i]] == (if i == |bs| - 1 then None else Some(bs[i + 1]))
  }

  /** Linking distinct lone blocks makes them one whole chain. */
  lemma ChainedChain(st: Structure, bs: seq<BlockId>)
    requires Lone(st, bs) && NoDuplicates(bs)
    ensures var st' := Chained(st, bs); ChainOf(st'.prev, st'.next, bs)
  {
    forall i | 0 <= i < |bs|
      ensures LinkedAt(Chained(st, bs).prev, Chained(st, bs).next, bs, i)
    {
      ChainedInside(st, bs, i);
    }
  }

  /** The chain of a block of a whole chain `bs` is the rest of `bs` from it. */
  lemma {:induction false} ChainOfSuffix(prev: Links, next: Links, suffix: Suffixes, bs: seq<BlockId>, i: nat)
    requires Linked(prev, next, suffix) && ChainOf(prev, next, bs) && i < |bs|
    ensures bs[i] in suffix && suffix[bs[i]] == bs[i..]
    decreases |bs| - i
  {
    assert LinkedAt(prev, next, bs, i);
    Unfold(prev, next, suffix, bs[i]);
    if i < |bs| - 1 {
      ChainOfSuffix(prev, next, suffix, bs, i + 1);
      assert bs[i..] == [bs[i]] + bs[i + 1..];
    } else {
      assert bs[i..] == [bs[i]];
    }
  }

  /**
   * Putting an ungrouped chain into an empty group touches no grouped
   * block, and leaves every link as it was.
   */
  lemma GroupLoneKept(st: Structure, suffix: Suffixes, g: GroupId, b: BlockId)
    requires StructureOk(st, suffix) && b in st.next && g in st.first && st.first[g].None?
    requires st.prev[b].None? && st.group[b].None?
    ensures GroupedKept(st, ChainGrouped(st, suffix, g, b))
    ensures ChainGrouped(st, suffix, g, b).prev == st.prev && ChainGrouped(st, suffix, g, b).next == st.next
  {
    ChainGroupedPlaces(st, suffix, g, b);
    var st1 := ChainRemoved(st, suffix, b);
    assert st1.prev == st.prev;
    forall x | x in st.group && st.group[x].Some?
      ensures x !in suffix[b]
    {
      if x in suffix[b] {
        GroupAlong(st.prev, st.next, suffix, st.group, st.first, b, x);
      }
    }
  }

  /** A fresh global group keeps the editor's invariant, and leaves lone blocks lone. */
  lemma NewGroupOk(st: Structure, suffix: Suffixes, groups: seq<GroupId>, drag: DragState, bs: seq<BlockId>)
    requires StructureOk(st, suffix) && GroupsOk(st, groups) && DragOk(st, drag) && Lone(st, bs)
    ensures var st' := WithGroup(st, None);
      GroupsOk(st', groups + [st.groupCount]) && DragOk(st', drag) && Lone(st', bs)
  {
    WithGroupKept(st, suffix, None);
    DragKept(st, WithGroup(st, None), groups, drag);
  }

  /**
   * `createBlockGroup` with blocks: once the lone blocks `bs` are chained,
   * `g.appendChain(bs[0])` on the empty group `g` makes them its whole
   * chain, and the editor's invariant holds.
   */
  lemma BlockGroupOk(st: Structure, suffix: Suffixes, bs: seq<BlockId>, groups: seq<GroupId>, drag: DragState, g: GroupId)
    requires Lone(st, bs) && NoDuplicates(bs) && |bs| > 0
    requires StructureOk(Chained(st, bs), suffix) && GroupsOk(st, groups) && DragOk(st, drag)
    requires g in st.first && st.first[g].None? && g in st.groupInfo && st.groupInfo[g].parent.None?
    ensures var st1 := Chained(st, bs); bs[0] in st1.next && g in st1.first && st1.first[g].None?
    ensures var st' := ChainGrouped(Chained(st, bs), suffix, g, bs[0]);
      && g in st'.first && st'.first[g] == Some(bs[0]) && g in st'.groupInfo && st'.groupInfo[g].parent.None?
      && ChainOf(st'.prev, st'.next, bs)
      && (forall i | 0 <= i < |bs| :: bs[i] in st'.group && st'.group[bs[i]] == Some(g))
      && GroupsOk(st', groups) && DragOk(st', drag)
  {
    var st1 := Chained(st, bs);
    ChainedDragOk(st, bs, groups, drag);
    assert st1.group == st.group && st1.first == st.first && st1.groupInfo == st.groupInfo;
    assert bs[0] in st.group && st.group[bs[0]].None?;
    GroupChainOf(st1, suffix, bs, groups, drag, g);
  }

  /** What `FillGroup` needs of making the ungrouped whole chain `bs` the chain of the empty global group `g`. */
  lemma FillOk(st: Structure, suffix: Suffixes, bs: seq<BlockId>, groups: seq<GroupId>, drag: DragState, g: GroupId)
    requires StructureOk(st, suffix) && ChainOf(st.prev, st.next, bs) && |bs| > 0
    requires bs[0] in st.group && st.group[bs[0]].None?
    requires GroupsOk(st, groups) && GlobalOk(st, groups) && DragOk(st, drag)
    requires g in st.first && st.first[g].None? && g in st.groupInfo && st.groupInfo[g].parent.None? && g in groups
    ensures bs[0] in st.next
    ensures var st' := ChainGrouped(st, suffix, g, bs[0]);
      && g in st'.first && st'.first[g] == Some(bs[0]) && g in st'.groupInfo && st'.groupInfo[g].parent.None?
      && ChainOf(st'.prev, st'.next, bs)
      && (forall i | 0 <= i < |bs| :: bs[i] in st'.group && st'.group[bs[i]] == Some(g))
      && GroupsOk(st', groups) && GlobalOk(st', groups) && DragOk(st', drag)
      && KeptOff(st, st', bs, g)
  {
    assert LinkedAt(st.prev, st.next, bs, 0);
    GroupChainOf(st, suffix, bs, groups, drag, g);
    FillGlobal(st, suffix, g, bs[0], groups);
    ChainOfSuffix(st.prev, st.next, suffix, bs, 0);
    assert bs[0..] == bs;
    LoneGroupKeptOff(st, suffix, g, bs[0]);
  }

  /**
   * `st'` keeps from `st` every block off `bs`, with its links and group,
   * the `first` of every group but `g`, the blocks' kinds and the groups'
   * parents.
   */
  ghost predicate KeptOff(st: Structure, st': Structure, bs: seq<BlockId>, g: GroupId)
  {
    && st'.info == st.info && st'.groupInfo == st.groupInfo
    && (forall h | h in st.first && h != g :: h in st'.first && st'.first[h] == st.first[h])
    && (forall a | a in st.next && a !in bs ::
          && a in st.prev && a in st.group && a in st'.next && a in st'.prev && a in st'.group
          && st'.prev[a] == st.prev[a] && st'.next[a] == st.next[a] && st'.group[a] == st.group[a])
  }

  lemma KeptOffSelf(st: Structure, suffix: Suffixes, bs: seq<BlockId>, g: GroupId)
    requires StructureOk(st, suffix)
    ensures KeptOff(st, st, bs, g)
  {
  }

  lemma KeptOffTrans(st: Structure, st1: Structure, st2: Structure, bs: seq<BlockId>, g: GroupId)
    requires KeptOff(st, st1, bs, g) && KeptOff(st1, st2, bs, g)
    ensures KeptOff(st, st2, bs, g)
  {
  }

  /** Linking lone blocks changes only them. */
  lemma ChainedKeptOff(st: Structure, bs: seq<BlockId>, g: GroupId)
    requires Lone(st, bs) && NoDuplicates(bs) && st.prev.Keys == st.next.Keys && st.group.Keys == st.next.Keys
    ensures KeptOff(st, Chained(st, bs), bs, g)
  {
    ChainedFrame(st, bs);
    ChainedKeys(st, bs);
    forall a | a in st.next && a !in bs
      ensures Chained(st, bs).prev[a] == st.prev[a] && Chained(st, bs).next[a] == st.next[a]
    {
      ChainedOutside(st, bs, a);
    }
  }

  /** Putting the ungrouped chain from `b` into the empty group `g` changes only that chain and `g`. */
  lemma LoneGroupKeptOff(st: Structure, suffix: Suffixes, g: GroupId, b: BlockId)
    requires StructureOk(st, suffix) && b in st.next && g in st.first && st.first[g].None?
    requires st.prev[b].None? && st.group[b].None?
    ensures KeptOff(st, ChainGrouped(st, suffix, g, b), suffix[b], g)
  {
    LoneGroupLinks(st, suffix, g, b);
    ChainGroupedFirst(st, suffix, g, b);
    ChainGroupedKeeps(st, suffix, g, b);
    forall a | a in st.next && a !in suffix[b]
      ensures ChainGrouped(st, suffix, g, b).group[a] == st.group[a]
    {
      ChainGroupedOutside(st, suffix, g, b, a);
    }
  }

  /** Putting an ungrouped chain into an empty group leaves every link as it was. */
  lemma LoneGroupLinks(st: Structure, suffix: Suffixes, g: GroupId, b: BlockId)
    requires StructureOk(st, suffix) && b in st.next && g in st.first && st.first[g].None?
    requires st.prev[b].None? && st.group[b].None?
    ensures ChainGrouped(st, suffix, g, b).prev == st.prev && ChainGrouped(st, suffix, g, b).next == st.next
  {
    CutGroupReady(st, suffix, g, b);
    var st1, s1 := ChainRemoved(st, suffix, b), CutSuffix(suffix, b);
    assert st1.prev == st.prev && st1.next == st.next && st1.first[g].None?;
    assert ChainGrouped(st, suffix, g, b) == Installed(st1, s1, g, b);
  }

  /** A group's `prependChain(b)` regroups only the chain from `b`. */
  lemma ChainGroupedOutside(st: Structure, suffix: Suffixes, g: GroupId, b: BlockId, a: BlockId)
    requires Linked(st.prev, st.next, suffix) && Grouped(st.prev, st.next, st.group, st.first)
    requires b in st.next && g in st.first && a in st.group && a !in suffix[b]
    ensures a in ChainGrouped(st, suffix, g, b).group && ChainGrouped(st, suffix, g, b).group[a] == st.group[a]
  {
    CutGroupReady(st, suffix, g, b);
    var st1, s1 := ChainRemoved(st, suffix, b), CutSuffix(suffix, b);
    assert ChainGrouped(st, suffix, g, b) == GroupedAfterCut(st1, s1, g, b);
  }

  /** `g.appendChain(bs[0])` on the empty group `g`, when `bs` is a whole ungrouped chain. */
  lemma GroupChainOf(st: Structure, suffix: Suffixes, bs: seq<BlockId>, groups: seq<GroupId>, drag: DragState, g: GroupId)
    requires StructureOk(st, suffix) && ChainOf(st.prev, st.next, bs) && |bs| > 0
    requires bs[0] in st.group && st.group[bs[0]].None? && GroupsOk(st, groups) && DragOk(st, drag)
    requires g in st.first && st.first[g].None? && g in st.groupInfo && st.groupInfo[g].parent.None?
    ensures var st' := ChainGrouped(st, suffix, g, bs[0]);
      && g in st'.first && st'.first[g] == Some(bs[0]) && g in st'.groupInfo && st'.groupInfo[g].parent.None?
      && ChainOf(st'.prev, st'.next, bs)
      && (forall i | 0 <= i < |bs| :: bs[i] in st'.group && st'.group[bs[i]] == Some(g))
      && GroupsOk(st', groups) && DragOk(st', drag)
  {
    ChainOfSuffix(st.prev, st.next, suffix, bs, 0);
    assert bs[0..] == bs;
    assert LinkedAt(st.prev, st.next, bs, 0);
    GroupLoneKept(st, suffix, g, bs[0]);
    ChainGroupedPlaces(st, suffix, g, bs[0]);
    ChainGroupedKeeps(st, suffix, g, bs[0]);
    var st' := ChainGrouped(st, suffix, g, bs[0]);
    DragKept(st, st', groups, drag);
    forall i | 0 <= i < |bs|
      ensures bs[i] in st'.group && st'.group[bs[i]] == Some(g)
    {
      assert LinkedAt(st.prev, st.next, bs, i);
      assert bs[i] in st.group && bs[i] in suffix[bs[0]];
    }
  }

  // ---------------------------------------------------------------------
  // Detaching the dragged chain

  /** The test of js/blockeditor.js:74: the dragged block is not its group's head, or its group has a parent. */
  function Detaches(st: Structure, b: BlockId): (r: bool)
    requires Grouped(st.prev, st.next, st.group, st.first) && b in st.next && b in st.prev
    requires st.group[b].Some? && st.group[b].value in st.groupInfo
    ensures r <==> st.prev[b].Some? || st.groupInfo[st.group[b].value].parent.Some?
  {
    !IsFirst(st, b) || HasParent(st, st.group[b].value)
  }

  /** Where `detach` puts the fresh group: the block's global position, or the origin when it has none. */
  function DetachPoint(st: Structure, d: Drawing, b: BlockId): Point
    requires Positioned(st, d) && b in st.group
  {
    var pos := GlobalPosition(st, d, b);
    if pos.Some? then pos.value else Point(0.0, 0.0)
  }

  /**
   * After a detach restacked `chain` with the fresh group `g` at `p`,
   * moving `g` and styling it as dragged keeps the chain laid out and
   * the rest of the drawing where it was.
   */
  lemma MovedDetached(st: Structure, chain: seq<BlockId>, d0: Drawing, d1: Drawing, d2: Drawing, g: GroupId, p: Point)
    requires Nesting(st.info, st.groupInfo) && g in st.groupInfo && st.groupInfo[g].parent.None?
    requires Settled(st, d1, chain) && Restacked(st, chain, d0.(groupPos := d0.groupPos[g := p]), d1)
    requires g in d2.groupPos && d2 == d1.(groupPos := d1.groupPos[g := d2.groupPos[g]], dragging := d2.dragging)
    ensures Settled(st, d2, chain)
    ensures Restacked(st, chain, d0.(groupPos := d0.groupPos[g := d2.groupPos[g]], dragging := d2.dragging), d2)
  {
    var q := d2.groupPos[g];
    RootMoved(st, chain, d0.(groupPos := d0.groupPos[g := p]), d1, g, q, d2.dragging);
    assert d0.groupPos[g := p][g := q] == d0.groupPos[g := q];
  }

  /** A drag survives any change that keeps the blocks and groups and makes the dragged block head `g`. */
  lemma HeadsOk(st: Structure, st': Structure, groups: seq<GroupId>, drag: DragState, g: GroupId)
    requires GroupsOk(st, groups) && DragOk(st, drag) && drag.block.Some? && drag.firstMovement
    requires st'.next.Keys == st.next.Keys && st'.prev.Keys == st.next.Keys && st'.group.Keys == st.next.Keys
    requires st'.first.Keys == st.first.Keys && st'.groupInfo == st.groupInfo
    requires g in st.first && g in st.groupInfo && st.groupInfo[g].parent.None?
    requires drag.block.value in st'.group && st'.group[drag.block.value] == Some(g)
    requires drag.block.value in st'.prev && st'.prev[drag.block.value].None?
    ensures GroupsOk(st', groups + [g]) && DragOk(st', drag) && DragOk(st', drag.(firstMovement := false))
  {
  }

  /**
   * After the dragged block `b` is moved, with its chain, into the group
   * `g` without a parent, it heads `g`; the global groups, with `g` added,
   * all exist.
   */
  lemma GroupChainOk(st: Structure, suffix: Suffixes, groups: seq<GroupId>, drag: DragState, g: GroupId)
    requires StructureOk(st, suffix) && GroupsOk(st, groups) && DragOk(st, drag)
    requires drag.block.Some? && drag.firstMovement
    requires g in st.first && g in st.groupInfo && st.groupInfo[g].parent.None?
    ensures var b := drag.block.value; var st' := ChainGrouped(st, suffix, g, b);
      && st'.group[b] == Some(g) && st'.prev[b].None? && st'.groupInfo[g].parent.None?
      && GroupsOk(st', groups + [g]) && DragOk(st', drag) && DragOk(st', drag.(firstMovement := false))
  {
    var b := drag.block.value;
    Ends(st.prev, st.next, suffix, b);
    ChainGroupedKeeps(st, suffix, g, b);
    ChainGroupedPlaces(st, suffix, g, b);
    HeadsOk(st, ChainGrouped(st, suffix, g, b), groups, drag, g);
  }

  /**
   * The same for the fresh group `g` that the drag makes: the structure
   * with `g` added still holds.
   */
  lemma DetachOk(st: Structure, suffix: Suffixes, d: Drawing, groups: seq<GroupId>, drag: DragState)
    requires StructureOk(st, suffix) && Fits(st, d) && GroupsOk(st, groups) && GlobalOk(st, groups) && DragOk(st, drag)
    requires drag.block.Some? && drag.firstMovement
    ensures var b, g := drag.block.value, st.groupCount; var st1 := WithGroup(st, None);
      && Linked(st1.prev, st1.next, suffix) && Grouped(st1.prev, st1.next, st1.group, st1.first)
      && b in st1.next && g in st1.first
      && var st' := ChainGrouped(st1, suffix, g, b);
      && st'.group[b] == Some(g) && st'.prev[b].None? && st'.groupInfo[g].parent.None?
      && EditorOk(st', groups + [g], drag) && DragOk(st', drag.(firstMovement := false))
  {
    var st1 := WithGroup(st, None);
    WithGroupOk(st, suffix, d);
    WithGroupKept(st, suffix, None);
    DragKept(st, st1, groups, drag);
    GroupChainOk(st1, suffix, groups, drag, st.groupCount);
    NewGlobal(st, suffix, groups);
    FillGlobal(st1, suffix, st.groupCount, drag.block.value, groups + [st.groupCount]);
  }

  // ---------------------------------------------------------------------
  // Dropping the dragged chain

  /** The attachee is off the dragged chain, so `appendChain` may link the chain after it. */
  lemma AttacheeApart(st: Structure, suffix: Suffixes, b: BlockId, c: Connector)
    requires StructureOk(st, suffix) && b in st.next && AttacheeOk(st, b, c)
    ensures c.block !in suffix[b]
  {
    if c.block in suffix[b] {
      GroupAlong(st.prev, st.next, suffix, st.group, st.first, b, c.block);
    }
  }

  /**
   * `st'` is what `t.connect(b, index)` leaves: for connector 0 the chain
   * of `b` is appended after `t`; for a branch connector of a control
   * block it is put in front of that branch's group; otherwise nothing
   * changes.
   */
  ghost predicate Connected(st: Structure, suffix: Suffixes, t: BlockId, b: BlockId, index: int, st': Structure)
  {
    && StructureOk(st, suffix) && t in st.next && b in st.next
    && (index == 0 ==> t !in suffix[b] && st' == ChainAppended(st, suffix, t, b))
    && (index != 0 && BranchOf(st, t, index).Some? ==>
          WellNested(st.info, st.groupInfo, t) && st' == ChainGrouped(st, suffix, BranchOf(st, t, index).value, b))
    && (index != 0 && BranchOf(st, t, index).None? ==> st' == st)
  }

  /** Connecting keeps every group, so the global groups still exist. */
  lemma ConnectGroups(st: Structure, suffix: Suffixes, t: BlockId, b: BlockId, index: int, st': Structure,
                      suffix': Suffixes, groups: seq<GroupId>)
    requires Connected(st, suffix, t, b, index, st') && StructureOk(st', suffix') && GroupsOk(st, groups)
    ensures GroupsOk(st', groups)
  {
    assert st'.groupInfo == st.groupInfo;
  }

  /** `indexOf(g)`: the first index of `g`, or -1. */
  function IndexOf(groups: seq<GroupId>, g: GroupId): (r: int)
    ensures -1 <= r < |groups|
    ensures r == -1 <==> g !in groups
    ensures r >= 0 ==> groups[r] == g && forall j | 0 <= j < r :: groups[j] != g
  {
    if groups == [] then -1
    else if groups[0] == g then 0
    else
      var r := IndexOf(groups[1..], g);
      assert forall j | 1 <= j < |groups| :: groups[j] == groups[1..][j - 1];
      if r == -1 then -1 else r + 1
  }

  /**
   * `groups.splice(groups.indexOf(g), 1)` (js/blockeditor.js:190): the
   * first `g` is removed; when there is none, `splice(-1, 1)` removes the
   * last group instead.
   */
  function RemovedGroup(groups: seq<GroupId>, g: GroupId): (r: seq<GroupId>)
    ensures forall x | x in r :: x in groups
    ensures g !in groups ==> r == if groups == [] then [] else groups[..|groups| - 1]
  {
    var i := IndexOf(groups, g);
    if i >= 0 then
      SpliceIn(groups, i);
      groups[..i] + groups[i + 1..]
    else if groups == [] then []
    else
      PrefixIn(groups, |groups| - 1);
      groups[..|groups| - 1]
  }

  /** Entry `j` of `s` with entry `i` taken out. */
  lemma SpliceAt<T>(s: seq<T>, i: nat)
    requires i < |s|
    ensures |s[..i] + s[i + 1..]| == |s| - 1
    ensures forall j | 0 <= j < |s| - 1 :: (s[..i] + s[i + 1..])[j] == if j < i then s[j] else s[j + 1]
  {
  }

  lemma SpliceIn<T>(s: seq<T>, i: nat)
    requires i < |s|
    ensures forall x | x in s[..i] + s[i + 1..] :: x in s
  {
    SpliceAt(s, i);
  }

  lemma PrefixIn<T>(s: seq<T>, k: nat)
    requires k <= |s|
    ensures forall x | x in s[..k] :: x in s
  {
    forall x | x in s[..k] ensures x in s {
      var j :| 0 <= j < k && s[..k][j] == x;
      assert s[j] == x;
    }
  }

  /** Taking one entry out keeps a list free of duplicates, and keeps every other value. */
  lemma SpliceKeeps<T>(s: seq<T>, i: nat)
    requires i < |s|
    ensures NoDuplicates(s) ==> s[i] !in s[..i] + s[i + 1..] && NoDuplicates(s[..i] + s[i + 1..])
    ensures forall h | h in s && h != s[i] :: h in s[..i] + s[i + 1..]
  {
    var r := s[..i] + s[i + 1..];
    SpliceAt(s, i);
    if NoDuplicates(s) {
      forall j | 0 <= j < |r| ensures r[j] != s[i] {
        if j < i { assert r[j] == s[j]; } else { assert r[j] == s[j + 1]; }
      }
    }
    forall h | h in s && h != s[i]
      ensures h in r
    {
      var j :| 0 <= j < |s| && s[j] == h;
      if j < i {
        assert r[j] == h;
      } else {
        assert r[j - 1] == h;
      }
    }
  }

  /** `splice(indexOf(g), 1)` when `g` is listed takes out its first occurrence. */
  lemma RemovedPresent(groups: seq<GroupId>, g: GroupId)
    requires g in groups
    ensures exists i | 0 <= i < |groups| :: groups[i] == g && g !in groups[..i] && RemovedGroup(groups, g) == groups[..i] + groups[i + 1..]
    ensures |RemovedGroup(groups, g)| == |groups| - 1
    ensures NoDuplicates(groups) ==> g !in RemovedGroup(groups, g)
    ensures NoDuplicates(groups) ==> NoDuplicates(RemovedGroup(groups, g))
    ensures forall h | h in groups && h != g :: h in RemovedGroup(groups, g)
  {
    var i := IndexOf(groups, g);
    assert g !in groups[..i];
    SpliceAt(groups, i);
    SpliceKeeps(groups, i);
  }

  /** Removing a group from the list keeps every remaining one. */
  lemma RemovedGroupsOk(st: Structure, groups: seq<GroupId>, g: GroupId)
    requires GroupsOk(st, groups)
    ensures GroupsOk(st, RemovedGroup(groups, g))
  {
    var r := RemovedGroup(groups, g);
    forall i | 0 <= i < |r|
      ensures r[i] in st.first
    {
      assert r[i] in r;
    }
  }

  /** A connector the dragged block can reach is the next-block connector or leads into a branch. */
  lemma AttacheeBranch(st: Structure, suffix: Suffixes, b: BlockId, c: Connector)
    requires StructureOk(st, suffix) && b in st.group && AttacheeOk(st, b, c) && c.index != 0
    ensures BranchOf(st, c.block, c.index).Some?
  {
    assert WellNested(st.info, st.groupInfo, c.block);
  }

  /** `appendChain` changes no group's `first` but that of the group `b` headed. */
  lemma ChainAppendedFirst(st: Structure, suffix: Suffixes, t: BlockId, b: BlockId)
    requires Linked(st.prev, st.next, suffix) && Grouped(st.prev, st.next, st.group, st.first)
    requires t in st.next && b in st.next && t !in suffix[b]
    ensures ChainAppended(st, suffix, t, b).first == CutFirst(st.group, st.first, b)
    ensures ChainAppended(st, suffix, t, b).groupInfo == st.groupInfo
  {
    CutReady(st, suffix, t, b);
  }

  /** A group's `prependChain` makes `b` its `first`, and changes no other `first` but that of the group `b` headed. */
  lemma ChainGroupedFirst(st: Structure, suffix: Suffixes, g: GroupId, b: BlockId)
    requires Linked(st.prev, st.next, suffix) && Grouped(st.prev, st.next, st.group, st.first)
    requires b in st.next && g in st.first
    ensures ChainGrouped(st, suffix, g, b).first == CutFirst(st.group, st.first, b)[g := Some(b)]
    ensures ChainGrouped(st, suffix, g, b).groupInfo == st.groupInfo
  {
    CutGroupReady(st, suffix, g, b);
    var st1, s1 := ChainRemoved(st, suffix, b), CutSuffix(suffix, b);
    assert st1.first == CutFirst(st.group, st.first, b) && st1.groupInfo == st.groupInfo;
    assert ChainGrouped(st, suffix, g, b) == GroupedAfterCut(st1, s1, g, b);
  }

  /**
   * The drop empties the group `temp` the dragged block `b` heads and
   * fills only a group with a parent, so once `temp` leaves the list every
   * rooted group is still global; `temp` was global, and leaves it.
   */
  lemma DropGlobalOk(st: Structure, suffix: Suffixes, b: BlockId, c: Connector, st': Structure, groups: seq<GroupId>)
    requires StructureOk(st, suffix) && GlobalOk(st, groups) && b in st.next && AttacheeOk(st, b, c)
    requires b in st.prev && st.prev[b].None? && st.group[b].Some? && st.group[b].value in st.groupInfo
    requires st.groupInfo[st.group[b].value].parent.None? && Connected(st, suffix, c.block, b, c.index, st')
    ensures var temp := st.group[b].value;
      && temp in groups && temp !in RemovedGroup(groups, temp) && |RemovedGroup(groups, temp)| == |groups| - 1
      && GlobalOk(st', RemovedGroup(groups, temp))
  {
    var temp := st.group[b].value;
    assert st.first[temp] == Some(b);
    assert Rooted(st, temp);
    RemovedPresent(groups, temp);
    var cut := CutFirst(st.group, st.first, b);
    assert cut == st.first[temp := None];
    if c.index == 0 {
      ChainAppendedFirst(st, suffix, c.block, b);
    } else {
      AttacheeBranch(st, suffix, b, c);
      BranchOwned(st, suffix, c.block, c.index);
      ChainGroupedFirst(st, suffix, BranchOf(st, c.block, c.index).value, b);
    }
    forall h | Rooted(st', h)
      ensures h in RemovedGroup(groups, temp)
    {
      assert h != temp && Rooted(st, h);
    }
  }

  /** A new control block's branch groups have a parent, so no group becomes rooted. */
  lemma {:induction false} WithNestedRoots(st: Structure, p: BlockId, n: nat, g: GroupId)
    requires Rooted(WithNested(st, p, n), g)
    ensures Rooted(st, g)
    decreases n
  {
    if n > 0 {
      WithNestedRoots(st, p, n - 1, g);
    }
  }

  lemma WithControlGlobal(st: Structure, n: nat, payload: Option<Payload>, bbox: Option<Size>, groups: seq<GroupId>)
    requires GlobalOk(st, groups)
    ensures GlobalOk(WithControl(st, n, payload, bbox), groups)
  {
    forall g | Rooted(WithControl(st, n, payload, bbox), g)
      ensures g in groups
    {
      WithNestedRoots(st, st.blockCount, n, g);
    }
  }

  // ---------------------------------------------------------------------
  // Hover feedback

  /** What a block shows while connector `c` is hovered over. */
  function HoverPath(st: Structure, c: Connector): (BlockId, nat)
    requires c.block in st.info
  {
    (c.block, PathOf(st.info[c.block].kind, c.index))
  }

  /**
   * The paths shown after a check that replaces the attachee `before` by
   * `after`: the old one stops showing when it changed, the new one shows.
   */
  function Hovered(st: Structure, shown: set<(BlockId, nat)>, before: Option<Connector>, after: Option<Connector>)
    : set<(BlockId, nat)>
    requires before.Some? ==> before.value.block in st.info
    requires after.Some? ==> after.value.block in st.info
  {
    var kept := if before.Some? && before != after then shown - {HoverPath(st, before.value)} else shown;
    if after.Some? then kept + {HoverPath(st, after.value)} else kept
  }

  /**
   * A block sample state: a start block `0` heads global group `0`, a
   * plain block `1` heads global group `1`.
   */
  function SampleStructure(): Structure
  {
    Structure(map[0 := None, 1 := None], map[0 := None, 1 := None], map[0 := Some(0), 1 := Some(1)],
              map[0 := Info(Start, Some(Statement(None)), None, []), 1 := Info(Plain, Some(Statement(Some("forward"))), None, [])],
              map[0 := Some(0), 1 := Some(1)], map[0 := GroupInfo(None, 0.0), 1 := GroupInfo(None, 0.0)], 2, 2)
  }

  function SampleDrawing(): Drawing
  {
    Drawing(map[0 := Point(0.0, 0.0), 1 := Point(0.0, 0.0)], map[0 := [], 1 := []],
            map[0 := Point(40.0, 20.0), 1 := Point(180.0, 60.0)], {}, {})
  }

  function SampleSuffix(): Suffixes
  {
    map[0 := [0], 1 := [1]]
  }

  lemma SampleLinked()
    ensures Linked(SampleStructure().prev, SampleStructure().next, SampleSuffix())
  {
    var st, suffix := SampleStructure(), SampleSuffix();
    assert Mutual(st.prev, st.next);
    assert Follows(st.next, suffix);
  }

  lemma SampleGrouped()
    ensures var st := SampleStructure(); Grouped(st.prev, st.next, st.group, st.first)
  {
    var st := SampleStructure();
    assert Keyed(st.next, st.group, st.first) && Along(st.next, st.group);
    assert FirstsAreHeads(st.prev, st.group, st.first) && HeadsAreFirst(st.prev, st.group, st.first);
  }

  lemma SampleNesting()
    ensures var st := SampleStructure(); Nesting(st.info, st.groupInfo)
  {
    var st := SampleStructure();
    assert WellNested(st.info, st.groupInfo, 0) && WellNested(st.info, st.groupInfo, 1);
  }

  lemma SampleKeys()
    ensures var st := SampleStructure();
      && st.info.Keys == st.next.Keys && st.groupInfo.Keys == st.first.Keys
      && (forall b | b in st.next :: b < st.blockCount) && (forall g | g in st.first :: g < st.groupCount)
  {
  }

  lemma SampleFits()
    ensures Fits(SampleStructure(), SampleDrawing())
  {
  }

  lemma SampleOk()
    ensures StructureOk(SampleStructure(), SampleSuffix()) && Fits(SampleStructure(), SampleDrawing())
  {
    SampleKeys();
    SampleFits();
    SampleLinked();
    SampleGrouped();
    SampleNesting();
  }

  /**
   * Dragging the start block while another global group holds a block:
   * the check as written throws, wherever the groups are.
   */
  lemma StartDragThrows()
    ensures var st, suffix, d := SampleStructure(), SampleSuffix(), SampleDrawing();
      && StructureOk(st, suffix) && Fits(st, d)
      && AttachableAsWritten(st, suffix, d, [0, 1], 0).Throws?
      && Attachable(st, suffix, d, [0, 1], 0).None?
  {
    SampleOk();
    var groups: seq<GroupId> := [0, 1];
    assert groups[1] != 0 && SampleStructure().first[groups[1]].Some?;
  }

  // ---------------------------------------------------------------------
  // The editor

  class Editor {
    /** The blocks and groups on the editor's surface. */
    const ws: Workspace
    /** `globalGroups`: the groups placed directly on the surface. */
    var globalGroups: seq<GroupId>
    var drag: DragState
    /** `t !== null`: a check of the dragged block is scheduled. */
    var pending: bool

    ghost predicate Valid()
      reads this, ws
    {
      ws.Valid() && EditorOk(ws.st, globalGroups, drag)
    }

    /** `new BlockEditor()` (js/blockeditor.js:18-40): no groups, no drag, no timer. */
    constructor ()
      ensures Valid() && fresh(ws)
      ensures globalGroups == [] && drag == Idle && !pending
      ensures ws.st.next == map[] && ws.st.first == map[]
    {
      ws := new Workspace();
      globalGroups := [];
      drag := Idle;
      pending := false;
    }

    /**
     * `createBlock(Block or StartBlock, opts)` (js/blockeditor.js:158-162):
     * a new lone block, which can be dragged.
     */
    method CreateBlock(start: bool, payload: Option<Payload>, bbox: Option<Size>) returns (b: BlockId)
      requires Valid()
      modifies ws
      ensures Valid()
      ensures b !in old(ws.st.next) && ws.st == WithBlock(old(ws.st), Info(if start then Start else Plain, payload, bbox, []))
      ensures Lone(ws.st, [b])
      ensures ws.d == old(ws.d).(pos := old(ws.d.pos)[b := Point(0.0, 0.0)], connectorPositions := old(ws.d.connectorPositions)[b := []])
    {
      ghost var st0, s0 := ws.st, ws.suffix;
      b := ws.NewBlock(start, payload, bbox);
      WithBlockKept(st0, s0, Info(if start then Start else Plain, payload, bbox, []));
      DragKept(st0, ws.st, globalGroups, drag);
    }

    /** `createBlock(ControlBlock, opts)`: a new lone control block with its empty branches. */
    method CreateControlBlock(cnt: Option<int>, payload: Option<Payload>, bbox: Option<Size>) returns (b: BlockId)
      requires Valid() && (cnt.None? || cnt.value >= 0)
      modifies ws
      ensures Valid()
      ensures b !in old(ws.st.next) && ws.st == WithControl(old(ws.st), DefaultCount(cnt), payload, bbox)
      ensures Lone(ws.st, [b])
      ensures ws.d == old(ws.d).(pos := old(ws.d.pos)[b := Point(0.0, 0.0)],
                                 connectorPositions := old(ws.d.connectorPositions)[b := seq(DefaultCount(cnt) + 1, i => Point(0.0, 0.0))],
                                 groupPos := Placed(old(ws.d.groupPos), old(ws.st.groupCount), DefaultCount(cnt)))
    {
      ghost var st0, s0 := ws.st, ws.suffix;
      b := ws.NewControlBlock(cnt, payload, bbox);
      WithControlKept(st0, s0, DefaultCount(cnt), payload, bbox);
      WithControlGlobal(st0, DefaultCount(cnt), payload, bbox, globalGroups);
      ControlLone(st0, DefaultCount(cnt), payload, bbox);
      DragKept(st0, ws.st, globalGroups, drag);
    }

    /**
     * `isGroupGlobal(g)` (js/blockeditor.js:149-155): the list is searched
     * from its end.
     */
    method IsGroupGlobal(g: GroupId) returns (r: bool)
      ensures r <==> g in globalGroups
    {
      var i := |globalGroups|;
      while i > 0
        invariant 0 <= i <= |globalGroups|
        invariant g !in globalGroups[i..]
      {
        i := i - 1;
        if globalGroups[i] == g {
          return true;
        }
      }
      return false;
    }

    /** `createChain(blist)` (js/blockeditor.js:182-186): each block is appended to the one before it. */
    method CreateChain(blocks: seq<BlockId>)
      requires Valid() && Lone(ws.st, blocks) && NoDuplicates(blocks)
      modifies ws
      ensures Valid()
      ensures ws.st == Chained(old(ws.st), blocks)
      ensures ChainOf(ws.st.prev, ws.st.next, blocks)
      ensures ws.st == old(ws.st).(prev := ws.st.prev, next := ws.st.next)
      ensures ws.d == old(ws.d)
    {
      ghost var st0 := ws.st;
      if |blocks| == 0 {
        return;
      }
      assert blocks[..1] == [blocks[0]];
      for i := 1 to |blocks|
        invariant ws.Valid() && ws.st == Chained(st0, blocks[..i]) && ws.d == old(ws.d)
      {
        ChainedStep(st0, ws.suffix, blocks, i);
        ChainedOpen(st0, blocks, i);
        ws.Append(blocks[i - 1], blocks[i]);
      }
      assert blocks[..|blocks|] == blocks;
      ChainedDragOk(st0, blocks, globalGroups, drag);
    }

    /**
     * `createBlockGroup(x, y, blocks)` (js/blockeditor.js:169-179): a new
     * global group at `(x, y)`; given blocks (lone, as made) are chained
     * and become the group's chain.  An empty `blocks` stands for no
     * `blocks` argument.  Nothing else changes but where the blocks and
     * the groups nested in them are drawn.
     */
    method CreateBlockGroup(x: real, y: real, blocks: seq<BlockId>) returns (g: GroupId)
      requires Valid() && Lone(ws.st, blocks) && NoDuplicates(blocks)
      modifies this, ws
      ensures Valid()
      ensures g == old(ws.st.groupCount) && g !in old(ws.st.first)
      ensures globalGroups == old(globalGroups) + [g] && drag == old(drag) && pending == old(pending)
      ensures g in ws.st.first && ws.st.groupInfo[g].parent.None? && ws.d.groupPos[g] == Point(x, y)
      ensures |blocks| == 0 ==> ws.st == WithGroup(old(ws.st), None)
      ensures |blocks| > 0 ==> ws.st.first[g] == Some(blocks[0]) && ChainOf(ws.st.prev, ws.st.next, blocks)
      ensures |blocks| > 0 ==> forall i | 0 <= i < |blocks| :: blocks[i] in ws.st.group && ws.st.group[blocks[i]] == Some(g)
      ensures KeptOff(WithGroup(old(ws.st), None), ws.st, blocks, g)
      ensures Restacked(ws.st, blocks, old(ws.d).(groupPos := old(ws.d.groupPos)[g := Point(x, y)]), ws.d)
      ensures Settled(ws.st, ws.d, blocks)
    {
      g := NewGlobalGroup(x, y, blocks);
      if |blocks| > 0 {
        FillGroup(g, blocks);
        assert !OwnedBy(ws.st, g, blocks);
      } else {
        KeptOffSelf(ws.st, ws.suffix, blocks, g);
      }
    }

    /** The first part of `createBlockGroup`: an empty global group placed at (`x`, `y`). */
    method NewGlobalGroup(x: real, y: real, ghost blocks: seq<BlockId>) returns (g: GroupId)
      requires Valid() && Lone(ws.st, blocks)
      modifies this, ws
      ensures Valid() && Lone(ws.st, blocks)
      ensures g == old(ws.st.groupCount) && ws.st == WithGroup(old(ws.st), None)
      ensures g in ws.st.first && ws.st.first[g].None? && g in ws.st.groupInfo && ws.st.groupInfo[g].parent.None?
      ensures globalGroups == old(globalGroups) + [g] && drag == old(drag) && pending == old(pending)
      ensures ws.d == old(ws.d).(groupPos := old(ws.d.groupPos)[g := Point(x, y)])
    {
      ghost var st0, s0 := ws.st, ws.suffix;
      g := ws.NewGroup();
      ws.GroupTranslateBy(g, x, y);
      NewGroupOk(st0, s0, globalGroups, drag, blocks);
      NewGlobal(st0, s0, globalGroups);
      globalGroups := globalGroups + [g];
    }

    /**
     * The `blocks` part of `createBlockGroup`: the lone blocks are chained
     * and become the empty global group's chain, which is updated.
     */
    method FillGroup(g: GroupId, blocks: seq<BlockId>)
      requires Valid() && Lone(ws.st, blocks) && NoDuplicates(blocks) && |blocks| > 0 && g in globalGroups
      requires g in ws.st.first && ws.st.first[g].None? && g in ws.st.groupInfo && ws.st.groupInfo[g].parent.None?
      modifies ws
      ensures Valid()
      ensures g in ws.st.first && ws.st.first[g] == Some(blocks[0]) && ws.st.groupInfo[g].parent.None?
      ensures ChainOf(ws.st.prev, ws.st.next, blocks)
      ensures forall i | 0 <= i < |blocks| :: blocks[i] in ws.st.group && ws.st.group[blocks[i]] == Some(g)
      ensures KeptOff(old(ws.st), ws.st, blocks, g) && Restacked(ws.st, blocks, old(ws.d), ws.d)
      ensures Settled(ws.st, ws.d, blocks)
    {
      ghost var st1 := ws.st;
      CreateChain(blocks);
      ChainedKeptOff(st1, blocks, g);
      ghost var st2 := ws.st;
      FillOk(st2, ws.suffix, blocks, globalGroups, drag, g);
      ws.GroupAppendChain(g, blocks[0]);
      KeptOffTrans(st1, st2, ws.st, blocks, g);
      ChainOfSuffix(ws.st.prev, ws.st.next, ws.suffix, blocks, 0);
      assert blocks[0..] == blocks;
    }

    /**
     * `mousedown` on a block (js/blockeditor.js:127-146): a press of the
     * left button starts a drag of `b` at pointer `(cx, cy)`.  Moving a
     * global group to the front only changes the display.  A press
     * arrives when no drag is in progress.
     */
    method MouseDown(b: BlockId, which: int, cx: real, cy: real)
      requires Valid() && b in ws.st.next && ws.st.group[b].Some? && drag.block.None?
      modifies this
      ensures Valid() && globalGroups == old(globalGroups) && pending == old(pending)
      ensures which == 1 ==> drag == DragState(Some(b), None, true, cx, cy)
      ensures which != 1 ==> drag == old(drag)
    {
      if which == 1 {
        drag := drag.(x := cx, y := cy, block := Some(b), firstMovement := true);
      }
    }

    /**
     * `mousemove` (js/blockeditor.js:42-99) to pointer `(cx, cy)` at scale
     * `s`.  During a drag: a check is scheduled unless one is pending; a
     * block that does not head a group without a parent is moved, with its
     * chain, into a fresh global group at its global position; the first
     * move starts the drag effect; the dragged group moves by the pointer
     * delta over `s`.  Without a drag nothing happens.
     */
    method MouseMove(cx: real, cy: real, s: real)
      requires Valid() && s > 0.0
      modifies this, ws
      ensures Valid()
      ensures old(drag.block).None? ==>
                drag == old(drag) && pending == old(pending) && globalGroups == old(globalGroups)
                && ws.st == old(ws.st) && ws.d == old(ws.d)
      ensures old(drag.block).Some? ==> pending && drag == old(drag).(firstMovement := false, x := cx, y := cy)
      ensures old(drag.block).Some? ==> var b := old(drag.block).value;
                && ws.st.prev[b].None? && !HasParent(ws.st, ws.st.group[b].value)
                && ws.st.group[b].value in globalGroups
      ensures old(drag.block).Some? && old(drag.firstMovement) ==>
                ws.d.dragging == old(ws.d.dragging) + {ws.st.group[old(drag.block).value].value}
      ensures old(drag.block).Some? && !old(drag.firstMovement) ==>
                ws.d.dragging == old(ws.d.dragging) && ws.st == old(ws.st) && globalGroups == old(globalGroups)
      ensures old(drag.block).Some? ==> ws.d.shown == old(ws.d.shown)
      ensures old(drag.block).Some? && !Detaches(old(ws.st), old(drag.block).value) ==>
                ws.d.pos == old(ws.d.pos) && ws.d.connectorPositions == old(ws.d.connectorPositions)
      ensures old(drag.block).Some? && Detaches(old(ws.st), old(drag.block).value) ==>
                var b, g := old(drag.block).value, old(ws.st.groupCount);
                && b in ws.suffix && g in ws.d.groupPos && Settled(ws.st, ws.d, ws.suffix[b])
                && Restacked(ws.st, ws.suffix[b],
                             old(ws.d).(groupPos := old(ws.d.groupPos)[g := ws.d.groupPos[g]], dragging := ws.d.dragging), ws.d)
      ensures old(drag.block).Some? && !Detaches(old(ws.st), old(drag.block).value) ==>
                var g := old(ws.st).group[old(drag.block).value].value;
                && ws.st == old(ws.st) && globalGroups == old(globalGroups)
                && ws.d.groupPos == old(ws.d).groupPos[g := Point(old(ws.d).groupPos[g].x + (cx - old(drag.x)) / s,
                                                                  old(ws.d).groupPos[g].y + (cy - old(drag.y)) / s)]
      ensures old(drag.block).Some? && Detaches(old(ws.st), old(drag.block).value) ==>
                var b, g := old(drag.block).value, old(ws.st.groupCount);
                var st1 := WithGroup(old(ws.st), None);
                && globalGroups == old(globalGroups) + [g]
                && Linked(st1.prev, st1.next, old(ws.suffix)) && Grouped(st1.prev, st1.next, st1.group, st1.first)
                && b in st1.next && g in st1.first
                && ws.st == ChainGrouped(st1, old(ws.suffix), g, b)
                && ws.st.group[b] == Some(g)
                && Positioned(old(ws.st), old(ws.d)) && b in old(ws.st).group && g in ws.d.groupPos
                && ws.d.groupPos[g].x == DetachPoint(old(ws.st), old(ws.d), b).x + (cx - old(drag.x)) / s
                && ws.d.groupPos[g].y == DetachPoint(old(ws.st), old(ws.d), b).y + (cy - old(drag.y)) / s
    {
      if drag.block.None? {
        return;
      }
      var b := drag.block.value;
      var dx, dy := (cx - drag.x) / s, (cy - drag.y) / s;
      if Detaches(ws.st, b) {
        var g := DetachMove(b, dx, dy, cx, cy);
      } else {
        MoveDragged(b, ws.st.group[b].value, dx, dy, cx, cy);
      }
    }

    /**
     * A move of the dragged block `b` that detaches it: its chain moves
     * into a fresh global group at the block's global position, which the
     * rest of `mousemove` then moves by (`dx`, `dy`).
     */
    method DetachMove(b: BlockId, dx: real, dy: real, cx: real, cy: real) returns (g: GroupId)
      requires Valid() && drag.block == Some(b) && drag.firstMovement
      modifies this, ws
      ensures Valid() && pending && drag == old(drag).(firstMovement := false, x := cx, y := cy)
      ensures g == old(ws.st.groupCount) && globalGroups == old(globalGroups) + [g]
      ensures var st1 := WithGroup(old(ws.st), None);
                && Linked(st1.prev, st1.next, old(ws.suffix)) && Grouped(st1.prev, st1.next, st1.group, st1.first)
                && b in st1.next && g in st1.first
                && ws.st == ChainGrouped(st1, old(ws.suffix), g, b)
      ensures b in ws.st.group && ws.st.group[b] == Some(g) && ws.st.prev[b].None?
      ensures g in ws.st.groupInfo && ws.st.groupInfo[g].parent.None?
      ensures Positioned(old(ws.st), old(ws.d)) && b in old(ws.st).group && g in ws.d.groupPos
      ensures ws.d.groupPos[g].x == DetachPoint(old(ws.st), old(ws.d), b).x + dx
      ensures ws.d.groupPos[g].y == DetachPoint(old(ws.st), old(ws.d), b).y + dy
      ensures ws.d.dragging == old(ws.d.dragging) + {g} && ws.d.shown == old(ws.d.shown)
      ensures b in ws.suffix && Settled(ws.st, ws.d, ws.suffix[b])
      ensures Restacked(ws.st, ws.suffix[b],
                        old(ws.d).(groupPos := old(ws.d.groupPos)[g := ws.d.groupPos[g]], dragging := ws.d.dragging), ws.d)
    {
      ghost var d0 := ws.d;
      g := DetachDragged(b);
      ghost var st1, chain, d1, p := ws.st, ws.suffix[b], ws.d, DetachPoint(old(ws.st), d0, b);
      MoveDragged(b, g, dx, dy, cx, cy);
      MovedDetached(st1, chain, d0, d1, ws.d, g, p);
    }

    /**
     * The rest of `mousemove` (js/blockeditor.js:83-97) once the dragged
     * block `b` heads a global group: a check is scheduled unless one is
     * pending, the first move starts the drag effect, the group moves by
     * (`dx`, `dy`), and the pointer is at (`cx`, `cy`).
     */
    method MoveDragged(b: BlockId, g: GroupId, dx: real, dy: real, cx: real, cy: real)
      requires Valid() && drag.block == Some(b) && b in ws.st.group && ws.st.group[b] == Some(g)
      requires ws.st.prev[b].None? && g in ws.st.groupInfo && ws.st.groupInfo[g].parent.None?
      modifies this, ws
      ensures Valid() && ws.st == old(ws.st) && ws.suffix == old(ws.suffix) && globalGroups == old(globalGroups) && pending
      ensures drag == old(drag).(firstMovement := false, x := cx, y := cy)
      ensures g in globalGroups && g in old(ws.d.groupPos)
      ensures ws.d.groupPos[g] == Point(old(ws.d.groupPos)[g].x + dx, old(ws.d.groupPos)[g].y + dy)
      ensures ws.d.groupPos == old(ws.d.groupPos)[g := ws.d.groupPos[g]]
      ensures ws.d == old(ws.d).(groupPos := ws.d.groupPos, dragging := ws.d.dragging)
      ensures ws.d.dragging == if old(drag.firstMovement) then old(ws.d.dragging) + {g} else old(ws.d.dragging)
    {
      if drag.firstMovement {
        ws.DragStart(b);
        drag := drag.(firstMovement := false);
      }
      ws.GroupTranslateBy(g, dx, dy);
      HeadGlobal(ws.st, ws.suffix, globalGroups, b);
      pending := true;
      drag := drag.(x := cx, y := cy);
    }

    /**
     * The detach step of `mousemove` (js/blockeditor.js:74-81): the dragged
     * block `b` and its chain move into a fresh group at the block's global
     * position, and the group joins the global groups.
     */
    method DetachDragged(b: BlockId) returns (g: GroupId)
      requires Valid() && drag.block == Some(b) && drag.firstMovement
      modifies this, ws
      ensures Valid() && drag == old(drag) && pending == old(pending)
      ensures g == old(ws.st.groupCount) && globalGroups == old(globalGroups) + [g]
      ensures var st1 := WithGroup(old(ws.st), None);
                && Linked(st1.prev, st1.next, old(ws.suffix)) && Grouped(st1.prev, st1.next, st1.group, st1.first)
                && b in st1.next && g in st1.first
                && ws.st == ChainGrouped(st1, old(ws.suffix), g, b)
      ensures b in ws.st.group && ws.st.group[b] == Some(g) && ws.st.prev[b].None? && ws.st.groupInfo[g].parent.None?
      ensures Positioned(old(ws.st), old(ws.d)) && b in old(ws.st).group && g in ws.d.groupPos
      ensures ws.d.groupPos[g] == DetachPoint(old(ws.st), old(ws.d), b) && ws.d.dragging == old(ws.d.dragging)
      ensures b in ws.suffix && Settled(ws.st, ws.d, ws.suffix[b])
      ensures Restacked(ws.st, ws.suffix[b], old(ws.d).(groupPos := old(ws.d.groupPos)[g := DetachPoint(old(ws.st), old(ws.d), b)]), ws.d)
    {
      DetachOk(ws.st, ws.suffix, ws.d, globalGroups, drag);
      g := Detach(b);
      AddGlobal(g);
    }

    /** `globalGroups.push(g)`, once the workspace already fits the longer list. */
    method AddGlobal(g: GroupId)
      requires ws.Valid() && EditorOk(ws.st, globalGroups + [g], drag)
      modifies this
      ensures Valid() && globalGroups == old(globalGroups) + [g] && drag == old(drag) && pending == old(pending)
    {
      globalGroups := globalGroups + [g];
    }

    /**
     * The detaching step of `mousemove` (js/blockeditor.js:75-88): block
     * `b` and the rest of its chain move into a fresh group `g`, placed at
     * the block's global position.
     */
    method Detach(b: BlockId) returns (g: GroupId)
      requires ws.Valid() && b in ws.st.next
      modifies ws
      ensures ws.Valid() && g == old(ws.st.groupCount)
      ensures var st1 := WithGroup(old(ws.st), None);
                && Linked(st1.prev, st1.next, old(ws.suffix)) && Grouped(st1.prev, st1.next, st1.group, st1.first)
                && ws.st == ChainGrouped(st1, old(ws.suffix), g, b)
      ensures Positioned(old(ws.st), old(ws.d)) && b in old(ws.st).group
      ensures g in ws.st.groupInfo && ws.st.groupInfo[g].parent.None? && g in ws.d.groupPos
      ensures ws.d.groupPos[g] == DetachPoint(old(ws.st), old(ws.d), b)
      ensures Restacked(ws.st, ws.suffix[b], old(ws.d).(groupPos := old(ws.d.groupPos)[g := DetachPoint(old(ws.st), old(ws.d), b)]), ws.d)
      ensures Settled(ws.st, ws.d, ws.suffix[b])
    {
      OkPositioned(ws.st, ws.suffix, ws.d);
      WithGroupOk(ws.st, ws.suffix, ws.d);
      var p := DetachPoint(ws.st, ws.d, b);
      g := ws.NewGroup();
      ws.GroupTranslateBy(g, p.x, p.y);
      assert Point(0.0 + p.x, 0.0 + p.y) == p;
      assert ws.d == old(ws.d).(groupPos := old(ws.d.groupPos)[g := p]);
      ghost var st1 := ws.st;
      ws.GroupAppendChain(g, b);
      ChainGroupedFirst(st1, old(ws.suffix), g, b);
      assert !OwnedBy(ws.st, g, ws.suffix[b]);
    }

    /**
     * The timer callback (js/blockeditor.js:51-70): during a drag, the
     * attachee becomes `attachable(block)`; the old attachee stops showing
     * its hover when it changed, the new one shows it.  The timer is no
     * longer pending.  A check fires only after a move, so the dragged
     * block has moved.
     */
    method TimerFire()
      requires Valid() && pending && (drag.block.None? || !drag.firstMovement)
      modifies this, ws
      ensures Valid() && !pending && globalGroups == old(globalGroups) && ws.st == old(ws.st)
      ensures old(drag.block).None? ==> drag == old(drag) && ws.d == old(ws.d)
      ensures old(drag.block).Some? ==>
                && (forall i | 0 <= i < |globalGroups| :: globalGroups[i] in old(ws.st).first)
                && drag == old(drag).(attachee := Attachable(old(ws.st), old(ws.suffix), old(ws.d), globalGroups, old(drag.block).value))
      ensures old(drag.block).Some? ==>
                ws.d == old(ws.d).(shown := Hovered(ws.st, old(ws.d.shown), old(drag.attachee), drag.attachee))
    {
      if drag.block.Some? {
        var b := drag.block.value;
        GroupsIn(ws.st, globalGroups);
        var attachee := EditorAttachable(ws.st, ws.suffix, ws.d, globalGroups, b);
        if attachee.Some? {
          assert GlobalPosition(ws.st, ws.d, attachee.value.block).Some?;
        }
        if drag.attachee.Some? && drag.attachee != attachee {
          ws.HoverEnd(drag.attachee.value.block, drag.attachee.value.index);
        }
        if attachee.Some? {
          ws.HoverStart(attachee.value.block, attachee.value.index);
        }
        drag := drag.(attachee := attachee);
      }
      pending := false;
    }

    /**
     * The timer callback as written: for a dragged start block the check
     * throws once it reaches a group with a block; the callback then ends
     * before `t = null`, so the timer stays pending and no later move
     * schedules another check.  Otherwise it is `TimerFire`.
     */
    method TimerFireAsWritten() returns (threw: bool)
      requires Valid() && pending && (drag.block.None? || !drag.firstMovement)
      modifies this, ws
      ensures Valid()
      ensures threw <==> old(drag.block).Some? &&
                         AttachableAsWritten(old(ws.st), old(ws.suffix), old(ws.d), old(globalGroups), old(drag.block).value).Throws?
      ensures threw ==> pending && drag == old(drag) && ws.st == old(ws.st) && ws.d == old(ws.d)
      ensures !threw ==> !pending && ws.st == old(ws.st)
      ensures !threw && old(drag.block).None? ==> drag == old(drag) && ws.d == old(ws.d)
      ensures !threw && old(drag.block).Some? ==>
                && (forall i | 0 <= i < |globalGroups| :: globalGroups[i] in old(ws.st).first)
                && drag == old(drag).(attachee := Attachable(old(ws.st), old(ws.suffix), old(ws.d), globalGroups, old(drag.block).value))
                && ws.d == old(ws.d).(shown := Hovered(ws.st, old(ws.d.shown), old(drag.attachee), drag.attachee))
    {
      if drag.block.Some? {
        var b := drag.block.value;
        GroupsIn(ws.st, globalGroups);
        if ws.st.info[b].kind.Start? && ScanGroupsNull(ws.st, globalGroups, ws.st.group[b].value).Throws? {
          return true;
        }
      }
      TimerFire();
      return false;
    }

    /**
     * `mouseup` (js/blockeditor.js:102-120): a drag ends; when there is an
     * attachee, its hover ends, the dragged chain is appended to it, and
     * the dragged block's group leaves the global groups.  The drag state
     * is cleared.  Without a drag nothing happens.
     */
    method MouseUp()
      requires Valid()
      modifies this, ws
      ensures Valid() && pending == old(pending)
      ensures old(drag.block).None? ==>
                drag == old(drag) && globalGroups == old(globalGroups) && ws.st == old(ws.st) && ws.d == old(ws.d)
      ensures old(drag.block).Some? ==> drag == old(drag).(block := None, attachee := None, firstMovement := false)
      ensures old(drag.block).Some? && old(drag.attachee).None? ==> ws.st == old(ws.st) && globalGroups == old(globalGroups)
      ensures old(drag.block).Some? && old(drag.attachee).Some? ==>
                var b, c := old(drag.block).value, old(drag.attachee).value;
                && globalGroups == RemovedGroup(old(globalGroups), old(ws.st).group[b].value)
                && Connected(old(ws.st), old(ws.suffix), c.block, b, c.index, ws.st)
      ensures old(drag.block).Some? && old(drag.attachee).Some? ==>
                var temp := old(ws.st).group[old(drag.block).value].value;
                temp in old(globalGroups) && temp !in globalGroups && |globalGroups| == |old(globalGroups)| - 1
    {
      if drag.block.Some? {
        var b := drag.block.value;
        ws.DragEnd(b);
        if drag.attachee.Some? {
          Drop(b, drag.attachee.value);
        }
        drag := drag.(block := None, attachee := None, firstMovement := false);
      }
    }

    /**
     * The drop in `mouseup` (js/blockeditor.js:106-112): the attachee's
     * hover ends, the chain of `b` is appended at connector `c`, and the
     * group `b` was dragged in leaves the global groups.  The drag state
     * still names the attachee, so only the workspace and the global
     * groups are valid until `mouseup` clears it.
     */
    method Drop(b: BlockId, c: Connector)
      requires Valid() && drag.block == Some(b) && drag.attachee == Some(c)
      modifies this, ws
      ensures ws.Valid() && GroupsOk(ws.st, globalGroups) && GlobalOk(ws.st, globalGroups)
      ensures drag == old(drag) && pending == old(pending)
      ensures globalGroups == RemovedGroup(old(globalGroups), old(ws.st).group[b].value)
      ensures var temp := old(ws.st).group[b].value;
                temp in old(globalGroups) && temp !in globalGroups && |globalGroups| == |old(globalGroups)| - 1
      ensures Connected(old(ws.st), old(ws.suffix), c.block, b, c.index, ws.st)
      ensures c.block in old(ws.st).info && b in ws.suffix
      ensures Settled(ws.st, ws.d, ws.suffix[b])
      ensures Restacked(ws.st, ws.suffix[b], old(ws.d).(shown := old(ws.d.shown) - {HoverPath(old(ws.st), c)}), ws.d)
    {
      var temp := ws.st.group[b].value;
      ws.HoverEnd(c.block, c.index);
      ghost var st0, s0 := ws.st, ws.suffix;
      AttacheeApart(ws.st, ws.suffix, b, c);
      assert WellNested(st0.info, st0.groupInfo, c.block);
      if c.index != 0 {
        AttacheeBranch(st0, s0, b, c);
      }
      ws.Connect(c.block, b, c.index);
      ConnectGroups(st0, s0, c.block, b, c.index, ws.st, ws.suffix, globalGroups);
      DropGlobalOk(st0, s0, b, c, ws.st, globalGroups);
      RemoveBlockGroup(temp);
    }

    /**
     * `removeBlockGroup(g)` (js/blockeditor.js:189-192): `g` leaves the
     * global groups, as `RemovedGroup` says.  Removing its drawing is left
     * out.
     */
    method RemoveBlockGroup(g: GroupId)
      requires ws.Valid() && GroupsOk(ws.st, globalGroups)
      modifies this
      ensures globalGroups == RemovedGroup(old(globalGroups), g) && GroupsOk(ws.st, globalGroups)
      ensures drag == old(drag) && pending == old(pending)
    {
      RemovedGroupsOk(ws.st, globalGroups, g);
      globalGroups := RemovedGroup(globalGroups, g);
    }
  }
}
