/**
 * The blocks and block groups of the editor (js/block.js,
 * js/blockgroup.js, js/controlblock.js, js/startblock.js) as one arena
 * addressed by ids.  `Structure` holds the fields the chain operations
 * change (a block's `prev`, `next` and `group`, a group's `first`);
 * `Drawing` holds where things are drawn.  This module states the
 * invariants of both and proves, on values, that each chain operation
 * keeps them; module `Workspaces` performs the operations in place.
 */
module Arena {
  import opened Wrappers
  import opened Geometry
  import opened Chains
  import opened Blocks

  type Groups = map<BlockId, Option<GroupId>>
  type Firsts = map<GroupId, Option<BlockId>>

  /** What a group is given when it is made: its `parentBlock`, and its measured height. */
  datatype GroupInfo = GroupInfo(parent: Option<BlockId>, height: real)

  /**
   * Every block's `prev`, `next`, `group` and what it was made with
   * (`Info`); every group's `first` and what it was made with; the next
   * fresh ids.
   */
  datatype Structure = Structure(prev: Links, next: Links, group: Groups, info: map<BlockId, Info>,
                                 first: Firsts, groupInfo: map<GroupId, GroupInfo>,
                                 blockCount: nat, groupCount: nat)

  /**
   * Every block's position (`_x`, `_y`) and a control block's connector
   * positions, every group's position; the connector paths shown by
   * `onHoverStart` as (block, index) and the groups styled by `onDragStart`.
   */
  datatype Drawing = Drawing(pos: map<BlockId, Point>, connectorPositions: map<BlockId, seq<Point>>,
                             groupPos: map<GroupId, Point>, shown: set<(BlockId, nat)>, dragging: set<GroupId>)

  // ---------------------------------------------------------------------
  // Invariants

  /**
   * The container invariant of the chains: `group` is the same along every
   * `next` link, `first` is a grouped head, and a grouped head is its
   * group's `first`.
   */
  ghost predicate Grouped(prev: Links, next: Links, group: Groups, first: Firsts)
  {
    && Keyed(next, group, first)
    && Along(next, group)
    && FirstsAreHeads(prev, group, first)
    && HeadsAreFirst(prev, group, first)
  }

  /** Every block has a `group` entry, and every group it names exists. */
  ghost predicate Keyed(next: Links, group: Groups, first: Firsts)
  {
    && group.Keys == next.Keys
    && (forall b | b in group && group[b].Some? :: group[b].value in first)
  }

  /** `group` is the same on both ends of every `next` link. */
  ghost predicate Along(next: Links, group: Groups)
  {
    forall a | a in next && a in group && next[a].Some? && next[a].value in group :: group[next[a].value] == group[a]
  }

  /** A group's `first` block is in that group and has no `prev`. */
  ghost predicate FirstsAreHeads(prev: Links, group: Groups, first: Firsts)
  {
    forall g | g in first && first[g].Some? ::
      first[g].value in group && group[first[g].value] == Some(g) && first[g].value in prev && prev[first[g].value].None?
  }

  /** A grouped block without `prev` is its group's `first`. */
  ghost predicate HeadsAreFirst(prev: Links, group: Groups, first: Firsts)
  {
    forall x | x in group && group[x].Some? && group[x].value in first && x in prev && prev[x].None? ::
      first[group[x].value] == Some(x)
  }

  /**
   * Each block has as many nested groups as its kind says and owns them (a
   * control block has at least one branch); each group's parent exists.
   */
  ghost predicate Nesting(info: map<BlockId, Info>, groupInfo: map<GroupId, GroupInfo>)
  {
    && (forall b | b in info :: WellNested(info, groupInfo, b))
    && (forall g | g in groupInfo && groupInfo[g].parent.Some? :: groupInfo[g].parent.value in info)
  }

  ghost predicate WellNested(info: map<BlockId, Info>, groupInfo: map<GroupId, GroupInfo>, b: BlockId)
    requires b in info
  {
    var nested := info[b].nested;
    && (info[b].kind.Control? ==> info[b].kind.cnt >= 1)
    && |nested| == NestedCount(info[b].kind)
    && (forall i | 0 <= i < |nested| :: nested[i] in groupInfo && groupInfo[nested[i]].parent == Some(b))
    && (forall i, j | 0 <= i < j < |nested| :: nested[i] != nested[j])
  }

  /** The invariant of the structure; `suffix` is the ghost view of every chain. */
  ghost predicate StructureOk(st: Structure, suffix: Suffixes)
  {
    && Linked(st.prev, st.next, suffix)
    && Grouped(st.prev, st.next, st.group, st.first)
    && st.info.Keys == st.next.Keys
    && Nesting(st.info, st.groupInfo)
    && st.groupInfo.Keys == st.first.Keys
    && (forall b | b in st.next :: b < st.blockCount)
    && (forall g | g in st.first :: g < st.groupCount)
  }

  /** How many connector positions a block of kind `k` keeps: only a control block has them. */
  function PositionCount(k: Kind): (n: nat)
    ensures k.Control? && k.cnt >= 0 ==> n == k.cnt + 1
    ensures !k.Control? ==> n == 0
  {
    if k.Control? then ConnectorCount(k) else 0
  }

  /** The drawing has a position for every block and group, and a control block one per connector. */
  ghost predicate Fits(st: Structure, d: Drawing)
  {
    && (forall b | b in st.next :: b in d.pos)
    && (forall b | b in st.info ::
          b in d.connectorPositions && |d.connectorPositions[b]| == PositionCount(st.info[b].kind))
    && (forall g | g in st.first :: g in d.groupPos)
  }

  // ---------------------------------------------------------------------
  // Queries on the structure

  /** `hasGroup()` */
  function HasGroup(st: Structure, b: BlockId): (r: bool)
    requires b in st.group
    ensures r <==> st.group[b] != None
  {
    st.group[b].Some?
  }

  /** `isFirst()`: false for a block without a group. */
  function IsFirst(st: Structure, b: BlockId): (r: bool)
    requires Grouped(st.prev, st.next, st.group, st.first) && b in st.next && b in st.prev
    ensures r <==> st.group[b].Some? && st.first[st.group[b].value] == Some(b)
    ensures r ==> st.prev[b].None?
    ensures st.group[b].Some? && st.prev[b].None? ==> r
  {
    if HasGroup(st, b) then
      var g := st.group[b].value;
      assert g in st.first;
      assert st.first[g] == Some(b) ==> st.first[g].value in st.prev && st.prev[st.first[g].value].None?;
      assert st.prev[b].None? ==> st.first[g] == Some(b);
      st.first[g] == Some(b)
    else false
  }

  /** `isLast()`: false for a block without a group. */
  function IsLast(st: Structure, b: BlockId): (r: bool)
    requires Grouped(st.prev, st.next, st.group, st.first) && b in st.next
    ensures r <==> st.group[b].Some? && st.next[b].None?
  {
    if HasGroup(st, b) then st.next[b].None? else false
  }

  /** `lastInChain()`: the one block of the chain from `b` that has no `next`. */
  function LastInChain(st: Structure, ghost suffix: Suffixes, b: BlockId): (r: BlockId)
    requires Linked(st.prev, st.next, suffix) && b in st.next
    ensures r in st.next && r in suffix[b] && st.next[r].None?
    ensures suffix[b] != [] && r == Last(suffix, b)
    decreases |suffix[b]|
  {
    if st.next[b].Some? then
      var n := st.next[b].value;
      Step(st.prev, st.next, suffix, b);
      LastInChain(st, suffix, n)
    else
      assert suffix[b] == [b];
      b
  }

  /**
   * `isLast()` holds exactly for a grouped block that is its own chain's
   * `lastInChain()`.
   */
  lemma IsLastEndsChain(st: Structure, suffix: Suffixes, b: BlockId)
    requires Linked(st.prev, st.next, suffix) && Grouped(st.prev, st.next, st.group, st.first) && b in st.next
    ensures IsLast(st, b) <==> st.group[b].Some? && LastInChain(st, suffix, b) == b
  {
    if st.next[b].Some? {
      var n := st.next[b].value;
      Step(st.prev, st.next, suffix, b);
      InSuffix(st.prev, st.next, suffix, b, n);
    }
  }

  /** `size()`, dispatched on the block's kind. */
  function Size(st: Structure, b: BlockId): Size
    requires b in st.info
  {
    SizeOf(st.info[b].kind, st.info[b].bbox)
  }

  // ---------------------------------------------------------------------
  // Group membership along chains

  /** Every block on the chain from `a` is in `a`'s group. */
  lemma {:induction false} GroupAlong(prev: Links, next: Links, suffix: Suffixes, group: Groups, first: Firsts,
                                      a: BlockId, x: BlockId)
    requires Linked(prev, next, suffix) && Grouped(prev, next, group, first) && a in next && x in suffix[a]
    ensures x in group && group[x] == group[a]
    decreases |suffix[a]|
  {
    if x != a {
      var n := next[a].value;
      assert suffix[a] == [a] + suffix[n];
      InSuffix(prev, next, suffix, a, n);
      GroupAlong(prev, next, suffix, group, first, n, x);
    }
  }

  /** Every block reachable from `first` of group `g` has `group == g`. */
  lemma FirstReaches(prev: Links, next: Links, suffix: Suffixes, group: Groups, first: Firsts, g: GroupId, x: BlockId)
    requires Linked(prev, next, suffix) && Grouped(prev, next, group, first)
    requires g in first && first[g].Some? && first[g].value in next && x in suffix[first[g].value]
    ensures x in group && group[x] == Some(g)
  {
    GroupAlong(prev, next, suffix, group, first, first[g].value, x);
  }

  /**
   * The converse of `FirstReaches`: a block in group `g` is reached from
   * `g`'s `first`, so group membership is exactly reachability.
   */
  lemma {:induction false} GroupedReached(prev: Links, next: Links, suffix: Suffixes, group: Groups, first: Firsts,
                                          x: BlockId)
    requires Linked(prev, next, suffix) && Grouped(prev, next, group, first)
    requires x in group && group[x].Some?
    ensures group[x].value in first && first[group[x].value].Some?
    ensures first[group[x].value].value in next && x in suffix[first[group[x].value].value]
    decreases |next.Keys| - |suffix[x]|
  {
    var g := group[x].value;
    if prev[x].None? {
      assert suffix[x][0] == x;
    } else {
      var p := prev[x].value;
      Step(prev, next, suffix, p);
      SuffixBound(prev, next, suffix, p);
      GroupedReached(prev, next, suffix, group, first, p);
      var h := first[g].value;
      InSuffix(prev, next, suffix, h, p);
      assert suffix[p][0] == p;
      assert x in suffix[p];
    }
  }

  /** `group` with every block of `chain` set to `g`. */
  function Regroup(group: Groups, chain: seq<BlockId>, g: Option<GroupId>): (r: Groups)
    ensures r.Keys == group.Keys
    ensures forall x | x in group :: r[x] == if x in chain then g else group[x]
  {
    map x | x in group :: if x in chain then g else group[x]
  }

  /** One more block of the chain set. */
  lemma RegroupStep(group: Groups, chain: seq<BlockId>, x: BlockId, g: Option<GroupId>)
    requires x in group
    ensures Regroup(group, chain + [x], g) == Regroup(group, chain, g)[x := g]
  {
    assert forall y | y in group :: y in chain + [x] <==> y in chain || y == x;
  }

  // ---------------------------------------------------------------------
  // `remove`: the group invariant after taking `b` out

  /** The `first` map after `remove` of `b`: a removed head hands `first` to its successor. */
  function RemoveFirst(next: Links, group: Groups, first: Firsts, b: BlockId): (first': Firsts)
    requires b in next && b in group && (group[b].Some? ==> group[b].value in first)
    ensures first'.Keys == first.Keys
  {
    if group[b].Some? && first[group[b].value] == Some(b) then first[group[b].value := next[b]] else first
  }

  /** After `remove` of `b`, every block is still the head of its group or grouped like its predecessor. */
  lemma RemoveGrouped(prev: Links, next: Links, group: Groups, first: Firsts, b: BlockId)
    requires Mutual(prev, next) && Grouped(prev, next, group, first) && b in next
    ensures Grouped(RemovePrev(prev, next, b), RemoveNext(prev, next, b), group[b := None],
                    RemoveFirst(next, group, first, b))
  {
    RemoveForward(prev, next, b);
    RemoveBackward(prev, next, b);
    RemoveAlong(prev, next, group, first, b);
    RemoveHeads(prev, next, group, first, b);
    RemoveOrphans(prev, next, group, first, b);
  }

  lemma RemoveAlong(prev: Links, next: Links, group: Groups, first: Firsts, b: BlockId)
    requires Mutual(prev, next) && Grouped(prev, next, group, first) && b in next
    ensures Along(RemoveNext(prev, next, b), group[b := None])
  {
    var next', group' := RemoveNext(prev, next, b), group[b := None];
    forall a | a in next' && next'[a].Some? && next'[a].value in group'
      ensures group'[next'[a].value] == group'[a]
    {
      if prev[b] == Some(a) {
        assert next[a] == Some(b);
      }
    }
  }

  lemma RemoveHeads(prev: Links, next: Links, group: Groups, first: Firsts, b: BlockId)
    requires Mutual(prev, next) && Grouped(prev, next, group, first) && b in next
    ensures FirstsAreHeads(RemovePrev(prev, next, b), group[b := None], RemoveFirst(next, group, first, b))
  {
    var prev', group', first' := RemovePrev(prev, next, b), group[b := None], RemoveFirst(next, group, first, b);
    forall g | g in first' && first'[g].Some?
      ensures first'[g].value in group' && group'[first'[g].value] == Some(g)
      ensures first'[g].value in prev' && prev'[first'[g].value].None?
    {
      var f := first'[g].value;
      if group[b] == Some(g) && first[g] == Some(b) {
        assert f == next[b].value && prev[f] == Some(b);
      } else {
        assert first[g] == Some(f) && f != b && next[b] != Some(f);
      }
    }
  }

  lemma RemoveOrphans(prev: Links, next: Links, group: Groups, first: Firsts, b: BlockId)
    requires Mutual(prev, next) && Grouped(prev, next, group, first) && b in next
    ensures HeadsAreFirst(RemovePrev(prev, next, b), group[b := None], RemoveFirst(next, group, first, b))
  {
    var prev', group', first' := RemovePrev(prev, next, b), group[b := None], RemoveFirst(next, group, first, b);
    forall x | x in group' && group'[x].Some? && x in prev' && prev'[x].None?
      ensures first'[group'[x].value] == Some(x)
    {
      if prev[x].Some? {
        assert next[b] == Some(x) && prev[x] == Some(b) && prev[b].None?;
        assert group[x] == group[b];
      }
    }
  }

  // ---------------------------------------------------------------------
  // `removeChain`: the group invariant after cutting the chain from `b`

  /** The `first` map after `removeChain` of `b`: a removed head leaves its group empty. */
  function CutFirst(group: Groups, first: Firsts, b: BlockId): (first': Firsts)
    requires b in group && (group[b].Some? ==> group[b].value in first)
    ensures first'.Keys == first.Keys
  {
    if group[b].Some? && first[group[b].value] == Some(b) then first[group[b].value := None] else first
  }

  /** A chain is closed under `next`. */
  lemma NextInSuffix(prev: Links, next: Links, suffix: Suffixes, b: BlockId, a: BlockId)
    requires Linked(prev, next, suffix) && b in next && a in suffix[b]
    ensures a in next && (next[a].Some? ==> next[a].value in suffix[b])
  {
    InSuffix(prev, next, suffix, b, a);
    if next[a].Some? {
      var y := next[a].value;
      assert suffix[a] == [a] + suffix[y];
      assert suffix[y][0] == y;
      assert suffix[b] == DropTail(suffix[b], |suffix[a]|) + ([a] + suffix[y]);
      assert y in suffix[b];
    }
  }

  /** After `removeChain` of `b`, the cut chain is ungrouped and the rest keeps its groups. */
  lemma CutGrouped(prev: Links, next: Links, suffix: Suffixes, group: Groups, first: Firsts, b: BlockId)
    requires Linked(prev, next, suffix) && Grouped(prev, next, group, first) && b in next
    ensures Grouped(prev[b := None], CutNext(prev, next, b), Regroup(group, suffix[b], None), CutFirst(group, first, b))
  {
    CutAlong(prev, next, suffix, group, first, b);
    CutHeads(prev, next, suffix, group, first, b);
    CutOrphans(prev, next, suffix, group, first, b);
  }

  lemma CutAlong(prev: Links, next: Links, suffix: Suffixes, group: Groups, first: Firsts, b: BlockId)
    requires Linked(prev, next, suffix) && Grouped(prev, next, group, first) && b in next
    ensures Along(CutNext(prev, next, b), Regroup(group, suffix[b], None))
  {
    var next', group' := CutNext(prev, next, b), Regroup(group, suffix[b], None);
    forall a | a in next' && next'[a].Some? && next'[a].value in group'
      ensures group'[next'[a].value] == group'[a]
    {
      var y := next'[a].value;
      assert next[a] == Some(y) && prev[b] != Some(a);
      if a in suffix[b] {
        NextInSuffix(prev, next, suffix, b, a);
      } else if y in suffix[b] {
        assert y != b;
        PrevInSuffix(prev, next, suffix, b, y);
      }
    }
  }

  lemma CutHeads(prev: Links, next: Links, suffix: Suffixes, group: Groups, first: Firsts, b: BlockId)
    requires Linked(prev, next, suffix) && Grouped(prev, next, group, first) && b in next
    ensures FirstsAreHeads(prev[b := None], Regroup(group, suffix[b], None), CutFirst(group, first, b))
  {
    var prev', group', first' := prev[b := None], Regroup(group, suffix[b], None), CutFirst(group, first, b);
    forall g | g in first' && first'[g].Some?
      ensures first'[g].value in group' && group'[first'[g].value] == Some(g)
      ensures first'[g].value in prev' && prev'[first'[g].value].None?
    {
      var f := first'[g].value;
      assert first[g] == Some(f);
      if f in suffix[b] {
        if f == b {
          assert false;
        }
        PrevInSuffix(prev, next, suffix, b, f);
        assert false;
      }
    }
  }

  lemma CutOrphans(prev: Links, next: Links, suffix: Suffixes, group: Groups, first: Firsts, b: BlockId)
    requires Linked(prev, next, suffix) && Grouped(prev, next, group, first) && b in next
    ensures HeadsAreFirst(prev[b := None], Regroup(group, suffix[b], None), CutFirst(group, first, b))
  {
    assert suffix[b][0] == b;
  }

  // ---------------------------------------------------------------------
  // `append` / `appendChain`: the group invariant after inserting an
  // ungrouped chain headed by `b` after `t`

  /** Splice preconditions for the group lemmas: `b` heads an ungrouped chain that does not hold `t`. */
  ghost predicate CanInsert(prev: Links, next: Links, suffix: Suffixes, group: Groups, first: Firsts, t: BlockId, b: BlockId)
  {
    && Linked(prev, next, suffix) && Grouped(prev, next, group, first)
    && t in next && b in next && prev[b].None? && group[b].None? && t !in suffix[b]
  }

  /** After the splice, the inserted chain carries `t`'s group and every other block keeps its own. */
  lemma SpliceGrouped(prev: Links, next: Links, suffix: Suffixes, group: Groups, first: Firsts, t: BlockId, b: BlockId)
    requires CanInsert(prev, next, suffix, group, first, t, b)
    ensures Last(suffix, b) in next
    ensures Grouped(SplicePrev(prev, next, t, b, Last(suffix, b)), SpliceNext(next, t, b, Last(suffix, b)),
                    Regroup(group, suffix[b], group[t]), first)
  {
    InsertKeyed(prev, next, suffix, group, first, t, b);
    InsertAlong(prev, next, suffix, group, first, t, b);
    InsertHeads(prev, next, suffix, group, first, t, b);
    InsertOrphans(prev, next, suffix, group, first, t, b);
  }

  lemma InsertKeyed(prev: Links, next: Links, suffix: Suffixes, group: Groups, first: Firsts, t: BlockId, b: BlockId)
    requires CanInsert(prev, next, suffix, group, first, t, b)
    ensures suffix[b] != [] && Last(suffix, b) in next
    ensures Keyed(SpliceNext(next, t, b, Last(suffix, b)), Regroup(group, suffix[b], group[t]), first)
  {
    Apart(prev, next, suffix, t, b);
    assert SpliceNext(next, t, b, Last(suffix, b)).Keys == next.Keys;
  }

  lemma InsertAlong(prev: Links, next: Links, suffix: Suffixes, group: Groups, first: Firsts, t: BlockId, b: BlockId)
    requires CanInsert(prev, next, suffix, group, first, t, b)
    ensures suffix[b] != [] && Last(suffix, b) in next
    ensures Along(SpliceNext(next, t, b, Last(suffix, b)), Regroup(group, suffix[b], group[t]))
  {
    Apart(prev, next, suffix, t, b);
    var last := Last(suffix, b);
    var next', group' := SpliceNext(next, t, b, last), Regroup(group, suffix[b], group[t]);
    forall a | a in next' && next'[a].Some? && next'[a].value in group'
      ensures group'[next'[a].value] == group'[a]
    {
      if a != t && !(a == last && next[t].Some?) {
        ChainClosed(prev, next, suffix, b, a);
      }
    }
  }

  /** A chain from a head is closed under links both ways: a link joins two blocks both on it or both off it. */
  lemma ChainClosed(prev: Links, next: Links, suffix: Suffixes, b: BlockId, a: BlockId)
    requires Linked(prev, next, suffix) && b in next && prev[b].None?
    requires a in next && next[a].Some?
    ensures next[a].value in next && (a in suffix[b] <==> next[a].value in suffix[b])
  {
    var y := next[a].value;
    if a in suffix[b] {
      NextInSuffix(prev, next, suffix, b, a);
    } else if y in suffix[b] && y != b {
      PrevInSuffix(prev, next, suffix, b, y);
    }
  }

  lemma InsertHeads(prev: Links, next: Links, suffix: Suffixes, group: Groups, first: Firsts, t: BlockId, b: BlockId)
    requires CanInsert(prev, next, suffix, group, first, t, b)
    ensures suffix[b] != [] && Last(suffix, b) in next
    ensures FirstsAreHeads(SplicePrev(prev, next, t, b, Last(suffix, b)), Regroup(group, suffix[b], group[t]), first)
  {
    Apart(prev, next, suffix, t, b);
    var prev', group' := SplicePrev(prev, next, t, b, Last(suffix, b)), Regroup(group, suffix[b], group[t]);
    forall g | g in first && first[g].Some?
      ensures first[g].value in group' && group'[first[g].value] == Some(g)
      ensures first[g].value in prev' && prev'[first[g].value].None?
    {
      var f := first[g].value;
      if f in suffix[b] {
        GroupAlong(prev, next, suffix, group, first, b, f);
      }
    }
  }

  lemma InsertOrphans(prev: Links, next: Links, suffix: Suffixes, group: Groups, first: Firsts, t: BlockId, b: BlockId)
    requires CanInsert(prev, next, suffix, group, first, t, b)
    ensures suffix[b] != [] && Last(suffix, b) in next
    ensures HeadsAreFirst(SplicePrev(prev, next, t, b, Last(suffix, b)), Regroup(group, suffix[b], group[t]), first)
  {
    Apart(prev, next, suffix, t, b);
    var prev', group' := SplicePrev(prev, next, t, b, Last(suffix, b)), Regroup(group, suffix[b], group[t]);
    forall x | x in group' && group'[x].Some? && x in prev' && prev'[x].None?
      ensures first[group'[x].value] == Some(x)
    {
      if x in suffix[b] {
        assert x != b;
        PrevInSuffix(prev, next, suffix, b, x);
      }
    }
  }

  // ---------------------------------------------------------------------
  // Putting an ungrouped chain headed by `b` into group `g`: into an empty
  // group, or in front of the group's first block

  /** Preconditions of both: `b` heads an ungrouped chain and `g` is a group. */
  ghost predicate CanGroup(prev: Links, next: Links, suffix: Suffixes, group: Groups, first: Firsts, g: GroupId, b: BlockId)
  {
    && Linked(prev, next, suffix) && Grouped(prev, next, group, first)
    && b in next && prev[b].None? && group[b].None? && g in first
  }

  /** Installing the chain of `b` as the whole contents of the empty group `g`. */
  lemma InstallGrouped(prev: Links, next: Links, suffix: Suffixes, group: Groups, first: Firsts, g: GroupId, b: BlockId)
    requires CanGroup(prev, next, suffix, group, first, g, b) && first[g].None?
    ensures Grouped(prev, next, Regroup(group, suffix[b], Some(g)), first[g := Some(b)])
  {
    InstallAlong(prev, next, suffix, group, first, g, b);
    InstallHeads(prev, next, suffix, group, first, g, b);
    InstallOrphans(prev, next, suffix, group, first, g, b);
  }

  lemma InstallAlong(prev: Links, next: Links, suffix: Suffixes, group: Groups, first: Firsts, g: GroupId, b: BlockId)
    requires CanGroup(prev, next, suffix, group, first, g, b)
    ensures Along(next, Regroup(group, suffix[b], Some(g)))
  {
    var group' := Regroup(group, suffix[b], Some(g));
    forall a | a in next && next[a].Some? && next[a].value in group'
      ensures group'[next[a].value] == group'[a]
    {
      ChainClosed(prev, next, suffix, b, a);
    }
  }

  lemma InstallHeads(prev: Links, next: Links, suffix: Suffixes, group: Groups, first: Firsts, g: GroupId, b: BlockId)
    requires CanGroup(prev, next, suffix, group, first, g, b)
    ensures FirstsAreHeads(prev, Regroup(group, suffix[b], Some(g)), first[g := Some(b)])
  {
    var group', first' := Regroup(group, suffix[b], Some(g)), first[g := Some(b)];
    forall h | h in first' && first'[h].Some?
      ensures first'[h].value in group' && group'[first'[h].value] == Some(h)
      ensures first'[h].value in prev && prev[first'[h].value].None?
    {
      if h == g {
        assert suffix[b][0] == b;
      } else if first[h].value in suffix[b] {
        GroupAlong(prev, next, suffix, group, first, b, first[h].value);
      }
    }
  }

  lemma InstallOrphans(prev: Links, next: Links, suffix: Suffixes, group: Groups, first: Firsts, g: GroupId, b: BlockId)
    requires CanGroup(prev, next, suffix, group, first, g, b) && first[g].None?
    ensures HeadsAreFirst(prev, Regroup(group, suffix[b], Some(g)), first[g := Some(b)])
  {
    var group', first' := Regroup(group, suffix[b], Some(g)), first[g := Some(b)];
    forall x | x in group' && group'[x].Some? && x in prev && prev[x].None?
      ensures first'[group'[x].value] == Some(x)
    {
      if x in suffix[b] && x != b {
        PrevInSuffix(prev, next, suffix, b, x);
      }
    }
  }

  /** Joining the chain of `b` in front of the first block `f` of group `g`. */
  lemma PrependGrouped(prev: Links, next: Links, suffix: Suffixes, group: Groups, first: Firsts, g: GroupId, b: BlockId)
    requires CanGroup(prev, next, suffix, group, first, g, b) && first[g].Some?
    ensures suffix[b] != [] && Last(suffix, b) in next && first[g].value in next
    ensures Grouped(prev[first[g].value := Some(Last(suffix, b))], next[Last(suffix, b) := Some(first[g].value)],
                    Regroup(group, suffix[b], Some(g)), first[g := Some(b)])
  {
    PrependApart(prev, next, suffix, group, first, g, b);
    assert next[Last(suffix, b) := Some(first[g].value)].Keys == next.Keys;
    PrependAlong(prev, next, suffix, group, first, g, b);
    PrependHeads(prev, next, suffix, group, first, g, b);
    PrependOrphans(prev, next, suffix, group, first, g, b);
  }

  /** Joining the chain of `b` in front of the first block of group `g` keeps the chains linked. */
  lemma PrependLinked(prev: Links, next: Links, suffix: Suffixes, group: Groups, first: Firsts, g: GroupId, b: BlockId)
    requires CanGroup(prev, next, suffix, group, first, g, b) && first[g].Some?
    ensures suffix[b] != [] && Last(suffix, b) in next && first[g].value in next
    ensures Linked(prev[first[g].value := Some(Last(suffix, b))], next[Last(suffix, b) := Some(first[g].value)],
                   JoinSuffix(suffix, Last(suffix, b), first[g].value))
  {
    PrependApart(prev, next, suffix, group, first, g, b);
    JoinLinked(prev, next, suffix, Last(suffix, b), first[g].value);
  }

  /** The group's chain and the chain of `b` are disjoint, and the chain of `b` ends in a block without `next`. */
  lemma PrependApart(prev: Links, next: Links, suffix: Suffixes, group: Groups, first: Firsts, g: GroupId, b: BlockId)
    requires CanGroup(prev, next, suffix, group, first, g, b) && first[g].Some?
    ensures suffix[b] != [] && Last(suffix, b) in next && next[Last(suffix, b)].None?
    ensures first[g].value in next && prev[first[g].value].None?
    ensures first[g].value !in suffix[b] && Last(suffix, b) !in suffix[first[g].value]
  {
    var f := first[g].value;
    Ends(prev, next, suffix, b);
    var last := Last(suffix, b);
    assert f in next && group[f] == Some(g);
    Ends(prev, next, suffix, f);
    ChainsApart(prev, next, suffix, group, first, f, b, f);
    ChainsApart(prev, next, suffix, group, first, f, b, last);
  }

  /** Chains in different groups share no block. */
  lemma ChainsApart(prev: Links, next: Links, suffix: Suffixes, group: Groups, first: Firsts, a: BlockId, b: BlockId,
                    x: BlockId)
    requires Linked(prev, next, suffix) && Grouped(prev, next, group, first)
    requires a in next && b in next && group[a] != group[b]
    ensures x in suffix[a] ==> x !in suffix[b]
  {
    if x in suffix[a] && x in suffix[b] {
      GroupAlong(prev, next, suffix, group, first, a, x);
      GroupAlong(prev, next, suffix, group, first, b, x);
    }
  }

  lemma PrependAlong(prev: Links, next: Links, suffix: Suffixes, group: Groups, first: Firsts, g: GroupId, b: BlockId)
    requires CanGroup(prev, next, suffix, group, first, g, b) && first[g].Some? && suffix[b] != []
    requires first[g].value !in suffix[b] && Last(suffix, b) in next
    ensures Along(next[Last(suffix, b) := Some(first[g].value)], Regroup(group, suffix[b], Some(g)))
  {
    var next', group' := next[Last(suffix, b) := Some(first[g].value)], Regroup(group, suffix[b], Some(g));
    forall a | a in next' && next'[a].Some? && next'[a].value in group'
      ensures group'[next'[a].value] == group'[a]
    {
      if a != Last(suffix, b) {
        ChainClosed(prev, next, suffix, b, a);
      }
    }
  }

  lemma PrependHeads(prev: Links, next: Links, suffix: Suffixes, group: Groups, first: Firsts, g: GroupId, b: BlockId)
    requires CanGroup(prev, next, suffix, group, first, g, b) && first[g].Some? && suffix[b] != []
    requires first[g].value !in suffix[b] && Last(suffix, b) in next
    ensures FirstsAreHeads(prev[first[g].value := Some(Last(suffix, b))], Regroup(group, suffix[b], Some(g)), first[g := Some(b)])
  {
    var prev', group', first' := prev[first[g].value := Some(Last(suffix, b))],
                                 Regroup(group, suffix[b], Some(g)), first[g := Some(b)];
    forall h | h in first' && first'[h].Some?
      ensures first'[h].value in group' && group'[first'[h].value] == Some(h)
      ensures first'[h].value in prev' && prev'[first'[h].value].None?
    {
      if h == g {
        assert suffix[b][0] == b;
      } else {
        assert first[h] != first[g];
        if first[h].value in suffix[b] {
          GroupAlong(prev, next, suffix, group, first, b, first[h].value);
        }
      }
    }
  }

  lemma PrependOrphans(prev: Links, next: Links, suffix: Suffixes, group: Groups, first: Firsts, g: GroupId, b: BlockId)
    requires CanGroup(prev, next, suffix, group, first, g, b) && first[g].Some? && suffix[b] != []
    requires first[g].value !in suffix[b] && Last(suffix, b) in next
    ensures HeadsAreFirst(prev[first[g].value := Some(Last(suffix, b))], Regroup(group, suffix[b], Some(g)), first[g := Some(b)])
  {
    var prev', group', first' := prev[first[g].value := Some(Last(suffix, b))],
                                 Regroup(group, suffix[b], Some(g)), first[g := Some(b)];
    forall x | x in group' && group'[x].Some? && x in prev' && prev'[x].None?
      ensures first'[group'[x].value] == Some(x)
    {
      if x in suffix[b] && x != b {
        PrevInSuffix(prev, next, suffix, b, x);
      }
    }
  }

  // ---------------------------------------------------------------------
  // The chain operations on the whole structure, and the invariant they keep

  /** The structure after `remove` of `b` (js/block.js:94-109). */
  function Removed(st: Structure, b: BlockId): Structure
    requires Mutual(st.prev, st.next) && Keyed(st.next, st.group, st.first) && b in st.next
  {
    st.(prev := RemovePrev(st.prev, st.next, b), next := RemoveNext(st.prev, st.next, b),
        group := st.group[b := None], first := RemoveFirst(st.next, st.group, st.first, b))
  }

  lemma RemovedOk(st: Structure, suffix: Suffixes, b: BlockId)
    requires StructureOk(st, suffix) && b in st.next
    ensures suffix[b] != [] && StructureOk(Removed(st, b), RemoveSuffix(suffix, b))
  {
    RemoveLinked(st.prev, st.next, suffix, b);
    RemoveGrouped(st.prev, st.next, st.group, st.first, b);
  }

  /** The structure after `removeChain` of `b` (js/block.js:113-128). */
  ghost function ChainRemoved(st: Structure, suffix: Suffixes, b: BlockId): Structure
    requires Linked(st.prev, st.next, suffix) && Keyed(st.next, st.group, st.first) && b in st.next
  {
    st.(prev := st.prev[b := None], next := CutNext(st.prev, st.next, b),
        group := Regroup(st.group, suffix[b], None), first := CutFirst(st.group, st.first, b))
  }

  lemma ChainRemovedOk(st: Structure, suffix: Suffixes, b: BlockId)
    requires StructureOk(st, suffix) && b in st.next
    ensures StructureOk(ChainRemoved(st, suffix, b), CutSuffix(suffix, b))
  {
    CutLinked(st.prev, st.next, suffix, b);
    CutGrouped(st.prev, st.next, suffix, st.group, st.first, b);
  }

  /** The structure after the chain of the ungrouped head `b` is spliced in after `t`, taking `t`'s group. */
  ghost function Inserted(st: Structure, suffix: Suffixes, t: BlockId, b: BlockId): Structure
    requires CanInsert(st.prev, st.next, suffix, st.group, st.first, t, b)
  {
    SpliceLinked(st.prev, st.next, suffix, t, b);
    var last := Last(suffix, b);
    st.(prev := SplicePrev(st.prev, st.next, t, b, last), next := SpliceNext(st.next, t, b, last),
        group := Regroup(st.group, suffix[b], st.group[t]))
  }

  lemma InsertedOk(st: Structure, suffix: Suffixes, t: BlockId, b: BlockId)
    requires StructureOk(st, suffix) && CanInsert(st.prev, st.next, suffix, st.group, st.first, t, b)
    ensures suffix[t] != [] && StructureOk(Inserted(st, suffix, t, b), SpliceSuffix(suffix, t, b))
  {
    SpliceLinked(st.prev, st.next, suffix, t, b);
    SpliceGrouped(st.prev, st.next, suffix, st.group, st.first, t, b);
  }

  /** The structure after the chain of the ungrouped head `b` becomes the contents of the empty group `g`. */
  ghost function Installed(st: Structure, suffix: Suffixes, g: GroupId, b: BlockId): Structure
    requires Follows(st.next, suffix) && b in st.next
  {
    st.(group := Regroup(st.group, suffix[b], Some(g)), first := st.first[g := Some(b)])
  }

  lemma InstalledOk(st: Structure, suffix: Suffixes, g: GroupId, b: BlockId)
    requires StructureOk(st, suffix) && CanGroup(st.prev, st.next, suffix, st.group, st.first, g, b) && st.first[g].None?
    ensures StructureOk(Installed(st, suffix, g, b), suffix)
  {
    InstallGrouped(st.prev, st.next, suffix, st.group, st.first, g, b);
  }

  /** The structure after the chain of the ungrouped head `b` is put in front of the non-empty group `g`. */
  ghost function Prepended(st: Structure, suffix: Suffixes, g: GroupId, b: BlockId): Structure
    requires CanGroup(st.prev, st.next, suffix, st.group, st.first, g, b) && st.first[g].Some?
  {
    PrependApart(st.prev, st.next, suffix, st.group, st.first, g, b);
    var last, f := Last(suffix, b), st.first[g].value;
    st.(prev := st.prev[f := Some(last)], next := st.next[last := Some(f)],
        group := Regroup(st.group, suffix[b], Some(g)), first := st.first[g := Some(b)])
  }

  lemma PrependedOk(st: Structure, suffix: Suffixes, g: GroupId, b: BlockId)
    requires StructureOk(st, suffix) && CanGroup(st.prev, st.next, suffix, st.group, st.first, g, b) && st.first[g].Some?
    ensures suffix[b] != [] && Last(suffix, b) in st.next
    ensures StructureOk(Prepended(st, suffix, g, b), JoinSuffix(suffix, Last(suffix, b), st.first[g].value))
  {
    PrependLinked(st.prev, st.next, suffix, st.group, st.first, g, b);
    PrependGrouped(st.prev, st.next, suffix, st.group, st.first, g, b);
  }

  // ---------------------------------------------------------------------
  // Adding a fresh group or a fresh block

  /** The structure with a fresh group: no parent, no `first`. */
  function WithGroup(st: Structure, parent: Option<BlockId>): Structure
  {
    st.(first := st.first[st.groupCount := None],
        groupInfo := st.groupInfo[st.groupCount := GroupInfo(parent, 0.0)], groupCount := st.groupCount + 1)
  }

  lemma WithGroupGrouped(st: Structure)
    requires Grouped(st.prev, st.next, st.group, st.first) && forall g | g in st.first :: g < st.groupCount
    ensures Grouped(st.prev, st.next, st.group, st.first[st.groupCount := None])
  {
    var first' := st.first[st.groupCount := None];
    forall x | x in st.group && st.group[x].Some? && st.group[x].value in first' && x in st.prev && st.prev[x].None?
      ensures first'[st.group[x].value] == Some(x)
    {
      assert st.group[x].value in st.first;
    }
  }

  lemma WithGroupNesting(st: Structure, parent: Option<BlockId>)
    requires Nesting(st.info, st.groupInfo) && forall g | g in st.groupInfo :: g < st.groupCount
    requires parent.Some? ==> parent.value in st.info
    ensures Nesting(st.info, WithGroup(st, parent).groupInfo)
  {
    var gi' := WithGroup(st, parent).groupInfo;
    forall b | b in st.info
      ensures WellNested(st.info, gi', b)
    {
      assert WellNested(st.info, st.groupInfo, b);
    }
  }

  lemma WithGroupOk(st: Structure, suffix: Suffixes, d: Drawing)
    requires StructureOk(st, suffix) && Fits(st, d)
    ensures StructureOk(WithGroup(st, None), suffix)
    ensures Fits(WithGroup(st, None), d.(groupPos := d.groupPos[st.groupCount := Point(0.0, 0.0)]))
  {
    WithGroupGrouped(st);
    WithGroupNesting(st, None);
  }

  /** The structure with a fresh block described by `info`: no group, no `prev`, no `next`. */
  function WithBlock(st: Structure, info: Info): Structure
  {
    var b := st.blockCount;
    st.(prev := st.prev[b := None], next := st.next[b := None], group := st.group[b := None],
        info := st.info[b := info], blockCount := b + 1)
  }

  lemma WithBlockLinked(prev: Links, next: Links, suffix: Suffixes, b: BlockId)
    requires Linked(prev, next, suffix) && b !in next
    ensures Linked(prev[b := None], next[b := None], suffix[b := [b]])
  {
    var next', suffix' := next[b := None], suffix[b := [b]];
    forall a | a in next'
      ensures FollowsAt(next', suffix', a)
    {
      if a != b {
        WithBlockStep(next, suffix, b, a);
      }
    }
    FollowsEverywhere(next', suffix');
  }

  lemma WithBlockStep(next: Links, suffix: Suffixes, b: BlockId, a: BlockId)
    requires Follows(next, suffix) && b !in next && a in next
    requires forall x | x in next && next[x].Some? :: next[x].value in next
    ensures FollowsAt(next[b := None], suffix[b := [b]], a)
  {
    assert suffix[a] == if next[a].Some? && next[a].value in suffix then [a] + suffix[next[a].value] else [a];
  }

  lemma WithBlockGrouped(prev: Links, next: Links, group: Groups, first: Firsts, b: BlockId)
    requires Mutual(prev, next) && Grouped(prev, next, group, first) && b !in next
    ensures Grouped(prev[b := None], next[b := None], group[b := None], first)
  {
  }

  lemma WithBlockNesting(st: Structure, info: Info)
    requires Nesting(st.info, st.groupInfo) && st.blockCount !in st.info
    requires WellNested(st.info[st.blockCount := info], st.groupInfo, st.blockCount)
    ensures Nesting(st.info[st.blockCount := info], st.groupInfo)
  {
    var info' := st.info[st.blockCount := info];
    forall b | b in info'
      ensures WellNested(info', st.groupInfo, b)
    {
      if b != st.blockCount {
        assert WellNested(st.info, st.groupInfo, b);
      }
    }
  }

  lemma WithBlockOk(st: Structure, suffix: Suffixes, d: Drawing, info: Info, cp: seq<Point>)
    requires StructureOk(st, suffix) && Fits(st, d)
    requires WellNested(st.info[st.blockCount := info], st.groupInfo, st.blockCount)
    requires |cp| == PositionCount(info.kind)
    ensures st.blockCount !in st.next
    ensures StructureOk(WithBlock(st, info), suffix[st.blockCount := [st.blockCount]])
    ensures Fits(WithBlock(st, info), d.(pos := d.pos[st.blockCount := Point(0.0, 0.0)],
                                       connectorPositions := d.connectorPositions[st.blockCount := cp]))
  {
    var b := st.blockCount;
    assert b !in st.next;
    var st' := WithBlock(st, info);
    WithBlockLinked(st.prev, st.next, suffix, b);
    WithBlockGrouped(st.prev, st.next, st.group, st.first, b);
    WithBlockNesting(st, info);
    WithBlockFits(st, d, info, cp);
    assert forall x | x in st'.next :: x < st'.blockCount;
  }

  lemma WithBlockFits(st: Structure, d: Drawing, info: Info, cp: seq<Point>)
    requires Fits(st, d) && |cp| == PositionCount(info.kind)
    ensures Fits(WithBlock(st, info), d.(pos := d.pos[st.blockCount := Point(0.0, 0.0)],
                                       connectorPositions := d.connectorPositions[st.blockCount := cp]))
  {
  }

  /** `st` with `n` fresh groups whose parent is `p`: the nested groups a control block makes. */
  function WithNested(st: Structure, p: BlockId, n: nat): (st': Structure)
    ensures st'.groupCount == st.groupCount + n
    ensures st'.prev == st.prev && st'.next == st.next && st'.group == st.group && st'.info == st.info
    ensures st'.blockCount == st.blockCount
  {
    if n == 0 then st else WithGroup(WithNested(st, p, n - 1), Some(p))
  }

  /** The ids `start`, `start + 1`, ..., `start + n - 1`. */
  function Range(start: nat, n: nat): (r: seq<nat>)
    ensures |r| == n && forall i | 0 <= i < n :: r[i] == start + i
  {
    seq(n, i requires 0 <= i < n => start + i)
  }

  ghost predicate NestedGroup(st: Structure, st': Structure, p: BlockId, n: nat, g: GroupId)
  {
    && st'.groupInfo.Keys == st'.first.Keys
    && (g in st'.first <==> g in st.first || st.groupCount <= g < st.groupCount + n)
    && (g in st.first ==> g in st.groupInfo && st'.first[g] == st.first[g] && st'.groupInfo[g] == st.groupInfo[g])
    && (st.groupCount <= g < st.groupCount + n ==> st'.first[g].None? && st'.groupInfo[g] == GroupInfo(Some(p), 0.0))
  }

  /** What `WithNested` adds: exactly the groups `groupCount .. groupCount + n - 1`, empty and owned by `p`. */
  lemma {:induction false} WithNestedGroup(st: Structure, p: BlockId, n: nat, g: GroupId)
    requires st.groupInfo.Keys == st.first.Keys && forall h | h in st.first :: h < st.groupCount
    ensures NestedGroup(st, WithNested(st, p, n), p, n, g)
    decreases n
  {
    if n > 0 {
      WithNestedGroup(st, p, n - 1, g);
    }
  }

  /** A control block's `Info`: `n` branches whose nested groups are the next `n` fresh groups. */
  function ControlInfo(st: Structure, n: nat, payload: Option<Payload>, bbox: Option<Size>): Info
  {
    Info(Control(n), payload, bbox, Range(st.groupCount, n))
  }

  /** The structure after `new ControlBlock(opts)` with `n` branches. */
  function WithControl(st: Structure, n: nat, payload: Option<Payload>, bbox: Option<Size>): Structure
  {
    WithBlock(WithNested(st, st.blockCount, n), ControlInfo(st, n, payload, bbox))
  }

  lemma NestedGrouped(st: Structure, p: BlockId, n: nat)
    requires Grouped(st.prev, st.next, st.group, st.first)
    requires st.groupInfo.Keys == st.first.Keys && forall h | h in st.first :: h < st.groupCount
    ensures Grouped(st.prev, st.next, st.group, WithNested(st, p, n).first)
  {
    var first' := WithNested(st, p, n).first;
    forall g | g in st.first
      ensures g in first' && first'[g] == st.first[g]
    {
      WithNestedGroup(st, p, n, g);
    }
    forall g | g in first' && g !in st.first
      ensures first'[g].None?
    {
      WithNestedGroup(st, p, n, g);
    }
  }

  lemma ControlNesting(st: Structure, n: nat, payload: Option<Payload>, bbox: Option<Size>)
    requires Nesting(st.info, st.groupInfo) && n >= 1
    requires st.groupInfo.Keys == st.first.Keys && forall h | h in st.first :: h < st.groupCount
    requires st.blockCount !in st.info
    ensures var st' := WithControl(st, n, payload, bbox); Nesting(st'.info, st'.groupInfo)
  {
    var b := st.blockCount;
    var st1 := WithNested(st, b, n);
    var info' := st.info[b := ControlInfo(st, n, payload, bbox)];
    forall x | x in info'
      ensures WellNested(info', st1.groupInfo, x)
    {
      var nested := info'[x].nested;
      forall i | 0 <= i < |nested|
        ensures nested[i] in st1.groupInfo && st1.groupInfo[nested[i]].parent == Some(x)
      {
        if x != b {
          assert WellNested(st.info, st.groupInfo, x);
        }
        WithNestedGroup(st, b, n, nested[i]);
      }
      if x != b {
        assert WellNested(st.info, st.groupInfo, x);
      }
    }
    forall g | g in st1.groupInfo && st1.groupInfo[g].parent.Some?
      ensures st1.groupInfo[g].parent.value in info'
    {
      WithNestedGroup(st, b, n, g);
    }
  }

  lemma WithControlOk(st: Structure, suffix: Suffixes, d: Drawing, n: nat, payload: Option<Payload>, bbox: Option<Size>,
                      gp: map<GroupId, Point>, cp: seq<Point>)
    requires StructureOk(st, suffix) && Fits(st, d) && n >= 1 && |cp| == n + 1
    requires forall g | g in d.groupPos :: g in gp
    requires forall g | st.groupCount <= g < st.groupCount + n :: g in gp
    ensures st.blockCount !in st.next
    ensures StructureOk(WithControl(st, n, payload, bbox), suffix[st.blockCount := [st.blockCount]])
    ensures Fits(WithControl(st, n, payload, bbox),
                 d.(pos := d.pos[st.blockCount := Point(0.0, 0.0)],
                    connectorPositions := d.connectorPositions[st.blockCount := cp], groupPos := gp))
  {
    var b := st.blockCount;
    assert b !in st.next;
    WithBlockLinked(st.prev, st.next, suffix, b);
    WithControlGrouped(st, suffix, n, payload, bbox);
    ControlNesting(st, n, payload, bbox);
    WithControlKeys(st, suffix, d, n, payload, bbox, gp);
    WithControlFits(st, d, n, payload, bbox, gp, cp);
  }

  lemma WithControlGrouped(st: Structure, suffix: Suffixes, n: nat, payload: Option<Payload>, bbox: Option<Size>)
    requires StructureOk(st, suffix)
    ensures var st' := WithControl(st, n, payload, bbox); Grouped(st'.prev, st'.next, st'.group, st'.first)
  {
    var b := st.blockCount;
    assert b !in st.next;
    NestedGrouped(st, b, n);
    WithBlockGrouped(st.prev, st.next, st.group, WithNested(st, b, n).first, b);
  }

  lemma WithControlKeys(st: Structure, suffix: Suffixes, d: Drawing, n: nat, payload: Option<Payload>, bbox: Option<Size>,
                        gp: map<GroupId, Point>)
    requires st.info.Keys == st.next.Keys && st.groupInfo.Keys == st.first.Keys
    requires (forall x | x in st.next :: x < st.blockCount) && (forall g | g in st.first :: g < st.groupCount)
    requires forall g | g in st.first :: g in gp
    requires forall g | st.groupCount <= g < st.groupCount + n :: g in gp
    ensures var st' := WithControl(st, n, payload, bbox);
      && st'.info.Keys == st'.next.Keys && st'.groupInfo.Keys == st'.first.Keys
      && (forall x | x in st'.next :: x < st'.blockCount)
      && (forall g | g in st'.first :: g < st'.groupCount && g in gp)
  {
    var st1 := WithNested(st, st.blockCount, n);
    WithNestedGroup(st, st.blockCount, n, 0);
    forall g | g in st1.first
      ensures g < st1.groupCount && g in gp
    {
      WithNestedGroup(st, st.blockCount, n, g);
    }
  }

  lemma WithControlFits(st: Structure, d: Drawing, n: nat, payload: Option<Payload>, bbox: Option<Size>,
                        gp: map<GroupId, Point>, cp: seq<Point>)
    requires Fits(st, d) && |cp| == n + 1
    requires forall g | g in WithNested(st, st.blockCount, n).first :: g in gp
    ensures Fits(WithControl(st, n, payload, bbox),
                 d.(pos := d.pos[st.blockCount := Point(0.0, 0.0)],
                    connectorPositions := d.connectorPositions[st.blockCount := cp], groupPos := gp))
  {
  }

  /** `gp` with the groups `start .. start + n - 1` placed at (0, 0). */
  function Placed(gp: map<GroupId, Point>, start: nat, n: nat): map<GroupId, Point>
  {
    if n == 0 then gp else Placed(gp, start, n - 1)[start + n - 1 := Point(0.0, 0.0)]
  }

  lemma {:induction false} PlacedAt(gp: map<GroupId, Point>, start: nat, n: nat, g: GroupId)
    ensures g in Placed(gp, start, n) <==> g in gp || start <= g < start + n
    ensures start <= g < start + n ==> Placed(gp, start, n)[g] == Point(0.0, 0.0)
    ensures g in gp && !(start <= g < start + n) ==> Placed(gp, start, n)[g] == gp[g]
    decreases n
  {
    if n > 0 {
      PlacedAt(gp, start, n - 1, g);
    }
  }

  /**
   * What creating a control block with `n` branches does to a valid
   * workspace: it stays valid, with the new block alone in its chain and
   * every new group placed at (0, 0).
   */
  lemma NewControlOk(st: Structure, suffix: Suffixes, d: Drawing, n: nat, payload: Option<Payload>, bbox: Option<Size>)
    requires StructureOk(st, suffix) && Fits(st, d) && n >= 1
    ensures st.blockCount !in st.next
    ensures StructureOk(WithControl(st, n, payload, bbox), suffix[st.blockCount := [st.blockCount]])
    ensures Fits(WithControl(st, n, payload, bbox),
                 d.(pos := d.pos[st.blockCount := Point(0.0, 0.0)],
                    connectorPositions := d.connectorPositions[st.blockCount := seq(n + 1, i => Point(0.0, 0.0))],
                    groupPos := Placed(d.groupPos, st.groupCount, n)))
  {
    var gp := Placed(d.groupPos, st.groupCount, n);
    forall g | g in d.groupPos || st.groupCount <= g < st.groupCount + n
      ensures g in gp
    {
      PlacedAt(d.groupPos, st.groupCount, n, g);
    }
    WithControlOk(st, suffix, d, n, payload, bbox, gp, seq(n + 1, i => Point(0.0, 0.0)));
  }

  /** Branch `i` of a new control block is a new, empty group whose parent is the block. */
  lemma ControlBranch(st: Structure, n: nat, payload: Option<Payload>, bbox: Option<Size>, i: nat)
    requires st.groupInfo.Keys == st.first.Keys && forall h | h in st.first :: h < st.groupCount
    requires i < n
    ensures var st' := WithControl(st, n, payload, bbox); var g := st'.info[st.blockCount].nested[i];
            g !in st.first && g in st'.first && st'.first[g].None? && g in st'.groupInfo && st'.groupInfo[g].parent == Some(st.blockCount)
  {
    WithNestedGroup(st, st.blockCount, n, st.groupCount + i);
  }

  /** Moving a block or a group, or changing connector positions in place, keeps the drawing fitting the structure. */
  lemma MovedFits(st: Structure, d: Drawing, d': Drawing)
    requires Fits(st, d)
    requires d.pos.Keys <= d'.pos.Keys && d.groupPos.Keys <= d'.groupPos.Keys
    requires d.connectorPositions.Keys <= d'.connectorPositions.Keys
    requires forall b | b in d.connectorPositions && b in d'.connectorPositions ::
               |d'.connectorPositions[b]| == |d.connectorPositions[b]|
    ensures Fits(st, d')
  {
  }
}
