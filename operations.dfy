/**
 * What the chain operations of js/block.js and js/blockgroup.js promise,
 * stated on the structure before and after each of them, and the states
 * that the composite operations (`append`, `appendChain`, a group's
 * `appendChain`/`prependChain`) reach.
 */
module Operations {
  import opened Wrappers
  import opened Chains
  import opened Blocks
  import opened Arena

  /** `s` without the occurrences of `b`: the reference for what `remove` does to a chain. */
  function Without(s: seq<BlockId>, b: BlockId): (r: seq<BlockId>)
    ensures |r| <= |s|
  {
    if s == [] then [] else (if s[0] == b then [] else [s[0]]) + Without(s[1..], b)
  }

  lemma {:induction false} WithoutConcat(a: seq<BlockId>, c: seq<BlockId>, b: BlockId)
    ensures Without(a + c, b) == Without(a, b) + Without(c, b)
  {
    if a == [] {
      assert a + c == c;
    } else {
      var h, x, y := if a[0] == b then [] else [a[0]], Without(a[1..], b), Without(c, b);
      assert Without(a + c, b) == h + Without(a[1..] + c, b) by {
        assert (a + c)[0] == a[0] && (a + c)[1..] == a[1..] + c;
      }
      assert Without(a[1..] + c, b) == x + y by {
        WithoutConcat(a[1..], c, b);
      }
      assert Without(a, b) == h + x;
      assert h + (x + y) == (h + x) + y;
    }
  }

  lemma {:induction false} WithoutAbsent(s: seq<BlockId>, b: BlockId)
    requires b !in s
    ensures Without(s, b) == s
  {
    if s != [] {
      assert s[0] in s;
      WithoutAbsent(s[1..], b);
      assert [s[0]] + s[1..] == s;
    }
  }

  // ---------------------------------------------------------------------
  // `remove` (js/block.js:94-109)

  /** The links after `remove` of `b`: its neighbours are joined and `b` has neither `prev` nor `next`. */
  lemma RemoveJoins(prev: Links, next: Links, suffix: Suffixes, b: BlockId)
    requires Linked(prev, next, suffix) && b in next
    ensures var prev', next' := RemovePrev(prev, next, b), RemoveNext(prev, next, b);
      && prev'[b].None? && next'[b].None?
      && (prev[b].Some? ==> next'[prev[b].value] == next[b])
      && (next[b].Some? ==> prev'[next[b].value] == prev[b])
  {
    Ends(prev, next, suffix, b);
    if prev[b].Some? {
      PrevOutside(prev, next, suffix, b);
    }
    if next[b].Some? {
      Step(prev, next, suffix, b);
      InSuffix(prev, next, suffix, b, next[b].value);
    }
  }

  /**
   * After `remove` of `b` the neighbours of `b` are joined, a head hands
   * `first` to its successor (whose `prev` is then null), `b` stands alone
   * without a group, and no other block changes group.
   */
  lemma RemovedSplices(st: Structure, suffix: Suffixes, b: BlockId)
    requires Linked(st.prev, st.next, suffix) && Grouped(st.prev, st.next, st.group, st.first) && b in st.next
    ensures var st' := Removed(st, b);
      && st'.prev[b].None? && st'.next[b].None? && st'.group[b].None?
      && (st.prev[b].Some? ==> st'.next[st.prev[b].value] == st.next[b])
      && (st.next[b].Some? ==> st'.prev[st.next[b].value] == st.prev[b])
      && (IsFirst(st, b) ==> st'.first[st.group[b].value] == st.next[b] && st.prev[b].None?)
      && (!IsFirst(st, b) ==> st'.first == st.first)
      && (forall x | x in st.group && x != b :: st'.group[x] == st.group[x])
  {
    RemoveJoins(st.prev, st.next, suffix, b);
  }

  /** `remove` keeps the order of every other chain: each one loses `b` and nothing else. */
  lemma RemovedOrder(prev: Links, next: Links, suffix: Suffixes, b: BlockId, x: BlockId)
    requires Linked(prev, next, suffix) && b in next && x in next && x != b
    ensures suffix[b] != [] && RemoveSuffix(suffix, b)[x] == Without(suffix[x], b)
  {
    Ends(prev, next, suffix, b);
    Distinct(prev, next, suffix, x);
    if b in suffix[x] {
      InSuffix(prev, next, suffix, x, b);
    }
    RemovedOrderOf(suffix, b, x);
  }

  lemma RemovedOrderOf(suffix: Suffixes, b: BlockId, x: BlockId)
    requires x in suffix && b in suffix && x != b && suffix[b] != [] && suffix[b][0] == b && NoDuplicates(suffix[x])
    requires b in suffix[x] ==> |suffix[b]| <= |suffix[x]| && suffix[x] == DropTail(suffix[x], |suffix[b]|) + suffix[b]
    ensures RemoveSuffix(suffix, b)[x] == Without(suffix[x], b)
  {
    if b in suffix[x] {
      var p, rest := DropTail(suffix[x], |suffix[b]|), suffix[b][1..];
      assert suffix[b] == [b] + rest;
      WithoutSplit(suffix[x], p, rest, b);
    } else {
      WithoutAbsent(suffix[x], b);
    }
  }

  /** A list without duplicates that holds `b` between `p` and `rest` loses exactly `b`. */
  lemma WithoutSplit(s: seq<BlockId>, p: seq<BlockId>, rest: seq<BlockId>, b: BlockId)
    requires NoDuplicates(s) && s == p + ([b] + rest)
    ensures Without(s, b) == p + rest
  {
    assert b !in p by {
      forall i | 0 <= i < |p| ensures p[i] != b {
        assert p[i] == s[i] && s[|p|] == b;
      }
    }
    assert b !in rest by {
      forall i | 0 <= i < |rest| ensures rest[i] != b {
        assert rest[i] == s[|p| + 1 + i] && s[|p|] == b;
      }
    }
    assert Without([b] + rest, b) == Without(rest, b) by {
      assert ([b] + rest)[0] == b && ([b] + rest)[1..] == rest;
    }
    WithoutConcat(p, [b] + rest, b);
    WithoutAbsent(p, b);
    WithoutAbsent(rest, b);
  }

  // ---------------------------------------------------------------------
  // `removeChain` (js/block.js:113-128)

  /** A block on the chain from `b` keeps its `next` link and its chain when the chain is cut before `b`. */
  lemma CutKeeps(prev: Links, next: Links, suffix: Suffixes, b: BlockId, x: BlockId)
    requires Linked(prev, next, suffix) && b in next && x in next && x in suffix[b]
    ensures CutNext(prev, next, b)[x] == next[x] && CutSuffix(suffix, b)[x] == suffix[x]
  {
    InSuffix(prev, next, suffix, b, x);
    if prev[b].Some? {
      PrevOutside(prev, next, suffix, b);
    }
  }

  /** A chain that went through `b` now stops right before it. */
  lemma CutStops(prev: Links, next: Links, suffix: Suffixes, b: BlockId, x: BlockId)
    requires Linked(prev, next, suffix) && b in next && x in next && x != b && b in suffix[x]
    ensures suffix[x] == CutSuffix(suffix, b)[x] + suffix[b]
  {
    InSuffix(prev, next, suffix, x, b);
  }

  /**
   * After `removeChain` of `b`, its predecessor ends its chain (or its
   * group is left empty when `b` was the head), `b` is a head, the blocks
   * from `b` to the tail have lost their group and nobody else has.
   */
  lemma ChainRemovedCuts(st: Structure, suffix: Suffixes, b: BlockId)
    requires Linked(st.prev, st.next, suffix) && Grouped(st.prev, st.next, st.group, st.first) && b in st.next
    ensures var st' := ChainRemoved(st, suffix, b);
      && st'.prev[b].None?
      && (st.prev[b].Some? ==> st'.next[st.prev[b].value].None?)
      && (IsFirst(st, b) ==> st'.first[st.group[b].value].None?)
      && (!IsFirst(st, b) ==> st'.first == st.first)
      && (forall x | x in st.group && x in suffix[b] :: st'.group[x].None?)
      && (forall x | x in st.group && x !in suffix[b] :: st'.group[x] == st.group[x])
  {
    Ends(st.prev, st.next, suffix, b);
  }

  // ---------------------------------------------------------------------
  // Splicing a chain in after `t` (the second half of `append` and `appendChain`)

  /** The links after the splice: `t.next == b`, `b.prev == t`, and `t`'s old successor follows the chain's last block. */
  lemma SpliceJoins(prev: Links, next: Links, suffix: Suffixes, t: BlockId, b: BlockId)
    requires Linked(prev, next, suffix) && t in next && b in next && prev[b].None? && t !in suffix[b]
    ensures suffix[b] != [] && Last(suffix, b) in next
    ensures var last := Last(suffix, b);
      var prev', next' := SplicePrev(prev, next, t, b, last), SpliceNext(next, t, b, last);
      && next'[t] == Some(b) && prev'[b] == Some(t) && next'[last] == next[t]
      && (next[t].Some? ==> prev'[next[t].value] == Some(last))
  {
    Apart(prev, next, suffix, t, b);
  }

  /** Every chain `P ++ [t] ++ S` through `t` becomes `P ++ [t] ++ chain(b) ++ S`. */
  lemma SpliceOrder(prev: Links, next: Links, suffix: Suffixes, t: BlockId, b: BlockId, x: BlockId)
    requires Linked(prev, next, suffix) && t in next && b in next && prev[b].None? && t !in suffix[b]
    requires x in next && t in suffix[x]
    ensures suffix[t] != [] && x in SpliceSuffix(suffix, t, b)
    ensures var p := DropTail(suffix[x], |suffix[t]|);
      && suffix[x] == p + [t] + suffix[t][1..]
      && SpliceSuffix(suffix, t, b)[x] == p + [t] + suffix[b] + suffix[t][1..]
  {
    Ends(prev, next, suffix, t);
    InSuffix(prev, next, suffix, x, t);
    SpliceOrderOf(suffix, t, b, x);
  }

  lemma SpliceOrderOf(suffix: Suffixes, t: BlockId, b: BlockId, x: BlockId)
    requires x in suffix && t in suffix && b in suffix && suffix[t] != [] && suffix[t][0] == t && t in suffix[x]
    requires |suffix[t]| <= |suffix[x]| && suffix[x] == DropTail(suffix[x], |suffix[t]|) + suffix[t]
    ensures var p := DropTail(suffix[x], |suffix[t]|);
      && suffix[x] == p + [t] + suffix[t][1..]
      && SpliceSuffix(suffix, t, b)[x] == p + [t] + suffix[b] + suffix[t][1..]
  {
    var p, rest := DropTail(suffix[x], |suffix[t]|), suffix[t][1..];
    assert suffix[x] == p + [t] + rest by {
      assert suffix[t] == [t] + rest;
      assert p + ([t] + rest) == p + [t] + rest;
    }
    assert SpliceSuffix(suffix, t, b)[x] == p + [t] + suffix[b] + rest;
  }

  /** The chain from `t` itself: `[t] ++ chain(b) ++ S`. */
  lemma SpliceOrderAt(prev: Links, next: Links, suffix: Suffixes, t: BlockId, b: BlockId)
    requires Linked(prev, next, suffix) && t in next && b in next && prev[b].None? && t !in suffix[b]
    ensures suffix[t] != [] && t in SpliceSuffix(suffix, t, b)
    ensures SpliceSuffix(suffix, t, b)[t] == [t] + suffix[b] + suffix[t][1..]
  {
    Ends(prev, next, suffix, t);
    SpliceOrder(prev, next, suffix, t, b, t);
    assert DropTail(suffix[t], |suffix[t]|) == [];
  }

  /** The inserted blocks take `t`'s group, nobody else changes group, and no group changes `first`. */
  lemma InsertedGroups(st: Structure, suffix: Suffixes, t: BlockId, b: BlockId)
    requires CanInsert(st.prev, st.next, suffix, st.group, st.first, t, b)
    ensures var st' := Inserted(st, suffix, t, b);
      && (forall x | x in st.group && x in suffix[b] :: st'.group[x] == st.group[t])
      && (forall x | x in st.group && x !in suffix[b] :: st'.group[x] == st.group[x])
      && st'.first == st.first
  {
  }

  /** Setting the group of an ungrouped chain to `None` changes nothing. */
  lemma UngroupedChain(st: Structure, suffix: Suffixes, b: BlockId)
    requires Linked(st.prev, st.next, suffix) && Grouped(st.prev, st.next, st.group, st.first)
    requires b in st.next && st.group[b].None?
    ensures Regroup(st.group, suffix[b], None) == st.group
  {
    forall x | x in st.group && x in suffix[b] ensures st.group[x].None? {
      GroupAlong(st.prev, st.next, suffix, st.group, st.first, b, x);
    }
  }

  /** Regrouping a one-block chain sets one entry. */
  lemma RegroupOne(group: Groups, b: BlockId, g: Option<GroupId>)
    requires b in group
    ensures Regroup(group, [b], g) == group[b := g]
  {
    RegroupStep(group, [], b, g);
    assert [] + [b] == [b];
    assert Regroup(group, [], g) == group;
  }

  // ---------------------------------------------------------------------
  // `append` and `appendChain` as a whole

  /** What `append` relies on after `b.remove()`: `b` is an ungrouped chain of its own, away from `t`. */
  lemma RemovedReady(st: Structure, suffix: Suffixes, t: BlockId, b: BlockId)
    requires Linked(st.prev, st.next, suffix) && Grouped(st.prev, st.next, st.group, st.first)
    requires t in st.next && b in st.next && t != b
    ensures suffix[b] != []
    ensures var st', s' := Removed(st, b), RemoveSuffix(suffix, b);
      CanInsert(st'.prev, st'.next, s', st'.group, st'.first, t, b) && s'[b] == [b] && st'.next[t] == RemoveNext(st.prev, st.next, b)[t]
  {
    RemoveLinked(st.prev, st.next, suffix, b);
    RemoveGrouped(st.prev, st.next, st.group, st.first, b);
  }

  /** The state `append(b)` on `t` leaves (js/block.js:133-147): `b` is removed, then put right after `t` in `t`'s group. */
  ghost function Appended(st: Structure, suffix: Suffixes, t: BlockId, b: BlockId): Structure
    requires Linked(st.prev, st.next, suffix) && Grouped(st.prev, st.next, st.group, st.first)
    requires t in st.next && b in st.next && t != b
  {
    RemovedReady(st, suffix, t, b);
    var st1 := Removed(st, b);
    st1.(prev := SplicePrev(st1.prev, st1.next, t, b, b), next := SpliceNext(st1.next, t, b, b),
         group := st1.group[b := st1.group[t]])
  }

  /** `Appended` is the general splice of the one-block chain `b`. */
  lemma AppendedInserts(st: Structure, suffix: Suffixes, t: BlockId, b: BlockId)
    requires Linked(st.prev, st.next, suffix) && Grouped(st.prev, st.next, st.group, st.first)
    requires t in st.next && b in st.next && t != b
    ensures suffix[b] != []
    ensures var st1, s1 := Removed(st, b), RemoveSuffix(suffix, b);
      CanInsert(st1.prev, st1.next, s1, st1.group, st1.first, t, b) && Appended(st, suffix, t, b) == Inserted(st1, s1, t, b)
  {
    RemovedReady(st, suffix, t, b);
    var st1, s1 := Removed(st, b), RemoveSuffix(suffix, b);
    assert Last(s1, b) == b;
    RegroupOne(st1.group, b, st1.group[t]);
  }

  /** What `appendChain` relies on after `b.removeChain()`: `b` heads an ungrouped chain without `t`. */
  lemma CutReady(st: Structure, suffix: Suffixes, t: BlockId, b: BlockId)
    requires Linked(st.prev, st.next, suffix) && Grouped(st.prev, st.next, st.group, st.first)
    requires t in st.next && b in st.next && t !in suffix[b]
    ensures var st', s' := ChainRemoved(st, suffix, b), CutSuffix(suffix, b);
      CanInsert(st'.prev, st'.next, s', st'.group, st'.first, t, b) && s'[b] == suffix[b]
  {
    CutLinked(st.prev, st.next, suffix, b);
    CutGrouped(st.prev, st.next, suffix, st.group, st.first, b);
    Ends(st.prev, st.next, suffix, b);
  }

  /** The state `appendChain(b)` on `t` leaves (js/block.js:150-172): the chain from `b` is cut out, then put right after `t` in `t`'s group. */
  ghost function ChainAppended(st: Structure, suffix: Suffixes, t: BlockId, b: BlockId): Structure
    requires Linked(st.prev, st.next, suffix) && Grouped(st.prev, st.next, st.group, st.first)
    requires t in st.next && b in st.next && t !in suffix[b]
  {
    CutReady(st, suffix, t, b);
    Ends(st.prev, st.next, suffix, b);
    var st1, last := ChainRemoved(st, suffix, b), Last(suffix, b);
    st1.(prev := SplicePrev(st1.prev, st1.next, t, b, last), next := SpliceNext(st1.next, t, b, last),
         group := Regroup(st1.group, suffix[b], st1.group[t]))
  }

  /** `ChainAppended` is the general splice of the cut-off chain from `b`. */
  lemma ChainAppendedInserts(st: Structure, suffix: Suffixes, t: BlockId, b: BlockId)
    requires Linked(st.prev, st.next, suffix) && Grouped(st.prev, st.next, st.group, st.first)
    requires t in st.next && b in st.next && t !in suffix[b]
    ensures var st1, s1 := ChainRemoved(st, suffix, b), CutSuffix(suffix, b);
      CanInsert(st1.prev, st1.next, s1, st1.group, st1.first, t, b) && ChainAppended(st, suffix, t, b) == Inserted(st1, s1, t, b)
  {
    CutReady(st, suffix, t, b);
  }

  // ---------------------------------------------------------------------
  // The group methods (js/blockgroup.js, and those its callers use)

  /** `hasParent()` of a group: it is nested in a block. */
  function HasParent(st: Structure, g: GroupId): (r: bool)
    requires g in st.groupInfo
    ensures r <==> st.groupInfo[g].parent != None
  {
    st.groupInfo[g].parent.Some?
  }

  /** `append(block)` of a group (js/blockgroup.js:24-28): `first` becomes `b` and `b` joins the group; the links are untouched. */
  function GroupAppended(st: Structure, g: GroupId, b: BlockId): Structure
  {
    st.(first := st.first[g := Some(b)], group := st.group[b := Some(g)])
  }

  /** Appending a lone, ungrouped block to an empty group keeps the invariant. */
  lemma GroupAppendedOk(st: Structure, suffix: Suffixes, g: GroupId, b: BlockId)
    requires StructureOk(st, suffix) && g in st.first && st.first[g].None? && b in st.next
    requires st.prev[b].None? && st.next[b].None? && st.group[b].None?
    ensures StructureOk(GroupAppended(st, g, b), suffix)
  {
    GroupAppendGrouped(st.prev, st.next, st.group, st.first, g, b);
  }

  lemma GroupAppendGrouped(prev: Links, next: Links, group: Groups, first: Firsts, g: GroupId, b: BlockId)
    requires Mutual(prev, next) && Grouped(prev, next, group, first) && g in first && first[g].None?
    requires b in next && prev[b].None? && next[b].None? && group[b].None?
    ensures Grouped(prev, next, group[b := Some(g)], first[g := Some(b)])
  {
    GroupAppendAlong(prev, next, group, g, b);
    GroupAppendHeads(prev, group, first, g, b);
    GroupAppendOrphans(prev, group, first, g, b);
  }

  lemma GroupAppendAlong(prev: Links, next: Links, group: Groups, g: GroupId, b: BlockId)
    requires Mutual(prev, next) && Along(next, group) && b in next && prev[b].None? && next[b].None?
    ensures Along(next, group[b := Some(g)])
  {
    var group' := group[b := Some(g)];
    forall a | a in next && a in group' && next[a].Some? && next[a].value in group'
      ensures group'[next[a].value] == group'[a]
    {
      assert prev[next[a].value] == Some(a);
    }
  }

  lemma GroupAppendHeads(prev: Links, group: Groups, first: Firsts, g: GroupId, b: BlockId)
    requires FirstsAreHeads(prev, group, first) && g in first && b in group && b in prev && prev[b].None?
    requires forall h | h in first :: first[h] != Some(b)
    ensures FirstsAreHeads(prev, group[b := Some(g)], first[g := Some(b)])
  {
  }

  lemma GroupAppendOrphans(prev: Links, group: Groups, first: Firsts, g: GroupId, b: BlockId)
    requires HeadsAreFirst(prev, group, first) && g in first && first[g].None? && b in group && group[b].None?
    ensures HeadsAreFirst(prev, group[b := Some(g)], first[g := Some(b)])
  {
    var group', first' := group[b := Some(g)], first[g := Some(b)];
    forall x | x in group' && group'[x].Some? && group'[x].value in first' && x in prev && prev[x].None?
      ensures first'[group'[x].value] == Some(x)
    {
      if x != b {
        assert group[x] == group'[x];
      }
    }
  }

  /**
   * `append` on a group that already has a first block `f` overwrites
   * `first`: `f` is left a head of the group that is not its `first`.
   */
  lemma GroupAppendOverwrites(st: Structure, suffix: Suffixes, g: GroupId, b: BlockId)
    requires StructureOk(st, suffix) && g in st.first && st.first[g].Some? && st.first[g] != Some(b) && b in st.next
    ensures !HeadsAreFirst(GroupAppended(st, g, b).prev, GroupAppended(st, g, b).group, GroupAppended(st, g, b).first)
  {
    var st', f := GroupAppended(st, g, b), st.first[g].value;
    assert st'.group[f] == Some(g) && st'.prev[f].None? && st'.first[g] != Some(f);
  }

  /** `append` of a block that has a `next` leaves the rest of its chain outside the group. */
  lemma GroupAppendStrands(st: Structure, suffix: Suffixes, g: GroupId, b: BlockId)
    requires StructureOk(st, suffix) && g in st.first && b in st.next && st.next[b].Some? && st.group[b].None?
    ensures !Along(GroupAppended(st, g, b).next, GroupAppended(st, g, b).group)
  {
    var st', n := GroupAppended(st, g, b), st.next[b].value;
    assert n in st.next && st.prev[n] == Some(b) && n != b;
    assert st'.group[n] == None;
  }

  /** What a group's `appendChain`/`prependChain` relies on after `b.removeChain()`: `b` heads an ungrouped chain. */
  lemma CutGroupReady(st: Structure, suffix: Suffixes, g: GroupId, b: BlockId)
    requires Linked(st.prev, st.next, suffix) && Grouped(st.prev, st.next, st.group, st.first)
    requires b in st.next && g in st.first
    ensures var st', s' := ChainRemoved(st, suffix, b), CutSuffix(suffix, b);
      CanGroup(st'.prev, st'.next, s', st'.group, st'.first, g, b) && s'[b] == suffix[b]
  {
    CutLinked(st.prev, st.next, suffix, b);
    CutGrouped(st.prev, st.next, suffix, st.group, st.first, b);
    Ends(st.prev, st.next, suffix, b);
  }

  /**
   * The state a group's `prependChain(b)` (and `appendChain(b)` on an
   * empty group) leaves: the chain from `b` is cut out and put in front of
   * the group's chain, or becomes its whole chain when the group is empty.
   */
  ghost function ChainGrouped(st: Structure, suffix: Suffixes, g: GroupId, b: BlockId): Structure
    requires Linked(st.prev, st.next, suffix) && Grouped(st.prev, st.next, st.group, st.first)
    requires b in st.next && g in st.first
  {
    CutGroupReady(st, suffix, g, b);
    GroupedAfterCut(ChainRemoved(st, suffix, b), CutSuffix(suffix, b), g, b)
  }

  ghost function ChainGroupedSuffix(st: Structure, suffix: Suffixes, g: GroupId, b: BlockId): Suffixes
    requires Linked(st.prev, st.next, suffix) && Grouped(st.prev, st.next, st.group, st.first)
    requires b in st.next && g in st.first
  {
    CutGroupReady(st, suffix, g, b);
    GroupedSuffixAfterCut(ChainRemoved(st, suffix, b), CutSuffix(suffix, b), g, b)
  }

  /** The ungrouped chain of the head `b` joins group `g`: as its whole chain, or in front of it. */
  ghost function GroupedAfterCut(st: Structure, suffix: Suffixes, g: GroupId, b: BlockId): Structure
    requires CanGroup(st.prev, st.next, suffix, st.group, st.first, g, b)
  {
    if st.first[g].None? then Installed(st, suffix, g, b) else Prepended(st, suffix, g, b)
  }

  ghost function GroupedSuffixAfterCut(st: Structure, suffix: Suffixes, g: GroupId, b: BlockId): Suffixes
    requires CanGroup(st.prev, st.next, suffix, st.group, st.first, g, b)
  {
    if st.first[g].None? then suffix
    else
      PrependApart(st.prev, st.next, suffix, st.group, st.first, g, b);
      JoinSuffix(suffix, Last(suffix, b), st.first[g].value)
  }

  lemma ChainGroupedOk(st: Structure, suffix: Suffixes, g: GroupId, b: BlockId)
    requires StructureOk(st, suffix) && b in st.next && g in st.first
    ensures StructureOk(ChainGrouped(st, suffix, g, b), ChainGroupedSuffix(st, suffix, g, b))
  {
    ChainRemovedOk(st, suffix, b);
    CutGroupReady(st, suffix, g, b);
    var st1, s1 := ChainRemoved(st, suffix, b), CutSuffix(suffix, b);
    if st1.first[g].None? {
      InstalledOk(st1, s1, g, b);
    } else {
      PrependedOk(st1, s1, g, b);
    }
  }

  /** Grouping a chain only relinks and regroups: every block and group stays, with what it was made with. */
  lemma ChainGroupedKeeps(st: Structure, suffix: Suffixes, g: GroupId, b: BlockId)
    requires StructureOk(st, suffix) && b in st.next && g in st.first
    ensures var st' := ChainGrouped(st, suffix, g, b);
      && st'.info == st.info && st'.groupInfo == st.groupInfo
      && st'.next.Keys == st.next.Keys && st'.prev.Keys == st.next.Keys && st'.group.Keys == st.next.Keys
      && st'.first.Keys == st.first.Keys
  {
    ChainGroupedOk(st, suffix, g, b);
    CutGroupReady(st, suffix, g, b);
    var st1 := ChainRemoved(st, suffix, b);
    assert st1.info == st.info && st1.groupInfo == st.groupInfo;
  }

  /**
   * Afterwards `b` is the group's `first` block and a head, the blocks from
   * `b` to its tail are in the group, and the group's chain is the chain of
   * `b` followed by what the group held once that chain was cut out.
   */
  lemma ChainGroupedPlaces(st: Structure, suffix: Suffixes, g: GroupId, b: BlockId)
    requires Linked(st.prev, st.next, suffix) && Grouped(st.prev, st.next, st.group, st.first)
    requires b in st.next && g in st.first
    ensures var st', s' := ChainGrouped(st, suffix, g, b), ChainGroupedSuffix(st, suffix, g, b);
      && st'.first[g] == Some(b) && st'.prev[b].None?
      && (forall x | x in st.group && x in suffix[b] :: st'.group[x] == Some(g))
      && s'[b] == suffix[b] + (if st.first[g].Some? && st.first[g] != Some(b) then CutSuffix(suffix, b)[st.first[g].value] else [])
  {
    CutGroupReady(st, suffix, g, b);
    CutFirstAt(st.group, st.first, b, g);
    AfterCutPlaces(ChainRemoved(st, suffix, b), CutSuffix(suffix, b), g, b);
  }

  lemma CutFirstAt(group: Groups, first: Firsts, b: BlockId, g: GroupId)
    requires b in group && g in first && (group[b].Some? ==> group[b].value in first)
    requires first[g] == Some(b) ==> group[b] == Some(g)
    ensures CutFirst(group, first, b)[g] == if first[g] == Some(b) then None else first[g]
  {
  }

  lemma AfterCutPlaces(st: Structure, suffix: Suffixes, g: GroupId, b: BlockId)
    requires CanGroup(st.prev, st.next, suffix, st.group, st.first, g, b)
    ensures var st', s' := GroupedAfterCut(st, suffix, g, b), GroupedSuffixAfterCut(st, suffix, g, b);
      && st'.first[g] == Some(b) && st'.prev[b].None?
      && (forall x | x in st.group && x in suffix[b] :: st'.group[x] == Some(g))
      && s'[b] == suffix[b] + (if st.first[g].Some? then suffix[st.first[g].value] else [])
  {
    if st.first[g].Some? {
      PrependApart(st.prev, st.next, suffix, st.group, st.first, g, b);
      Ends(st.prev, st.next, suffix, b);
    } else {
      assert suffix[b] + [] == suffix[b];
    }
  }
}
