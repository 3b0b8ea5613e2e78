/**
 * The intrusive doubly-linked chain of js/block.js, as values.
 *
 * `prev` and `next` give each block's neighbours (`None` is `null`);
 * `suffix[a]` is the ghost list of blocks met by following `next` from
 * `a` to the tail.  Because every `suffix[a]` is a finite sequence that is
 * one longer than its successor's, chains have no cycles, and the length
 * of `suffix[a]` bounds every walk along `next`.
 *
 * The lemmas below show that each splice the block methods perform keeps
 * these links consistent, and say what the chains are afterwards.
 */
module Chains {
  import opened Wrappers

  type BlockId = int
  type Links = map<BlockId, Option<BlockId>>
  type Suffixes = map<BlockId, seq<BlockId>>

  /** `a.next === b` iff `b.prev === a`, and `suffix` follows `next`. */
  ghost predicate Linked(prev: Links, next: Links, suffix: Suffixes)
  {
    Mutual(prev, next) && Follows(next, suffix)
  }

  /** `a.next === b` iff `b.prev === a`; no link leaves the arena. */
  ghost predicate Mutual(prev: Links, next: Links)
  {
    && prev.Keys == next.Keys
    && (forall a | a in next && next[a].Some? :: next[a].value in next && prev[next[a].value] == Some(a))
    && (forall b | b in prev && prev[b].Some? :: prev[b].value in next && next[prev[b].value] == Some(b))
  }

  /** `suffix[a]` is `a` followed by the suffix of `a.next`. */
  ghost predicate Follows(next: Links, suffix: Suffixes)
  {
    && suffix.Keys == next.Keys
    && (forall a {:trigger next[a]} | a in next ::
          suffix[a] == if next[a].Some? && next[a].value in suffix then [a] + suffix[next[a].value] else [a])
  }

  /** `s` without its last `n` elements. */
  function DropTail<T>(s: seq<T>, n: nat): (r: seq<T>)
    ensures n <= |s| ==> s == r + s[|s| - n..]
  {
    if n <= |s| then s[..|s| - n] else []
  }

  ghost predicate NoDuplicates<T>(s: seq<T>)
  {
    forall i, j | 0 <= i < j < |s| :: s[i] != s[j]
  }

  // ---------------------------------------------------------------------
  // Facts about one consistent state

  lemma {:induction false} SuffixAt(prev: Links, next: Links, suffix: Suffixes, a: BlockId, i: nat)
    requires Linked(prev, next, suffix) && a in next && i < |suffix[a]|
    ensures suffix[a][i] in next && suffix[suffix[a][i]] == suffix[a][i..]
    decreases i
  {
    if i > 0 {
      var n := next[a].value;
      SuffixAt(prev, next, suffix, n, i - 1);
      assert suffix[a][i..] == suffix[n][i - 1..];
    }
  }

  /** The chain from `a` is `a` followed by the chain from `a.next`, if any. */
  lemma Unfold(prev: Links, next: Links, suffix: Suffixes, a: BlockId)
    requires Linked(prev, next, suffix) && a in next
    ensures suffix[a] != [] && suffix[a][0] == a
    ensures next[a].None? ==> suffix[a] == [a]
    ensures next[a].Some? ==> next[a].value in next && suffix[a] == [a] + suffix[next[a].value]
  {
    assert suffix[a] == if next[a].Some? && next[a].value in suffix then [a] + suffix[next[a].value] else [a];
  }

  /** The `next` links fix every chain: two suffix maps that both follow them agree at `a`. */
  lemma {:induction false} SuffixUnique(prev: Links, next: Links, s1: Suffixes, s2: Suffixes, a: BlockId)
    requires Linked(prev, next, s1) && Linked(prev, next, s2) && a in next
    ensures s1[a] == s2[a]
    decreases |s1[a]|
  {
    Unfold(prev, next, s1, a);
    Unfold(prev, next, s2, a);
    if next[a].Some? {
      SuffixUnique(prev, next, s1, s2, next[a].value);
    }
  }

  /** So the ghost suffix map is determined by the links. */
  lemma SuffixesUnique(prev: Links, next: Links, s1: Suffixes, s2: Suffixes)
    requires Linked(prev, next, s1) && Linked(prev, next, s2)
    ensures s1 == s2
  {
    forall a | a in next ensures s1[a] == s2[a] {
      SuffixUnique(prev, next, s1, s2, a);
    }
  }

  /** Consecutive elements of a suffix are linked by `next`, and it ends at the tail. */
  lemma NextAt(prev: Links, next: Links, suffix: Suffixes, a: BlockId, i: nat)
    requires Linked(prev, next, suffix) && a in next && i < |suffix[a]|
    ensures suffix[a][i] in next
    ensures next[suffix[a][i]] == if i + 1 < |suffix[a]| then Some(suffix[a][i + 1]) else None
  {
    SuffixAt(prev, next, suffix, a, i);
    var x := suffix[a][i];
    Unfold(prev, next, suffix, x);
    if next[x].Some? {
      Unfold(prev, next, suffix, next[x].value);
      assert suffix[a][i + 1] == suffix[x][1];
    }
  }

  /** `chain` is a walk along `next` that ends at a block without `next`. */
  ghost predicate Walks(next: Links, chain: seq<BlockId>)
  {
    forall k | 0 <= k < |chain| :: Hop(next, chain, k)
  }

  /** Step `k` of such a walk. */
  ghost predicate Hop(next: Links, chain: seq<BlockId>, k: nat)
    requires k < |chain|
  {
    chain[k] in next && next[chain[k]] == if k + 1 < |chain| then Some(chain[k + 1]) else None
  }

  /** The chain from `a` is such a walk, starting at `a`. */
  lemma SuffixWalks(prev: Links, next: Links, suffix: Suffixes, a: BlockId)
    requires Linked(prev, next, suffix) && a in next
    ensures suffix[a] != [] && suffix[a][0] == a && Walks(next, suffix[a])
  {
    forall k | 0 <= k < |suffix[a]|
      ensures Hop(next, suffix[a], k)
    {
      NextAt(prev, next, suffix, a, k);
    }
    assert suffix[a][0] == a;
  }

  lemma PrevAt(prev: Links, next: Links, suffix: Suffixes, a: BlockId, i: nat)
    requires Linked(prev, next, suffix) && a in next && 0 < i < |suffix[a]|
    ensures suffix[a][i] in next && prev[suffix[a][i]] == Some(suffix[a][i - 1])
  {
    NextAt(prev, next, suffix, a, i - 1);
    var x := suffix[a][i - 1];
    assert next[x] == Some(suffix[a][i]);
    assert next[x].value in next && prev[next[x].value] == Some(x);
  }

  /** One step along a chain: the suffix of `a` is `a` followed by the suffix of `a.next`, with the same last block. */
  lemma Step(prev: Links, next: Links, suffix: Suffixes, a: BlockId)
    requires Linked(prev, next, suffix) && a in next && next[a].Some?
    ensures next[a].value in next && suffix[a] == [a] + suffix[next[a].value]
    ensures suffix[next[a].value] != [] && Last(suffix, a) == Last(suffix, next[a].value)
  {
    var n := next[a].value;
    assert suffix[a] == [a] + suffix[n];
    assert suffix[n][0] == n;
  }

  /** A chain starts with its own block and ends in a block without `next`. */
  lemma Ends(prev: Links, next: Links, suffix: Suffixes, a: BlockId)
    requires Linked(prev, next, suffix) && a in next
    ensures suffix[a] != [] && suffix[a][0] == a
    ensures Last(suffix, a) in next && Last(suffix, a) in suffix[a] && next[Last(suffix, a)].None?
  {
    assert suffix[a][0] == a;
    NextAt(prev, next, suffix, a, |suffix[a]| - 1);
  }

  /** The block before `b` is not on the chain from `b`. */
  lemma PrevOutside(prev: Links, next: Links, suffix: Suffixes, b: BlockId)
    requires Linked(prev, next, suffix) && b in next && prev[b].Some?
    ensures prev[b].value in next && prev[b].value !in suffix[b]
  {
    var p := prev[b].value;
    Step(prev, next, suffix, p);
    assert suffix[b][0] == b;
    InSuffix(prev, next, suffix, p, b);
  }

  /** No block occurs twice on a chain: there are no cycles. */
  lemma Distinct(prev: Links, next: Links, suffix: Suffixes, a: BlockId)
    requires Linked(prev, next, suffix) && a in next
    ensures NoDuplicates(suffix[a])
  {
    forall i, j | 0 <= i < j < |suffix[a]| ensures suffix[a][i] != suffix[a][j] {
      SuffixAt(prev, next, suffix, a, i);
      SuffixAt(prev, next, suffix, a, j);
    }
  }

  /** A chain is no longer than the number of blocks. */
  lemma SuffixBound(prev: Links, next: Links, suffix: Suffixes, a: BlockId)
    requires Linked(prev, next, suffix) && a in next
    ensures |suffix[a]| <= |next.Keys|
  {
    Distinct(prev, next, suffix, a);
    forall i | 0 <= i < |suffix[a]| ensures suffix[a][i] in next.Keys {
      SuffixAt(prev, next, suffix, a, i);
    }
    DistinctWithin(suffix[a], next.Keys);
  }

  /** A sequence without repeats, drawn from `s`, is no longer than `s`. */
  lemma {:induction false} DistinctWithin<T>(xs: seq<T>, s: set<T>)
    requires NoDuplicates(xs) && forall i | 0 <= i < |xs| :: xs[i] in s
    ensures |xs| <= |s|
    decreases |xs|
  {
    if xs != [] {
      var rest := xs[1..];
      assert forall i | 0 <= i < |rest| :: rest[i] == xs[i + 1];
      DistinctWithin(rest, s - {xs[0]});
    }
  }

  /** A chain through `c` ends with the chain from `c`. */
  lemma InSuffix(prev: Links, next: Links, suffix: Suffixes, a: BlockId, c: BlockId)
    requires Linked(prev, next, suffix) && a in next && c in suffix[a]
    ensures c in next && |suffix[c]| <= |suffix[a]|
    ensures suffix[a] == DropTail(suffix[a], |suffix[c]|) + suffix[c]
    ensures c != a ==> |suffix[c]| < |suffix[a]| && a !in suffix[c]
  {
    var i :| 0 <= i < |suffix[a]| && suffix[a][i] == c;
    SuffixAt(prev, next, suffix, a, i);
    Distinct(prev, next, suffix, a);
    assert suffix[a][0] == a;
  }

  /** Every block after the first on a chain has its predecessor on the chain. */
  lemma PrevInSuffix(prev: Links, next: Links, suffix: Suffixes, a: BlockId, c: BlockId)
    requires Linked(prev, next, suffix) && a in next && c in suffix[a] && c != a
    ensures c in prev && prev[c].Some? && prev[c].value in suffix[a]
  {
    var i :| 0 <= i < |suffix[a]| && suffix[a][i] == c;
    assert suffix[a][0] == a;
    assert i > 0;
    PrevAt(prev, next, suffix, a, i);
    assert prev[c] == Some(suffix[a][i - 1]);
    assert suffix[a][i - 1] in suffix[a];
  }

  /**
   * A chain that starts at a head (no `prev`) contains every chain that
   * meets it: a block belongs to one chain only.
   */
  lemma {:induction false} HeadOwns(prev: Links, next: Links, suffix: Suffixes, h: BlockId, b: BlockId, c: BlockId)
    requires Linked(prev, next, suffix) && h in next && b in next && prev[h].None?
    requires c in suffix[h] && c in suffix[b]
    ensures b in suffix[h]
    decreases |suffix[b]|
  {
    if b != c {
      var n := next[b].value;
      assert suffix[b] == [b] + suffix[n];
      HeadOwns(prev, next, suffix, h, n, c);
      PrevInSuffix(prev, next, suffix, h, n);
    }
  }

  /** The last block of the chain from `a`. */
  ghost function Last(suffix: Suffixes, a: BlockId): BlockId
    requires a in suffix && |suffix[a]| > 0
  {
    suffix[a][|suffix[a]| - 1]
  }

  // ---------------------------------------------------------------------
  // Cutting a chain in two before `b` (the link work of `removeChain`)

  function CutNext(prev: Links, next: Links, b: BlockId): Links
    requires b in prev
  {
    if prev[b].Some? then next[prev[b].value := None] else next
  }

  ghost function CutSuffix(suffix: Suffixes, b: BlockId): Suffixes
    requires b in suffix
  {
    map x | x in suffix :: if x != b && b in suffix[x] then DropTail(suffix[x], |suffix[b]|) else suffix[x]
  }

  lemma CutLinked(prev: Links, next: Links, suffix: Suffixes, b: BlockId)
    requires Linked(prev, next, suffix) && b in next
    ensures Linked(prev[b := None], CutNext(prev, next, b), CutSuffix(suffix, b))
  {
    CutMutual(prev, next, suffix, b);
    CutFollows(prev, next, suffix, b);
  }

  lemma CutMutual(prev: Links, next: Links, suffix: Suffixes, b: BlockId)
    requires Linked(prev, next, suffix) && b in next
    ensures Mutual(prev[b := None], CutNext(prev, next, b))
  {
    var prev', next' := prev[b := None], CutNext(prev, next, b);
    var p := prev[b];
    forall a | a in next' && next'[a].Some?
      ensures next'[a].value in next' && prev'[next'[a].value] == Some(a)
    {
      assert p != Some(a) && next'[a] == next[a];
    }
    forall y | y in prev' && prev'[y].Some?
      ensures prev'[y].value in next' && next'[prev'[y].value] == Some(y)
    {
      assert y != b && prev'[y] == prev[y];
    }
  }

  lemma CutFollows(prev: Links, next: Links, suffix: Suffixes, b: BlockId)
    requires Linked(prev, next, suffix) && b in next
    ensures Follows(CutNext(prev, next, b), CutSuffix(suffix, b))
  {
    var next', s' := CutNext(prev, next, b), CutSuffix(suffix, b);
    forall x | x in next'
      ensures FollowsAt(next', s', x)
    {
      CutStep(prev, next, suffix, b, x);
    }
    FollowsEverywhere(next', s');
  }

  lemma CutStep(prev: Links, next: Links, suffix: Suffixes, b: BlockId, x: BlockId)
    requires Linked(prev, next, suffix) && b in next && x in next
    ensures FollowsAt(CutNext(prev, next, b), CutSuffix(suffix, b), x)
  {
    var next' := CutNext(prev, next, b);
    assert suffix[x][0] == x;
    if prev[b] == Some(x) {
      assert suffix[x] == [x] + suffix[b] && suffix[b][0] == b;
      CutConsAt(next', suffix, b, x);
    } else {
      assert next'[x] == next[x];
      if next[x].Some? {
        var n := next[x].value;
        assert suffix[x] == [x] + suffix[n];
        if x != b && b in suffix[n] {
          InSuffix(prev, next, suffix, n, b);
        } else if x == b {
          InSuffix(prev, next, suffix, b, n);
        }
        CutCons(next', suffix, b, x, n);
      } else {
        assert suffix[x] == [x];
      }
    }
  }

  /** The predecessor of `b` becomes the tail of its chain. */
  lemma CutConsAt(next': Links, suffix: Suffixes, b: BlockId, x: BlockId)
    requires b in suffix && x in suffix && x != b && suffix[x] == [x] + suffix[b]
    requires suffix[b] != [] && suffix[b][0] == b && x in next' && next'[x].None?
    ensures FollowsAt(next', CutSuffix(suffix, b), x)
  {
    assert b in suffix[x];
  }

  /** Any other link is kept, and the suffixes on both ends of it lose the same tail. */
  lemma CutCons(next': Links, suffix: Suffixes, b: BlockId, x: BlockId, n: BlockId)
    requires b in suffix && x in suffix && n in suffix && suffix[x] == [x] + suffix[n]
    requires x in next' && next'[x] == Some(n) && n != b
    requires x != b && b in suffix[n] ==> |suffix[b]| <= |suffix[n]|
    requires x == b ==> b !in suffix[n]
    ensures FollowsAt(next', CutSuffix(suffix, b), x)
  {
    if x != b && b in suffix[n] {
      ConsDropTail(suffix[x], x, suffix[n], |suffix[b]|);
    }
  }

  // ---------------------------------------------------------------------
  // Joining the tail `a` of one chain to the head `b` of another

  ghost function JoinSuffix(suffix: Suffixes, a: BlockId, b: BlockId): Suffixes
    requires b in suffix
  {
    map x | x in suffix :: if a in suffix[x] then suffix[x] + suffix[b] else suffix[x]
  }

  lemma JoinLinked(prev: Links, next: Links, suffix: Suffixes, a: BlockId, b: BlockId)
    requires Linked(prev, next, suffix) && a in next && b in next
    requires next[a].None? && prev[b].None? && a !in suffix[b]
    ensures Linked(prev[b := Some(a)], next[a := Some(b)], JoinSuffix(suffix, a, b))
  {
    JoinMutual(prev, next, suffix, a, b);
    JoinFollows(prev, next, suffix, a, b);
  }

  lemma JoinMutual(prev: Links, next: Links, suffix: Suffixes, a: BlockId, b: BlockId)
    requires Linked(prev, next, suffix) && a in next && b in next
    requires next[a].None? && prev[b].None?
    ensures Mutual(prev[b := Some(a)], next[a := Some(b)])
  {
    JoinForward(prev, next, a, b);
    JoinBackward(prev, next, a, b);
  }

  lemma JoinForward(prev: Links, next: Links, a: BlockId, b: BlockId)
    requires Mutual(prev, next) && a in next && b in next
    requires next[a].None? && prev[b].None?
    ensures var prev', next' := prev[b := Some(a)], next[a := Some(b)];
      forall x | x in next' && next'[x].Some? :: next'[x].value in next' && prev'[next'[x].value] == Some(x)
  {
  }

  lemma JoinBackward(prev: Links, next: Links, a: BlockId, b: BlockId)
    requires Mutual(prev, next) && a in next && b in next
    requires next[a].None? && prev[b].None?
    ensures var prev', next' := prev[b := Some(a)], next[a := Some(b)];
      forall y | y in prev' && prev'[y].Some? :: prev'[y].value in next' && next'[prev'[y].value] == Some(y)
  {
  }

  lemma JoinFollows(prev: Links, next: Links, suffix: Suffixes, a: BlockId, b: BlockId)
    requires Linked(prev, next, suffix) && a in next && b in next
    requires next[a].None? && prev[b].None? && a !in suffix[b]
    ensures Follows(next[a := Some(b)], JoinSuffix(suffix, a, b))
  {
    var next', s' := next[a := Some(b)], JoinSuffix(suffix, a, b);
    forall x | x in next'
      ensures FollowsAt(next', s', x)
    {
      JoinStep(prev, next, suffix, a, b, x);
    }
    FollowsEverywhere(next', s');
  }

  lemma JoinStep(prev: Links, next: Links, suffix: Suffixes, a: BlockId, b: BlockId, x: BlockId)
    requires Linked(prev, next, suffix) && a in next && b in next && x in next
    requires next[a].None? && prev[b].None? && a !in suffix[b]
    ensures FollowsAt(next[a := Some(b)], JoinSuffix(suffix, a, b), x)
  {
    if x == a {
      JoinStepAt(prev, next, suffix, a, b);
    } else if next[x].Some? {
      JoinStepBefore(prev, next, suffix, a, b, x);
    } else {
      assert suffix[x] == [x];
    }
  }

  lemma JoinStepAt(prev: Links, next: Links, suffix: Suffixes, a: BlockId, b: BlockId)
    requires Linked(prev, next, suffix) && a in next && b in next
    requires next[a].None? && prev[b].None? && a !in suffix[b]
    ensures var s' := JoinSuffix(suffix, a, b); s'[a] == [a] + s'[b]
  {
    assert suffix[a] == [a];
  }

  lemma JoinStepBefore(prev: Links, next: Links, suffix: Suffixes, a: BlockId, b: BlockId, x: BlockId)
    requires Linked(prev, next, suffix) && a in next && b in next && x in next && x != a
    requires next[a].None? && prev[b].None? && a !in suffix[b] && next[x].Some?
    ensures next[x].value in suffix
    ensures var s' := JoinSuffix(suffix, a, b); s'[x] == [x] + s'[next[x].value]
  {
    JoinCons(suffix, a, b, x, next[x].value);
  }

  /** `JoinSuffix` respects one `next` link that is not the joined one. */
  lemma JoinCons(suffix: Suffixes, a: BlockId, b: BlockId, x: BlockId, n: BlockId)
    requires x in suffix && n in suffix && b in suffix && x != a
    requires suffix[x] == [x] + suffix[n]
    ensures var s' := JoinSuffix(suffix, a, b); s'[x] == [x] + s'[n]
  {
    if a in suffix[n] {
      assert ([x] + suffix[n]) + suffix[b] == [x] + (suffix[n] + suffix[b]);
    } else {
      assert a !in suffix[x];
    }
  }

  /** Dropping the same tail from a longer list keeps its head. */
  lemma ConsDropTail<T>(s: seq<T>, x: T, tl: seq<T>, k: nat)
    requires s == [x] + tl && k <= |tl|
    ensures DropTail(s, k) == [x] + DropTail(tl, k)
  {
  }

  // ---------------------------------------------------------------------
  // Taking one block `b` out of its chain (the link work of `remove`)

  function RemovePrev(prev: Links, next: Links, b: BlockId): Links
    requires b in prev && b in next && (next[b].Some? ==> next[b].value in prev)
  {
    (if next[b].Some? then prev[next[b].value := prev[b]] else prev)[b := None]
  }

  function RemoveNext(prev: Links, next: Links, b: BlockId): Links
    requires b in prev && b in next && (prev[b].Some? ==> prev[b].value in next)
  {
    (if prev[b].Some? then next[prev[b].value := next[b]] else next)[b := None]
  }

  ghost function RemoveSuffix(suffix: Suffixes, b: BlockId): Suffixes
    requires b in suffix && suffix[b] != []
  {
    map x | x in suffix ::
      if x == b then [b]
      else if b in suffix[x] then DropTail(suffix[x], |suffix[b]|) + suffix[b][1..]
      else suffix[x]
  }

  lemma RemoveLinked(prev: Links, next: Links, suffix: Suffixes, b: BlockId)
    requires Linked(prev, next, suffix) && b in next
    ensures suffix[b] != []
    ensures Linked(RemovePrev(prev, next, b), RemoveNext(prev, next, b), RemoveSuffix(suffix, b))
  {
    assert suffix[b][0] == b;
    RemoveForward(prev, next, b);
    RemoveBackward(prev, next, b);
    RemoveFollows(prev, next, suffix, b);
  }

  lemma RemoveFollows(prev: Links, next: Links, suffix: Suffixes, b: BlockId)
    requires Linked(prev, next, suffix) && b in next && suffix[b] != []
    ensures Follows(RemoveNext(prev, next, b), RemoveSuffix(suffix, b))
  {
    var next', s' := RemoveNext(prev, next, b), RemoveSuffix(suffix, b);
    forall x | x in next'
      ensures FollowsAt(next', s', x)
    {
      RemoveStep(prev, next, suffix, b, x);
    }
    FollowsEverywhere(next', s');
  }

  lemma RemoveForward(prev: Links, next: Links, b: BlockId)
    requires Mutual(prev, next) && b in next
    ensures var prev', next' := RemovePrev(prev, next, b), RemoveNext(prev, next, b);
      forall x | x in next' && next'[x].Some? :: next'[x].value in next' && prev'[next'[x].value] == Some(x)
  {
  }

  lemma RemoveBackward(prev: Links, next: Links, b: BlockId)
    requires Mutual(prev, next) && b in next
    ensures var prev', next' := RemovePrev(prev, next, b), RemoveNext(prev, next, b);
      forall y | y in prev' && prev'[y].Some? :: prev'[y].value in next' && next'[prev'[y].value] == Some(y)
  {
  }

  lemma RemoveStep(prev: Links, next: Links, suffix: Suffixes, b: BlockId, x: BlockId)
    requires Linked(prev, next, suffix) && b in next && x in next && suffix[b] != []
    ensures FollowsAt(RemoveNext(prev, next, b), RemoveSuffix(suffix, b), x)
  {
    var next', s' := RemoveNext(prev, next, b), RemoveSuffix(suffix, b);
    if x == b {
    } else if prev[b] == Some(x) {
      RemoveStepAt(prev, next, suffix, b, x);
    } else {
      assert next'[x] == next[x];
      if next[x].Some? {
        RemoveStepPast(prev, next, suffix, b, x);
      } else {
        assert suffix[x] == [x];
      }
    }
  }

  /** At the predecessor `p` of `b`: `p` now leads straight to `b`'s old successor. */
  lemma RemoveStepAt(prev: Links, next: Links, suffix: Suffixes, b: BlockId, p: BlockId)
    requires Linked(prev, next, suffix) && b in next && prev[b] == Some(p) && suffix[b] != []
    ensures p in next && p != b && b in suffix[p]
    ensures next[b].Some? ==> next[b].value in suffix && b !in suffix[next[b].value]
    ensures var s' := RemoveSuffix(suffix, b);
      s'[p] == if next[b].None? then [p] else [p] + s'[next[b].value]
  {
    assert suffix[p] == [p] + suffix[b];
    if next[b].Some? {
      var n := next[b].value;
      assert suffix[b] == [b] + suffix[n];
      InSuffix(prev, next, suffix, b, n);
      RemoveTail(suffix, b, p, n);
    } else {
      assert suffix[b] == [b];
    }
  }

  lemma RemoveTail(suffix: Suffixes, b: BlockId, p: BlockId, n: BlockId)
    requires b in suffix && p in suffix && n in suffix && p != b && n != b
    requires suffix[p] == [p] + suffix[b] && suffix[b] == [b] + suffix[n] && b !in suffix[n]
    ensures var s' := RemoveSuffix(suffix, b); s'[p] == [p] + s'[n]
  {
    assert DropTail(suffix[p], |suffix[b]|) == [p];
  }

  /** Away from `b` and its predecessor, each link is kept and so is the shape of the suffix. */
  lemma RemoveStepPast(prev: Links, next: Links, suffix: Suffixes, b: BlockId, x: BlockId)
    requires Linked(prev, next, suffix) && b in next && x in next && x != b && prev[b] != Some(x)
    requires next[x].Some? && suffix[b] != []
    ensures next[x].value in suffix
    ensures var s' := RemoveSuffix(suffix, b); s'[x] == [x] + s'[next[x].value]
  {
    var y := next[x].value;
    assert suffix[x] == [x] + suffix[y];
    assert y != b;
    if b in suffix[y] {
      InSuffix(prev, next, suffix, y, b);
      RemoveCons(suffix, b, x, y);
    }
  }

  lemma RemoveCons(suffix: Suffixes, b: BlockId, x: BlockId, y: BlockId)
    requires b in suffix && x in suffix && y in suffix && x != b && y != b && suffix[b] != []
    requires suffix[x] == [x] + suffix[y] && b in suffix[y] && |suffix[b]| <= |suffix[y]|
    ensures var s' := RemoveSuffix(suffix, b); s'[x] == [x] + s'[y]
  {
    var k, rest := |suffix[b]|, suffix[b][1..];
    RemovedThrough(suffix, b, x);
    RemovedThrough(suffix, b, y);
    ConsDropTail(suffix[x], x, suffix[y], k);
    ConcatAssoc([x], DropTail(suffix[y], k), rest);
  }

  /** The chain of `x`, which runs through `b`, skips `b` once `b` is removed. */
  lemma RemovedThrough(suffix: Suffixes, b: BlockId, x: BlockId)
    requires b in suffix && x in suffix && x != b && suffix[b] != [] && b in suffix[x]
    ensures RemoveSuffix(suffix, b)[x] == DropTail(suffix[x], |suffix[b]|) + suffix[b][1..]
  {
  }

  lemma ConcatAssoc<T>(a: seq<T>, b: seq<T>, c: seq<T>)
    ensures (a + b) + c == a + (b + c)
  {
  }

  // ---------------------------------------------------------------------
  // Inserting a whole chain `b ... last` after `t` (the link work of
  // `append` and `appendChain`): `P ++ [t] ++ S` becomes
  // `P ++ [t] ++ chain(b) ++ S`

  function SplicePrev(prev: Links, next: Links, t: BlockId, b: BlockId, last: BlockId): Links
    requires t in next && b in prev && (next[t].Some? ==> next[t].value in prev)
  {
    (if next[t].Some? then prev[next[t].value := Some(last)] else prev)[b := Some(t)]
  }

  function SpliceNext(next: Links, t: BlockId, b: BlockId, last: BlockId): Links
    requires t in next && last in next
  {
    (if next[t].Some? then next[last := next[t]] else next)[t := Some(b)]
  }

  ghost function SpliceSuffix(suffix: Suffixes, t: BlockId, b: BlockId): Suffixes
    requires t in suffix && b in suffix && suffix[t] != []
  {
    map x | x in suffix ::
      if t in suffix[x] then DropTail(suffix[x], |suffix[t]|) + [t] + suffix[b] + suffix[t][1..]
      else if x in suffix[b] then suffix[x] + suffix[t][1..]
      else suffix[x]
  }

  /** Facts about a chain head `b` and a block `t` that is not on its chain. */
  lemma Apart(prev: Links, next: Links, suffix: Suffixes, t: BlockId, b: BlockId)
    requires Linked(prev, next, suffix) && t in next && b in next && prev[b].None? && t !in suffix[b]
    ensures suffix[t] != [] && suffix[t][0] == t && suffix[b] != [] && suffix[b][0] == b
    ensures Last(suffix, b) in next && Last(suffix, b) in suffix[b] && Last(suffix, b) != t
    ensures next[Last(suffix, b)].None?
    ensures next[t].Some? ==> next[t].value in next && suffix[t] == [t] + suffix[next[t].value]
    ensures next[t].Some? ==> next[t].value !in suffix[b] && t !in suffix[next[t].value]
  {
    ApartEnds(prev, next, suffix, t, b);
    if next[t].Some? {
      ApartNext(prev, next, suffix, t, b);
    }
  }

  lemma ApartEnds(prev: Links, next: Links, suffix: Suffixes, t: BlockId, b: BlockId)
    requires Linked(prev, next, suffix) && t in next && b in next && t !in suffix[b]
    ensures suffix[t] != [] && suffix[t][0] == t && suffix[b] != [] && suffix[b][0] == b
    ensures Last(suffix, b) in next && Last(suffix, b) in suffix[b] && Last(suffix, b) != t
    ensures next[Last(suffix, b)].None?
  {
    assert suffix[t][0] == t && suffix[b][0] == b;
    NextAt(prev, next, suffix, b, |suffix[b]| - 1);
  }

  lemma ApartNext(prev: Links, next: Links, suffix: Suffixes, t: BlockId, b: BlockId)
    requires Linked(prev, next, suffix) && t in next && b in next && prev[b].None? && t !in suffix[b]
    requires next[t].Some?
    ensures next[t].value in next && suffix[t] == [t] + suffix[next[t].value]
    ensures next[t].value !in suffix[b] && t !in suffix[next[t].value]
  {
    var n := next[t].value;
    assert suffix[t] == [t] + suffix[n];
    InSuffix(prev, next, suffix, t, n);
    if n in suffix[b] {
      HeadOwns(prev, next, suffix, b, t, n);
    }
  }

  lemma SpliceLinked(prev: Links, next: Links, suffix: Suffixes, t: BlockId, b: BlockId)
    requires Linked(prev, next, suffix) && t in next && b in next && prev[b].None? && t !in suffix[b]
    ensures suffix[t] != [] && Last(suffix, b) in next
    ensures Linked(SplicePrev(prev, next, t, b, Last(suffix, b)), SpliceNext(next, t, b, Last(suffix, b)),
                   SpliceSuffix(suffix, t, b))
  {
    Apart(prev, next, suffix, t, b);
    var last := Last(suffix, b);
    SpliceMutual(prev, next, t, b, last);
    SpliceFollows(prev, next, suffix, t, b, last);
  }

  lemma SpliceMutual(prev: Links, next: Links, t: BlockId, b: BlockId, last: BlockId)
    requires Mutual(prev, next) && t in next && b in next && last in next && t != last
    requires prev[b].None? && next[last].None?
    ensures Mutual(SplicePrev(prev, next, t, b, last), SpliceNext(next, t, b, last))
  {
    SpliceForward(prev, next, t, b, last);
    SpliceBackward(prev, next, t, b, last);
  }

  lemma SpliceForward(prev: Links, next: Links, t: BlockId, b: BlockId, last: BlockId)
    requires Mutual(prev, next) && t in next && b in next && last in next && t != last
    requires prev[b].None? && next[last].None?
    ensures var prev', next' := SplicePrev(prev, next, t, b, last), SpliceNext(next, t, b, last);
      forall x | x in next' && next'[x].Some? :: next'[x].value in next' && prev'[next'[x].value] == Some(x)
  {
  }

  lemma SpliceBackward(prev: Links, next: Links, t: BlockId, b: BlockId, last: BlockId)
    requires Mutual(prev, next) && t in next && b in next && last in next && t != last
    requires prev[b].None? && next[last].None?
    ensures var prev', next' := SplicePrev(prev, next, t, b, last), SpliceNext(next, t, b, last);
      forall y | y in prev' && prev'[y].Some? :: prev'[y].value in next' && next'[prev'[y].value] == Some(y)
  {
  }

  /** Splice preconditions, with `last` the last block of `b`'s chain. */
  ghost predicate CanSplice(prev: Links, next: Links, suffix: Suffixes, t: BlockId, b: BlockId, last: BlockId)
  {
    && Linked(prev, next, suffix) && t in next && b in next && prev[b].None? && t !in suffix[b]
    && suffix[b] != [] && last == Last(suffix, b)
  }

  lemma SpliceFollows(prev: Links, next: Links, suffix: Suffixes, t: BlockId, b: BlockId, last: BlockId)
    requires CanSplice(prev, next, suffix, t, b, last) && suffix[t] != [] && last in next
    ensures Follows(SpliceNext(next, t, b, last), SpliceSuffix(suffix, t, b))
  {
    var next', s' := SpliceNext(next, t, b, last), SpliceSuffix(suffix, t, b);
    forall x | x in next'
      ensures FollowsAt(next', s', x)
    {
      SpliceStep(prev, next, suffix, t, b, last, x);
    }
    FollowsEverywhere(next', s');
  }

  lemma SpliceStep(prev: Links, next: Links, suffix: Suffixes, t: BlockId, b: BlockId, last: BlockId, x: BlockId)
    requires CanSplice(prev, next, suffix, t, b, last) && x in next && suffix[t] != [] && last in next
    ensures FollowsAt(SpliceNext(next, t, b, last), SpliceSuffix(suffix, t, b), x)
  {
    if t in suffix[x] {
      if x == t {
        SpliceStepAt(prev, next, suffix, t, b, last);
      } else {
        SpliceStepBefore(prev, next, suffix, t, b, last, x);
      }
    } else if x in suffix[b] {
      if x == last {
        SpliceStepLast(prev, next, suffix, t, b, last);
      } else {
        SpliceStepInside(prev, next, suffix, t, b, last, x);
      }
    } else {
      SpliceStepAway(prev, next, suffix, t, b, last, x);
    }
  }

  lemma FollowsEverywhere(next: Links, suffix: Suffixes)
    requires suffix.Keys == next.Keys && forall x | x in next :: FollowsAt(next, suffix, x)
    ensures Follows(next, suffix)
  {
    forall a | a in next
      ensures suffix[a] == if next[a].Some? && next[a].value in suffix then [a] + suffix[next[a].value] else [a]
    {
      assert FollowsAt(next, suffix, a);
    }
  }

  /** One instance of `Follows`. */
  ghost predicate FollowsAt(next: Links, suffix: Suffixes, x: BlockId)
  {
    && x in next && x in suffix
    && suffix[x] == if next[x].Some? && next[x].value in suffix then [x] + suffix[next[x].value] else [x]
  }

  /** At `t`: it now leads to the inserted chain. */
  lemma SpliceStepAt(prev: Links, next: Links, suffix: Suffixes, t: BlockId, b: BlockId, last: BlockId)
    requires CanSplice(prev, next, suffix, t, b, last) && suffix[t] != [] && last in next
    ensures FollowsAt(SpliceNext(next, t, b, last), SpliceSuffix(suffix, t, b), t)
  {
    assert suffix[t][0] == t && suffix[b][0] == b;
    SpliceConsAt(suffix, t, b);
  }

  lemma SpliceConsAt(suffix: Suffixes, t: BlockId, b: BlockId)
    requires t in suffix && b in suffix && suffix[t] != [] && suffix[t][0] == t && t !in suffix[b]
    requires suffix[b] != [] && suffix[b][0] == b
    ensures var s' := SpliceSuffix(suffix, t, b); s'[t] == [t] + s'[b]
  {
    var S := suffix[t][1..];
    assert DropTail(suffix[t], |suffix[t]|) == [];
    assert b in suffix[b];
    assert [] + [t] + suffix[b] + S == [t] + (suffix[b] + S);
  }

  /** Before `t` on its chain, each suffix gains the inserted chain in front of `S`. */
  lemma SpliceStepBefore(prev: Links, next: Links, suffix: Suffixes, t: BlockId, b: BlockId, last: BlockId,
                         x: BlockId)
    requires CanSplice(prev, next, suffix, t, b, last) && suffix[t] != [] && last in next
    requires x in next && x != t && t in suffix[x]
    ensures FollowsAt(SpliceNext(next, t, b, last), SpliceSuffix(suffix, t, b), x)
  {
    var y := Before(prev, next, suffix, t, b, x);
    assert SpliceNext(next, t, b, last)[x] == next[x];
    SpliceConsBefore(SpliceNext(next, t, b, last), suffix, t, b, x, y);
  }

  /** A block strictly before `t` is not on `b`'s chain, and is followed by a block whose suffix holds `t`. */
  lemma Before(prev: Links, next: Links, suffix: Suffixes, t: BlockId, b: BlockId, x: BlockId) returns (y: BlockId)
    requires Linked(prev, next, suffix) && t in next && b in next && prev[b].None? && t !in suffix[b]
    requires suffix[b] != [] && x in next && x != t && t in suffix[x]
    ensures x != Last(suffix, b) && next[x] == Some(y) && y in next && suffix[x] == [x] + suffix[y]
    ensures t in suffix[y] && |suffix[t]| <= |suffix[y]|
  {
    assert suffix[x][0] == x;
    y := next[x].value;
    assert suffix[x] == [x] + suffix[y];
    InSuffix(prev, next, suffix, y, t);
    if x in suffix[b] {
      InSuffix(prev, next, suffix, b, x);
    }
    assert Last(suffix, b) in suffix[b];
  }

  lemma SpliceConsBefore(next': Links, suffix: Suffixes, t: BlockId, b: BlockId, x: BlockId, y: BlockId)
    requires t in suffix && b in suffix && x in suffix && y in suffix && suffix[t] != [] && x != t
    requires suffix[x] == [x] + suffix[y] && t in suffix[y] && |suffix[t]| <= |suffix[y]|
    requires x in next' && next'[x] == Some(y)
    ensures FollowsAt(next', SpliceSuffix(suffix, t, b), x)
  {
    var k := |suffix[t]|;
    assert t in suffix[x];
    SplicedThrough(suffix, t, b, x);
    SplicedThrough(suffix, t, b, y);
    ConsDropTail(suffix[x], x, suffix[y], k);
    ConcatAssoc([x], DropTail(suffix[y], k), [t] + suffix[b] + suffix[t][1..]);
  }

  /** The chain of `x`, which runs through `t`, takes the chain of `b` right after `t`. */
  lemma SplicedThrough(suffix: Suffixes, t: BlockId, b: BlockId, x: BlockId)
    requires t in suffix && b in suffix && x in suffix && suffix[t] != [] && t in suffix[x]
    ensures SpliceSuffix(suffix, t, b)[x] == DropTail(suffix[x], |suffix[t]|) + ([t] + suffix[b] + suffix[t][1..])
  {
    var p, sb, r := DropTail(suffix[x], |suffix[t]|), suffix[b], suffix[t][1..];
    assert SpliceSuffix(suffix, t, b)[x] == p + [t] + sb + r;
    ConcatAssoc(p, [t] + sb, r);
    ConcatAssoc(p, [t], sb);
  }

  /** The last block of the inserted chain now leads to `S`. */
  lemma SpliceStepLast(prev: Links, next: Links, suffix: Suffixes, t: BlockId, b: BlockId, last: BlockId)
    requires CanSplice(prev, next, suffix, t, b, last) && suffix[t] != [] && last in next
    ensures FollowsAt(SpliceNext(next, t, b, last), SpliceSuffix(suffix, t, b), last)
  {
    Apart(prev, next, suffix, t, b);
    assert suffix[last] == [last];
    InSuffix(prev, next, suffix, b, last);
    assert t !in suffix[last];
    if next[t].Some? {
      var n := next[t].value;
      assert suffix[t][1..] == suffix[n];
      SpliceKeeps(prev, next, suffix, t, b, n);
    }
  }

  /** Inside the inserted chain, each suffix gains `S` at its end. */
  lemma SpliceStepInside(prev: Links, next: Links, suffix: Suffixes, t: BlockId, b: BlockId, last: BlockId,
                         x: BlockId)
    requires CanSplice(prev, next, suffix, t, b, last) && suffix[t] != [] && last in next
    requires x in next && x in suffix[b] && x != last && t !in suffix[x]
    ensures FollowsAt(SpliceNext(next, t, b, last), SpliceSuffix(suffix, t, b), x)
  {
    Inside(prev, next, suffix, b, x);
    var y := next[x].value;
    Apart(prev, next, suffix, t, b);
    assert SpliceNext(next, t, b, last)[x] == next[x];
    SpliceConsInside(suffix, t, b, x, y);
  }

  /** A block of the chain from `b` other than its last one has a `next` on that chain. */
  lemma Inside(prev: Links, next: Links, suffix: Suffixes, b: BlockId, x: BlockId)
    requires Linked(prev, next, suffix) && b in next && x in suffix[b] && x != Last(suffix, b)
    ensures x in next && next[x].Some? && next[x].value in suffix[b] && suffix[x] == [x] + suffix[next[x].value]
  {
    var i :| 0 <= i < |suffix[b]| && suffix[b][i] == x;
    NextAt(prev, next, suffix, b, i);
    Unfold(prev, next, suffix, x);
  }

  lemma SpliceConsInside(suffix: Suffixes, t: BlockId, b: BlockId, x: BlockId, y: BlockId)
    requires t in suffix && b in suffix && x in suffix && y in suffix && suffix[t] != []
    requires suffix[x] == [x] + suffix[y] && x in suffix[b] && y in suffix[b] && t !in suffix[x]
    ensures var s' := SpliceSuffix(suffix, t, b); s'[x] == [x] + s'[y]
  {
    assert t !in suffix[y];
    assert ([x] + suffix[y]) + suffix[t][1..] == [x] + (suffix[y] + suffix[t][1..]);
  }

  /** Away from both chains' splice points nothing changes. */
  lemma SpliceStepAway(prev: Links, next: Links, suffix: Suffixes, t: BlockId, b: BlockId, last: BlockId,
                       x: BlockId)
    requires CanSplice(prev, next, suffix, t, b, last) && suffix[t] != [] && last in next
    requires x in next && t !in suffix[x] && x !in suffix[b]
    ensures FollowsAt(SpliceNext(next, t, b, last), SpliceSuffix(suffix, t, b), x)
  {
    Apart(prev, next, suffix, t, b);
    assert suffix[x][0] == x;
    assert SpliceNext(next, t, b, last)[x] == next[x];
    if next[x].Some? {
      var y := next[x].value;
      assert suffix[x] == [x] + suffix[y];
      assert t !in suffix[y];
      if y in suffix[b] {
        assert y != b;
        PrevInSuffix(prev, next, suffix, b, y);
      }
    } else {
      assert suffix[x] == [x];
    }
  }

  /** The successor `n` of `t` is on neither the changed part of `t`'s chain nor `b`'s chain. */
  lemma SpliceKeeps(prev: Links, next: Links, suffix: Suffixes, t: BlockId, b: BlockId, n: BlockId)
    requires Linked(prev, next, suffix) && t in next && b in next && prev[b].None? && t !in suffix[b]
    requires suffix[t] != [] && next[t] == Some(n)
    ensures var s' := SpliceSuffix(suffix, t, b); n in s' && s'[n] == suffix[n]
  {
    Apart(prev, next, suffix, t, b);
  }
}
