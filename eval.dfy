/**
 * The interpreter of js/eval.js.  Evaluating a block runs the `eval` of
 * its payload (`block.data`): a statement drives the robot one step when
 * it is `'forward'`, a loop runs the chain of its first branch `cnt`
 * times; either then evaluates the next block.  The robot's `drive`
 * calls become the trace of a `Run`, and a thrown error ends the run
 * where it is thrown.
 */
module Eval {
  import opened Wrappers
  import opened Chains
  import opened Blocks
  import opened Arena

  /**
   * How a run ends: normally, with a thrown error, inside a loop that
   * never ends, or with the bound on branch nesting spent.
   */
  datatype Stop = Finished | Failed | Endless | OutOfFuel

  /** The `drive` commands issued, in order, and how the run ended. */
  datatype Run = Run(drives: seq<int>, stop: Stop)

  const Done := Run([], Finished)

  /** `a`, then `b` when `a` finished: an exception skips the rest. */
  function Then(a: Run, b: Run): Run
  {
    if a.stop == Finished then Run(a.drives + b.drives, b.stop) else a
  }

  /** Every command is `drive(1)`. */
  ghost predicate Ones(s: seq<int>)
  {
    forall i | 0 <= i < |s| :: s[i] == 1
  }

  /** `n` commands `drive(1)`. */
  function Drives(n: nat): (s: seq<int>)
    ensures |s| == n && Ones(s)
  {
    seq(n, _ => 1)
  }

  /**
   * `n` rounds of a loop whose every round runs as `round`: the loop stops
   * at the first round that does not finish.
   */
  function Repeat(round: Run, n: nat): (r: Run)
    requires Ones(round.drives)
    ensures round.stop == Finished ==> r == Run(Drives(n * |round.drives|), Finished)
    ensures round.stop != Finished ==> r == if n == 0 then Done else round
  {
    if n == 0 then Done
    else
      var r := Then(Repeat(round, n - 1), round);
      assert round.stop == Finished ==> r.drives == Drives((n - 1) * |round.drives|) + round.drives;
      r
  }

  /**
   * `block.data.eval(robot, block)`: a block without a payload throws; a
   * statement (js/eval.js:10-15) drives once when it is `'forward'`; a loop
   * (js/eval.js:17-24) runs its rounds, a negative count never ending, and
   * then both continue with `next`.  `fuel` bounds the nesting of loop
   * bodies.
   */
  function Eval(st: Structure, ghost suffix: Suffixes, x: BlockId, fuel: nat): (r: Run)
    requires StructureOk(st, suffix) && x in st.next
    ensures Ones(r.drives)
    decreases fuel, |suffix[x]| + 1, 1
  {
    match st.info[x].payload
    case None => Run([], Failed)
    case Some(Statement(s)) =>
      Then(Run(if s == Some("forward") then [1] else [], Finished), EvalNext(st, suffix, x, fuel))
    case Some(Loop(cnt)) =>
      var round := Body(st, suffix, x, fuel);
      if cnt < 0 then
        if round.stop == Finished then Run(round.drives, Endless) else round
      else Then(Repeat(round, cnt), EvalNext(st, suffix, x, fuel))
  }

  /** `if (block.next) block.next.data.eval(robot, block.next)` */
  function EvalNext(st: Structure, ghost suffix: Suffixes, x: BlockId, fuel: nat): (r: Run)
    requires StructureOk(st, suffix) && x in st.next
    ensures Ones(r.drives)
    ensures st.next[x].None? ==> r == Done
    decreases fuel, |suffix[x]| + 1, 0
  {
    match st.next[x]
    case None => Done
    case Some(n) =>
      Step(st.prev, st.next, suffix, x);
      Eval(st, suffix, n, fuel)
  }

  /**
   * One round of a loop: `block.connectorGroups[0].first` is evaluated
   * when the first branch holds a chain.  A block without branches has no
   * `connectorGroups[0]`, and reading its `first` throws.
   */
  function Body(st: Structure, ghost suffix: Suffixes, x: BlockId, fuel: nat): (r: Run)
    requires StructureOk(st, suffix) && x in st.info
    ensures Ones(r.drives)
    ensures |st.info[x].nested| == 0 ==> r == Run([], Failed)
    ensures |st.info[x].nested| > 0 && fuel > 0 && st.first[st.info[x].nested[0]].None? ==> r == Done
    decreases fuel, 0, 0
  {
    var nested := st.info[x].nested;
    if |nested| == 0 then Run([], Failed)
    else if fuel == 0 then Run([], OutOfFuel)
    else
      BranchHead(st, suffix, x);
      match st.first[nested[0]]
      case None => Done
      case Some(h) => Eval(st, suffix, h, fuel - 1)
  }

  /** The first branch of `x` is a group whose chain, if any, starts at a block. */
  lemma BranchHead(st: Structure, suffix: Suffixes, x: BlockId)
    requires StructureOk(st, suffix) && x in st.info && |st.info[x].nested| > 0
    ensures var g := st.info[x].nested[0]; g in st.first && (st.first[g].Some? ==> st.first[g].value in st.next)
  {
    assert WellNested(st.info, st.groupInfo, x);
    assert st.info[x].nested[0] in st.groupInfo;
  }

  /**
   * `createEval(startBlock)` (js/eval.js:4-8): the program runs from the
   * start block with the start block's own `eval`.  A start block made as
   * the editor makes it, with a statement payload that is not `'forward'`,
   * drives nothing itself, so the run is that of the chain below it.
   */
  function CreateEval(st: Structure, ghost suffix: Suffixes, start: BlockId): (r: Run)
    requires StructureOk(st, suffix) && start in st.next
    ensures Ones(r.drives)
    ensures st.info[start].payload.Some? && st.info[start].payload.value.Statement?
            && st.info[start].payload.value.statement != Some("forward")
            ==> r == EvalNext(st, suffix, start, st.groupCount)
  {
    var r := Eval(st, suffix, start, st.groupCount);
    assert st.info[start].payload.Some? && st.info[start].payload.value.Statement?
           && st.info[start].payload.value.statement != Some("forward")
           ==> r.drives == [] + EvalNext(st, suffix, start, st.groupCount).drives;
    r
  }

  // ---------------------------------------------------------------------
  // What a run issues

  predicate IsForward(st: Structure, y: BlockId)
    requires y in st.info
  {
    st.info[y].payload == Some(Statement(Some("forward")))
  }

  /** How many `'forward'` statements `chain` holds. */
  function Forwards(st: Structure, chain: seq<BlockId>): (n: nat)
    requires forall y | y in chain :: y in st.info
    ensures n <= |chain|
  {
    if chain == [] then 0
    else (if IsForward(st, chain[0]) then 1 else 0) + Forwards(st, chain[1..])
  }

  /** Every block of `chain` holds a statement. */
  ghost predicate Straight(st: Structure, chain: seq<BlockId>)
  {
    forall y | y in chain :: y in st.info && st.info[y].payload.Some? && st.info[y].payload.value.Statement?
  }

  /** A chain of statements finishes and drives once per `'forward'` statement on it. */
  lemma {:induction false} StraightChain(st: Structure, suffix: Suffixes, x: BlockId, fuel: nat)
    requires StructureOk(st, suffix) && x in st.next && Straight(st, suffix[x])
    ensures Eval(st, suffix, x, fuel) == Run(Drives(Forwards(st, suffix[x])), Finished)
    decreases |suffix[x]|
  {
    var own := if IsForward(st, x) then 1 else 0;
    match st.next[x]
    case None =>
      assert suffix[x] == [x];
      assert Forwards(st, suffix[x]) == own + Forwards(st, []);
      assert Drives(own) + [] == Drives(own);
    case Some(n) =>
      Step(st.prev, st.next, suffix, x);
      StraightChain(st, suffix, n, fuel);
      assert suffix[x][1..] == suffix[n];
      assert Drives(own) + Drives(Forwards(st, suffix[n])) == Drives(own + Forwards(st, suffix[n]));
  }

  /**
   * A loop that finishes its rounds drives `cnt` times what one round
   * drives, then runs the rest of the chain; a count of zero, or a round
   * that drives nothing, contributes nothing.
   */
  lemma LoopRounds(st: Structure, suffix: Suffixes, x: BlockId, fuel: nat, cnt: nat)
    requires StructureOk(st, suffix) && x in st.next && st.info[x].payload == Some(Loop(cnt))
    requires cnt == 0 || Body(st, suffix, x, fuel).stop == Finished
    ensures var round := Body(st, suffix, x, fuel);
      Eval(st, suffix, x, fuel) == Then(Run(Drives(cnt * |round.drives|), Finished), EvalNext(st, suffix, x, fuel))
    ensures cnt == 0 || Body(st, suffix, x, fuel) == Done ==> Eval(st, suffix, x, fuel) == EvalNext(st, suffix, x, fuel)
  {
    var next := EvalNext(st, suffix, x, fuel);
    assert [] + next.drives == next.drives;
  }

  // ---------------------------------------------------------------------
  // The interpreter as written: recursion along `next`, a counting loop

  /** `block.data.eval(robot, block)`: dispatch on the payload. */
  method EvalBlock(st: Structure, ghost suffix: Suffixes, x: BlockId, fuel: nat) returns (r: Run)
    requires StructureOk(st, suffix) && x in st.next
    ensures r == Eval(st, suffix, x, fuel)
    decreases fuel, |suffix[x]| + 1, 3
  {
    match st.info[x].payload
    case None =>
      r := Run([], Failed);
    case Some(Statement(_)) =>
      r := EvalStatement(st, suffix, x, fuel);
    case Some(Loop(_)) =>
      r := EvalLoop(st, suffix, x, fuel);
  }

  /** `evalStatement` (js/eval.js:10-15). */
  method EvalStatement(st: Structure, ghost suffix: Suffixes, x: BlockId, fuel: nat) returns (r: Run)
    requires StructureOk(st, suffix) && x in st.next
    requires st.info[x].payload.Some? && st.info[x].payload.value.Statement?
    ensures r == Eval(st, suffix, x, fuel)
    decreases fuel, |suffix[x]| + 1, 2
  {
    r := Run(if st.info[x].payload.value.statement == Some("forward") then [1] else [], Finished);
    if st.next[x].Some? {
      Step(st.prev, st.next, suffix, x);
      var rest := EvalBlock(st, suffix, st.next[x].value, fuel);
      r := Then(r, rest);
    } else {
      assert r.drives + [] == r.drives;
    }
  }

  /**
   * `evalLoop` (js/eval.js:17-24): `while (cnt--)` runs the first branch's
   * chain `cnt` times.  A negative count never reaches zero; the method
   * evaluates the first round and reports that the loop does not end.
   */
  method EvalLoop(st: Structure, ghost suffix: Suffixes, x: BlockId, fuel: nat) returns (r: Run)
    requires StructureOk(st, suffix) && x in st.next
    requires st.info[x].payload.Some? && st.info[x].payload.value.Loop?
    ensures r == Eval(st, suffix, x, fuel)
    decreases fuel, |suffix[x]| + 1, 2
  {
    var cnt := st.info[x].payload.value.cnt;
    ghost var round := Body(st, suffix, x, fuel);
    if cnt < 0 {
      var first := EvalBody(st, suffix, x, fuel);
      r := if first.stop == Finished then Run(first.drives, Endless) else first;
      return;
    }
    r := Done;
    var n := cnt;
    while n > 0 && r.stop == Finished
      invariant 0 <= n <= cnt
      invariant r == Repeat(round, cnt - n)
    {
      var once := EvalBody(st, suffix, x, fuel);
      r := Then(r, once);
      n := n - 1;
    }
    if r.stop == Finished && st.next[x].Some? {
      Step(st.prev, st.next, suffix, x);
      var rest := EvalBlock(st, suffix, st.next[x].value, fuel);
      r := Then(r, rest);
    } else {
      assert r.drives + [] == r.drives;
    }
  }

  /** One round: `var b = block.connectorGroups[0].first; if (b) b.data.eval(robot, b);` */
  method EvalBody(st: Structure, ghost suffix: Suffixes, x: BlockId, fuel: nat) returns (r: Run)
    requires StructureOk(st, suffix) && x in st.info
    ensures r == Body(st, suffix, x, fuel)
    decreases fuel, 0, 1
  {
    var nested := st.info[x].nested;
    if |nested| == 0 {
      r := Run([], Failed);
    } else if fuel == 0 {
      r := Run([], OutOfFuel);
    } else {
      BranchHead(st, suffix, x);
      var b := st.first[nested[0]];
      if b.Some? {
        r := EvalBlock(st, suffix, b.value, fuel - 1);
      } else {
        r := Done;
      }
    }
  }
}
