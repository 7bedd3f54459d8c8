/** `a{m,n}b` and `a{m,n}?b` for every pair of bounds `m <= n`, run from the start
    state on every subject that begins with `k` bytes `a` followed by nothing or by
    a byte other than `a`. Both kinds match exactly when `m <= k <= n` and the byte
    after the run is `b`, both finish within `4 * k + 7` turns, and both leave the
    counter stack empty: the counter each repeat compares against is its own. */
module LoopRuns {
  import opened Bytecode
  import opened Machine
  import opened Programs

  predicate IsRepeat(kind: Opcode) {
    kind == RepeatGreedy || kind == RepeatLazy
  }

  /** `k` bytes `a`. */
  function As(k: nat): seq<Char> {
    seq(k, _ => 97)
  }

  /** What may follow the run of `a`s: nothing, or a byte other than `a`. */
  predicate Rest(t: seq<Char>) {
    t == [] || t[0] != 97
  }

  /** The byte after the run of `a`s is the `b` that follows the loop. */
  predicate EndsInB(t: seq<Char>) {
    t != [] && t[0] == 98
  }

  /** Everything the runs below assume about their parameters. */
  predicate Setup(kind: Opcode, m: nat, n: nat, t: seq<Char>, caps: seq<Capture>) {
    IsRepeat(kind) && m <= n && Rest(t) && |caps| == MaxCaptures
  }

  lemma PushLast<T>(s: seq<T>, x: T, y: T)
    ensures DropLast(s + [x]) == s && Last(s + [x]) == x && SetLast(s + [x], y) == s + [y]
  {
    assert (s + [x])[..|s|] == s;
  }

  /** The frames a greedy loop keeps below its top after `j` iterations: one per
      visit, not yet backtracked into, holding the count that visit saw. */
  function Up(j: nat): (r: seq<Frame>)
    ensures |r| == j && forall i :: 0 <= i < j ==> r[i].instr == 2
  {
    if j == 0 then [] else Up(j - 1) + [Frame(j - 1, false, 2, j - 1)]
  }

  /** The frames a lazy loop keeps below its top after `j` iterations: one per
      visit, each already backtracked into. */
  function Down(j: nat): (r: seq<Frame>)
    ensures |r| == j && forall i :: 0 <= i < j ==> r[i].instr == 2
  {
    if j == 0 then [] else Down(j - 1) + [Frame(j - 1, true, 2, j - 1)]
  }

  /** The greedy repeat visited for the `j`-th time, its counter at `j`. */
  function GreedyVisit(j: nat, caps: seq<Capture>): Config {
    Config(Up(j) + [Frame(j, false, 2, 0)], [j], caps)
  }

  /** The greedy repeat backtracked into after `j` iterations, its counter dropped. */
  function GreedyBack(j: nat, caps: seq<Capture>): Config {
    Config(Up(j) + [Frame(j, true, 2, j)], [], caps)
  }

  /** The lazy repeat visited for the `j`-th time, its counter at `j`. */
  function LazyVisit(j: nat, caps: seq<Capture>): Config {
    Config(Down(j) + [Frame(j, false, 2, 0)], [j], caps)
  }

  /** The lazy repeat backtracked into after `j` iterations. */
  function LazyBack(j: nat, caps: seq<Capture>): Config {
    Config(Down(j + 1), [], caps)
  }

  /** The greedy body about to match its `j + 1`-th `a`. */
  function GreedyBody(j: nat, caps: seq<Capture>): Config {
    Config(Up(j + 1) + [Fresh(j, 1)], [j + 1], caps)
  }

  /** The greedy repeat backtracked into after `j` iterations, its counter still on
      the stack. */
  function GreedyCounted(j: nat, caps: seq<Capture>): Config {
    Config(Up(j) + [Frame(j, true, 2, j)], [j + 1], caps)
  }

  /** The `b` after the greedy loop, tried after `j` iterations. */
  function GreedyTail(j: nat, caps: seq<Capture>): Config {
    Config(Up(j) + [Frame(j, true, 2, j)] + [Fresh(j, 3)], [], caps)
  }

  /** MATCH_DONE reached after `j` greedy iterations. */
  function GreedyDone(j: nat, caps: seq<Capture>): Config {
    Config(Up(j) + [Frame(j, true, 2, j)] + [Frame(j + 1, false, 4, 0)], [], caps)
  }

  /** The lazy body about to match its `j + 1`-th `a`. */
  function LazyBody(j: nat, caps: seq<Capture>): Config {
    Config(Down(j + 1) + [Fresh(j, 1)], [j + 1], caps)
  }

  /** The `b` after the lazy loop, tried after `j` iterations. */
  function LazyTail(j: nat, caps: seq<Capture>): Config {
    Config(Down(j) + [Frame(j, false, 2, j)] + [Fresh(j, 3)], [], caps)
  }

  /** MATCH_DONE reached after `j` lazy iterations. */
  function LazyDone(j: nat, caps: seq<Capture>): Config {
    Config(Down(j) + [Frame(j, false, 2, j)] + [Frame(j + 1, false, 4, 0)], [], caps)
  }

  /** The body `a` matches at offset `j <= k` exactly inside the run of `a`s. */
  lemma BodyAt(kind: Opcode, m: nat, n: nat, k: nat, t: seq<Char>, j: nat)
    requires IsRepeat(kind) && Rest(t) && j <= k
    ensures var p, s := Loop(kind, m, n), As(k) + t;
      StringAccepts(p, s, j, p.instrs[1]) <==> j < k
  {
    var p, s := Loop(kind, m, n), As(k) + t;
    assert p.chars[0 .. 1] == [97];
    if j + 1 <= |s| {
      assert s[j .. j + 1] == [s[j]];
    }
  }

  /** The `b` after the loop matches at offset `j <= k` exactly at the end of the
      run of `a`s, when `t` starts with `b`. */
  lemma TailAt(kind: Opcode, m: nat, n: nat, k: nat, t: seq<Char>, j: nat)
    requires IsRepeat(kind) && j <= k
    ensures var p, s := Loop(kind, m, n), As(k) + t;
      StringAccepts(p, s, j, p.instrs[3]) <==> j == k && EndsInB(t)
  {
    var p, s := Loop(kind, m, n), As(k) + t;
    assert p.chars[1 .. 2] == [98];
    if j + 1 <= |s| {
      assert s[j .. j + 1] == [s[j]];
    }
  }

  /** With no counter on the stack, backtracking pops every frame of a lazy loop. */
  lemma {:induction false} UnwindDown(kind: Opcode, m: nat, n: nat, j: nat, caps: seq<Capture>)
    requires kind == RepeatLazy && |caps| == MaxCaptures
    ensures Unwind(Loop(kind, m, n), Down(j), [], caps) == Config([], [], caps)
  {
    if j > 0 {
      PushLast(Down(j - 1), Frame(j - 1, true, 2, j - 1), Frame(j - 1, true, 2, j - 1));
      UnwindDown(kind, m, n, j - 1, caps);
    }
  }

  // ---- greedy turns ----

  /** A visit below the maximum counts the iteration and enters the body. */
  lemma GreedyEnters(m: nat, n: nat, t: seq<Char>, caps: seq<Capture>, k: nat, j: nat)
    requires Setup(RepeatGreedy, m, n, t, caps) && j < n
    ensures var p, s := Loop(RepeatGreedy, m, n), As(k) + t;
      Step(p, s, GreedyVisit(j, caps)) == Running(GreedyBody(j, caps))
  {
    var p, c := Loop(RepeatGreedy, m, n), GreedyVisit(j, caps);
    PushLast(Up(j), Frame(j, false, 2, 0), Frame(j, false, 2, j));
    assert [j][0 := j + 1] == [j + 1];
    assert TopOp(p, c) == RepeatGreedy;
    assert GreedyCase(p, c) == Next(GreedyBody(j, caps));
  }

  /** Inside the run of `a`s the body matches and the repeat is visited again. */
  lemma GreedyBodyMatches(m: nat, n: nat, t: seq<Char>, caps: seq<Capture>, k: nat, j: nat)
    requires Setup(RepeatGreedy, m, n, t, caps) && j < k
    ensures var p, s := Loop(RepeatGreedy, m, n), As(k) + t;
      Step(p, s, GreedyBody(j, caps)) == Running(GreedyVisit(j + 1, caps))
  {
    var p, s, c := Loop(RepeatGreedy, m, n), As(k) + t, GreedyBody(j, caps);
    BodyAt(RepeatGreedy, m, n, k, t, j);
    PushLast(Up(j + 1), Fresh(j, 1), Frame(j + 1, false, 2, 0));
    assert TopOp(p, c) == MatchString;
    assert MatchCase(p, s, c) == Next(GreedyVisit(j + 1, caps));
  }

  /** At the end of the run of `a`s the body fails and the repeat is backtracked
      into, its counter still on the stack. */
  lemma GreedyBodyFails(m: nat, n: nat, t: seq<Char>, caps: seq<Capture>, k: nat)
    requires Setup(RepeatGreedy, m, n, t, caps)
    ensures var p, s := Loop(RepeatGreedy, m, n), As(k) + t;
      Step(p, s, GreedyBody(k, caps)) == Running(GreedyCounted(k, caps))
  {
    var p, s, c := Loop(RepeatGreedy, m, n), As(k) + t, GreedyBody(k, caps);
    BodyAt(RepeatGreedy, m, n, k, t, k);
    PushLast(Up(k + 1), Fresh(k, 1), Fresh(k, 1));
    PushLast(Up(k), Frame(k, false, 2, k), Frame(k, true, 2, k));
    assert TopOp(p, c) == MatchString;
    assert MatchCase(p, s, c) == Fail(c);
    assert Step(p, s, c) == Backtrack(p, c);
    assert Unwind(p, Up(k + 1), [k + 1], caps) == Config(Up(k + 1), [k + 1], caps);
  }

  /** A visit at the maximum marks the frame without entering the body. */
  lemma GreedyAtMax(m: nat, n: nat, t: seq<Char>, caps: seq<Capture>, k: nat)
    requires Setup(RepeatGreedy, m, n, t, caps)
    ensures var p, s := Loop(RepeatGreedy, m, n), As(k) + t;
      Step(p, s, GreedyVisit(n, caps)) == Running(GreedyCounted(n, caps))
  {
    var p, c := Loop(RepeatGreedy, m, n), GreedyVisit(n, caps);
    PushLast(Up(n), Frame(n, false, 2, 0), Frame(n, true, 2, n));
    assert [n][0 := n + 1] == [n + 1];
    assert TopOp(p, c) == RepeatGreedy;
    assert GreedyCase(p, c) == Next(GreedyCounted(n, caps));
  }

  /** A greedy frame backtracked into drops its own counter, so it goes on as if the
      counter were already gone. */
  lemma GreedyDropsCounter(m: nat, n: nat, t: seq<Char>, caps: seq<Capture>, k: nat, j: nat)
    requires Setup(RepeatGreedy, m, n, t, caps)
    ensures var p, s := Loop(RepeatGreedy, m, n), As(k) + t;
      Step(p, s, GreedyCounted(j, caps)) == Step(p, s, GreedyBack(j, caps))
  {
    var p, s := Loop(RepeatGreedy, m, n), As(k) + t;
    var c, b := GreedyCounted(j, caps), GreedyBack(j, caps);
    PushLast(Up(j), Frame(j, true, 2, j), Frame(j, true, 2, j));
    assert TopOp(p, c) == RepeatGreedy && TopOp(p, b) == RepeatGreedy;
    assert DropLast([j + 1]) == [];
    assert GreedyCase(p, c) == GreedyCase(p, b);
    assert Dispatch(p, s, c) == Dispatch(p, s, b);
  }

  /** Backtracked into below the minimum, the frame fails and backtracking marks the
      frame of the previous visit, or ends the run when there is none. */
  lemma GreedyBackBelowMin(m: nat, n: nat, t: seq<Char>, caps: seq<Capture>, k: nat, j: nat)
    requires Setup(RepeatGreedy, m, n, t, caps) && j < m
    ensures var p, s := Loop(RepeatGreedy, m, n), As(k) + t;
      Step(p, s, GreedyBack(j, caps))
      == if j == 0 then Stopped(NoMatch, Config([], [], caps)) else Running(GreedyBack(j - 1, caps))
  {
    var p, s, c := Loop(RepeatGreedy, m, n), As(k) + t, GreedyBack(j, caps);
    PushLast(Up(j), Frame(j, true, 2, j), Frame(j, true, 2, j));
    assert TopOp(p, c) == RepeatGreedy;
    assert GreedyCase(p, c) == Fail(c);
    assert Step(p, s, c) == Backtrack(p, c);
    if j > 0 {
      PushLast(Up(j - 1), Frame(j - 1, false, 2, j - 1), Frame(j - 1, true, 2, j - 1));
      assert Unwind(p, Up(j), [], caps) == Config(Up(j), [], caps);
    } else {
      assert Unwind(p, [], [], caps) == Config([], [], caps);
    }
  }

  /** Backtracked into from the minimum on, the frame leaves the loop. */
  lemma GreedyBackLeaves(m: nat, n: nat, t: seq<Char>, caps: seq<Capture>, k: nat, j: nat)
    requires Setup(RepeatGreedy, m, n, t, caps) && m <= j
    ensures var p, s := Loop(RepeatGreedy, m, n), As(k) + t;
      Step(p, s, GreedyBack(j, caps)) == Running(GreedyTail(j, caps))
  {
    var p, c := Loop(RepeatGreedy, m, n), GreedyBack(j, caps);
    PushLast(Up(j), Frame(j, true, 2, j), Frame(j, true, 2, j));
    assert TopOp(p, c) == RepeatGreedy;
    assert GreedyCase(p, c) == Next(GreedyTail(j, caps));
  }

  /** The `b` right after the run of `a`s matches, and MATCH_DONE reports it. */
  lemma GreedyTailMatches(m: nat, n: nat, t: seq<Char>, caps: seq<Capture>, k: nat)
    requires Setup(RepeatGreedy, m, n, t, caps) && EndsInB(t)
    ensures var p, s := Loop(RepeatGreedy, m, n), As(k) + t;
      var done := GreedyDone(k, caps);
      && Step(p, s, GreedyTail(k, caps)) == Running(done)
      && Step(p, s, done) == Stopped(Matched, done)
  {
    var p, s, c, done := Loop(RepeatGreedy, m, n), As(k) + t, GreedyTail(k, caps), GreedyDone(k, caps);
    TailAt(RepeatGreedy, m, n, k, t, k);
    PushLast(Up(k) + [Frame(k, true, 2, k)], Fresh(k, 3), Frame(k + 1, false, 4, 0));
    assert TopOp(p, c) == MatchString;
    assert MatchCase(p, s, c) == Next(done);
    assert TopOp(p, done) == MatchDone;
  }

  /** Anywhere else the `b` fails, and backtracking marks the frame of the previous
      visit, or ends the run when there is none. */
  lemma GreedyTailFails(m: nat, n: nat, t: seq<Char>, caps: seq<Capture>, k: nat, j: nat)
    requires Setup(RepeatGreedy, m, n, t, caps) && j <= k && !(j == k && EndsInB(t))
    ensures var p, s := Loop(RepeatGreedy, m, n), As(k) + t;
      Step(p, s, GreedyTail(j, caps))
      == if j == 0 then Stopped(NoMatch, Config([], [], caps)) else Running(GreedyBack(j - 1, caps))
  {
    var p, s, c := Loop(RepeatGreedy, m, n), As(k) + t, GreedyTail(j, caps);
    TailAt(RepeatGreedy, m, n, k, t, j);
    var below := Up(j) + [Frame(j, true, 2, j)];
    PushLast(below, Fresh(j, 3), Fresh(j, 3));
    PushLast(Up(j), Frame(j, true, 2, j), Frame(j, true, 2, j));
    assert TopOp(p, c) == MatchString;
    assert MatchCase(p, s, c) == Fail(c);
    assert Step(p, s, c) == Backtrack(p, c);
    assert Undo(p, Frame(j, true, 2, j), caps) == caps;
    assert Unwind(p, below, [], caps) == Unwind(p, Up(j), [], caps);
    if j > 0 {
      PushLast(Up(j - 1), Frame(j - 1, false, 2, j - 1), Frame(j - 1, true, 2, j - 1));
      assert Unwind(p, Up(j), [], caps) == Config(Up(j), [], caps);
    } else {
      assert Unwind(p, [], [], caps) == Config([], [], caps);
    }
  }

  // ---- lazy turns ----

  /** A visit below the minimum pops the counter and marks the frame. */
  lemma LazyBelowMin(m: nat, n: nat, t: seq<Char>, caps: seq<Capture>, k: nat, j: nat)
    requires Setup(RepeatLazy, m, n, t, caps) && j < m
    ensures var p, s := Loop(RepeatLazy, m, n), As(k) + t;
      Step(p, s, LazyVisit(j, caps)) == Running(LazyBack(j, caps))
  {
    var p, c := Loop(RepeatLazy, m, n), LazyVisit(j, caps);
    PushLast(Down(j), Frame(j, false, 2, 0), Frame(j, true, 2, j));
    assert DropLast([j]) == [];
    assert TopOp(p, c) == RepeatLazy;
    assert LazyCase(p, c) == Next(LazyBack(j, caps));
  }

  /** A visit from the minimum on pops the counter and leaves the loop. */
  lemma LazyLeaves(m: nat, n: nat, t: seq<Char>, caps: seq<Capture>, k: nat, j: nat)
    requires Setup(RepeatLazy, m, n, t, caps) && m <= j
    ensures var p, s := Loop(RepeatLazy, m, n), As(k) + t;
      Step(p, s, LazyVisit(j, caps)) == Running(LazyTail(j, caps))
  {
    var p, c := Loop(RepeatLazy, m, n), LazyVisit(j, caps);
    PushLast(Down(j), Frame(j, false, 2, 0), Frame(j, false, 2, j));
    assert DropLast([j]) == [];
    assert TopOp(p, c) == RepeatLazy;
    assert LazyCase(p, c) == Next(LazyTail(j, caps));
  }

  /** The `b` right after the run of `a`s matches, and MATCH_DONE reports it. */
  lemma LazyTailMatches(m: nat, n: nat, t: seq<Char>, caps: seq<Capture>, k: nat)
    requires Setup(RepeatLazy, m, n, t, caps) && EndsInB(t)
    ensures var p, s := Loop(RepeatLazy, m, n), As(k) + t;
      var done := LazyDone(k, caps);
      && Step(p, s, LazyTail(k, caps)) == Running(done)
      && Step(p, s, done) == Stopped(Matched, done)
  {
    var p, s, c, done := Loop(RepeatLazy, m, n), As(k) + t, LazyTail(k, caps), LazyDone(k, caps);
    TailAt(RepeatLazy, m, n, k, t, k);
    PushLast(Down(k) + [Frame(k, false, 2, k)], Fresh(k, 3), Frame(k + 1, false, 4, 0));
    assert TopOp(p, c) == MatchString;
    assert MatchCase(p, s, c) == Next(done);
    assert TopOp(p, done) == MatchDone;
  }

  /** Anywhere else the `b` fails and the lazy frame below it is marked. */
  lemma LazyTailFails(m: nat, n: nat, t: seq<Char>, caps: seq<Capture>, k: nat, j: nat)
    requires Setup(RepeatLazy, m, n, t, caps) && j <= k && !(j == k && EndsInB(t))
    ensures var p, s := Loop(RepeatLazy, m, n), As(k) + t;
      Step(p, s, LazyTail(j, caps)) == Running(LazyBack(j, caps))
  {
    var p, s, c := Loop(RepeatLazy, m, n), As(k) + t, LazyTail(j, caps);
    var below := Down(j) + [Frame(j, false, 2, j)];
    TailAt(RepeatLazy, m, n, k, t, j);
    PushLast(below, Fresh(j, 3), Fresh(j, 3));
    PushLast(Down(j), Frame(j, false, 2, j), Frame(j, true, 2, j));
    assert TopOp(p, c) == MatchString;
    assert MatchCase(p, s, c) == Fail(c);
    assert Step(p, s, c) == Backtrack(p, c);
    assert Unwind(p, below, [], caps) == Config(below, [], caps);
  }

  /** Backtracked into at the maximum, the lazy frame fails and, with no counter
      left, backtracking pops every frame: the run ends without a match. */
  lemma LazyBackAtMax(m: nat, n: nat, t: seq<Char>, caps: seq<Capture>, k: nat)
    requires Setup(RepeatLazy, m, n, t, caps)
    ensures var p, s := Loop(RepeatLazy, m, n), As(k) + t;
      Step(p, s, LazyBack(n, caps)) == Stopped(NoMatch, Config([], [], caps))
  {
    var p, s, c := Loop(RepeatLazy, m, n), As(k) + t, LazyBack(n, caps);
    PushLast(Down(n), Frame(n, true, 2, n), Frame(n, true, 2, n));
    assert TopOp(p, c) == RepeatLazy;
    assert LazyCase(p, c) == Fail(c);
    assert Step(p, s, c) == Backtrack(p, c);
    UnwindDown(RepeatLazy, m, n, n, caps);
  }

  /** Backtracked into below the maximum, the lazy frame pushes a counter and runs
      the body once more. */
  lemma LazyBackEnters(m: nat, n: nat, t: seq<Char>, caps: seq<Capture>, k: nat, j: nat)
    requires Setup(RepeatLazy, m, n, t, caps) && j < n
    ensures var p, s := Loop(RepeatLazy, m, n), As(k) + t;
      Step(p, s, LazyBack(j, caps)) == Running(LazyBody(j, caps))
  {
    var p, c := Loop(RepeatLazy, m, n), LazyBack(j, caps);
    PushLast(Down(j), Frame(j, true, 2, j), Frame(j, true, 2, j));
    assert [] + [j + 1] == [j + 1];
    assert TopOp(p, c) == RepeatLazy;
    assert LazyCase(p, c) == Next(LazyBody(j, caps));
  }

  /** Inside the run of `a`s the body matches and the repeat is visited again. */
  lemma LazyBodyMatches(m: nat, n: nat, t: seq<Char>, caps: seq<Capture>, k: nat, j: nat)
    requires Setup(RepeatLazy, m, n, t, caps) && j < k
    ensures var p, s := Loop(RepeatLazy, m, n), As(k) + t;
      Step(p, s, LazyBody(j, caps)) == Running(LazyVisit(j + 1, caps))
  {
    var p, s, c := Loop(RepeatLazy, m, n), As(k) + t, LazyBody(j, caps);
    BodyAt(RepeatLazy, m, n, k, t, j);
    PushLast(Down(j + 1), Fresh(j, 1), Frame(j + 1, false, 2, 0));
    assert TopOp(p, c) == MatchString;
    assert MatchCase(p, s, c) == Next(LazyVisit(j + 1, caps));
  }

  /** At the end of the run of `a`s the body fails; backtracking drops the counter
      the lazy frame pushed and pops every frame: the run ends without a match. */
  lemma LazyBodyFails(m: nat, n: nat, t: seq<Char>, caps: seq<Capture>, k: nat)
    requires Setup(RepeatLazy, m, n, t, caps)
    ensures var p, s := Loop(RepeatLazy, m, n), As(k) + t;
      Step(p, s, LazyBody(k, caps)) == Stopped(NoMatch, Config([], [], caps))
  {
    var p, s, c := Loop(RepeatLazy, m, n), As(k) + t, LazyBody(k, caps);
    BodyAt(RepeatLazy, m, n, k, t, k);
    PushLast(Down(k + 1), Fresh(k, 1), Fresh(k, 1));
    PushLast(Down(k), Frame(k, true, 2, k), Frame(k, true, 2, k));
    assert TopOp(p, c) == MatchString;
    assert MatchCase(p, s, c) == Fail(c);
    assert Step(p, s, c) == Backtrack(p, c);
    assert DropLast([k + 1]) == [];
    assert Undo(p, Frame(k, true, 2, k), caps) == caps;
    assert Unwind(p, Down(k + 1), [k + 1], caps) == Unwind(p, Down(k), [], caps);
    UnwindDown(RepeatLazy, m, n, k, caps);
  }

  /** The first turn: JUMP opens the counter and moves to the repeat. */
  lemma StartJumps(kind: Opcode, m: nat, n: nat, t: seq<Char>, caps: seq<Capture>, k: nat)
    requires Setup(kind, m, n, t, caps)
    ensures var p, s := Loop(kind, m, n), As(k) + t;
      && GreedyVisit(0, caps) == LazyVisit(0, caps)
      && Step(p, s, Start([], caps)) == Running(GreedyVisit(0, caps))
  {
    assert Up(0) + [Frame(0, false, 2, 0)] == [Frame(0, false, 2, 0)];
    assert Down(0) + [Frame(0, false, 2, 0)] == [Frame(0, false, 2, 0)];
  }

  // ---- runs by a ranked invariant ----

  /** `Run` with the turn taken as a parameter, so that an argument by invariant
      need not look inside the executor. */
  function RunOf(turn: Config -> Outcome, c: Config, fuel: nat): Result
    decreases fuel
  {
    if fuel == 0 then Result(OutOfFuel, c)
    else
      match turn(c)
      case Stopped(v, last) => Result(v, last)
      case Running(next) => RunOf(turn, next, fuel - 1)
  }

  /** `turn` takes the executor's turn wherever the executor can take one. */
  ghost predicate Agrees(p: Program, s: seq<Char>, turn: Config -> Outcome) {
    forall d {:trigger turn(d)} :: Fits(p, d) && d.frames != [] ==> turn(d) == Step(p, s, d)
  }

  /** A turn function that agrees with the executor runs as the executor does. */
  lemma {:induction false} RunAsRunOf(p: Program, s: seq<Char>, c: Config, fuel: nat, turn: Config -> Outcome)
    requires Agrees(p, s, turn) && Fits(p, c) && c.frames != []
    ensures Run(p, s, c, fuel) == RunOf(turn, c, fuel)
    decreases fuel
  {
    if fuel > 0 {
      assert turn(c) == Step(p, s, c);
      var o := Step(p, s, c);
      if o.Running? {
        RunAsRunOf(p, s, o.cfg, fuel - 1, turn);
      }
    }
  }

  /** The turn from `d` keeps to the states `Inv` admits and lowers `rank`, or ends
      the run with a result `Goal` accepts. */
  predicate Leads(turn: Config -> Outcome, d: Config, Inv: Config -> bool, rank: Config -> nat, Goal: Result -> bool) {
    match turn(d)
    case Running(next) => Inv(next) && rank(next) < rank(d)
    case Stopped(v, last) => Goal(Result(v, last))
  }

  /** Every configuration of the invariant takes one turn as `Leads` says. */
  ghost predicate AllLead(turn: Config -> Outcome, Inv: Config -> bool, rank: Config -> nat, Goal: Result -> bool) {
    forall d {:trigger Leads(turn, d, Inv, rank, Goal)} :: Inv(d) ==> Leads(turn, d, Inv, rank, Goal)
  }

  /** A run that starts inside a ranked invariant and has more fuel than the rank
      ends with a result the goal accepts. */
  lemma {:induction false} RunRanked(turn: Config -> Outcome, c: Config, fuel: nat,
                                     Inv: Config -> bool, rank: Config -> nat, Goal: Result -> bool)
    requires AllLead(turn, Inv, rank, Goal)
    requires Inv(c) && rank(c) < fuel
    ensures Goal(RunOf(turn, c, fuel))
    decreases fuel
  {
    assert Leads(turn, c, Inv, rank, Goal);
    match turn(c)
    case Running(next) =>
      RunRanked(turn, next, fuel - 1, Inv, rank, Goal);
    case Stopped(_, _) =>
  }

  /** The subject is one the loop matches: `m <= k <= n` and `b` after the `a`s. */
  predicate Expect(m: nat, n: nat, k: nat, t: seq<Char>) {
    m <= k <= n && EndsInB(t)
  }

  /** The result both kinds of loop end with. */
  predicate LoopGoal(m: nat, n: nat, k: nat, t: seq<Char>, r: Result) {
    r.verdict == (if Expect(m, n, k, t) then Matched else NoMatch) && r.final.iters == []
  }

  // ---- greedy runs ----

  /** The states a greedy run passes through on `k` bytes `a` and then `t`. Once
      the run can only match, the states below the last count are left out. */
  predicate GreedyState(m: nat, n: nat, k: nat, t: seq<Char>, caps: seq<Capture>, d: Config) {
    d.frames != [] &&
    var e, i, top := Expect(m, n, k, t), |d.frames| - 1, Last(d.frames);
    if top.instr == 0 then d == Start([], caps)
    else if top.instr == 1 then 1 <= i && i - 1 < n && i - 1 <= k && d == GreedyBody(i - 1, caps)
    else if top.instr == 2 && !top.backtracked then i <= k && i <= n && d == GreedyVisit(i, caps)
    else if top.instr == 2 && d.iters != [] then
      i <= k && i <= n && (i == n || i == k) && (e ==> i == k) && d == GreedyCounted(i, caps)
    else if top.instr == 2 then i <= k && i <= n && (e ==> i == k) && d == GreedyBack(i, caps)
    else if top.instr == 3 then
      1 <= i && m <= i - 1 <= k && i - 1 <= n && (e ==> i - 1 == k) && d == GreedyTail(i - 1, caps)
    else e && d == GreedyDone(k, caps)
  }

  /** An upper bound on the turns a greedy run has left. */
  function GreedyRank(k: nat, d: Config): nat {
    if d.frames == [] then 0
    else
      var i, top := |d.frames| - 1, Last(d.frames);
      if top.instr == 0 then 4 * k + 6
      else if top.instr == 1 && 1 <= i <= k + 1 then 4 * k + 6 - 2 * i
      else if top.instr == 2 && !top.backtracked && i <= k then 4 * k + 5 - 2 * i
      else if top.instr == 2 && d.iters != [] then 2 * i + 3
      else if top.instr == 2 then 2 * i + 2
      else if top.instr == 3 && 1 <= i then 2 * i - 1
      else 0
  }

  /** What one greedy turn from `d` must do: stay among the greedy states with a
      lower rank, or stop with the result the loop promises. */
  predicate GreedyOk(m: nat, n: nat, t: seq<Char>, caps: seq<Capture>, k: nat, d: Config, o: Outcome) {
    match o
    case Running(next) => GreedyState(m, n, k, t, caps, next) && GreedyRank(k, next) < GreedyRank(k, d)
    case Stopped(v, last) => LoopGoal(m, n, k, t, Result(v, last))
  }

  /** One greedy turn, as `RunRanked` needs it. */
  predicate GreedyLeads(m: nat, n: nat, t: seq<Char>, caps: seq<Capture>, k: nat, d: Config) {
    var p, s := Loop(RepeatGreedy, m, n), As(k) + t;
    Fits(p, d) && d.frames != [] && GreedyOk(m, n, t, caps, k, d, Step(p, s, d))
  }

  lemma GreedyStartState(m: nat, n: nat, t: seq<Char>, caps: seq<Capture>, k: nat)
    requires Setup(RepeatGreedy, m, n, t, caps)
    ensures var d := Start([], caps);
      GreedyState(m, n, k, t, caps, d) && GreedyRank(k, d) == 4 * k + 6
  {
  }

  lemma GreedyStartFits(m: nat, n: nat, t: seq<Char>, caps: seq<Capture>, k: nat)
    requires Setup(RepeatGreedy, m, n, t, caps)
    ensures Fits(Loop(RepeatGreedy, m, n), Start([], caps))
  {
  }

  lemma GreedyVisitState(m: nat, n: nat, t: seq<Char>, caps: seq<Capture>, k: nat, j: nat)
    requires Setup(RepeatGreedy, m, n, t, caps) && j <= k && j <= n
    ensures var d := GreedyVisit(j, caps);
      GreedyState(m, n, k, t, caps, d) && GreedyRank(k, d) == 4 * k + 5 - 2 * j
  {
    PushLast(Up(j), Frame(j, false, 2, 0), Frame(j, false, 2, 0));
  }

  lemma GreedyVisitFits(m: nat, n: nat, t: seq<Char>, caps: seq<Capture>, k: nat, j: nat)
    requires Setup(RepeatGreedy, m, n, t, caps) && j <= k && j <= n
    ensures Fits(Loop(RepeatGreedy, m, n), GreedyVisit(j, caps))
  {
  }

  lemma GreedyBodyState(m: nat, n: nat, t: seq<Char>, caps: seq<Capture>, k: nat, j: nat)
    requires Setup(RepeatGreedy, m, n, t, caps) && j <= k && j < n
    ensures var d := GreedyBody(j, caps);
      GreedyState(m, n, k, t, caps, d) && GreedyRank(k, d) == 4 * k + 4 - 2 * j
  {
    PushLast(Up(j + 1), Fresh(j, 1), Fresh(j, 1));
  }

  lemma GreedyBodyFits(m: nat, n: nat, t: seq<Char>, caps: seq<Capture>, k: nat, j: nat)
    requires Setup(RepeatGreedy, m, n, t, caps) && j <= k && j < n
    ensures Fits(Loop(RepeatGreedy, m, n), GreedyBody(j, caps))
  {
  }

  lemma GreedyCountedState(m: nat, n: nat, t: seq<Char>, caps: seq<Capture>, k: nat, j: nat)
    requires Setup(RepeatGreedy, m, n, t, caps) && j <= k && j <= n && (j == n || j == k)
    requires Expect(m, n, k, t) ==> j == k
    ensures var d := GreedyCounted(j, caps);
      GreedyState(m, n, k, t, caps, d) && GreedyRank(k, d) == 2 * j + 3
  {
    PushLast(Up(j), Frame(j, true, 2, j), Frame(j, true, 2, j));
  }

  lemma GreedyCountedFits(m: nat, n: nat, t: seq<Char>, caps: seq<Capture>, k: nat, j: nat)
    requires Setup(RepeatGreedy, m, n, t, caps) && j <= k && j <= n && (j == n || j == k)
    requires Expect(m, n, k, t) ==> j == k
    ensures Fits(Loop(RepeatGreedy, m, n), GreedyCounted(j, caps))
  {
  }

  lemma GreedyBackState(m: nat, n: nat, t: seq<Char>, caps: seq<Capture>, k: nat, j: nat)
    requires Setup(RepeatGreedy, m, n, t, caps) && j <= k && j <= n && (Expect(m, n, k, t) ==> j == k)
    ensures var d := GreedyBack(j, caps);
      GreedyState(m, n, k, t, caps, d) && GreedyRank(k, d) == 2 * j + 2
  {
    PushLast(Up(j), Frame(j, true, 2, j), Frame(j, true, 2, j));
  }

  lemma GreedyBackFits(m: nat, n: nat, t: seq<Char>, caps: seq<Capture>, k: nat, j: nat)
    requires Setup(RepeatGreedy, m, n, t, caps) && j <= k && j <= n && (Expect(m, n, k, t) ==> j == k)
    ensures Fits(Loop(RepeatGreedy, m, n), GreedyBack(j, caps))
  {
  }

  lemma GreedyTailState(m: nat, n: nat, t: seq<Char>, caps: seq<Capture>, k: nat, j: nat)
    requires Setup(RepeatGreedy, m, n, t, caps) && m <= j <= k && j <= n && (Expect(m, n, k, t) ==> j == k)
    ensures var d := GreedyTail(j, caps);
      GreedyState(m, n, k, t, caps, d) && GreedyRank(k, d) == 2 * j + 1
  {
    PushLast(Up(j) + [Frame(j, true, 2, j)], Fresh(j, 3), Fresh(j, 3));
  }

  lemma GreedyTailFits(m: nat, n: nat, t: seq<Char>, caps: seq<Capture>, k: nat, j: nat)
    requires Setup(RepeatGreedy, m, n, t, caps) && m <= j <= k && j <= n && (Expect(m, n, k, t) ==> j == k)
    ensures Fits(Loop(RepeatGreedy, m, n), GreedyTail(j, caps))
  {
  }

  lemma GreedyDoneState(m: nat, n: nat, t: seq<Char>, caps: seq<Capture>, k: nat)
    requires Setup(RepeatGreedy, m, n, t, caps) && Expect(m, n, k, t)
    ensures var d := GreedyDone(k, caps);
      GreedyState(m, n, k, t, caps, d) && GreedyRank(k, d) == 0
  {
    PushLast(Up(k) + [Frame(k, true, 2, k)], Frame(k + 1, false, 4, 0), Frame(k + 1, false, 4, 0));
  }

  lemma GreedyDoneFits(m: nat, n: nat, t: seq<Char>, caps: seq<Capture>, k: nat)
    requires Setup(RepeatGreedy, m, n, t, caps) && Expect(m, n, k, t)
    ensures Fits(Loop(RepeatGreedy, m, n), GreedyDone(k, caps))
  {
  }

  lemma GreedyLeadsStart(m: nat, n: nat, t: seq<Char>, caps: seq<Capture>, k: nat, d: Config)
    requires Setup(RepeatGreedy, m, n, t, caps)
    requires d == Start([], caps)
    ensures GreedyLeads(m, n, t, caps, k, d)
  {
    GreedyStartState(m, n, t, caps, k);
    GreedyStartFits(m, n, t, caps, k);
    StartJumps(RepeatGreedy, m, n, t, caps, k);
    GreedyVisitState(m, n, t, caps, k, 0);
  }

  lemma GreedyLeadsVisit(m: nat, n: nat, t: seq<Char>, caps: seq<Capture>, k: nat, j: nat, d: Config)
    requires Setup(RepeatGreedy, m, n, t, caps) && j <= k && j <= n
    requires d == GreedyVisit(j, caps)
    ensures GreedyLeads(m, n, t, caps, k, d)
  {
    GreedyVisitState(m, n, t, caps, k, j);
    GreedyVisitFits(m, n, t, caps, k, j);
    if j == n {
      GreedyAtMax(m, n, t, caps, k);
      GreedyCountedState(m, n, t, caps, k, n);
    } else {
      GreedyEnters(m, n, t, caps, k, j);
      GreedyBodyState(m, n, t, caps, k, j);
    }
  }

  lemma GreedyLeadsBody(m: nat, n: nat, t: seq<Char>, caps: seq<Capture>, k: nat, j: nat, d: Config)
    requires Setup(RepeatGreedy, m, n, t, caps) && j <= k && j < n
    requires d == GreedyBody(j, caps)
    ensures GreedyLeads(m, n, t, caps, k, d)
  {
    GreedyBodyState(m, n, t, caps, k, j);
    GreedyBodyFits(m, n, t, caps, k, j);
    if j < k {
      GreedyBodyMatches(m, n, t, caps, k, j);
      GreedyVisitState(m, n, t, caps, k, j + 1);
    } else {
      GreedyBodyFails(m, n, t, caps, k);
      GreedyCountedState(m, n, t, caps, k, k);
    }
  }

  lemma GreedyLeadsBack(m: nat, n: nat, t: seq<Char>, caps: seq<Capture>, k: nat, j: nat, d: Config)
    requires Setup(RepeatGreedy, m, n, t, caps) && j <= k && j <= n && (Expect(m, n, k, t) ==> j == k)
    requires d == GreedyBack(j, caps)
    ensures GreedyLeads(m, n, t, caps, k, d)
  {
    GreedyBackState(m, n, t, caps, k, j);
    GreedyBackFits(m, n, t, caps, k, j);
    if j < m {
      GreedyBackBelowMin(m, n, t, caps, k, j);
      if j > 0 {
        GreedyBackState(m, n, t, caps, k, j - 1);
      }
    } else {
      GreedyBackLeaves(m, n, t, caps, k, j);
      GreedyTailState(m, n, t, caps, k, j);
    }
  }

  lemma GreedyLeadsCounted(m: nat, n: nat, t: seq<Char>, caps: seq<Capture>, k: nat, j: nat, d: Config)
    requires Setup(RepeatGreedy, m, n, t, caps) && j <= k && j <= n && (j == n || j == k)
    requires Expect(m, n, k, t) ==> j == k
    requires d == GreedyCounted(j, caps)
    ensures GreedyLeads(m, n, t, caps, k, d)
  {
    GreedyCountedState(m, n, t, caps, k, j);
    GreedyCountedFits(m, n, t, caps, k, j);
    GreedyBackState(m, n, t, caps, k, j);
    GreedyDropsCounter(m, n, t, caps, k, j);
    GreedyLeadsBack(m, n, t, caps, k, j, GreedyBack(j, caps));
  }

  lemma GreedyLeadsTail(m: nat, n: nat, t: seq<Char>, caps: seq<Capture>, k: nat, j: nat, d: Config)
    requires Setup(RepeatGreedy, m, n, t, caps) && m <= j <= k && j <= n && (Expect(m, n, k, t) ==> j == k)
    requires d == GreedyTail(j, caps)
    ensures GreedyLeads(m, n, t, caps, k, d)
  {
    GreedyTailState(m, n, t, caps, k, j);
    GreedyTailFits(m, n, t, caps, k, j);
    if j == k && EndsInB(t) {
      GreedyTailMatches(m, n, t, caps, k);
      GreedyDoneState(m, n, t, caps, k);
    } else {
      GreedyTailFails(m, n, t, caps, k, j);
      if j > 0 {
        GreedyBackState(m, n, t, caps, k, j - 1);
      }
    }
  }

  lemma GreedyLeadsDone(m: nat, n: nat, t: seq<Char>, caps: seq<Capture>, k: nat, d: Config)
    requires Setup(RepeatGreedy, m, n, t, caps) && Expect(m, n, k, t)
    requires d == GreedyDone(k, caps)
    ensures GreedyLeads(m, n, t, caps, k, d)
  {
    GreedyDoneState(m, n, t, caps, k);
    GreedyDoneFits(m, n, t, caps, k);
    GreedyTailMatches(m, n, t, caps, k);
  }

  /** Every state of a greedy run takes its turn as `RunRanked` needs. */
  lemma GreedyLeadsAll(m: nat, n: nat, t: seq<Char>, caps: seq<Capture>, k: nat, d: Config)
    requires Setup(RepeatGreedy, m, n, t, caps) && GreedyState(m, n, k, t, caps, d)
    ensures GreedyLeads(m, n, t, caps, k, d)
  {
    var i, top := |d.frames| - 1, Last(d.frames);
    if top.instr == 0 {
      GreedyLeadsStart(m, n, t, caps, k, d);
    } else if top.instr == 1 {
      GreedyLeadsBody(m, n, t, caps, k, i - 1, d);
    } else if top.instr == 2 && !top.backtracked {
      GreedyLeadsVisit(m, n, t, caps, k, i, d);
    } else if top.instr == 2 && d.iters != [] {
      GreedyLeadsCounted(m, n, t, caps, k, i, d);
    } else if top.instr == 2 {
      GreedyLeadsBack(m, n, t, caps, k, i, d);
    } else if top.instr == 3 {
      GreedyLeadsTail(m, n, t, caps, k, i - 1, d);
    } else {
      GreedyLeadsDone(m, n, t, caps, k, d);
    }
  }

  // ---- lazy runs ----

  /** The states a lazy run passes through on `k` bytes `a` and then `t`. Once the
      run can only match, the states at the last count that would fail are left
      out. */
  predicate LazyState(m: nat, n: nat, k: nat, t: seq<Char>, caps: seq<Capture>, d: Config) {
    d.frames != [] &&
    var e, i, top := Expect(m, n, k, t), |d.frames| - 1, Last(d.frames);
    if top.instr == 0 then d == Start([], caps)
    else if top.instr == 1 then 1 <= i && i - 1 < n && i - 1 <= k && (e ==> i - 1 < k) && d == LazyBody(i - 1, caps)
    else if top.instr == 2 && !top.backtracked then i <= k && i <= n && d == LazyVisit(i, caps)
    else if top.instr == 2 then i <= k && i <= n && (e ==> i < k) && d == LazyBack(i, caps)
    else if top.instr == 3 then 1 <= i && m <= i - 1 <= k && i - 1 <= n && d == LazyTail(i - 1, caps)
    else e && d == LazyDone(k, caps)
  }

  /** An upper bound on the turns a lazy run has left. */
  function LazyRank(k: nat, d: Config): nat {
    if d.frames == [] then 0
    else
      var i, top := |d.frames| - 1, Last(d.frames);
      if top.instr == 0 then 4 * k + 6
      else if top.instr == 2 && !top.backtracked && i <= k then 4 * k + 4 - 4 * i
      else if top.instr == 2 && i <= k then 4 * k + 2 - 4 * i
      else if top.instr == 3 && 1 <= i <= k + 1 then 4 * k + 7 - 4 * i
      else if top.instr == 1 && 1 <= i <= k + 1 then 4 * k + 5 - 4 * i
      else 0
  }

  /** What one lazy turn from `d` must do: stay among the lazy states with a lower
      rank, or stop with the result the loop promises. */
  predicate LazyOk(m: nat, n: nat, t: seq<Char>, caps: seq<Capture>, k: nat, d: Config, o: Outcome) {
    match o
    case Running(next) => LazyState(m, n, k, t, caps, next) && LazyRank(k, next) < LazyRank(k, d)
    case Stopped(v, last) => LoopGoal(m, n, k, t, Result(v, last))
  }

  /** One lazy turn, as `RunRanked` needs it. */
  predicate LazyLeads(m: nat, n: nat, t: seq<Char>, caps: seq<Capture>, k: nat, d: Config) {
    var p, s := Loop(RepeatLazy, m, n), As(k) + t;
    Fits(p, d) && d.frames != [] && LazyOk(m, n, t, caps, k, d, Step(p, s, d))
  }

  lemma LazyStartState(m: nat, n: nat, t: seq<Char>, caps: seq<Capture>, k: nat)
    requires Setup(RepeatLazy, m, n, t, caps)
    ensures var d := Start([], caps);
      LazyState(m, n, k, t, caps, d) && LazyRank(k, d) == 4 * k + 6
  {
  }

  lemma LazyStartFits(m: nat, n: nat, t: seq<Char>, caps: seq<Capture>, k: nat)
    requires Setup(RepeatLazy, m, n, t, caps)
    ensures Fits(Loop(RepeatLazy, m, n), Start([], caps))
  {
  }

  lemma LazyVisitState(m: nat, n: nat, t: seq<Char>, caps: seq<Capture>, k: nat, j: nat)
    requires Setup(RepeatLazy, m, n, t, caps) && j <= k && j <= n
    ensures var d := LazyVisit(j, caps);
      LazyState(m, n, k, t, caps, d) && LazyRank(k, d) == 4 * k + 4 - 4 * j
  {
    PushLast(Down(j), Frame(j, false, 2, 0), Frame(j, false, 2, 0));
  }

  lemma LazyVisitFits(m: nat, n: nat, t: seq<Char>, caps: seq<Capture>, k: nat, j: nat)
    requires Setup(RepeatLazy, m, n, t, caps) && j <= k && j <= n
    ensures Fits(Loop(RepeatLazy, m, n), LazyVisit(j, caps))
  {
  }

  lemma LazyBackState(m: nat, n: nat, t: seq<Char>, caps: seq<Capture>, k: nat, j: nat)
    requires Setup(RepeatLazy, m, n, t, caps) && j <= k && j <= n && (Expect(m, n, k, t) ==> j < k)
    ensures var d := LazyBack(j, caps);
      LazyState(m, n, k, t, caps, d) && LazyRank(k, d) == 4 * k + 2 - 4 * j
  {
    PushLast(Down(j), Frame(j, true, 2, j), Frame(j, true, 2, j));
  }

  lemma LazyBackFits(m: nat, n: nat, t: seq<Char>, caps: seq<Capture>, k: nat, j: nat)
    requires Setup(RepeatLazy, m, n, t, caps) && j <= k && j <= n && (Expect(m, n, k, t) ==> j < k)
    ensures Fits(Loop(RepeatLazy, m, n), LazyBack(j, caps))
  {
  }

  lemma LazyTailState(m: nat, n: nat, t: seq<Char>, caps: seq<Capture>, k: nat, j: nat)
    requires Setup(RepeatLazy, m, n, t, caps) && m <= j <= k && j <= n
    ensures var d := LazyTail(j, caps);
      LazyState(m, n, k, t, caps, d) && LazyRank(k, d) == 4 * k + 3 - 4 * j
  {
    PushLast(Down(j) + [Frame(j, false, 2, j)], Fresh(j, 3), Fresh(j, 3));
  }

  lemma LazyTailFits(m: nat, n: nat, t: seq<Char>, caps: seq<Capture>, k: nat, j: nat)
    requires Setup(RepeatLazy, m, n, t, caps) && m <= j <= k && j <= n
    ensures Fits(Loop(RepeatLazy, m, n), LazyTail(j, caps))
  {
  }

  lemma LazyBodyState(m: nat, n: nat, t: seq<Char>, caps: seq<Capture>, k: nat, j: nat)
    requires Setup(RepeatLazy, m, n, t, caps) && j <= k && j < n && (Expect(m, n, k, t) ==> j < k)
    ensures var d := LazyBody(j, caps);
      LazyState(m, n, k, t, caps, d) && LazyRank(k, d) == 4 * k + 1 - 4 * j
  {
    PushLast(Down(j + 1), Fresh(j, 1), Fresh(j, 1));
  }

  lemma LazyBodyFits(m: nat, n: nat, t: seq<Char>, caps: seq<Capture>, k: nat, j: nat)
    requires Setup(RepeatLazy, m, n, t, caps) && j <= k && j < n && (Expect(m, n, k, t) ==> j < k)
    ensures Fits(Loop(RepeatLazy, m, n), LazyBody(j, caps))
  {
  }

  lemma LazyDoneState(m: nat, n: nat, t: seq<Char>, caps: seq<Capture>, k: nat)
    requires Setup(RepeatLazy, m, n, t, caps) && Expect(m, n, k, t)
    ensures var d := LazyDone(k, caps);
      LazyState(m, n, k, t, caps, d) && LazyRank(k, d) == 0
  {
    PushLast(Down(k) + [Frame(k, false, 2, k)], Frame(k + 1, false, 4, 0), Frame(k + 1, false, 4, 0));
  }

  lemma LazyDoneFits(m: nat, n: nat, t: seq<Char>, caps: seq<Capture>, k: nat)
    requires Setup(RepeatLazy, m, n, t, caps) && Expect(m, n, k, t)
    ensures Fits(Loop(RepeatLazy, m, n), LazyDone(k, caps))
  {
  }

  lemma LazyLeadsStart(m: nat, n: nat, t: seq<Char>, caps: seq<Capture>, k: nat, d: Config)
    requires Setup(RepeatLazy, m, n, t, caps)
    requires d == Start([], caps)
    ensures LazyLeads(m, n, t, caps, k, d)
  {
    LazyStartState(m, n, t, caps, k);
    LazyStartFits(m, n, t, caps, k);
    StartJumps(RepeatLazy, m, n, t, caps, k);
    LazyVisitState(m, n, t, caps, k, 0);
  }

  lemma LazyLeadsVisit(m: nat, n: nat, t: seq<Char>, caps: seq<Capture>, k: nat, j: nat, d: Config)
    requires Setup(RepeatLazy, m, n, t, caps) && j <= k && j <= n
    requires d == LazyVisit(j, caps)
    ensures LazyLeads(m, n, t, caps, k, d)
  {
    LazyVisitState(m, n, t, caps, k, j);
    LazyVisitFits(m, n, t, caps, k, j);
    if j < m {
      LazyBelowMin(m, n, t, caps, k, j);
      LazyBackState(m, n, t, caps, k, j);
    } else {
      LazyLeaves(m, n, t, caps, k, j);
      LazyTailState(m, n, t, caps, k, j);
    }
  }

  lemma LazyLeadsTail(m: nat, n: nat, t: seq<Char>, caps: seq<Capture>, k: nat, j: nat, d: Config)
    requires Setup(RepeatLazy, m, n, t, caps) && m <= j <= k && j <= n
    requires d == LazyTail(j, caps)
    ensures LazyLeads(m, n, t, caps, k, d)
  {
    LazyTailState(m, n, t, caps, k, j);
    LazyTailFits(m, n, t, caps, k, j);
    if j == k && EndsInB(t) {
      LazyTailMatches(m, n, t, caps, k);
      LazyDoneState(m, n, t, caps, k);
    } else {
      LazyTailFails(m, n, t, caps, k, j);
      LazyBackState(m, n, t, caps, k, j);
    }
  }

  lemma LazyLeadsBack(m: nat, n: nat, t: seq<Char>, caps: seq<Capture>, k: nat, j: nat, d: Config)
    requires Setup(RepeatLazy, m, n, t, caps) && j <= k && j <= n && (Expect(m, n, k, t) ==> j < k)
    requires d == LazyBack(j, caps)
    ensures LazyLeads(m, n, t, caps, k, d)
  {
    LazyBackState(m, n, t, caps, k, j);
    LazyBackFits(m, n, t, caps, k, j);
    if j == n {
      LazyBackAtMax(m, n, t, caps, k);
    } else {
      LazyBackEnters(m, n, t, caps, k, j);
      LazyBodyState(m, n, t, caps, k, j);
    }
  }

  lemma LazyLeadsBody(m: nat, n: nat, t: seq<Char>, caps: seq<Capture>, k: nat, j: nat, d: Config)
    requires Setup(RepeatLazy, m, n, t, caps) && j <= k && j < n && (Expect(m, n, k, t) ==> j < k)
    requires d == LazyBody(j, caps)
    ensures LazyLeads(m, n, t, caps, k, d)
  {
    LazyBodyState(m, n, t, caps, k, j);
    LazyBodyFits(m, n, t, caps, k, j);
    if j < k {
      LazyBodyMatches(m, n, t, caps, k, j);
      LazyVisitState(m, n, t, caps, k, j + 1);
    } else {
      LazyBodyFails(m, n, t, caps, k);
    }
  }

  lemma LazyLeadsDone(m: nat, n: nat, t: seq<Char>, caps: seq<Capture>, k: nat, d: Config)
    requires Setup(RepeatLazy, m, n, t, caps) && Expect(m, n, k, t)
    requires d == LazyDone(k, caps)
    ensures LazyLeads(m, n, t, caps, k, d)
  {
    LazyDoneState(m, n, t, caps, k);
    LazyDoneFits(m, n, t, caps, k);
    LazyTailMatches(m, n, t, caps, k);
  }

  /** Every state of a lazy run takes its turn as `RunRanked` needs. */
  lemma LazyLeadsAll(m: nat, n: nat, t: seq<Char>, caps: seq<Capture>, k: nat, d: Config)
    requires Setup(RepeatLazy, m, n, t, caps) && LazyState(m, n, k, t, caps, d)
    ensures LazyLeads(m, n, t, caps, k, d)
  {
    var i, top := |d.frames| - 1, Last(d.frames);
    if top.instr == 0 {
      LazyLeadsStart(m, n, t, caps, k, d);
    } else if top.instr == 1 {
      LazyLeadsBody(m, n, t, caps, k, i - 1, d);
    } else if top.instr == 2 && !top.backtracked {
      LazyLeadsVisit(m, n, t, caps, k, i, d);
    } else if top.instr == 2 {
      LazyLeadsBack(m, n, t, caps, k, i, d);
    } else if top.instr == 3 {
      LazyLeadsTail(m, n, t, caps, k, i - 1, d);
    } else {
      LazyLeadsDone(m, n, t, caps, k, d);
    }
  }

  // ---- the whole run ----

  /** `a{m,n}b` and `a{m,n}?b`, from the start state with an empty counter stack, on
      `k` bytes `a` followed by `t`: the run ends within `4 * k + 7` turns, it
      matches exactly when the loop may make `k` iterations and `t` starts with
      `b`, it reports no match otherwise, and it leaves no counter behind. */
  lemma LoopRun(kind: Opcode, m: nat, n: nat, k: nat, t: seq<Char>, caps: seq<Capture>, fuel: nat)
    requires Setup(kind, m, n, t, caps) && fuel >= 4 * k + 7
    ensures var r := Run(Loop(kind, m, n), As(k) + t, Start([], caps), fuel);
      && (r.verdict == Matched <==> m <= k <= n && EndsInB(t))
      && (r.verdict != Matched ==> r.verdict == NoMatch)
      && r.final.iters == []
  {
    var p, s := Loop(kind, m, n), As(k) + t;
    var turn := (d: Config) => if Fits(p, d) && d.frames != [] then Step(p, s, d) else Stopped(OutOfFuel, d);
    var goal := (r: Result) => LoopGoal(m, n, k, t, r);
    if kind == RepeatGreedy {
      var inv := (d: Config) => GreedyState(m, n, k, t, caps, d);
      var rank := (d: Config) => GreedyRank(k, d);
      forall d | inv(d)
        ensures Leads(turn, d, inv, rank, goal)
      {
        GreedyLeadsAll(m, n, t, caps, k, d);
      }
      GreedyStartState(m, n, t, caps, k);
      GreedyStartFits(m, n, t, caps, k);
      RunRanked(turn, Start([], caps), fuel, inv, rank, goal);
    } else {
      var inv := (d: Config) => LazyState(m, n, k, t, caps, d);
      var rank := (d: Config) => LazyRank(k, d);
      forall d | inv(d)
        ensures Leads(turn, d, inv, rank, goal)
      {
        LazyLeadsAll(m, n, t, caps, k, d);
      }
      LazyStartState(m, n, t, caps, k);
      LazyStartFits(m, n, t, caps, k);
      RunRanked(turn, Start([], caps), fuel, inv, rank, goal);
    }
    RunAsRunOf(p, s, Start([], caps), fuel, turn);
  }

  /** Greedy and lazy repeats accept the same subjects of this shape. */
  lemma GreedyLazyAgree(m: nat, n: nat, k: nat, t: seq<Char>, caps: seq<Capture>, fuel: nat)
    requires Setup(RepeatGreedy, m, n, t, caps) && fuel >= 4 * k + 7
    ensures Run(Loop(RepeatGreedy, m, n), As(k) + t, Start([], caps), fuel).verdict
         == Run(Loop(RepeatLazy, m, n), As(k) + t, Start([], caps), fuel).verdict
  {
    LoopRun(RepeatGreedy, m, n, k, t, caps, fuel);
    LoopRun(RepeatLazy, m, n, k, t, caps, fuel);
  }
}
