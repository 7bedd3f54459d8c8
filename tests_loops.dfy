/** The driver's "basic branching" and "specific number of iterations" tests, `a*b`
    and `a{3}b` with a greedy and with a lazy repeat. Each test runs the executor from
    its start state on a budget of 64 turns; every subject is `k` bytes `a` followed
    by nothing or by `b`s, so each result is an instance of `LoopRuns.LoopRun`. */
module LoopTests {
  import opened Bytecode
  import opened Machine
  import opened Programs
  import opened LoopRuns

  /** One driver test on a loop program: the subject is `k` bytes `a` and then `t`,
      and the run on the driver's budget of 64 turns ends as `LoopRun` says. */
  lemma LoopTest(kind: Opcode, m: nat, n: nat, k: nat, t: seq<Char>, s: seq<Char>)
    requires Setup(kind, m, n, t, NullCaptures) && s == As(k) + t && 4 * k + 7 <= 64
    ensures var r := Run(Loop(kind, m, n), s, Start([], NullCaptures), 64);
      && r.verdict == (if m <= k <= n && EndsInB(t) then Matched else NoMatch)
      && r.final.iters == []
  {
    LoopRun(kind, m, n, k, t, NullCaptures, 64);
  }

  /** `a*b` and `a*?b` accept "ab", "b" and "aaaab" and reject "aaaa", leaving no
      counter behind (v2/regex_test.c:80-100). */
  lemma StarTests(kind: Opcode)
    requires IsRepeat(kind)
    ensures Run(Star(kind), [97, 98], Start([], NullCaptures), 64).verdict == Matched
    ensures Run(Star(kind), [98], Start([], NullCaptures), 64).verdict == Matched
    ensures Run(Star(kind), [97, 97, 97, 97, 98], Start([], NullCaptures), 64).verdict == Matched
    ensures Run(Star(kind), [97, 97, 97, 97], Start([], NullCaptures), 64).verdict == NoMatch
    ensures Run(Star(kind), [97, 97, 97, 97], Start([], NullCaptures), 64).final.iters == []
  {
    StarLine95(kind);
    StarLine96(kind);
    StarLine97(kind);
    StarLine98(kind);
  }

  /** "ab" (v2/regex_test.c:95). */
  lemma StarLine95(kind: Opcode)
    requires IsRepeat(kind)
    ensures Run(Star(kind), [97, 98], Start([], NullCaptures), 64).verdict == Matched
  {
    LoopTest(kind, 0, MaxRepeats, 1, [98], [97, 98]);
  }

  /** "b" (v2/regex_test.c:96). */
  lemma StarLine96(kind: Opcode)
    requires IsRepeat(kind)
    ensures Run(Star(kind), [98], Start([], NullCaptures), 64).verdict == Matched
  {
    LoopTest(kind, 0, MaxRepeats, 0, [98], [98]);
  }

  /** "aaaab" (v2/regex_test.c:97). */
  lemma StarLine97(kind: Opcode)
    requires IsRepeat(kind)
    ensures Run(Star(kind), [97, 97, 97, 97, 98], Start([], NullCaptures), 64).verdict == Matched
  {
    LoopTest(kind, 0, MaxRepeats, 4, [98], [97, 97, 97, 97, 98]);
  }

  /** "aaaa" (v2/regex_test.c:98). */
  lemma StarLine98(kind: Opcode)
    requires IsRepeat(kind)
    ensures Run(Star(kind), [97, 97, 97, 97], Start([], NullCaptures), 64).verdict == NoMatch
    ensures Run(Star(kind), [97, 97, 97, 97], Start([], NullCaptures), 64).final.iters == []
  {
    LoopTest(kind, 0, MaxRepeats, 4, [], [97, 97, 97, 97]);
  }

  /** `a{3}b` and `a{3}?b` accept exactly three `a`s before a `b` and reject the
      rest, leaving no counter behind (v2/regex_test.c:103-125). */
  lemma Exactly3Tests(kind: Opcode)
    requires IsRepeat(kind)
    ensures Run(Exactly3(kind), [97, 97, 97, 98], Start([], NullCaptures), 64).verdict == Matched
    ensures Run(Exactly3(kind), [97, 97, 97, 98, 98], Start([], NullCaptures), 64).verdict == Matched
    ensures Run(Exactly3(kind), [97, 97, 97], Start([], NullCaptures), 64).verdict == NoMatch
    ensures Run(Exactly3(kind), [97, 97, 97], Start([], NullCaptures), 64).final.iters == []
    ensures Run(Exactly3(kind), [97, 97, 98], Start([], NullCaptures), 64).verdict == NoMatch
    ensures Run(Exactly3(kind), [97, 97, 98], Start([], NullCaptures), 64).final.iters == []
    ensures Run(Exactly3(kind), [97, 97, 97, 97, 97], Start([], NullCaptures), 64).verdict == NoMatch
    ensures Run(Exactly3(kind), [97, 97, 97, 97, 97], Start([], NullCaptures), 64).final.iters == []
    ensures Run(Exactly3(kind), [97, 97, 97, 97, 97, 98], Start([], NullCaptures), 64).verdict == NoMatch
    ensures Run(Exactly3(kind), [97, 97, 97, 97, 97, 98], Start([], NullCaptures), 64).final.iters == []
  {
    Exactly3Line118(kind);
    Exactly3Line119(kind);
    Exactly3Line120(kind);
    Exactly3Line121(kind);
    Exactly3Line122(kind);
    Exactly3Line123(kind);
  }

  /** "aaab" (v2/regex_test.c:118). */
  lemma Exactly3Line118(kind: Opcode)
    requires IsRepeat(kind)
    ensures Run(Exactly3(kind), [97, 97, 97, 98], Start([], NullCaptures), 64).verdict == Matched
  {
    LoopTest(kind, 3, 3, 3, [98], [97, 97, 97, 98]);
  }

  /** "aaabb" (v2/regex_test.c:119). */
  lemma Exactly3Line119(kind: Opcode)
    requires IsRepeat(kind)
    ensures Run(Exactly3(kind), [97, 97, 97, 98, 98], Start([], NullCaptures), 64).verdict == Matched
  {
    LoopTest(kind, 3, 3, 3, [98, 98], [97, 97, 97, 98, 98]);
  }

  /** "aaa" (v2/regex_test.c:120). */
  lemma Exactly3Line120(kind: Opcode)
    requires IsRepeat(kind)
    ensures Run(Exactly3(kind), [97, 97, 97], Start([], NullCaptures), 64).verdict == NoMatch
    ensures Run(Exactly3(kind), [97, 97, 97], Start([], NullCaptures), 64).final.iters == []
  {
    LoopTest(kind, 3, 3, 3, [], [97, 97, 97]);
  }

  /** "aab" (v2/regex_test.c:121). */
  lemma Exactly3Line121(kind: Opcode)
    requires IsRepeat(kind)
    ensures Run(Exactly3(kind), [97, 97, 98], Start([], NullCaptures), 64).verdict == NoMatch
    ensures Run(Exactly3(kind), [97, 97, 98], Start([], NullCaptures), 64).final.iters == []
  {
    LoopTest(kind, 3, 3, 2, [98], [97, 97, 98]);
  }

  /** "aaaaa" (v2/regex_test.c:122). */
  lemma Exactly3Line122(kind: Opcode)
    requires IsRepeat(kind)
    ensures Run(Exactly3(kind), [97, 97, 97, 97, 97], Start([], NullCaptures), 64).verdict == NoMatch
    ensures Run(Exactly3(kind), [97, 97, 97, 97, 97], Start([], NullCaptures), 64).final.iters == []
  {
    LoopTest(kind, 3, 3, 5, [], [97, 97, 97, 97, 97]);
  }

  /** "aaaaab" (v2/regex_test.c:123). */
  lemma Exactly3Line123(kind: Opcode)
    requires IsRepeat(kind)
    ensures Run(Exactly3(kind), [97, 97, 97, 97, 97, 98], Start([], NullCaptures), 64).verdict == NoMatch
    ensures Run(Exactly3(kind), [97, 97, 97, 97, 97, 98], Start([], NullCaptures), 64).final.iters == []
  {
    LoopTest(kind, 3, 3, 5, [98], [97, 97, 97, 97, 97, 98]);
  }
}
