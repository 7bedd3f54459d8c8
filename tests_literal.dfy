/** The driver's first two groups of tests: literal runs and charsets. Each test runs
    the executor from its start state on a budget of 64 turns. The test lemma chains the
    `Run` lemmas, each of which covers at most ten turns; each `Turns` lemma states the
    outcome of one turn of `Step` on the literal configurations of that run. */
module LiteralRuns {
  import opened Bytecode
  import opened Machine
  import opened Programs

  /** `aa` is matched as an anchored prefix: "aa", "aaa" and "aab" match, "ab" and "a" do not, and a failed run leaves no iteration counter behind (v2/regex_test.c:44-56). */
  lemma LiteralAaTests()
    ensures Run(LiteralAa, [97, 97], Start([], NullCaptures), 64).verdict == Matched
    ensures Run(LiteralAa, [97, 97, 97], Start([], NullCaptures), 64).verdict == Matched
    ensures Run(LiteralAa, [97, 97, 98], Start([], NullCaptures), 64).verdict == Matched
    ensures Run(LiteralAa, [97, 98], Start([], NullCaptures), 64).verdict == NoMatch
    ensures Run(LiteralAa, [97, 98], Start([], NullCaptures), 64).final.iters == []
    ensures Run(LiteralAa, [97], Start([], NullCaptures), 64).verdict == NoMatch
    ensures Run(LiteralAa, [97], Start([], NullCaptures), 64).final.iters == []
  {
    LiteralAaLine51();
    LiteralAaLine52();
    LiteralAaLine53();
    LiteralAaLine54();
    LiteralAaLine55();
  }

  /** "aa" (v2/regex_test.c:51): 2 turns. */
  lemma LiteralAaLine51()
    ensures Run(LiteralAa, [97, 97], Start([], NullCaptures), 64).verdict == Matched
  {
    LiteralAaLine51Turns0();
    LiteralAaLine51Turns1();
  }

  lemma LiteralAaLine51Turns0()
    ensures var p, s: seq<Char> := LiteralAa, [97, 97];
      Step(p, s, Config([Frame(0, false, 0, 0)], [], NullCaptures))
      == Running(Config([Frame(2, false, 1, 0)], [], NullCaptures))
  {
  }

  lemma LiteralAaLine51Turns1()
    ensures var p, s: seq<Char> := LiteralAa, [97, 97];
      Step(p, s, Config([Frame(2, false, 1, 0)], [], NullCaptures))
      == Stopped(Matched, Config([Frame(2, false, 1, 0)], [], NullCaptures))
  {
  }

  /** "aaa" (v2/regex_test.c:52): 2 turns. */
  lemma LiteralAaLine52()
    ensures Run(LiteralAa, [97, 97, 97], Start([], NullCaptures), 64).verdict == Matched
  {
    LiteralAaLine52Turns0();
    LiteralAaLine52Turns1();
  }

  lemma LiteralAaLine52Turns0()
    ensures var p, s: seq<Char> := LiteralAa, [97, 97, 97];
      Step(p, s, Config([Frame(0, false, 0, 0)], [], NullCaptures))
      == Running(Config([Frame(2, false, 1, 0)], [], NullCaptures))
  {
  }

  lemma LiteralAaLine52Turns1()
    ensures var p, s: seq<Char> := LiteralAa, [97, 97, 97];
      Step(p, s, Config([Frame(2, false, 1, 0)], [], NullCaptures))
      == Stopped(Matched, Config([Frame(2, false, 1, 0)], [], NullCaptures))
  {
  }

  /** "aab" (v2/regex_test.c:53): 2 turns. */
  lemma LiteralAaLine53()
    ensures Run(LiteralAa, [97, 97, 98], Start([], NullCaptures), 64).verdict == Matched
  {
    LiteralAaLine53Turns0();
    LiteralAaLine53Turns1();
  }

  lemma LiteralAaLine53Turns0()
    ensures var p, s: seq<Char> := LiteralAa, [97, 97, 98];
      Step(p, s, Config([Frame(0, false, 0, 0)], [], NullCaptures))
      == Running(Config([Frame(2, false, 1, 0)], [], NullCaptures))
  {
  }

  lemma LiteralAaLine53Turns1()
    ensures var p, s: seq<Char> := LiteralAa, [97, 97, 98];
      Step(p, s, Config([Frame(2, false, 1, 0)], [], NullCaptures))
      == Stopped(Matched, Config([Frame(2, false, 1, 0)], [], NullCaptures))
  {
  }

  /** "ab" (v2/regex_test.c:54): 1 turns. */
  lemma LiteralAaLine54()
    ensures Run(LiteralAa, [97, 98], Start([], NullCaptures), 64).verdict == NoMatch
    ensures Run(LiteralAa, [97, 98], Start([], NullCaptures), 64).final.iters == []
  {
    LiteralAaLine54Turns0();
  }

  lemma LiteralAaLine54Turns0()
    ensures var p, s: seq<Char> := LiteralAa, [97, 98];
      Step(p, s, Config([Frame(0, false, 0, 0)], [], NullCaptures))
      == Stopped(NoMatch, Config([], [], NullCaptures))
  {
    var p, s: seq<Char> := LiteralAa, [97, 98];
    assert s[0..2][1] != p.chars[0..2][1];
  }

  /** "a" (v2/regex_test.c:55): 1 turns. */
  lemma LiteralAaLine55()
    ensures Run(LiteralAa, [97], Start([], NullCaptures), 64).verdict == NoMatch
    ensures Run(LiteralAa, [97], Start([], NullCaptures), 64).final.iters == []
  {
    LiteralAaLine55Turns0();
  }

  lemma LiteralAaLine55Turns0()
    ensures var p, s: seq<Char> := LiteralAa, [97];
      Step(p, s, Config([Frame(0, false, 0, 0)], [], NullCaptures))
      == Stopped(NoMatch, Config([], [], NullCaptures))
  {
  }

  /** `[a-z][^A-Z]`: a lower-case letter followed by anything but an upper-case letter (v2/regex_test.c:59-77). */
  lemma RangesTests()
    ensures Run(Ranges, [97, 48], Start([], NullCaptures), 64).verdict == Matched
    ensures Run(Ranges, [122, 35], Start([], NullCaptures), 64).verdict == Matched
    ensures Run(Ranges, [102, 33], Start([], NullCaptures), 64).verdict == Matched
    ensures Run(Ranges, [102, 102], Start([], NullCaptures), 64).verdict == Matched
    ensures Run(Ranges, [65, 122], Start([], NullCaptures), 64).verdict == NoMatch
    ensures Run(Ranges, [65, 122], Start([], NullCaptures), 64).final.iters == []
    ensures Run(Ranges, [90, 97], Start([], NullCaptures), 64).verdict == NoMatch
    ensures Run(Ranges, [90, 97], Start([], NullCaptures), 64).final.iters == []
    ensures Run(Ranges, [97, 90], Start([], NullCaptures), 64).verdict == NoMatch
    ensures Run(Ranges, [97, 90], Start([], NullCaptures), 64).final.iters == []
    ensures Run(Ranges, [122, 65], Start([], NullCaptures), 64).verdict == NoMatch
    ensures Run(Ranges, [122, 65], Start([], NullCaptures), 64).final.iters == []
  {
    RangesLine69();
    RangesLine70();
    RangesLine71();
    RangesLine72();
    RangesLine73();
    RangesLine74();
    RangesLine75();
    RangesLine76();
  }

  /** "a0" (v2/regex_test.c:69): 3 turns. */
  lemma RangesLine69()
    ensures Run(Ranges, [97, 48], Start([], NullCaptures), 64).verdict == Matched
  {
    RangesLine69Turns0();
    RangesLine69Turns1();
    RangesLine69Turns2();
  }

  lemma RangesLine69Turns0()
    ensures var p, s: seq<Char> := Ranges, [97, 48];
      Step(p, s, Config([Frame(0, false, 0, 0)], [], NullCaptures))
      == Running(Config([Frame(1, false, 1, 0)], [], NullCaptures))
  {
    var p, s: seq<Char> := Ranges, [97, 48];
    assert p.chars[0..2][0] <= s[0] <= p.chars[0..2][1];
  }

  lemma RangesLine69Turns1()
    ensures var p, s: seq<Char> := Ranges, [97, 48];
      Step(p, s, Config([Frame(1, false, 1, 0)], [], NullCaptures))
      == Running(Config([Frame(2, false, 2, 0)], [], NullCaptures))
  {
  }

  lemma RangesLine69Turns2()
    ensures var p, s: seq<Char> := Ranges, [97, 48];
      Step(p, s, Config([Frame(2, false, 2, 0)], [], NullCaptures))
      == Stopped(Matched, Config([Frame(2, false, 2, 0)], [], NullCaptures))
  {
  }

  /** "z#" (v2/regex_test.c:70): 3 turns. */
  lemma RangesLine70()
    ensures Run(Ranges, [122, 35], Start([], NullCaptures), 64).verdict == Matched
  {
    RangesLine70Turns0();
    RangesLine70Turns1();
    RangesLine70Turns2();
  }

  lemma RangesLine70Turns0()
    ensures var p, s: seq<Char> := Ranges, [122, 35];
      Step(p, s, Config([Frame(0, false, 0, 0)], [], NullCaptures))
      == Running(Config([Frame(1, false, 1, 0)], [], NullCaptures))
  {
    var p, s: seq<Char> := Ranges, [122, 35];
    assert p.chars[0..2][0] <= s[0] <= p.chars[0..2][1];
  }

  lemma RangesLine70Turns1()
    ensures var p, s: seq<Char> := Ranges, [122, 35];
      Step(p, s, Config([Frame(1, false, 1, 0)], [], NullCaptures))
      == Running(Config([Frame(2, false, 2, 0)], [], NullCaptures))
  {
  }

  lemma RangesLine70Turns2()
    ensures var p, s: seq<Char> := Ranges, [122, 35];
      Step(p, s, Config([Frame(2, false, 2, 0)], [], NullCaptures))
      == Stopped(Matched, Config([Frame(2, false, 2, 0)], [], NullCaptures))
  {
  }

  /** "f!" (v2/regex_test.c:71): 3 turns. */
  lemma RangesLine71()
    ensures Run(Ranges, [102, 33], Start([], NullCaptures), 64).verdict == Matched
  {
    RangesLine71Turns0();
    RangesLine71Turns1();
    RangesLine71Turns2();
  }

  lemma RangesLine71Turns0()
    ensures var p, s: seq<Char> := Ranges, [102, 33];
      Step(p, s, Config([Frame(0, false, 0, 0)], [], NullCaptures))
      == Running(Config([Frame(1, false, 1, 0)], [], NullCaptures))
  {
    var p, s: seq<Char> := Ranges, [102, 33];
    assert p.chars[0..2][0] <= s[0] <= p.chars[0..2][1];
  }

  lemma RangesLine71Turns1()
    ensures var p, s: seq<Char> := Ranges, [102, 33];
      Step(p, s, Config([Frame(1, false, 1, 0)], [], NullCaptures))
      == Running(Config([Frame(2, false, 2, 0)], [], NullCaptures))
  {
  }

  lemma RangesLine71Turns2()
    ensures var p, s: seq<Char> := Ranges, [102, 33];
      Step(p, s, Config([Frame(2, false, 2, 0)], [], NullCaptures))
      == Stopped(Matched, Config([Frame(2, false, 2, 0)], [], NullCaptures))
  {
  }

  /** "ff" (v2/regex_test.c:72): 3 turns. */
  lemma RangesLine72()
    ensures Run(Ranges, [102, 102], Start([], NullCaptures), 64).verdict == Matched
  {
    RangesLine72Turns0();
    RangesLine72Turns1();
    RangesLine72Turns2();
  }

  lemma RangesLine72Turns0()
    ensures var p, s: seq<Char> := Ranges, [102, 102];
      Step(p, s, Config([Frame(0, false, 0, 0)], [], NullCaptures))
      == Running(Config([Frame(1, false, 1, 0)], [], NullCaptures))
  {
    var p, s: seq<Char> := Ranges, [102, 102];
    assert p.chars[0..2][0] <= s[0] <= p.chars[0..2][1];
  }

  lemma RangesLine72Turns1()
    ensures var p, s: seq<Char> := Ranges, [102, 102];
      Step(p, s, Config([Frame(1, false, 1, 0)], [], NullCaptures))
      == Running(Config([Frame(2, false, 2, 0)], [], NullCaptures))
  {
  }

  lemma RangesLine72Turns2()
    ensures var p, s: seq<Char> := Ranges, [102, 102];
      Step(p, s, Config([Frame(2, false, 2, 0)], [], NullCaptures))
      == Stopped(Matched, Config([Frame(2, false, 2, 0)], [], NullCaptures))
  {
  }

  /** "Az" (v2/regex_test.c:73): 1 turns. */
  lemma RangesLine73()
    ensures Run(Ranges, [65, 122], Start([], NullCaptures), 64).verdict == NoMatch
    ensures Run(Ranges, [65, 122], Start([], NullCaptures), 64).final.iters == []
  {
    RangesLine73Turns0();
  }

  lemma RangesLine73Turns0()
    ensures var p, s: seq<Char> := Ranges, [65, 122];
      Step(p, s, Config([Frame(0, false, 0, 0)], [], NullCaptures))
      == Stopped(NoMatch, Config([], [], NullCaptures))
  {
  }

  /** "Za" (v2/regex_test.c:74): 1 turns. */
  lemma RangesLine74()
    ensures Run(Ranges, [90, 97], Start([], NullCaptures), 64).verdict == NoMatch
    ensures Run(Ranges, [90, 97], Start([], NullCaptures), 64).final.iters == []
  {
    RangesLine74Turns0();
  }

  lemma RangesLine74Turns0()
    ensures var p, s: seq<Char> := Ranges, [90, 97];
      Step(p, s, Config([Frame(0, false, 0, 0)], [], NullCaptures))
      == Stopped(NoMatch, Config([], [], NullCaptures))
  {
  }

  /** "aZ" (v2/regex_test.c:75): 2 turns. */
  lemma RangesLine75()
    ensures Run(Ranges, [97, 90], Start([], NullCaptures), 64).verdict == NoMatch
    ensures Run(Ranges, [97, 90], Start([], NullCaptures), 64).final.iters == []
  {
    RangesLine75Turns0();
    RangesLine75Turns1();
  }

  lemma RangesLine75Turns0()
    ensures var p, s: seq<Char> := Ranges, [97, 90];
      Step(p, s, Config([Frame(0, false, 0, 0)], [], NullCaptures))
      == Running(Config([Frame(1, false, 1, 0)], [], NullCaptures))
  {
    var p, s: seq<Char> := Ranges, [97, 90];
    assert p.chars[0..2][0] <= s[0] <= p.chars[0..2][1];
  }

  lemma RangesLine75Turns1()
    ensures var p, s: seq<Char> := Ranges, [97, 90];
      Step(p, s, Config([Frame(1, false, 1, 0)], [], NullCaptures))
      == Stopped(NoMatch, Config([], [], NullCaptures))
  {
    var p, s: seq<Char> := Ranges, [97, 90];
    assert p.chars[2..4][0] <= s[1] <= p.chars[2..4][1];
  }

  /** "zA" (v2/regex_test.c:76): 2 turns. */
  lemma RangesLine76()
    ensures Run(Ranges, [122, 65], Start([], NullCaptures), 64).verdict == NoMatch
    ensures Run(Ranges, [122, 65], Start([], NullCaptures), 64).final.iters == []
  {
    RangesLine76Turns0();
    RangesLine76Turns1();
  }

  lemma RangesLine76Turns0()
    ensures var p, s: seq<Char> := Ranges, [122, 65];
      Step(p, s, Config([Frame(0, false, 0, 0)], [], NullCaptures))
      == Running(Config([Frame(1, false, 1, 0)], [], NullCaptures))
  {
    var p, s: seq<Char> := Ranges, [122, 65];
    assert p.chars[0..2][0] <= s[0] <= p.chars[0..2][1];
  }

  lemma RangesLine76Turns1()
    ensures var p, s: seq<Char> := Ranges, [122, 65];
      Step(p, s, Config([Frame(1, false, 1, 0)], [], NullCaptures))
      == Stopped(NoMatch, Config([], [], NullCaptures))
  {
    var p, s: seq<Char> := Ranges, [122, 65];
    assert p.chars[2..4][0] <= s[1] <= p.chars[2..4][1];
  }
}
