/** The driver's alternation tests, and a failed run that leaves an iteration counter on
    its stack. Each test runs the executor from its start state on a budget of 64 turns.
    The test lemma chains the `Run` lemmas, each of which covers at most ten turns; each
    `Turns` lemma states the outcome of one turn of `Step` on the literal configurations
    of that run. */
module AlternationRuns {
  import opened Bytecode
  import opened Machine
  import opened Programs

  /** `a|b` accepts "a" and "b" and rejects "c" (v2/regex_test.c:128-143). */
  lemma AlternationTests()
    ensures Run(Alternation, [97], Start([], NullCaptures), 64).verdict == Matched
    ensures Run(Alternation, [98], Start([], NullCaptures), 64).verdict == Matched
    ensures Run(Alternation, [99], Start([], NullCaptures), 64).verdict == NoMatch
    ensures Run(Alternation, [99], Start([], NullCaptures), 64).final.iters == []
  {
    AlternationLine140();
    AlternationLine141();
    AlternationLine142();
  }

  /** "a" (v2/regex_test.c:140): 4 turns. */
  lemma AlternationLine140()
    ensures Run(Alternation, [97], Start([], NullCaptures), 64).verdict == Matched
  {
    AlternationLine140Turns0();
    AlternationLine140Turns1();
    AlternationLine140Turns2();
    AlternationLine140Turns3();
  }

  lemma AlternationLine140Turns0()
    ensures var p, s: seq<Char> := Alternation, [97];
      Step(p, s, Config([Frame(0, false, 0, 0)], [], NullCaptures))
      == Running(Config([Frame(0, false, 0, 0), Frame(0, false, 1, 0)], [], NullCaptures))
  {
  }

  lemma AlternationLine140Turns1()
    ensures var p, s: seq<Char> := Alternation, [97];
      Step(p, s, Config([Frame(0, false, 0, 0), Frame(0, false, 1, 0)], [], NullCaptures))
      == Running(Config([Frame(0, false, 0, 0), Frame(1, false, 2, 0)], [], NullCaptures))
  {
  }

  lemma AlternationLine140Turns2()
    ensures var p, s: seq<Char> := Alternation, [97];
      Step(p, s, Config([Frame(0, false, 0, 0), Frame(1, false, 2, 0)], [], NullCaptures))
      == Running(Config([Frame(0, false, 0, 0), Frame(1, false, 4, 0)], [0], NullCaptures))
  {
  }

  lemma AlternationLine140Turns3()
    ensures var p, s: seq<Char> := Alternation, [97];
      Step(p, s, Config([Frame(0, false, 0, 0), Frame(1, false, 4, 0)], [0], NullCaptures))
      == Stopped(Matched, Config([Frame(0, false, 0, 0), Frame(1, false, 4, 0)], [0], NullCaptures))
  {
  }

  /** "b" (v2/regex_test.c:141): 5 turns. */
  lemma AlternationLine141()
    ensures Run(Alternation, [98], Start([], NullCaptures), 64).verdict == Matched
  {
    AlternationLine141Turns0();
    AlternationLine141Turns1();
    AlternationLine141Turns2();
    AlternationLine141Turns3();
    AlternationLine141Turns4();
  }

  lemma AlternationLine141Turns0()
    ensures var p, s: seq<Char> := Alternation, [98];
      Step(p, s, Config([Frame(0, false, 0, 0)], [], NullCaptures))
      == Running(Config([Frame(0, false, 0, 0), Frame(0, false, 1, 0)], [], NullCaptures))
  {
  }

  lemma AlternationLine141Turns1()
    ensures var p, s: seq<Char> := Alternation, [98];
      Step(p, s, Config([Frame(0, false, 0, 0), Frame(0, false, 1, 0)], [], NullCaptures))
      == Running(Config([Frame(0, true, 0, 0)], [], NullCaptures))
  {
    var p, s: seq<Char> := Alternation, [98];
    assert s[0..1][0] != p.chars[0..1][0];
  }

  lemma AlternationLine141Turns2()
    ensures var p, s: seq<Char> := Alternation, [98];
      Step(p, s, Config([Frame(0, true, 0, 0)], [], NullCaptures))
      == Running(Config([Frame(0, true, 0, 0), Frame(0, false, 3, 0)], [], NullCaptures))
  {
  }

  lemma AlternationLine141Turns3()
    ensures var p, s: seq<Char> := Alternation, [98];
      Step(p, s, Config([Frame(0, true, 0, 0), Frame(0, false, 3, 0)], [], NullCaptures))
      == Running(Config([Frame(0, true, 0, 0), Frame(1, false, 4, 0)], [], NullCaptures))
  {
  }

  lemma AlternationLine141Turns4()
    ensures var p, s: seq<Char> := Alternation, [98];
      Step(p, s, Config([Frame(0, true, 0, 0), Frame(1, false, 4, 0)], [], NullCaptures))
      == Stopped(Matched, Config([Frame(0, true, 0, 0), Frame(1, false, 4, 0)], [], NullCaptures))
  {
  }

  /** "c" (v2/regex_test.c:142): 4 turns. */
  lemma AlternationLine142()
    ensures Run(Alternation, [99], Start([], NullCaptures), 64).verdict == NoMatch
    ensures Run(Alternation, [99], Start([], NullCaptures), 64).final.iters == []
  {
    AlternationLine142Turns0();
    AlternationLine142Turns1();
    AlternationLine142Turns2();
    AlternationLine142Turns3();
  }

  lemma AlternationLine142Turns0()
    ensures var p, s: seq<Char> := Alternation, [99];
      Step(p, s, Config([Frame(0, false, 0, 0)], [], NullCaptures))
      == Running(Config([Frame(0, false, 0, 0), Frame(0, false, 1, 0)], [], NullCaptures))
  {
  }

  lemma AlternationLine142Turns1()
    ensures var p, s: seq<Char> := Alternation, [99];
      Step(p, s, Config([Frame(0, false, 0, 0), Frame(0, false, 1, 0)], [], NullCaptures))
      == Running(Config([Frame(0, true, 0, 0)], [], NullCaptures))
  {
    var p, s: seq<Char> := Alternation, [99];
    assert s[0..1][0] != p.chars[0..1][0];
  }

  lemma AlternationLine142Turns2()
    ensures var p, s: seq<Char> := Alternation, [99];
      Step(p, s, Config([Frame(0, true, 0, 0)], [], NullCaptures))
      == Running(Config([Frame(0, true, 0, 0), Frame(0, false, 3, 0)], [], NullCaptures))
  {
  }

  lemma AlternationLine142Turns3()
    ensures var p, s: seq<Char> := Alternation, [99];
      Step(p, s, Config([Frame(0, true, 0, 0), Frame(0, false, 3, 0)], [], NullCaptures))
      == Stopped(NoMatch, Config([], [], NullCaptures))
  {
    var p, s: seq<Char> := Alternation, [99];
    assert s[0..1][0] != p.chars[1..2][0];
    assert DropLast([Frame(0, true, 0, 0), Frame(0, false, 3, 0)]) == [Frame(0, true, 0, 0)];
    AlternationLine142Turns3Pop0();
  }

  lemma AlternationLine142Turns3Pop0()
    ensures var p: Program := Alternation;
      Unwind(p, [Frame(0, true, 0, 0)], [], NullCaptures)
      == Config([], [], NullCaptures)
  {
    assert DropLast([Frame(0, true, 0, 0)]) == [];
  }

  /** `(a|b)c` on "ab" fails, yet the counter pushed by the JUMP that ends the first
      branch is still on the stack: no backtrack pops a JUMP's counter, so the test
      driver's check that a failed run leaves no counter (v2/regex_test.c:21-27) holds
      only for the programs it runs. */
  lemma AlternationThenCLeaksCounter()
    ensures Run(AlternationThenC, [97, 98], Start([], NullCaptures), 64).verdict == NoMatch
    ensures Run(AlternationThenC, [97, 98], Start([], NullCaptures), 64).final.iters == [0]
  {
    AlternationThenCLeaksCounterTurns0();
    AlternationThenCLeaksCounterTurns1();
    AlternationThenCLeaksCounterTurns2();
    AlternationThenCLeaksCounterTurns3();
    AlternationThenCLeaksCounterTurns4();
    AlternationThenCLeaksCounterTurns5();
  }

  lemma AlternationThenCLeaksCounterTurns0()
    ensures var p, s: seq<Char> := AlternationThenC, [97, 98];
      Step(p, s, Config([Frame(0, false, 0, 0)], [], NullCaptures))
      == Running(Config([Frame(0, false, 0, 0), Frame(0, false, 1, 0)], [], NullCaptures))
  {
  }

  lemma AlternationThenCLeaksCounterTurns1()
    ensures var p, s: seq<Char> := AlternationThenC, [97, 98];
      Step(p, s, Config([Frame(0, false, 0, 0), Frame(0, false, 1, 0)], [], NullCaptures))
      == Running(Config([Frame(0, false, 0, 0), Frame(1, false, 2, 0)], [], NullCaptures))
  {
  }

  lemma AlternationThenCLeaksCounterTurns2()
    ensures var p, s: seq<Char> := AlternationThenC, [97, 98];
      Step(p, s, Config([Frame(0, false, 0, 0), Frame(1, false, 2, 0)], [], NullCaptures))
      == Running(Config([Frame(0, false, 0, 0), Frame(1, false, 4, 0)], [0], NullCaptures))
  {
  }

  lemma AlternationThenCLeaksCounterTurns3()
    ensures var p, s: seq<Char> := AlternationThenC, [97, 98];
      Step(p, s, Config([Frame(0, false, 0, 0), Frame(1, false, 4, 0)], [0], NullCaptures))
      == Running(Config([Frame(0, true, 0, 0)], [0], NullCaptures))
  {
    var p, s: seq<Char> := AlternationThenC, [97, 98];
    assert s[1..2][0] != p.chars[2..3][0];
  }

  lemma AlternationThenCLeaksCounterTurns4()
    ensures var p, s: seq<Char> := AlternationThenC, [97, 98];
      Step(p, s, Config([Frame(0, true, 0, 0)], [0], NullCaptures))
      == Running(Config([Frame(0, true, 0, 0), Frame(0, false, 3, 0)], [0], NullCaptures))
  {
  }

  lemma AlternationThenCLeaksCounterTurns5()
    ensures var p, s: seq<Char> := AlternationThenC, [97, 98];
      Step(p, s, Config([Frame(0, true, 0, 0), Frame(0, false, 3, 0)], [0], NullCaptures))
      == Stopped(NoMatch, Config([], [0], NullCaptures))
  {
    var p, s: seq<Char> := AlternationThenC, [97, 98];
    assert s[0..1][0] != p.chars[1..2][0];
    assert DropLast([Frame(0, true, 0, 0), Frame(0, false, 3, 0)]) == [Frame(0, true, 0, 0)];
    AlternationThenCLeaksCounterTurns5Pop0();
  }

  lemma AlternationThenCLeaksCounterTurns5Pop0()
    ensures var p: Program := AlternationThenC;
      Unwind(p, [Frame(0, true, 0, 0)], [0], NullCaptures)
      == Config([], [0], NullCaptures)
  {
    assert DropLast([Frame(0, true, 0, 0)]) == [];
  }
}
