/** The driver's "nested iterations" tests, `(a{1,2}b){1,3}` with greedy and with lazy
    repeats. Each test runs the executor from its start state on a budget of 64 turns.
    The test lemma chains the `Run` lemmas, each of which covers at most five turns;
    each `Turns` lemma states the outcome of one turn of `Step` on the literal
    configurations of that run. */
module NestedRuns {
  import opened Bytecode
  import opened Machine
  import opened Programs

  /** Greedy `(a{1,2}b){1,3}`: the inner and the outer loop each keep their own counter (v2/regex_test.c:146-170). */
  lemma NestedGreedyTests()
    ensures Run(Nested(RepeatGreedy), [97, 97, 98], Start([], NullCaptures), 64).verdict == Matched
    ensures Run(Nested(RepeatGreedy), [97, 97, 98, 97, 98], Start([], NullCaptures), 64).verdict == Matched
    ensures Run(Nested(RepeatGreedy), [97, 98, 97, 98, 97, 97, 98], Start([], NullCaptures), 64).verdict == Matched
    ensures Run(Nested(RepeatGreedy), [], Start([], NullCaptures), 64).verdict == NoMatch
    ensures Run(Nested(RepeatGreedy), [], Start([], NullCaptures), 64).final.iters == []
    ensures Run(Nested(RepeatGreedy), [97, 97, 97, 98, 98], Start([], NullCaptures), 64).verdict == NoMatch
    ensures Run(Nested(RepeatGreedy), [97, 97, 97, 98, 98], Start([], NullCaptures), 64).final.iters == []
    ensures Run(Nested(RepeatGreedy), [97, 97, 97], Start([], NullCaptures), 64).verdict == NoMatch
    ensures Run(Nested(RepeatGreedy), [97, 97, 97], Start([], NullCaptures), 64).final.iters == []
  {
    NestedGreedyLine163();
    NestedGreedyLine164();
    NestedGreedyLine165();
    NestedGreedyLine166();
    NestedGreedyLine167();
    NestedGreedyLine168();
  }

  /** "aab" (v2/regex_test.c:163): 17 turns. */
  lemma NestedGreedyLine163()
    ensures Run(Nested(RepeatGreedy), [97, 97, 98], Start([], NullCaptures), 64).verdict == Matched
  {
    NestedGreedyLine163Run0(64);
    NestedGreedyLine163Run5(59);
    NestedGreedyLine163Run10(54);
    NestedGreedyLine163Run15(49);
  }

  lemma NestedGreedyLine163Run0(fuel: nat)
    requires fuel >= 5
    ensures var p, s: seq<Char> := Nested(RepeatGreedy), [97, 97, 98];
      Run(p, s, Config([Frame(0, false, 0, 0)], [], NullCaptures), fuel)
      == Run(p, s, Config([Frame(0, false, 5, 0), Frame(0, false, 3, 0), Frame(1, false, 3, 0)], [1, 1], NullCaptures), fuel - 5)
  {
    var p, s: seq<Char> := Nested(RepeatGreedy), [97, 97, 98];
    var c0 := Config([Frame(0, false, 0, 0)], [], NullCaptures);
    var c1 := Config([Frame(0, false, 5, 0)], [0], NullCaptures);
    var c2 := Config([Frame(0, false, 5, 0), Frame(0, false, 1, 0)], [1], NullCaptures);
    var c3 := Config([Frame(0, false, 5, 0), Frame(0, false, 3, 0)], [1, 0], NullCaptures);
    var c4 := Config([Frame(0, false, 5, 0), Frame(0, false, 3, 0), Frame(0, false, 2, 0)], [1, 1], NullCaptures);
    var c5 := Config([Frame(0, false, 5, 0), Frame(0, false, 3, 0), Frame(1, false, 3, 0)], [1, 1], NullCaptures);
    NestedGreedyLine163Turns0();
    assert Run(p, s, c0, fuel - 0) == Run(p, s, c1, fuel - 1);
    NestedGreedyLine163Turns1();
    assert Run(p, s, c1, fuel - 1) == Run(p, s, c2, fuel - 2);
    NestedGreedyLine163Turns2();
    assert Run(p, s, c2, fuel - 2) == Run(p, s, c3, fuel - 3);
    NestedGreedyLine163Turns3();
    assert Run(p, s, c3, fuel - 3) == Run(p, s, c4, fuel - 4);
    NestedGreedyLine163Turns4();
  }

  lemma NestedGreedyLine163Run5(fuel: nat)
    requires fuel >= 5
    ensures var p, s: seq<Char> := Nested(RepeatGreedy), [97, 97, 98];
      Run(p, s, Config([Frame(0, false, 5, 0), Frame(0, false, 3, 0), Frame(1, false, 3, 0)], [1, 1], NullCaptures), fuel)
      == Run(p, s, Config([Frame(0, false, 5, 0), Frame(0, false, 3, 0), Frame(1, false, 3, 1), Frame(2, true, 3, 2), Frame(3, false, 5, 0)], [1], NullCaptures), fuel - 5)
  {
    var p, s: seq<Char> := Nested(RepeatGreedy), [97, 97, 98];
    var c5 := Config([Frame(0, false, 5, 0), Frame(0, false, 3, 0), Frame(1, false, 3, 0)], [1, 1], NullCaptures);
    var c6 := Config([Frame(0, false, 5, 0), Frame(0, false, 3, 0), Frame(1, false, 3, 1), Frame(1, false, 2, 0)], [1, 2], NullCaptures);
    var c7 := Config([Frame(0, false, 5, 0), Frame(0, false, 3, 0), Frame(1, false, 3, 1), Frame(2, false, 3, 0)], [1, 2], NullCaptures);
    var c8 := Config([Frame(0, false, 5, 0), Frame(0, false, 3, 0), Frame(1, false, 3, 1), Frame(2, true, 3, 2)], [1, 3], NullCaptures);
    var c9 := Config([Frame(0, false, 5, 0), Frame(0, false, 3, 0), Frame(1, false, 3, 1), Frame(2, true, 3, 2), Frame(2, false, 4, 0)], [1], NullCaptures);
    var c10 := Config([Frame(0, false, 5, 0), Frame(0, false, 3, 0), Frame(1, false, 3, 1), Frame(2, true, 3, 2), Frame(3, false, 5, 0)], [1], NullCaptures);
    NestedGreedyLine163Turns5();
    assert Run(p, s, c5, fuel - 0) == Run(p, s, c6, fuel - 1);
    NestedGreedyLine163Turns6();
    assert Run(p, s, c6, fuel - 1) == Run(p, s, c7, fuel - 2);
    NestedGreedyLine163Turns7();
    assert Run(p, s, c7, fuel - 2) == Run(p, s, c8, fuel - 3);
    NestedGreedyLine163Turns8();
    assert Run(p, s, c8, fuel - 3) == Run(p, s, c9, fuel - 4);
    NestedGreedyLine163Turns9();
  }

  lemma NestedGreedyLine163Run10(fuel: nat)
    requires fuel >= 5
    ensures var p, s: seq<Char> := Nested(RepeatGreedy), [97, 97, 98];
      Run(p, s, Config([Frame(0, false, 5, 0), Frame(0, false, 3, 0), Frame(1, false, 3, 1), Frame(2, true, 3, 2), Frame(3, false, 5, 0)], [1], NullCaptures), fuel)
      == Run(p, s, Config([Frame(0, false, 5, 0), Frame(0, false, 3, 0), Frame(1, false, 3, 1), Frame(2, true, 3, 2), Frame(3, true, 5, 1)], [2], NullCaptures), fuel - 5)
  {
    var p, s: seq<Char> := Nested(RepeatGreedy), [97, 97, 98];
    var c10 := Config([Frame(0, false, 5, 0), Frame(0, false, 3, 0), Frame(1, false, 3, 1), Frame(2, true, 3, 2), Frame(3, false, 5, 0)], [1], NullCaptures);
    var c11 := Config([Frame(0, false, 5, 0), Frame(0, false, 3, 0), Frame(1, false, 3, 1), Frame(2, true, 3, 2), Frame(3, false, 5, 1), Frame(3, false, 1, 0)], [2], NullCaptures);
    var c12 := Config([Frame(0, false, 5, 0), Frame(0, false, 3, 0), Frame(1, false, 3, 1), Frame(2, true, 3, 2), Frame(3, false, 5, 1), Frame(3, false, 3, 0)], [2, 0], NullCaptures);
    var c13 := Config([Frame(0, false, 5, 0), Frame(0, false, 3, 0), Frame(1, false, 3, 1), Frame(2, true, 3, 2), Frame(3, false, 5, 1), Frame(3, false, 3, 0), Frame(3, false, 2, 0)], [2, 1], NullCaptures);
    var c14 := Config([Frame(0, false, 5, 0), Frame(0, false, 3, 0), Frame(1, false, 3, 1), Frame(2, true, 3, 2), Frame(3, false, 5, 1), Frame(3, true, 3, 0)], [2, 1], NullCaptures);
    var c15 := Config([Frame(0, false, 5, 0), Frame(0, false, 3, 0), Frame(1, false, 3, 1), Frame(2, true, 3, 2), Frame(3, true, 5, 1)], [2], NullCaptures);
    NestedGreedyLine163Turns10();
    assert Run(p, s, c10, fuel - 0) == Run(p, s, c11, fuel - 1);
    NestedGreedyLine163Turns11();
    assert Run(p, s, c11, fuel - 1) == Run(p, s, c12, fuel - 2);
    NestedGreedyLine163Turns12();
    assert Run(p, s, c12, fuel - 2) == Run(p, s, c13, fuel - 3);
    NestedGreedyLine163Turns13();
    assert Run(p, s, c13, fuel - 3) == Run(p, s, c14, fuel - 4);
    NestedGreedyLine163Turns14();
  }

  lemma NestedGreedyLine163Run15(fuel: nat)
    requires fuel >= 2
    ensures var p, s: seq<Char> := Nested(RepeatGreedy), [97, 97, 98];
      Run(p, s, Config([Frame(0, false, 5, 0), Frame(0, false, 3, 0), Frame(1, false, 3, 1), Frame(2, true, 3, 2), Frame(3, true, 5, 1)], [2], NullCaptures), fuel)
      == Result(Matched, Config([Frame(0, false, 5, 0), Frame(0, false, 3, 0), Frame(1, false, 3, 1), Frame(2, true, 3, 2), Frame(3, true, 5, 1), Frame(3, false, 6, 0)], [], NullCaptures))
  {
    var p, s: seq<Char> := Nested(RepeatGreedy), [97, 97, 98];
    var c15 := Config([Frame(0, false, 5, 0), Frame(0, false, 3, 0), Frame(1, false, 3, 1), Frame(2, true, 3, 2), Frame(3, true, 5, 1)], [2], NullCaptures);
    var c16 := Config([Frame(0, false, 5, 0), Frame(0, false, 3, 0), Frame(1, false, 3, 1), Frame(2, true, 3, 2), Frame(3, true, 5, 1), Frame(3, false, 6, 0)], [], NullCaptures);
    NestedGreedyLine163Turns15();
    assert Run(p, s, c15, fuel - 0) == Run(p, s, c16, fuel - 1);
    NestedGreedyLine163Turns16();
  }

  lemma NestedGreedyLine163Turns0()
    ensures var p, s: seq<Char> := Nested(RepeatGreedy), [97, 97, 98];
      Step(p, s, Config([Frame(0, false, 0, 0)], [], NullCaptures))
      == Running(Config([Frame(0, false, 5, 0)], [0], NullCaptures))
  {
  }

  lemma NestedGreedyLine163Turns1()
    ensures var p, s: seq<Char> := Nested(RepeatGreedy), [97, 97, 98];
      Step(p, s, Config([Frame(0, false, 5, 0)], [0], NullCaptures))
      == Running(Config([Frame(0, false, 5, 0), Frame(0, false, 1, 0)], [1], NullCaptures))
  {
  }

  lemma NestedGreedyLine163Turns2()
    ensures var p, s: seq<Char> := Nested(RepeatGreedy), [97, 97, 98];
      Step(p, s, Config([Frame(0, false, 5, 0), Frame(0, false, 1, 0)], [1], NullCaptures))
      == Running(Config([Frame(0, false, 5, 0), Frame(0, false, 3, 0)], [1, 0], NullCaptures))
  {
  }

  lemma NestedGreedyLine163Turns3()
    ensures var p, s: seq<Char> := Nested(RepeatGreedy), [97, 97, 98];
      Step(p, s, Config([Frame(0, false, 5, 0), Frame(0, false, 3, 0)], [1, 0], NullCaptures))
      == Running(Config([Frame(0, false, 5, 0), Frame(0, false, 3, 0), Frame(0, false, 2, 0)], [1, 1], NullCaptures))
  {
  }

  lemma NestedGreedyLine163Turns4()
    ensures var p, s: seq<Char> := Nested(RepeatGreedy), [97, 97, 98];
      Step(p, s, Config([Frame(0, false, 5, 0), Frame(0, false, 3, 0), Frame(0, false, 2, 0)], [1, 1], NullCaptures))
      == Running(Config([Frame(0, false, 5, 0), Frame(0, false, 3, 0), Frame(1, false, 3, 0)], [1, 1], NullCaptures))
  {
  }

  lemma NestedGreedyLine163Turns5()
    ensures var p, s: seq<Char> := Nested(RepeatGreedy), [97, 97, 98];
      Step(p, s, Config([Frame(0, false, 5, 0), Frame(0, false, 3, 0), Frame(1, false, 3, 0)], [1, 1], NullCaptures))
      == Running(Config([Frame(0, false, 5, 0), Frame(0, false, 3, 0), Frame(1, false, 3, 1), Frame(1, false, 2, 0)], [1, 2], NullCaptures))
  {
  }

  lemma NestedGreedyLine163Turns6()
    ensures var p, s: seq<Char> := Nested(RepeatGreedy), [97, 97, 98];
      Step(p, s, Config([Frame(0, false, 5, 0), Frame(0, false, 3, 0), Frame(1, false, 3, 1), Frame(1, false, 2, 0)], [1, 2], NullCaptures))
      == Running(Config([Frame(0, false, 5, 0), Frame(0, false, 3, 0), Frame(1, false, 3, 1), Frame(2, false, 3, 0)], [1, 2], NullCaptures))
  {
  }

  lemma NestedGreedyLine163Turns7()
    ensures var p, s: seq<Char> := Nested(RepeatGreedy), [97, 97, 98];
      Step(p, s, Config([Frame(0, false, 5, 0), Frame(0, false, 3, 0), Frame(1, false, 3, 1), Frame(2, false, 3, 0)], [1, 2], NullCaptures))
      == Running(Config([Frame(0, false, 5, 0), Frame(0, false, 3, 0), Frame(1, false, 3, 1), Frame(2, true, 3, 2)], [1, 3], NullCaptures))
  {
  }

  lemma NestedGreedyLine163Turns8()
    ensures var p, s: seq<Char> := Nested(RepeatGreedy), [97, 97, 98];
      Step(p, s, Config([Frame(0, false, 5, 0), Frame(0, false, 3, 0), Frame(1, false, 3, 1), Frame(2, true, 3, 2)], [1, 3], NullCaptures))
      == Running(Config([Frame(0, false, 5, 0), Frame(0, false, 3, 0), Frame(1, false, 3, 1), Frame(2, true, 3, 2), Frame(2, false, 4, 0)], [1], NullCaptures))
  {
  }

  lemma NestedGreedyLine163Turns9()
    ensures var p, s: seq<Char> := Nested(RepeatGreedy), [97, 97, 98];
      Step(p, s, Config([Frame(0, false, 5, 0), Frame(0, false, 3, 0), Frame(1, false, 3, 1), Frame(2, true, 3, 2), Frame(2, false, 4, 0)], [1], NullCaptures))
      == Running(Config([Frame(0, false, 5, 0), Frame(0, false, 3, 0), Frame(1, false, 3, 1), Frame(2, true, 3, 2), Frame(3, false, 5, 0)], [1], NullCaptures))
  {
  }

  lemma NestedGreedyLine163Turns10()
    ensures var p, s: seq<Char> := Nested(RepeatGreedy), [97, 97, 98];
      Step(p, s, Config([Frame(0, false, 5, 0), Frame(0, false, 3, 0), Frame(1, false, 3, 1), Frame(2, true, 3, 2), Frame(3, false, 5, 0)], [1], NullCaptures))
      == Running(Config([Frame(0, false, 5, 0), Frame(0, false, 3, 0), Frame(1, false, 3, 1), Frame(2, true, 3, 2), Frame(3, false, 5, 1), Frame(3, false, 1, 0)], [2], NullCaptures))
  {
  }

  lemma NestedGreedyLine163Turns11()
    ensures var p, s: seq<Char> := Nested(RepeatGreedy), [97, 97, 98];
      Step(p, s, Config([Frame(0, false, 5, 0), Frame(0, false, 3, 0), Frame(1, false, 3, 1), Frame(2, true, 3, 2), Frame(3, false, 5, 1), Frame(3, false, 1, 0)], [2], NullCaptures))
      == Running(Config([Frame(0, false, 5, 0), Frame(0, false, 3, 0), Frame(1, false, 3, 1), Frame(2, true, 3, 2), Frame(3, false, 5, 1), Frame(3, false, 3, 0)], [2, 0], NullCaptures))
  {
  }

  lemma NestedGreedyLine163Turns12()
    ensures var p, s: seq<Char> := Nested(RepeatGreedy), [97, 97, 98];
      Step(p, s, Config([Frame(0, false, 5, 0), Frame(0, false, 3, 0), Frame(1, false, 3, 1), Frame(2, true, 3, 2), Frame(3, false, 5, 1), Frame(3, false, 3, 0)], [2, 0], NullCaptures))
      == Running(Config([Frame(0, false, 5, 0), Frame(0, false, 3, 0), Frame(1, false, 3, 1), Frame(2, true, 3, 2), Frame(3, false, 5, 1), Frame(3, false, 3, 0), Frame(3, false, 2, 0)], [2, 1], NullCaptures))
  {
  }

  lemma NestedGreedyLine163Turns13()
    ensures var p, s: seq<Char> := Nested(RepeatGreedy), [97, 97, 98];
      Step(p, s, Config([Frame(0, false, 5, 0), Frame(0, false, 3, 0), Frame(1, false, 3, 1), Frame(2, true, 3, 2), Frame(3, false, 5, 1), Frame(3, false, 3, 0), Frame(3, false, 2, 0)], [2, 1], NullCaptures))
      == Running(Config([Frame(0, false, 5, 0), Frame(0, false, 3, 0), Frame(1, false, 3, 1), Frame(2, true, 3, 2), Frame(3, false, 5, 1), Frame(3, true, 3, 0)], [2, 1], NullCaptures))
  {
  }

  lemma NestedGreedyLine163Turns14()
    ensures var p, s: seq<Char> := Nested(RepeatGreedy), [97, 97, 98];
      Step(p, s, Config([Frame(0, false, 5, 0), Frame(0, false, 3, 0), Frame(1, false, 3, 1), Frame(2, true, 3, 2), Frame(3, false, 5, 1), Frame(3, true, 3, 0)], [2, 1], NullCaptures))
      == Running(Config([Frame(0, false, 5, 0), Frame(0, false, 3, 0), Frame(1, false, 3, 1), Frame(2, true, 3, 2), Frame(3, true, 5, 1)], [2], NullCaptures))
  {
  }

  lemma NestedGreedyLine163Turns15()
    ensures var p, s: seq<Char> := Nested(RepeatGreedy), [97, 97, 98];
      Step(p, s, Config([Frame(0, false, 5, 0), Frame(0, false, 3, 0), Frame(1, false, 3, 1), Frame(2, true, 3, 2), Frame(3, true, 5, 1)], [2], NullCaptures))
      == Running(Config([Frame(0, false, 5, 0), Frame(0, false, 3, 0), Frame(1, false, 3, 1), Frame(2, true, 3, 2), Frame(3, true, 5, 1), Frame(3, false, 6, 0)], [], NullCaptures))
  {
  }

  lemma NestedGreedyLine163Turns16()
    ensures var p, s: seq<Char> := Nested(RepeatGreedy), [97, 97, 98];
      Step(p, s, Config([Frame(0, false, 5, 0), Frame(0, false, 3, 0), Frame(1, false, 3, 1), Frame(2, true, 3, 2), Frame(3, true, 5, 1), Frame(3, false, 6, 0)], [], NullCaptures))
      == Stopped(Matched, Config([Frame(0, false, 5, 0), Frame(0, false, 3, 0), Frame(1, false, 3, 1), Frame(2, true, 3, 2), Frame(3, true, 5, 1), Frame(3, false, 6, 0)], [], NullCaptures))
  {
  }

  /** "aabab" (v2/regex_test.c:164): 25 turns. */
  lemma NestedGreedyLine164()
    ensures Run(Nested(RepeatGreedy), [97, 97, 98, 97, 98], Start([], NullCaptures), 64).verdict == Matched
  {
    NestedGreedyLine164Run0(64);
    NestedGreedyLine164Run5(59);
    NestedGreedyLine164Run10(54);
    NestedGreedyLine164Run15(49);
    NestedGreedyLine164Run20(44);
  }

  lemma NestedGreedyLine164Run0(fuel: nat)
    requires fuel >= 5
    ensures var p, s: seq<Char> := Nested(RepeatGreedy), [97, 97, 98, 97, 98];
      Run(p, s, Config([Frame(0, false, 0, 0)], [], NullCaptures), fuel)
      == Run(p, s, Config([Frame(0, false, 5, 0), Frame(0, false, 3, 0), Frame(1, false, 3, 0)], [1, 1], NullCaptures), fuel - 5)
  {
    var p, s: seq<Char> := Nested(RepeatGreedy), [97, 97, 98, 97, 98];
    var c0 := Config([Frame(0, false, 0, 0)], [], NullCaptures);
    var c1 := Config([Frame(0, false, 5, 0)], [0], NullCaptures);
    var c2 := Config([Frame(0, false, 5, 0), Frame(0, false, 1, 0)], [1], NullCaptures);
    var c3 := Config([Frame(0, false, 5, 0), Frame(0, false, 3, 0)], [1, 0], NullCaptures);
    var c4 := Config([Frame(0, false, 5, 0), Frame(0, false, 3, 0), Frame(0, false, 2, 0)], [1, 1], NullCaptures);
    var c5 := Config([Frame(0, false, 5, 0), Frame(0, false, 3, 0), Frame(1, false, 3, 0)], [1, 1], NullCaptures);
    NestedGreedyLine164Turns0();
    assert Run(p, s, c0, fuel - 0) == Run(p, s, c1, fuel - 1);
    NestedGreedyLine164Turns1();
    assert Run(p, s, c1, fuel - 1) == Run(p, s, c2, fuel - 2);
    NestedGreedyLine164Turns2();
    assert Run(p, s, c2, fuel - 2) == Run(p, s, c3, fuel - 3);
    NestedGreedyLine164Turns3();
    assert Run(p, s, c3, fuel - 3) == Run(p, s, c4, fuel - 4);
    NestedGreedyLine164Turns4();
  }

  lemma NestedGreedyLine164Run5(fuel: nat)
    requires fuel >= 5
    ensures var p, s: seq<Char> := Nested(RepeatGreedy), [97, 97, 98, 97, 98];
      Run(p, s, Config([Frame(0, false, 5, 0), Frame(0, false, 3, 0), Frame(1, false, 3, 0)], [1, 1], NullCaptures), fuel)
      == Run(p, s, Config([Frame(0, false, 5, 0), Frame(0, false, 3, 0), Frame(1, false, 3, 1), Frame(2, true, 3, 2), Frame(3, false, 5, 0)], [1], NullCaptures), fuel - 5)
  {
    var p, s: seq<Char> := Nested(RepeatGreedy), [97, 97, 98, 97, 98];
    var c5 := Config([Frame(0, false, 5, 0), Frame(0, false, 3, 0), Frame(1, false, 3, 0)], [1, 1], NullCaptures);
    var c6 := Config([Frame(0, false, 5, 0), Frame(0, false, 3, 0), Frame(1, false, 3, 1), Frame(1, false, 2, 0)], [1, 2], NullCaptures);
    var c7 := Config([Frame(0, false, 5, 0), Frame(0, false, 3, 0), Frame(1, false, 3, 1), Frame(2, false, 3, 0)], [1, 2], NullCaptures);
    var c8 := Config([Frame(0, false, 5, 0), Frame(0, false, 3, 0), Frame(1, false, 3, 1), Frame(2, true, 3, 2)], [1, 3], NullCaptures);
    var c9 := Config([Frame(0, false, 5, 0), Frame(0, false, 3, 0), Frame(1, false, 3, 1), Frame(2, true, 3, 2), Frame(2, false, 4, 0)], [1], NullCaptures);
    var c10 := Config([Frame(0, false, 5, 0), Frame(0, false, 3, 0), Frame(1, false, 3, 1), Frame(2, true, 3, 2), Frame(3, false, 5, 0)], [1], NullCaptures);
    NestedGreedyLine164Turns5();
    assert Run(p, s, c5, fuel - 0) == Run(p, s, c6, fuel - 1);
    NestedGreedyLine164Turns6();
    assert Run(p, s, c6, fuel - 1) == Run(p, s, c7, fuel - 2);
    NestedGreedyLine164Turns7();
    assert Run(p, s, c7, fuel - 2) == Run(p, s, c8, fuel - 3);
    NestedGreedyLine164Turns8();
    assert Run(p, s, c8, fuel - 3) == Run(p, s, c9, fuel - 4);
    NestedGreedyLine164Turns9();
  }

  lemma NestedGreedyLine164Run10(fuel: nat)
    requires fuel >= 5
    ensures var p, s: seq<Char> := Nested(RepeatGreedy), [97, 97, 98, 97, 98];
      Run(p, s, Config([Frame(0, false, 5, 0), Frame(0, false, 3, 0), Frame(1, false, 3, 1), Frame(2, true, 3, 2), Frame(3, false, 5, 0)], [1], NullCaptures), fuel)
      == Run(p, s, Config([Frame(0, false, 5, 0), Frame(0, false, 3, 0), Frame(1, false, 3, 1), Frame(2, true, 3, 2), Frame(3, false, 5, 1), Frame(3, false, 3, 0), Frame(4, false, 3, 1), Frame(4, false, 2, 0)], [2, 2], NullCaptures), fuel - 5)
  {
    var p, s: seq<Char> := Nested(RepeatGreedy), [97, 97, 98, 97, 98];
    var c10 := Config([Frame(0, false, 5, 0), Frame(0, false, 3, 0), Frame(1, false, 3, 1), Frame(2, true, 3, 2), Frame(3, false, 5, 0)], [1], NullCaptures);
    var c11 := Config([Frame(0, false, 5, 0), Frame(0, false, 3, 0), Frame(1, false, 3, 1), Frame(2, true, 3, 2), Frame(3, false, 5, 1), Frame(3, false, 1, 0)], [2], NullCaptures);
    var c12 := Config([Frame(0, false, 5, 0), Frame(0, false, 3, 0), Frame(1, false, 3, 1), Frame(2, true, 3, 2), Frame(3, false, 5, 1), Frame(3, false, 3, 0)], [2, 0], NullCaptures);
    var c13 := Config([Frame(0, false, 5, 0), Frame(0, false, 3, 0), Frame(1, false, 3, 1), Frame(2, true, 3, 2), Frame(3, false, 5, 1), Frame(3, false, 3, 0), Frame(3, false, 2, 0)], [2, 1], NullCaptures);
    var c14 := Config([Frame(0, false, 5, 0), Frame(0, false, 3, 0), Frame(1, false, 3, 1), Frame(2, true, 3, 2), Frame(3, false, 5, 1), Frame(3, false, 3, 0), Frame(4, false, 3, 0)], [2, 1], NullCaptures);
    var c15 := Config([Frame(0, false, 5, 0), Frame(0, false, 3, 0), Frame(1, false, 3, 1), Frame(2, true, 3, 2), Frame(3, false, 5, 1), Frame(3, false, 3, 0), Frame(4, false, 3, 1), Frame(4, false, 2, 0)], [2, 2], NullCaptures);
    NestedGreedyLine164Turns10();
    assert Run(p, s, c10, fuel - 0) == Run(p, s, c11, fuel - 1);
    NestedGreedyLine164Turns11();
    assert Run(p, s, c11, fuel - 1) == Run(p, s, c12, fuel - 2);
    NestedGreedyLine164Turns12();
    assert Run(p, s, c12, fuel - 2) == Run(p, s, c13, fuel - 3);
    NestedGreedyLine164Turns13();
    assert Run(p, s, c13, fuel - 3) == Run(p, s, c14, fuel - 4);
    NestedGreedyLine164Turns14();
  }

  lemma NestedGreedyLine164Run15(fuel: nat)
    requires fuel >= 5
    ensures var p, s: seq<Char> := Nested(RepeatGreedy), [97, 97, 98, 97, 98];
      Run(p, s, Config([Frame(0, false, 5, 0), Frame(0, false, 3, 0), Frame(1, false, 3, 1), Frame(2, true, 3, 2), Frame(3, false, 5, 1), Frame(3, false, 3, 0), Frame(4, false, 3, 1), Frame(4, false, 2, 0)], [2, 2], NullCaptures), fuel)
      == Run(p, s, Config([Frame(0, false, 5, 0), Frame(0, false, 3, 0), Frame(1, false, 3, 1), Frame(2, true, 3, 2), Frame(3, false, 5, 1), Frame(3, false, 3, 0), Frame(4, true, 3, 1), Frame(5, false, 5, 2), Frame(5, false, 3, 0)], [3, 0], NullCaptures), fuel - 5)
  {
    var p, s: seq<Char> := Nested(RepeatGreedy), [97, 97, 98, 97, 98];
    var c15 := Config([Frame(0, false, 5, 0), Frame(0, false, 3, 0), Frame(1, false, 3, 1), Frame(2, true, 3, 2), Frame(3, false, 5, 1), Frame(3, false, 3, 0), Frame(4, false, 3, 1), Frame(4, false, 2, 0)], [2, 2], NullCaptures);
    var c16 := Config([Frame(0, false, 5, 0), Frame(0, false, 3, 0), Frame(1, false, 3, 1), Frame(2, true, 3, 2), Frame(3, false, 5, 1), Frame(3, false, 3, 0), Frame(4, true, 3, 1)], [2, 2], NullCaptures);
    var c17 := Config([Frame(0, false, 5, 0), Frame(0, false, 3, 0), Frame(1, false, 3, 1), Frame(2, true, 3, 2), Frame(3, false, 5, 1), Frame(3, false, 3, 0), Frame(4, true, 3, 1), Frame(4, false, 4, 0)], [2], NullCaptures);
    var c18 := Config([Frame(0, false, 5, 0), Frame(0, false, 3, 0), Frame(1, false, 3, 1), Frame(2, true, 3, 2), Frame(3, false, 5, 1), Frame(3, false, 3, 0), Frame(4, true, 3, 1), Frame(5, false, 5, 0)], [2], NullCaptures);
    var c19 := Config([Frame(0, false, 5, 0), Frame(0, false, 3, 0), Frame(1, false, 3, 1), Frame(2, true, 3, 2), Frame(3, false, 5, 1), Frame(3, false, 3, 0), Frame(4, true, 3, 1), Frame(5, false, 5, 2), Frame(5, false, 1, 0)], [3], NullCaptures);
    var c20 := Config([Frame(0, false, 5, 0), Frame(0, false, 3, 0), Frame(1, false, 3, 1), Frame(2, true, 3, 2), Frame(3, false, 5, 1), Frame(3, false, 3, 0), Frame(4, true, 3, 1), Frame(5, false, 5, 2), Frame(5, false, 3, 0)], [3, 0], NullCaptures);
    NestedGreedyLine164Turns15();
    assert Run(p, s, c15, fuel - 0) == Run(p, s, c16, fuel - 1);
    NestedGreedyLine164Turns16();
    assert Run(p, s, c16, fuel - 1) == Run(p, s, c17, fuel - 2);
    NestedGreedyLine164Turns17();
    assert Run(p, s, c17, fuel - 2) == Run(p, s, c18, fuel - 3);
    NestedGreedyLine164Turns18();
    assert Run(p, s, c18, fuel - 3) == Run(p, s, c19, fuel - 4);
    NestedGreedyLine164Turns19();
  }

  lemma NestedGreedyLine164Run20(fuel: nat)
    requires fuel >= 5
    ensures var p, s: seq<Char> := Nested(RepeatGreedy), [97, 97, 98, 97, 98];
      Run(p, s, Config([Frame(0, false, 5, 0), Frame(0, false, 3, 0), Frame(1, false, 3, 1), Frame(2, true, 3, 2), Frame(3, false, 5, 1), Frame(3, false, 3, 0), Frame(4, true, 3, 1), Frame(5, false, 5, 2), Frame(5, false, 3, 0)], [3, 0], NullCaptures), fuel)
      == Result(Matched, Config([Frame(0, false, 5, 0), Frame(0, false, 3, 0), Frame(1, false, 3, 1), Frame(2, true, 3, 2), Frame(3, false, 5, 1), Frame(3, false, 3, 0), Frame(4, true, 3, 1), Frame(5, true, 5, 2), Frame(5, false, 6, 0)], [], NullCaptures))
  {
    var p, s: seq<Char> := Nested(RepeatGreedy), [97, 97, 98, 97, 98];
    var c20 := Config([Frame(0, false, 5, 0), Frame(0, false, 3, 0), Frame(1, false, 3, 1), Frame(2, true, 3, 2), Frame(3, false, 5, 1), Frame(3, false, 3, 0), Frame(4, true, 3, 1), Frame(5, false, 5, 2), Frame(5, false, 3, 0)], [3, 0], NullCaptures);
    var c21 := Config([Frame(0, false, 5, 0), Frame(0, false, 3, 0), Frame(1, false, 3, 1), Frame(2, true, 3, 2), Frame(3, false, 5, 1), Frame(3, false, 3, 0), Frame(4, true, 3, 1), Frame(5, false, 5, 2), Frame(5, false, 3, 0), Frame(5, false, 2, 0)], [3, 1], NullCaptures);
    var c22 := Config([Frame(0, false, 5, 0), Frame(0, false, 3, 0), Frame(1, false, 3, 1), Frame(2, true, 3, 2), Frame(3, false, 5, 1), Frame(3, false, 3, 0), Frame(4, true, 3, 1), Frame(5, false, 5, 2), Frame(5, true, 3, 0)], [3, 1], NullCaptures);
    var c23 := Config([Frame(0, false, 5, 0), Frame(0, false, 3, 0), Frame(1, false, 3, 1), Frame(2, true, 3, 2), Frame(3, false, 5, 1), Frame(3, false, 3, 0), Frame(4, true, 3, 1), Frame(5, true, 5, 2)], [3], NullCaptures);
    var c24 := Config([Frame(0, false, 5, 0), Frame(0, false, 3, 0), Frame(1, false, 3, 1), Frame(2, true, 3, 2), Frame(3, false, 5, 1), Frame(3, false, 3, 0), Frame(4, true, 3, 1), Frame(5, true, 5, 2), Frame(5, false, 6, 0)], [], NullCaptures);
    NestedGreedyLine164Turns20();
    assert Run(p, s, c20, fuel - 0) == Run(p, s, c21, fuel - 1);
    NestedGreedyLine164Turns21();
    assert Run(p, s, c21, fuel - 1) == Run(p, s, c22, fuel - 2);
    NestedGreedyLine164Turns22();
    assert Run(p, s, c22, fuel - 2) == Run(p, s, c23, fuel - 3);
    NestedGreedyLine164Turns23();
    assert Run(p, s, c23, fuel - 3) == Run(p, s, c24, fuel - 4);
    NestedGreedyLine164Turns24();
  }

  lemma NestedGreedyLine164Turns0()
    ensures var p, s: seq<Char> := Nested(RepeatGreedy), [97, 97, 98, 97, 98];
      Step(p, s, Config([Frame(0, false, 0, 0)], [], NullCaptures))
      == Running(Config([Frame(0, false, 5, 0)], [0], NullCaptures))
  {
  }

  lemma NestedGreedyLine164Turns1()
    ensures var p, s: seq<Char> := Nested(RepeatGreedy), [97, 97, 98, 97, 98];
      Step(p, s, Config([Frame(0, false, 5, 0)], [0], NullCaptures))
      == Running(Config([Frame(0, false, 5, 0), Frame(0, false, 1, 0)], [1], NullCaptures))
  {
  }

  lemma NestedGreedyLine164Turns2()
    ensures var p, s: seq<Char> := Nested(RepeatGreedy), [97, 97, 98, 97, 98];
      Step(p, s, Config([Frame(0, false, 5, 0), Frame(0, false, 1, 0)], [1], NullCaptures))
      == Running(Config([Frame(0, false, 5, 0), Frame(0, false, 3, 0)], [1, 0], NullCaptures))
  {
  }

  lemma NestedGreedyLine164Turns3()
    ensures var p, s: seq<Char> := Nested(RepeatGreedy), [97, 97, 98, 97, 98];
      Step(p, s, Config([Frame(0, false, 5, 0), Frame(0, false, 3, 0)], [1, 0], NullCaptures))
      == Running(Config([Frame(0, false, 5, 0), Frame(0, false, 3, 0), Frame(0, false, 2, 0)], [1, 1], NullCaptures))
  {
  }

  lemma NestedGreedyLine164Turns4()
    ensures var p, s: seq<Char> := Nested(RepeatGreedy), [97, 97, 98, 97, 98];
      Step(p, s, Config([Frame(0, false, 5, 0), Frame(0, false, 3, 0), Frame(0, false, 2, 0)], [1, 1], NullCaptures))
      == Running(Config([Frame(0, false, 5, 0), Frame(0, false, 3, 0), Frame(1, false, 3, 0)], [1, 1], NullCaptures))
  {
  }

  lemma NestedGreedyLine164Turns5()
    ensures var p, s: seq<Char> := Nested(RepeatGreedy), [97, 97, 98, 97, 98];
      Step(p, s, Config([Frame(0, false, 5, 0), Frame(0, false, 3, 0), Frame(1, false, 3, 0)], [1, 1], NullCaptures))
      == Running(Config([Frame(0, false, 5, 0), Frame(0, false, 3, 0), Frame(1, false, 3, 1), Frame(1, false, 2, 0)], [1, 2], NullCaptures))
  {
  }

  lemma NestedGreedyLine164Turns6()
    ensures var p, s: seq<Char> := Nested(RepeatGreedy), [97, 97, 98, 97, 98];
      Step(p, s, Config([Frame(0, false, 5, 0), Frame(0, false, 3, 0), Frame(1, false, 3, 1), Frame(1, false, 2, 0)], [1, 2], NullCaptures))
      == Running(Config([Frame(0, false, 5, 0), Frame(0, false, 3, 0), Frame(1, false, 3, 1), Frame(2, false, 3, 0)], [1, 2], NullCaptures))
  {
  }

  lemma NestedGreedyLine164Turns7()
    ensures var p, s: seq<Char> := Nested(RepeatGreedy), [97, 97, 98, 97, 98];
      Step(p, s, Config([Frame(0, false, 5, 0), Frame(0, false, 3, 0), Frame(1, false, 3, 1), Frame(2, false, 3, 0)], [1, 2], NullCaptures))
      == Running(Config([Frame(0, false, 5, 0), Frame(0, false, 3, 0), Frame(1, false, 3, 1), Frame(2, true, 3, 2)], [1, 3], NullCaptures))
  {
  }

  lemma NestedGreedyLine164Turns8()
    ensures var p, s: seq<Char> := Nested(RepeatGreedy), [97, 97, 98, 97, 98];
      Step(p, s, Config([Frame(0, false, 5, 0), Frame(0, false, 3, 0), Frame(1, false, 3, 1), Frame(2, true, 3, 2)], [1, 3], NullCaptures))
      == Running(Config([Frame(0, false, 5, 0), Frame(0, false, 3, 0), Frame(1, false, 3, 1), Frame(2, true, 3, 2), Frame(2, false, 4, 0)], [1], NullCaptures))
  {
  }

  lemma NestedGreedyLine164Turns9()
    ensures var p, s: seq<Char> := Nested(RepeatGreedy), [97, 97, 98, 97, 98];
      Step(p, s, Config([Frame(0, false, 5, 0), Frame(0, false, 3, 0), Frame(1, false, 3, 1), Frame(2, true, 3, 2), Frame(2, false, 4, 0)], [1], NullCaptures))
      == Running(Config([Frame(0, false, 5, 0), Frame(0, false, 3, 0), Frame(1, false, 3, 1), Frame(2, true, 3, 2), Frame(3, false, 5, 0)], [1], NullCaptures))
  {
  }

  lemma NestedGreedyLine164Turns10()
    ensures var p, s: seq<Char> := Nested(RepeatGreedy), [97, 97, 98, 97, 98];
      Step(p, s, Config([Frame(0, false, 5, 0), Frame(0, false, 3, 0), Frame(1, false, 3, 1), Frame(2, true, 3, 2), Frame(3, false, 5, 0)], [1], NullCaptures))
      == Running(Config([Frame(0, false, 5, 0), Frame(0, false, 3, 0), Frame(1, false, 3, 1), Frame(2, true, 3, 2), Frame(3, false, 5, 1), Frame(3, false, 1, 0)], [2], NullCaptures))
  {
  }

  lemma NestedGreedyLine164Turns11()
    ensures var p, s: seq<Char> := Nested(RepeatGreedy), [97, 97, 98, 97, 98];
      Step(p, s, Config([Frame(0, false, 5, 0), Frame(0, false, 3, 0), Frame(1, false, 3, 1), Frame(2, true, 3, 2), Frame(3, false, 5, 1), Frame(3, false, 1, 0)], [2], NullCaptures))
      == Running(Config([Frame(0, false, 5, 0), Frame(0, false, 3, 0), Frame(1, false, 3, 1), Frame(2, true, 3, 2), Frame(3, false, 5, 1), Frame(3, false, 3, 0)], [2, 0], NullCaptures))
  {
  }

  lemma NestedGreedyLine164Turns12()
    ensures var p, s: seq<Char> := Nested(RepeatGreedy), [97, 97, 98, 97, 98];
      Step(p, s, Config([Frame(0, false, 5, 0), Frame(0, false, 3, 0), Frame(1, false, 3, 1), Frame(2, true, 3, 2), Frame(3, false, 5, 1), Frame(3, false, 3, 0)], [2, 0], NullCaptures))
      == Running(Config([Frame(0, false, 5, 0), Frame(0, false, 3, 0), Frame(1, false, 3, 1), Frame(2, true, 3, 2), Frame(3, false, 5, 1), Frame(3, false, 3, 0), Frame(3, false, 2, 0)], [2, 1], NullCaptures))
  {
  }

  lemma NestedGreedyLine164Turns13()
    ensures var p, s: seq<Char> := Nested(RepeatGreedy), [97, 97, 98, 97, 98];
      Step(p, s, Config([Frame(0, false, 5, 0), Frame(0, false, 3, 0), Frame(1, false, 3, 1), Frame(2, true, 3, 2), Frame(3, false, 5, 1), Frame(3, false, 3, 0), Frame(3, false, 2, 0)], [2, 1], NullCaptures))
      == Running(Config([Frame(0, false, 5, 0), Frame(0, false, 3, 0), Frame(1, false, 3, 1), Frame(2, true, 3, 2), Frame(3, false, 5, 1), Frame(3, false, 3, 0), Frame(4, false, 3, 0)], [2, 1], NullCaptures))
  {
  }

  lemma NestedGreedyLine164Turns14()
    ensures var p, s: seq<Char> := Nested(RepeatGreedy), [97, 97, 98, 97, 98];
      Step(p, s, Config([Frame(0, false, 5, 0), Frame(0, false, 3, 0), Frame(1, false, 3, 1), Frame(2, true, 3, 2), Frame(3, false, 5, 1), Frame(3, false, 3, 0), Frame(4, false, 3, 0)], [2, 1], NullCaptures))
      == Running(Config([Frame(0, false, 5, 0), Frame(0, false, 3, 0), Frame(1, false, 3, 1), Frame(2, true, 3, 2), Frame(3, false, 5, 1), Frame(3, false, 3, 0), Frame(4, false, 3, 1), Frame(4, false, 2, 0)], [2, 2], NullCaptures))
  {
  }

  lemma NestedGreedyLine164Turns15()
    ensures var p, s: seq<Char> := Nested(RepeatGreedy), [97, 97, 98, 97, 98];
      Step(p, s, Config([Frame(0, false, 5, 0), Frame(0, false, 3, 0), Frame(1, false, 3, 1), Frame(2, true, 3, 2), Frame(3, false, 5, 1), Frame(3, false, 3, 0), Frame(4, false, 3, 1), Frame(4, false, 2, 0)], [2, 2], NullCaptures))
      == Running(Config([Frame(0, false, 5, 0), Frame(0, false, 3, 0), Frame(1, false, 3, 1), Frame(2, true, 3, 2), Frame(3, false, 5, 1), Frame(3, false, 3, 0), Frame(4, true, 3, 1)], [2, 2], NullCaptures))
  {
    var p, s: seq<Char> := Nested(RepeatGreedy), [97, 97, 98, 97, 98];
    assert s[4..5][0] != p.chars[0..1][0];
  }

  lemma NestedGreedyLine164Turns16()
    ensures var p, s: seq<Char> := Nested(RepeatGreedy), [97, 97, 98, 97, 98];
      Step(p, s, Config([Frame(0, false, 5, 0), Frame(0, false, 3, 0), Frame(1, false, 3, 1), Frame(2, true, 3, 2), Frame(3, false, 5, 1), Frame(3, false, 3, 0), Frame(4, true, 3, 1)], [2, 2], NullCaptures))
      == Running(Config([Frame(0, false, 5, 0), Frame(0, false, 3, 0), Frame(1, false, 3, 1), Frame(2, true, 3, 2), Frame(3, false, 5, 1), Frame(3, false, 3, 0), Frame(4, true, 3, 1), Frame(4, false, 4, 0)], [2], NullCaptures))
  {
  }

  lemma NestedGreedyLine164Turns17()
    ensures var p, s: seq<Char> := Nested(RepeatGreedy), [97, 97, 98, 97, 98];
      Step(p, s, Config([Frame(0, false, 5, 0), Frame(0, false, 3, 0), Frame(1, false, 3, 1), Frame(2, true, 3, 2), Frame(3, false, 5, 1), Frame(3, false, 3, 0), Frame(4, true, 3, 1), Frame(4, false, 4, 0)], [2], NullCaptures))
      == Running(Config([Frame(0, false, 5, 0), Frame(0, false, 3, 0), Frame(1, false, 3, 1), Frame(2, true, 3, 2), Frame(3, false, 5, 1), Frame(3, false, 3, 0), Frame(4, true, 3, 1), Frame(5, false, 5, 0)], [2], NullCaptures))
  {
  }

  lemma NestedGreedyLine164Turns18()
    ensures var p, s: seq<Char> := Nested(RepeatGreedy), [97, 97, 98, 97, 98];
      Step(p, s, Config([Frame(0, false, 5, 0), Frame(0, false, 3, 0), Frame(1, false, 3, 1), Frame(2, true, 3, 2), Frame(3, false, 5, 1), Frame(3, false, 3, 0), Frame(4, true, 3, 1), Frame(5, false, 5, 0)], [2], NullCaptures))
      == Running(Config([Frame(0, false, 5, 0), Frame(0, false, 3, 0), Frame(1, false, 3, 1), Frame(2, true, 3, 2), Frame(3, false, 5, 1), Frame(3, false, 3, 0), Frame(4, true, 3, 1), Frame(5, false, 5, 2), Frame(5, false, 1, 0)], [3], NullCaptures))
  {
  }

  lemma NestedGreedyLine164Turns19()
    ensures var p, s: seq<Char> := Nested(RepeatGreedy), [97, 97, 98, 97, 98];
      Step(p, s, Config([Frame(0, false, 5, 0), Frame(0, false, 3, 0), Frame(1, false, 3, 1), Frame(2, true, 3, 2), Frame(3, false, 5, 1), Frame(3, false, 3, 0), Frame(4, true, 3, 1), Frame(5, false, 5, 2), Frame(5, false, 1, 0)], [3], NullCaptures))
      == Running(Config([Frame(0, false, 5, 0), Frame(0, false, 3, 0), Frame(1, false, 3, 1), Frame(2, true, 3, 2), Frame(3, false, 5, 1), Frame(3, false, 3, 0), Frame(4, true, 3, 1), Frame(5, false, 5, 2), Frame(5, false, 3, 0)], [3, 0], NullCaptures))
  {
  }

  lemma NestedGreedyLine164Turns20()
    ensures var p, s: seq<Char> := Nested(RepeatGreedy), [97, 97, 98, 97, 98];
      Step(p, s, Config([Frame(0, false, 5, 0), Frame(0, false, 3, 0), Frame(1, false, 3, 1), Frame(2, true, 3, 2), Frame(3, false, 5, 1), Frame(3, false, 3, 0), Frame(4, true, 3, 1), Frame(5, false, 5, 2), Frame(5, false, 3, 0)], [3, 0], NullCaptures))
      == Running(Config([Frame(0, false, 5, 0), Frame(0, false, 3, 0), Frame(1, false, 3, 1), Frame(2, true, 3, 2), Frame(3, false, 5, 1), Frame(3, false, 3, 0), Frame(4, true, 3, 1), Frame(5, false, 5, 2), Frame(5, false, 3, 0), Frame(5, false, 2, 0)], [3, 1], NullCaptures))
  {
  }

  lemma NestedGreedyLine164Turns21()
    ensures var p, s: seq<Char> := Nested(RepeatGreedy), [97, 97, 98, 97, 98];
      Step(p, s, Config([Frame(0, false, 5, 0), Frame(0, false, 3, 0), Frame(1, false, 3, 1), Frame(2, true, 3, 2), Frame(3, false, 5, 1), Frame(3, false, 3, 0), Frame(4, true, 3, 1), Frame(5, false, 5, 2), Frame(5, false, 3, 0), Frame(5, false, 2, 0)], [3, 1], NullCaptures))
      == Running(Config([Frame(0, false, 5, 0), Frame(0, false, 3, 0), Frame(1, false, 3, 1), Frame(2, true, 3, 2), Frame(3, false, 5, 1), Frame(3, false, 3, 0), Frame(4, true, 3, 1), Frame(5, false, 5, 2), Frame(5, true, 3, 0)], [3, 1], NullCaptures))
  {
  }

  lemma NestedGreedyLine164Turns22()
    ensures var p, s: seq<Char> := Nested(RepeatGreedy), [97, 97, 98, 97, 98];
      Step(p, s, Config([Frame(0, false, 5, 0), Frame(0, false, 3, 0), Frame(1, false, 3, 1), Frame(2, true, 3, 2), Frame(3, false, 5, 1), Frame(3, false, 3, 0), Frame(4, true, 3, 1), Frame(5, false, 5, 2), Frame(5, true, 3, 0)], [3, 1], NullCaptures))
      == Running(Config([Frame(0, false, 5, 0), Frame(0, false, 3, 0), Frame(1, false, 3, 1), Frame(2, true, 3, 2), Frame(3, false, 5, 1), Frame(3, false, 3, 0), Frame(4, true, 3, 1), Frame(5, true, 5, 2)], [3], NullCaptures))
  {
  }

  lemma NestedGreedyLine164Turns23()
    ensures var p, s: seq<Char> := Nested(RepeatGreedy), [97, 97, 98, 97, 98];
      Step(p, s, Config([Frame(0, false, 5, 0), Frame(0, false, 3, 0), Frame(1, false, 3, 1), Frame(2, true, 3, 2), Frame(3, false, 5, 1), Frame(3, false, 3, 0), Frame(4, true, 3, 1), Frame(5, true, 5, 2)], [3], NullCaptures))
      == Running(Config([Frame(0, false, 5, 0), Frame(0, false, 3, 0), Frame(1, false, 3, 1), Frame(2, true, 3, 2), Frame(3, false, 5, 1), Frame(3, false, 3, 0), Frame(4, true, 3, 1), Frame(5, true, 5, 2), Frame(5, false, 6, 0)], [], NullCaptures))
  {
  }

  lemma NestedGreedyLine164Turns24()
    ensures var p, s: seq<Char> := Nested(RepeatGreedy), [97, 97, 98, 97, 98];
      Step(p, s, Config([Frame(0, false, 5, 0), Frame(0, false, 3, 0), Frame(1, false, 3, 1), Frame(2, true, 3, 2), Frame(3, false, 5, 1), Frame(3, false, 3, 0), Frame(4, true, 3, 1), Frame(5, true, 5, 2), Frame(5, false, 6, 0)], [], NullCaptures))
      == Stopped(Matched, Config([Frame(0, false, 5, 0), Frame(0, false, 3, 0), Frame(1, false, 3, 1), Frame(2, true, 3, 2), Frame(3, false, 5, 1), Frame(3, false, 3, 0), Frame(4, true, 3, 1), Frame(5, true, 5, 2), Frame(5, false, 6, 0)], [], NullCaptures))
  {
  }

  /** "ababaab" (v2/regex_test.c:165): 29 turns. */
  lemma NestedGreedyLine165()
    ensures Run(Nested(RepeatGreedy), [97, 98, 97, 98, 97, 97, 98], Start([], NullCaptures), 64).verdict == Matched
  {
    NestedGreedyLine165Run0(64);
    NestedGreedyLine165Run5(59);
    NestedGreedyLine165Run10(54);
    NestedGreedyLine165Run15(49);
    NestedGreedyLine165Run20(44);
    NestedGreedyLine165Run25(39);
  }

  lemma NestedGreedyLine165Run0(fuel: nat)
    requires fuel >= 5
    ensures var p, s: seq<Char> := Nested(RepeatGreedy), [97, 98, 97, 98, 97, 97, 98];
      Run(p, s, Config([Frame(0, false, 0, 0)], [], NullCaptures), fuel)
      == Run(p, s, Config([Frame(0, false, 5, 0), Frame(0, false, 3, 0), Frame(1, false, 3, 0)], [1, 1], NullCaptures), fuel - 5)
  {
    var p, s: seq<Char> := Nested(RepeatGreedy), [97, 98, 97, 98, 97, 97, 98];
    var c0 := Config([Frame(0, false, 0, 0)], [], NullCaptures);
    var c1 := Config([Frame(0, false, 5, 0)], [0], NullCaptures);
    var c2 := Config([Frame(0, false, 5, 0), Frame(0, false, 1, 0)], [1], NullCaptures);
    var c3 := Config([Frame(0, false, 5, 0), Frame(0, false, 3, 0)], [1, 0], NullCaptures);
    var c4 := Config([Frame(0, false, 5, 0), Frame(0, false, 3, 0), Frame(0, false, 2, 0)], [1, 1], NullCaptures);
    var c5 := Config([Frame(0, false, 5, 0), Frame(0, false, 3, 0), Frame(1, false, 3, 0)], [1, 1], NullCaptures);
    NestedGreedyLine165Turns0();
    assert Run(p, s, c0, fuel - 0) == Run(p, s, c1, fuel - 1);
    NestedGreedyLine165Turns1();
    assert Run(p, s, c1, fuel - 1) == Run(p, s, c2, fuel - 2);
    NestedGreedyLine165Turns2();
    assert Run(p, s, c2, fuel - 2) == Run(p, s, c3, fuel - 3);
    NestedGreedyLine165Turns3();
    assert Run(p, s, c3, fuel - 3) == Run(p, s, c4, fuel - 4);
    NestedGreedyLine165Turns4();
  }

  lemma NestedGreedyLine165Run5(fuel: nat)
    requires fuel >= 5
    ensures var p, s: seq<Char> := Nested(RepeatGreedy), [97, 98, 97, 98, 97, 97, 98];
      Run(p, s, Config([Frame(0, false, 5, 0), Frame(0, false, 3, 0), Frame(1, false, 3, 0)], [1, 1], NullCaptures), fuel)
      == Run(p, s, Config([Frame(0, false, 5, 0), Frame(0, false, 3, 0), Frame(1, true, 3, 1), Frame(2, false, 5, 1), Frame(2, false, 1, 0)], [2], NullCaptures), fuel - 5)
  {
    var p, s: seq<Char> := Nested(RepeatGreedy), [97, 98, 97, 98, 97, 97, 98];
    var c5 := Config([Frame(0, false, 5, 0), Frame(0, false, 3, 0), Frame(1, false, 3, 0)], [1, 1], NullCaptures);
    var c6 := Config([Frame(0, false, 5, 0), Frame(0, false, 3, 0), Frame(1, false, 3, 1), Frame(1, false, 2, 0)], [1, 2], NullCaptures);
    var c7 := Config([Frame(0, false, 5, 0), Frame(0, false, 3, 0), Frame(1, true, 3, 1)], [1, 2], NullCaptures);
    var c8 := Config([Frame(0, false, 5, 0), Frame(0, false, 3, 0), Frame(1, true, 3, 1), Frame(1, false, 4, 0)], [1], NullCaptures);
    var c9 := Config([Frame(0, false, 5, 0), Frame(0, false, 3, 0), Frame(1, true, 3, 1), Frame(2, false, 5, 0)], [1], NullCaptures);
    var c10 := Config([Frame(0, false, 5, 0), Frame(0, false, 3, 0), Frame(1, true, 3, 1), Frame(2, false, 5, 1), Frame(2, false, 1, 0)], [2], NullCaptures);
    NestedGreedyLine165Turns5();
    assert Run(p, s, c5, fuel - 0) == Run(p, s, c6, fuel - 1);
    NestedGreedyLine165Turns6();
    assert Run(p, s, c6, fuel - 1) == Run(p, s, c7, fuel - 2);
    NestedGreedyLine165Turns7();
    assert Run(p, s, c7, fuel - 2) == Run(p, s, c8, fuel - 3);
    NestedGreedyLine165Turns8();
    assert Run(p, s, c8, fuel - 3) == Run(p, s, c9, fuel - 4);
    NestedGreedyLine165Turns9();
  }

  lemma NestedGreedyLine165Run10(fuel: nat)
    requires fuel >= 5
    ensures var p, s: seq<Char> := Nested(RepeatGreedy), [97, 98, 97, 98, 97, 97, 98];
      Run(p, s, Config([Frame(0, false, 5, 0), Frame(0, false, 3, 0), Frame(1, true, 3, 1), Frame(2, false, 5, 1), Frame(2, false, 1, 0)], [2], NullCaptures), fuel)
      == Run(p, s, Config([Frame(0, false, 5, 0), Frame(0, false, 3, 0), Frame(1, true, 3, 1), Frame(2, false, 5, 1), Frame(2, false, 3, 0), Frame(3, true, 3, 1)], [2, 2], NullCaptures), fuel - 5)
  {
    var p, s: seq<Char> := Nested(RepeatGreedy), [97, 98, 97, 98, 97, 97, 98];
    var c10 := Config([Frame(0, false, 5, 0), Frame(0, false, 3, 0), Frame(1, true, 3, 1), Frame(2, false, 5, 1), Frame(2, false, 1, 0)], [2], NullCaptures);
    var c11 := Config([Frame(0, false, 5, 0), Frame(0, false, 3, 0), Frame(1, true, 3, 1), Frame(2, false, 5, 1), Frame(2, false, 3, 0)], [2, 0], NullCaptures);
    var c12 := Config([Frame(0, false, 5, 0), Frame(0, false, 3, 0), Frame(1, true, 3, 1), Frame(2, false, 5, 1), Frame(2, false, 3, 0), Frame(2, false, 2, 0)], [2, 1], NullCaptures);
    var c13 := Config([Frame(0, false, 5, 0), Frame(0, false, 3, 0), Frame(1, true, 3, 1), Frame(2, false, 5, 1), Frame(2, false, 3, 0), Frame(3, false, 3, 0)], [2, 1], NullCaptures);
    var c14 := Config([Frame(0, false, 5, 0), Frame(0, false, 3, 0), Frame(1, true, 3, 1), Frame(2, false, 5, 1), Frame(2, false, 3, 0), Frame(3, false, 3, 1), Frame(3, false, 2, 0)], [2, 2], NullCaptures);
    var c15 := Config([Frame(0, false, 5, 0), Frame(0, false, 3, 0), Frame(1, true, 3, 1), Frame(2, false, 5, 1), Frame(2, false, 3, 0), Frame(3, true, 3, 1)], [2, 2], NullCaptures);
    NestedGreedyLine165Turns10();
    assert Run(p, s, c10, fuel - 0) == Run(p, s, c11, fuel - 1);
    NestedGreedyLine165Turns11();
    assert Run(p, s, c11, fuel - 1) == Run(p, s, c12, fuel - 2);
    NestedGreedyLine165Turns12();
    assert Run(p, s, c12, fuel - 2) == Run(p, s, c13, fuel - 3);
    NestedGreedyLine165Turns13();
    assert Run(p, s, c13, fuel - 3) == Run(p, s, c14, fuel - 4);
    NestedGreedyLine165Turns14();
  }

  lemma NestedGreedyLine165Run15(fuel: nat)
    requires fuel >= 5
    ensures var p, s: seq<Char> := Nested(RepeatGreedy), [97, 98, 97, 98, 97, 97, 98];
      Run(p, s, Config([Frame(0, false, 5, 0), Frame(0, false, 3, 0), Frame(1, true, 3, 1), Frame(2, false, 5, 1), Frame(2, false, 3, 0), Frame(3, true, 3, 1)], [2, 2], NullCaptures), fuel)
      == Run(p, s, Config([Frame(0, false, 5, 0), Frame(0, false, 3, 0), Frame(1, true, 3, 1), Frame(2, false, 5, 1), Frame(2, false, 3, 0), Frame(3, true, 3, 1), Frame(4, false, 5, 2), Frame(4, false, 3, 0), Frame(4, false, 2, 0)], [3, 1], NullCaptures), fuel - 5)
  {
    var p, s: seq<Char> := Nested(RepeatGreedy), [97, 98, 97, 98, 97, 97, 98];
    var c15 := Config([Frame(0, false, 5, 0), Frame(0, false, 3, 0), Frame(1, true, 3, 1), Frame(2, false, 5, 1), Frame(2, false, 3, 0), Frame(3, true, 3, 1)], [2, 2], NullCaptures);
    var c16 := Config([Frame(0, false, 5, 0), Frame(0, false, 3, 0), Frame(1, true, 3, 1), Frame(2, false, 5, 1), Frame(2, false, 3, 0), Frame(3, true, 3, 1), Frame(3, false, 4, 0)], [2], NullCaptures);
    var c17 := Config([Frame(0, false, 5, 0), Frame(0, false, 3, 0), Frame(1, true, 3, 1), Frame(2, false, 5, 1), Frame(2, false, 3, 0), Frame(3, true, 3, 1), Frame(4, false, 5, 0)], [2], NullCaptures);
    var c18 := Config([Frame(0, false, 5, 0), Frame(0, false, 3, 0), Frame(1, true, 3, 1), Frame(2, false, 5, 1), Frame(2, false, 3, 0), Frame(3, true, 3, 1), Frame(4, false, 5, 2), Frame(4, false, 1, 0)], [3], NullCaptures);
    var c19 := Config([Frame(0, false, 5, 0), Frame(0, false, 3, 0), Frame(1, true, 3, 1), Frame(2, false, 5, 1), Frame(2, false, 3, 0), Frame(3, true, 3, 1), Frame(4, false, 5, 2), Frame(4, false, 3, 0)], [3, 0], NullCaptures);
    var c20 := Config([Frame(0, false, 5, 0), Frame(0, false, 3, 0), Frame(1, true, 3, 1), Frame(2, false, 5, 1), Frame(2, false, 3, 0), Frame(3, true, 3, 1), Frame(4, false, 5, 2), Frame(4, false, 3, 0), Frame(4, false, 2, 0)], [3, 1], NullCaptures);
    NestedGreedyLine165Turns15();
    assert Run(p, s, c15, fuel - 0) == Run(p, s, c16, fuel - 1);
    NestedGreedyLine165Turns16();
    assert Run(p, s, c16, fuel - 1) == Run(p, s, c17, fuel - 2);
    NestedGreedyLine165Turns17();
    assert Run(p, s, c17, fuel - 2) == Run(p, s, c18, fuel - 3);
    NestedGreedyLine165Turns18();
    assert Run(p, s, c18, fuel - 3) == Run(p, s, c19, fuel - 4);
    NestedGreedyLine165Turns19();
  }

  lemma NestedGreedyLine165Run20(fuel: nat)
    requires fuel >= 5
    ensures var p, s: seq<Char> := Nested(RepeatGreedy), [97, 98, 97, 98, 97, 97, 98];
      Run(p, s, Config([Frame(0, false, 5, 0), Frame(0, false, 3, 0), Frame(1, true, 3, 1), Frame(2, false, 5, 1), Frame(2, false, 3, 0), Frame(3, true, 3, 1), Frame(4, false, 5, 2), Frame(4, false, 3, 0), Frame(4, false, 2, 0)], [3, 1], NullCaptures), fuel)
      == Run(p, s, Config([Frame(0, false, 5, 0), Frame(0, false, 3, 0), Frame(1, true, 3, 1), Frame(2, false, 5, 1), Frame(2, false, 3, 0), Frame(3, true, 3, 1), Frame(4, false, 5, 2), Frame(4, false, 3, 0), Frame(5, false, 3, 1), Frame(6, true, 3, 2), Frame(6, false, 4, 0)], [3], NullCaptures), fuel - 5)
  {
    var p, s: seq<Char> := Nested(RepeatGreedy), [97, 98, 97, 98, 97, 97, 98];
    var c20 := Config([Frame(0, false, 5, 0), Frame(0, false, 3, 0), Frame(1, true, 3, 1), Frame(2, false, 5, 1), Frame(2, false, 3, 0), Frame(3, true, 3, 1), Frame(4, false, 5, 2), Frame(4, false, 3, 0), Frame(4, false, 2, 0)], [3, 1], NullCaptures);
    var c21 := Config([Frame(0, false, 5, 0), Frame(0, false, 3, 0), Frame(1, true, 3, 1), Frame(2, false, 5, 1), Frame(2, false, 3, 0), Frame(3, true, 3, 1), Frame(4, false, 5, 2), Frame(4, false, 3, 0), Frame(5, false, 3, 0)], [3, 1], NullCaptures);
    var c22 := Config([Frame(0, false, 5, 0), Frame(0, false, 3, 0), Frame(1, true, 3, 1), Frame(2, false, 5, 1), Frame(2, false, 3, 0), Frame(3, true, 3, 1), Frame(4, false, 5, 2), Frame(4, false, 3, 0), Frame(5, false, 3, 1), Frame(5, false, 2, 0)], [3, 2], NullCaptures);
    var c23 := Config([Frame(0, false, 5, 0), Frame(0, false, 3, 0), Frame(1, true, 3, 1), Frame(2, false, 5, 1), Frame(2, false, 3, 0), Frame(3, true, 3, 1), Frame(4, false, 5, 2), Frame(4, false, 3, 0), Frame(5, false, 3, 1), Frame(6, false, 3, 0)], [3, 2], NullCaptures);
    var c24 := Config([Frame(0, false, 5, 0), Frame(0, false, 3, 0), Frame(1, true, 3, 1), Frame(2, false, 5, 1), Frame(2, false, 3, 0), Frame(3, true, 3, 1), Frame(4, false, 5, 2), Frame(4, false, 3, 0), Frame(5, false, 3, 1), Frame(6, true, 3, 2)], [3, 3], NullCaptures);
    var c25 := Config([Frame(0, false, 5, 0), Frame(0, false, 3, 0), Frame(1, true, 3, 1), Frame(2, false, 5, 1), Frame(2, false, 3, 0), Frame(3, true, 3, 1), Frame(4, false, 5, 2), Frame(4, false, 3, 0), Frame(5, false, 3, 1), Frame(6, true, 3, 2), Frame(6, false, 4, 0)], [3], NullCaptures);
    NestedGreedyLine165Turns20();
    assert Run(p, s, c20, fuel - 0) == Run(p, s, c21, fuel - 1);
    NestedGreedyLine165Turns21();
    assert Run(p, s, c21, fuel - 1) == Run(p, s, c22, fuel - 2);
    NestedGreedyLine165Turns22();
    assert Run(p, s, c22, fuel - 2) == Run(p, s, c23, fuel - 3);
    NestedGreedyLine165Turns23();
    assert Run(p, s, c23, fuel - 3) == Run(p, s, c24, fuel - 4);
    NestedGreedyLine165Turns24();
  }

  lemma NestedGreedyLine165Run25(fuel: nat)
    requires fuel >= 4
    ensures var p, s: seq<Char> := Nested(RepeatGreedy), [97, 98, 97, 98, 97, 97, 98];
      Run(p, s, Config([Frame(0, false, 5, 0), Frame(0, false, 3, 0), Frame(1, true, 3, 1), Frame(2, false, 5, 1), Frame(2, false, 3, 0), Frame(3, true, 3, 1), Frame(4, false, 5, 2), Frame(4, false, 3, 0), Frame(5, false, 3, 1), Frame(6, true, 3, 2), Frame(6, false, 4, 0)], [3], NullCaptures), fuel)
      == Result(Matched, Config([Frame(0, false, 5, 0), Frame(0, false, 3, 0), Frame(1, true, 3, 1), Frame(2, false, 5, 1), Frame(2, false, 3, 0), Frame(3, true, 3, 1), Frame(4, false, 5, 2), Frame(4, false, 3, 0), Frame(5, false, 3, 1), Frame(6, true, 3, 2), Frame(7, true, 5, 3), Frame(7, false, 6, 0)], [], NullCaptures))
  {
    var p, s: seq<Char> := Nested(RepeatGreedy), [97, 98, 97, 98, 97, 97, 98];
    var c25 := Config([Frame(0, false, 5, 0), Frame(0, false, 3, 0), Frame(1, true, 3, 1), Frame(2, false, 5, 1), Frame(2, false, 3, 0), Frame(3, true, 3, 1), Frame(4, false, 5, 2), Frame(4, false, 3, 0), Frame(5, false, 3, 1), Frame(6, true, 3, 2), Frame(6, false, 4, 0)], [3], NullCaptures);
    var c26 := Config([Frame(0, false, 5, 0), Frame(0, false, 3, 0), Frame(1, true, 3, 1), Frame(2, false, 5, 1), Frame(2, false, 3, 0), Frame(3, true, 3, 1), Frame(4, false, 5, 2), Frame(4, false, 3, 0), Frame(5, false, 3, 1), Frame(6, true, 3, 2), Frame(7, false, 5, 0)], [3], NullCaptures);
    var c27 := Config([Frame(0, false, 5, 0), Frame(0, false, 3, 0), Frame(1, true, 3, 1), Frame(2, false, 5, 1), Frame(2, false, 3, 0), Frame(3, true, 3, 1), Frame(4, false, 5, 2), Frame(4, false, 3, 0), Frame(5, false, 3, 1), Frame(6, true, 3, 2), Frame(7, true, 5, 3)], [4], NullCaptures);
    var c28 := Config([Frame(0, false, 5, 0), Frame(0, false, 3, 0), Frame(1, true, 3, 1), Frame(2, false, 5, 1), Frame(2, false, 3, 0), Frame(3, true, 3, 1), Frame(4, false, 5, 2), Frame(4, false, 3, 0), Frame(5, false, 3, 1), Frame(6, true, 3, 2), Frame(7, true, 5, 3), Frame(7, false, 6, 0)], [], NullCaptures);
    NestedGreedyLine165Turns25();
    assert Run(p, s, c25, fuel - 0) == Run(p, s, c26, fuel - 1);
    NestedGreedyLine165Turns26();
    assert Run(p, s, c26, fuel - 1) == Run(p, s, c27, fuel - 2);
    NestedGreedyLine165Turns27();
    assert Run(p, s, c27, fuel - 2) == Run(p, s, c28, fuel - 3);
    NestedGreedyLine165Turns28();
  }

  lemma NestedGreedyLine165Turns0()
    ensures var p, s: seq<Char> := Nested(RepeatGreedy), [97, 98, 97, 98, 97, 97, 98];
      Step(p, s, Config([Frame(0, false, 0, 0)], [], NullCaptures))
      == Running(Config([Frame(0, false, 5, 0)], [0], NullCaptures))
  {
  }

  lemma NestedGreedyLine165Turns1()
    ensures var p, s: seq<Char> := Nested(RepeatGreedy), [97, 98, 97, 98, 97, 97, 98];
      Step(p, s, Config([Frame(0, false, 5, 0)], [0], NullCaptures))
      == Running(Config([Frame(0, false, 5, 0), Frame(0, false, 1, 0)], [1], NullCaptures))
  {
  }

  lemma NestedGreedyLine165Turns2()
    ensures var p, s: seq<Char> := Nested(RepeatGreedy), [97, 98, 97, 98, 97, 97, 98];
      Step(p, s, Config([Frame(0, false, 5, 0), Frame(0, false, 1, 0)], [1], NullCaptures))
      == Running(Config([Frame(0, false, 5, 0), Frame(0, false, 3, 0)], [1, 0], NullCaptures))
  {
  }

  lemma NestedGreedyLine165Turns3()
    ensures var p, s: seq<Char> := Nested(RepeatGreedy), [97, 98, 97, 98, 97, 97, 98];
      Step(p, s, Config([Frame(0, false, 5, 0), Frame(0, false, 3, 0)], [1, 0], NullCaptures))
      == Running(Config([Frame(0, false, 5, 0), Frame(0, false, 3, 0), Frame(0, false, 2, 0)], [1, 1], NullCaptures))
  {
  }

  lemma NestedGreedyLine165Turns4()
    ensures var p, s: seq<Char> := Nested(RepeatGreedy), [97, 98, 97, 98, 97, 97, 98];
      Step(p, s, Config([Frame(0, false, 5, 0), Frame(0, false, 3, 0), Frame(0, false, 2, 0)], [1, 1], NullCaptures))
      == Running(Config([Frame(0, false, 5, 0), Frame(0, false, 3, 0), Frame(1, false, 3, 0)], [1, 1], NullCaptures))
  {
  }

  lemma NestedGreedyLine165Turns5()
    ensures var p, s: seq<Char> := Nested(RepeatGreedy), [97, 98, 97, 98, 97, 97, 98];
      Step(p, s, Config([Frame(0, false, 5, 0), Frame(0, false, 3, 0), Frame(1, false, 3, 0)], [1, 1], NullCaptures))
      == Running(Config([Frame(0, false, 5, 0), Frame(0, false, 3, 0), Frame(1, false, 3, 1), Frame(1, false, 2, 0)], [1, 2], NullCaptures))
  {
  }

  lemma NestedGreedyLine165Turns6()
    ensures var p, s: seq<Char> := Nested(RepeatGreedy), [97, 98, 97, 98, 97, 97, 98];
      Step(p, s, Config([Frame(0, false, 5, 0), Frame(0, false, 3, 0), Frame(1, false, 3, 1), Frame(1, false, 2, 0)], [1, 2], NullCaptures))
      == Running(Config([Frame(0, false, 5, 0), Frame(0, false, 3, 0), Frame(1, true, 3, 1)], [1, 2], NullCaptures))
  {
    var p, s: seq<Char> := Nested(RepeatGreedy), [97, 98, 97, 98, 97, 97, 98];
    assert s[1..2][0] != p.chars[0..1][0];
  }

  lemma NestedGreedyLine165Turns7()
    ensures var p, s: seq<Char> := Nested(RepeatGreedy), [97, 98, 97, 98, 97, 97, 98];
      Step(p, s, Config([Frame(0, false, 5, 0), Frame(0, false, 3, 0), Frame(1, true, 3, 1)], [1, 2], NullCaptures))
      == Running(Config([Frame(0, false, 5, 0), Frame(0, false, 3, 0), Frame(1, true, 3, 1), Frame(1, false, 4, 0)], [1], NullCaptures))
  {
  }

  lemma NestedGreedyLine165Turns8()
    ensures var p, s: seq<Char> := Nested(RepeatGreedy), [97, 98, 97, 98, 97, 97, 98];
      Step(p, s, Config([Frame(0, false, 5, 0), Frame(0, false, 3, 0), Frame(1, true, 3, 1), Frame(1, false, 4, 0)], [1], NullCaptures))
      == Running(Config([Frame(0, false, 5, 0), Frame(0, false, 3, 0), Frame(1, true, 3, 1), Frame(2, false, 5, 0)], [1], NullCaptures))
  {
  }

  lemma NestedGreedyLine165Turns9()
    ensures var p, s: seq<Char> := Nested(RepeatGreedy), [97, 98, 97, 98, 97, 97, 98];
      Step(p, s, Config([Frame(0, false, 5, 0), Frame(0, false, 3, 0), Frame(1, true, 3, 1), Frame(2, false, 5, 0)], [1], NullCaptures))
      == Running(Config([Frame(0, false, 5, 0), Frame(0, false, 3, 0), Frame(1, true, 3, 1), Frame(2, false, 5, 1), Frame(2, false, 1, 0)], [2], NullCaptures))
  {
  }

  lemma NestedGreedyLine165Turns10()
    ensures var p, s: seq<Char> := Nested(RepeatGreedy), [97, 98, 97, 98, 97, 97, 98];
      Step(p, s, Config([Frame(0, false, 5, 0), Frame(0, false, 3, 0), Frame(1, true, 3, 1), Frame(2, false, 5, 1), Frame(2, false, 1, 0)], [2], NullCaptures))
      == Running(Config([Frame(0, false, 5, 0), Frame(0, false, 3, 0), Frame(1, true, 3, 1), Frame(2, false, 5, 1), Frame(2, false, 3, 0)], [2, 0], NullCaptures))
  {
  }

  lemma NestedGreedyLine165Turns11()
    ensures var p, s: seq<Char> := Nested(RepeatGreedy), [97, 98, 97, 98, 97, 97, 98];
      Step(p, s, Config([Frame(0, false, 5, 0), Frame(0, false, 3, 0), Frame(1, true, 3, 1), Frame(2, false, 5, 1), Frame(2, false, 3, 0)], [2, 0], NullCaptures))
      == Running(Config([Frame(0, false, 5, 0), Frame(0, false, 3, 0), Frame(1, true, 3, 1), Frame(2, false, 5, 1), Frame(2, false, 3, 0), Frame(2, false, 2, 0)], [2, 1], NullCaptures))
  {
  }

  lemma NestedGreedyLine165Turns12()
    ensures var p, s: seq<Char> := Nested(RepeatGreedy), [97, 98, 97, 98, 97, 97, 98];
      Step(p, s, Config([Frame(0, false, 5, 0), Frame(0, false, 3, 0), Frame(1, true, 3, 1), Frame(2, false, 5, 1), Frame(2, false, 3, 0), Frame(2, false, 2, 0)], [2, 1], NullCaptures))
      == Running(Config([Frame(0, false, 5, 0), Frame(0, false, 3, 0), Frame(1, true, 3, 1), Frame(2, false, 5, 1), Frame(2, false, 3, 0), Frame(3, false, 3, 0)], [2, 1], NullCaptures))
  {
  }

  lemma NestedGreedyLine165Turns13()
    ensures var p, s: seq<Char> := Nested(RepeatGreedy), [97, 98, 97, 98, 97, 97, 98];
      Step(p, s, Config([Frame(0, false, 5, 0), Frame(0, false, 3, 0), Frame(1, true, 3, 1), Frame(2, false, 5, 1), Frame(2, false, 3, 0), Frame(3, false, 3, 0)], [2, 1], NullCaptures))
      == Running(Config([Frame(0, false, 5, 0), Frame(0, false, 3, 0), Frame(1, true, 3, 1), Frame(2, false, 5, 1), Frame(2, false, 3, 0), Frame(3, false, 3, 1), Frame(3, false, 2, 0)], [2, 2], NullCaptures))
  {
  }

  lemma NestedGreedyLine165Turns14()
    ensures var p, s: seq<Char> := Nested(RepeatGreedy), [97, 98, 97, 98, 97, 97, 98];
      Step(p, s, Config([Frame(0, false, 5, 0), Frame(0, false, 3, 0), Frame(1, true, 3, 1), Frame(2, false, 5, 1), Frame(2, false, 3, 0), Frame(3, false, 3, 1), Frame(3, false, 2, 0)], [2, 2], NullCaptures))
      == Running(Config([Frame(0, false, 5, 0), Frame(0, false, 3, 0), Frame(1, true, 3, 1), Frame(2, false, 5, 1), Frame(2, false, 3, 0), Frame(3, true, 3, 1)], [2, 2], NullCaptures))
  {
    var p, s: seq<Char> := Nested(RepeatGreedy), [97, 98, 97, 98, 97, 97, 98];
    assert s[3..4][0] != p.chars[0..1][0];
  }

  lemma NestedGreedyLine165Turns15()
    ensures var p, s: seq<Char> := Nested(RepeatGreedy), [97, 98, 97, 98, 97, 97, 98];
      Step(p, s, Config([Frame(0, false, 5, 0), Frame(0, false, 3, 0), Frame(1, true, 3, 1), Frame(2, false, 5, 1), Frame(2, false, 3, 0), Frame(3, true, 3, 1)], [2, 2], NullCaptures))
      == Running(Config([Frame(0, false, 5, 0), Frame(0, false, 3, 0), Frame(1, true, 3, 1), Frame(2, false, 5, 1), Frame(2, false, 3, 0), Frame(3, true, 3, 1), Frame(3, false, 4, 0)], [2], NullCaptures))
  {
  }

  lemma NestedGreedyLine165Turns16()
    ensures var p, s: seq<Char> := Nested(RepeatGreedy), [97, 98, 97, 98, 97, 97, 98];
      Step(p, s, Config([Frame(0, false, 5, 0), Frame(0, false, 3, 0), Frame(1, true, 3, 1), Frame(2, false, 5, 1), Frame(2, false, 3, 0), Frame(3, true, 3, 1), Frame(3, false, 4, 0)], [2], NullCaptures))
      == Running(Config([Frame(0, false, 5, 0), Frame(0, false, 3, 0), Frame(1, true, 3, 1), Frame(2, false, 5, 1), Frame(2, false, 3, 0), Frame(3, true, 3, 1), Frame(4, false, 5, 0)], [2], NullCaptures))
  {
  }

  lemma NestedGreedyLine165Turns17()
    ensures var p, s: seq<Char> := Nested(RepeatGreedy), [97, 98, 97, 98, 97, 97, 98];
      Step(p, s, Config([Frame(0, false, 5, 0), Frame(0, false, 3, 0), Frame(1, true, 3, 1), Frame(2, false, 5, 1), Frame(2, false, 3, 0), Frame(3, true, 3, 1), Frame(4, false, 5, 0)], [2], NullCaptures))
      == Running(Config([Frame(0, false, 5, 0), Frame(0, false, 3, 0), Frame(1, true, 3, 1), Frame(2, false, 5, 1), Frame(2, false, 3, 0), Frame(3, true, 3, 1), Frame(4, false, 5, 2), Frame(4, false, 1, 0)], [3], NullCaptures))
  {
  }

  lemma NestedGreedyLine165Turns18()
    ensures var p, s: seq<Char> := Nested(RepeatGreedy), [97, 98, 97, 98, 97, 97, 98];
      Step(p, s, Config([Frame(0, false, 5, 0), Frame(0, false, 3, 0), Frame(1, true, 3, 1), Frame(2, false, 5, 1), Frame(2, false, 3, 0), Frame(3, true, 3, 1), Frame(4, false, 5, 2), Frame(4, false, 1, 0)], [3], NullCaptures))
      == Running(Config([Frame(0, false, 5, 0), Frame(0, false, 3, 0), Frame(1, true, 3, 1), Frame(2, false, 5, 1), Frame(2, false, 3, 0), Frame(3, true, 3, 1), Frame(4, false, 5, 2), Frame(4, false, 3, 0)], [3, 0], NullCaptures))
  {
  }

  lemma NestedGreedyLine165Turns19()
    ensures var p, s: seq<Char> := Nested(RepeatGreedy), [97, 98, 97, 98, 97, 97, 98];
      Step(p, s, Config([Frame(0, false, 5, 0), Frame(0, false, 3, 0), Frame(1, true, 3, 1), Frame(2, false, 5, 1), Frame(2, false, 3, 0), Frame(3, true, 3, 1), Frame(4, false, 5, 2), Frame(4, false, 3, 0)], [3, 0], NullCaptures))
      == Running(Config([Frame(0, false, 5, 0), Frame(0, false, 3, 0), Frame(1, true, 3, 1), Frame(2, false, 5, 1), Frame(2, false, 3, 0), Frame(3, true, 3, 1), Frame(4, false, 5, 2), Frame(4, false, 3, 0), Frame(4, false, 2, 0)], [3, 1], NullCaptures))
  {
  }

  lemma NestedGreedyLine165Turns20()
    ensures var p, s: seq<Char> := Nested(RepeatGreedy), [97, 98, 97, 98, 97, 97, 98];
      Step(p, s, Config([Frame(0, false, 5, 0), Frame(0, false, 3, 0), Frame(1, true, 3, 1), Frame(2, false, 5, 1), Frame(2, false, 3, 0), Frame(3, true, 3, 1), Frame(4, false, 5, 2), Frame(4, false, 3, 0), Frame(4, false, 2, 0)], [3, 1], NullCaptures))
      == Running(Config([Frame(0, false, 5, 0), Frame(0, false, 3, 0), Frame(1, true, 3, 1), Frame(2, false, 5, 1), Frame(2, false, 3, 0), Frame(3, true, 3, 1), Frame(4, false, 5, 2), Frame(4, false, 3, 0), Frame(5, false, 3, 0)], [3, 1], NullCaptures))
  {
  }

  lemma NestedGreedyLine165Turns21()
    ensures var p, s: seq<Char> := Nested(RepeatGreedy), [97, 98, 97, 98, 97, 97, 98];
      Step(p, s, Config([Frame(0, false, 5, 0), Frame(0, false, 3, 0), Frame(1, true, 3, 1), Frame(2, false, 5, 1), Frame(2, false, 3, 0), Frame(3, true, 3, 1), Frame(4, false, 5, 2), Frame(4, false, 3, 0), Frame(5, false, 3, 0)], [3, 1], NullCaptures))
      == Running(Config([Frame(0, false, 5, 0), Frame(0, false, 3, 0), Frame(1, true, 3, 1), Frame(2, false, 5, 1), Frame(2, false, 3, 0), Frame(3, true, 3, 1), Frame(4, false, 5, 2), Frame(4, false, 3, 0), Frame(5, false, 3, 1), Frame(5, false, 2, 0)], [3, 2], NullCaptures))
  {
  }

  lemma NestedGreedyLine165Turns22()
    ensures var p, s: seq<Char> := Nested(RepeatGreedy), [97, 98, 97, 98, 97, 97, 98];
      Step(p, s, Config([Frame(0, false, 5, 0), Frame(0, false, 3, 0), Frame(1, true, 3, 1), Frame(2, false, 5, 1), Frame(2, false, 3, 0), Frame(3, true, 3, 1), Frame(4, false, 5, 2), Frame(4, false, 3, 0), Frame(5, false, 3, 1), Frame(5, false, 2, 0)], [3, 2], NullCaptures))
      == Running(Config([Frame(0, false, 5, 0), Frame(0, false, 3, 0), Frame(1, true, 3, 1), Frame(2, false, 5, 1), Frame(2, false, 3, 0), Frame(3, true, 3, 1), Frame(4, false, 5, 2), Frame(4, false, 3, 0), Frame(5, false, 3, 1), Frame(6, false, 3, 0)], [3, 2], NullCaptures))
  {
  }

  lemma NestedGreedyLine165Turns23()
    ensures var p, s: seq<Char> := Nested(RepeatGreedy), [97, 98, 97, 98, 97, 97, 98];
      Step(p, s, Config([Frame(0, false, 5, 0), Frame(0, false, 3, 0), Frame(1, true, 3, 1), Frame(2, false, 5, 1), Frame(2, false, 3, 0), Frame(3, true, 3, 1), Frame(4, false, 5, 2), Frame(4, false, 3, 0), Frame(5, false, 3, 1), Frame(6, false, 3, 0)], [3, 2], NullCaptures))
      == Running(Config([Frame(0, false, 5, 0), Frame(0, false, 3, 0), Frame(1, true, 3, 1), Frame(2, false, 5, 1), Frame(2, false, 3, 0), Frame(3, true, 3, 1), Frame(4, false, 5, 2), Frame(4, false, 3, 0), Frame(5, false, 3, 1), Frame(6, true, 3, 2)], [3, 3], NullCaptures))
  {
  }

  lemma NestedGreedyLine165Turns24()
    ensures var p, s: seq<Char> := Nested(RepeatGreedy), [97, 98, 97, 98, 97, 97, 98];
      Step(p, s, Config([Frame(0, false, 5, 0), Frame(0, false, 3, 0), Frame(1, true, 3, 1), Frame(2, false, 5, 1), Frame(2, false, 3, 0), Frame(3, true, 3, 1), Frame(4, false, 5, 2), Frame(4, false, 3, 0), Frame(5, false, 3, 1), Frame(6, true, 3, 2)], [3, 3], NullCaptures))
      == Running(Config([Frame(0, false, 5, 0), Frame(0, false, 3, 0), Frame(1, true, 3, 1), Frame(2, false, 5, 1), Frame(2, false, 3, 0), Frame(3, true, 3, 1), Frame(4, false, 5, 2), Frame(4, false, 3, 0), Frame(5, false, 3, 1), Frame(6, true, 3, 2), Frame(6, false, 4, 0)], [3], NullCaptures))
  {
  }

  lemma NestedGreedyLine165Turns25()
    ensures var p, s: seq<Char> := Nested(RepeatGreedy), [97, 98, 97, 98, 97, 97, 98];
      Step(p, s, Config([Frame(0, false, 5, 0), Frame(0, false, 3, 0), Frame(1, true, 3, 1), Frame(2, false, 5, 1), Frame(2, false, 3, 0), Frame(3, true, 3, 1), Frame(4, false, 5, 2), Frame(4, false, 3, 0), Frame(5, false, 3, 1), Frame(6, true, 3, 2), Frame(6, false, 4, 0)], [3], NullCaptures))
      == Running(Config([Frame(0, false, 5, 0), Frame(0, false, 3, 0), Frame(1, true, 3, 1), Frame(2, false, 5, 1), Frame(2, false, 3, 0), Frame(3, true, 3, 1), Frame(4, false, 5, 2), Frame(4, false, 3, 0), Frame(5, false, 3, 1), Frame(6, true, 3, 2), Frame(7, false, 5, 0)], [3], NullCaptures))
  {
  }

  lemma NestedGreedyLine165Turns26()
    ensures var p, s: seq<Char> := Nested(RepeatGreedy), [97, 98, 97, 98, 97, 97, 98];
      Step(p, s, Config([Frame(0, false, 5, 0), Frame(0, false, 3, 0), Frame(1, true, 3, 1), Frame(2, false, 5, 1), Frame(2, false, 3, 0), Frame(3, true, 3, 1), Frame(4, false, 5, 2), Frame(4, false, 3, 0), Frame(5, false, 3, 1), Frame(6, true, 3, 2), Frame(7, false, 5, 0)], [3], NullCaptures))
      == Running(Config([Frame(0, false, 5, 0), Frame(0, false, 3, 0), Frame(1, true, 3, 1), Frame(2, false, 5, 1), Frame(2, false, 3, 0), Frame(3, true, 3, 1), Frame(4, false, 5, 2), Frame(4, false, 3, 0), Frame(5, false, 3, 1), Frame(6, true, 3, 2), Frame(7, true, 5, 3)], [4], NullCaptures))
  {
  }

  lemma NestedGreedyLine165Turns27()
    ensures var p, s: seq<Char> := Nested(RepeatGreedy), [97, 98, 97, 98, 97, 97, 98];
      Step(p, s, Config([Frame(0, false, 5, 0), Frame(0, false, 3, 0), Frame(1, true, 3, 1), Frame(2, false, 5, 1), Frame(2, false, 3, 0), Frame(3, true, 3, 1), Frame(4, false, 5, 2), Frame(4, false, 3, 0), Frame(5, false, 3, 1), Frame(6, true, 3, 2), Frame(7, true, 5, 3)], [4], NullCaptures))
      == Running(Config([Frame(0, false, 5, 0), Frame(0, false, 3, 0), Frame(1, true, 3, 1), Frame(2, false, 5, 1), Frame(2, false, 3, 0), Frame(3, true, 3, 1), Frame(4, false, 5, 2), Frame(4, false, 3, 0), Frame(5, false, 3, 1), Frame(6, true, 3, 2), Frame(7, true, 5, 3), Frame(7, false, 6, 0)], [], NullCaptures))
  {
  }

  lemma NestedGreedyLine165Turns28()
    ensures var p, s: seq<Char> := Nested(RepeatGreedy), [97, 98, 97, 98, 97, 97, 98];
      Step(p, s, Config([Frame(0, false, 5, 0), Frame(0, false, 3, 0), Frame(1, true, 3, 1), Frame(2, false, 5, 1), Frame(2, false, 3, 0), Frame(3, true, 3, 1), Frame(4, false, 5, 2), Frame(4, false, 3, 0), Frame(5, false, 3, 1), Frame(6, true, 3, 2), Frame(7, true, 5, 3), Frame(7, false, 6, 0)], [], NullCaptures))
      == Stopped(Matched, Config([Frame(0, false, 5, 0), Frame(0, false, 3, 0), Frame(1, true, 3, 1), Frame(2, false, 5, 1), Frame(2, false, 3, 0), Frame(3, true, 3, 1), Frame(4, false, 5, 2), Frame(4, false, 3, 0), Frame(5, false, 3, 1), Frame(6, true, 3, 2), Frame(7, true, 5, 3), Frame(7, false, 6, 0)], [], NullCaptures))
  {
  }

  /** "" (v2/regex_test.c:166): 7 turns. */
  lemma NestedGreedyLine166()
    ensures Run(Nested(RepeatGreedy), [], Start([], NullCaptures), 64).verdict == NoMatch
    ensures Run(Nested(RepeatGreedy), [], Start([], NullCaptures), 64).final.iters == []
  {
    NestedGreedyLine166Run0(64);
    NestedGreedyLine166Run5(59);
  }

  lemma NestedGreedyLine166Run0(fuel: nat)
    requires fuel >= 5
    ensures var p, s: seq<Char> := Nested(RepeatGreedy), [];
      Run(p, s, Config([Frame(0, false, 0, 0)], [], NullCaptures), fuel)
      == Run(p, s, Config([Frame(0, false, 5, 0), Frame(0, true, 3, 0)], [1, 1], NullCaptures), fuel - 5)
  {
    var p, s: seq<Char> := Nested(RepeatGreedy), [];
    var c0 := Config([Frame(0, false, 0, 0)], [], NullCaptures);
    var c1 := Config([Frame(0, false, 5, 0)], [0], NullCaptures);
    var c2 := Config([Frame(0, false, 5, 0), Frame(0, false, 1, 0)], [1], NullCaptures);
    var c3 := Config([Frame(0, false, 5, 0), Frame(0, false, 3, 0)], [1, 0], NullCaptures);
    var c4 := Config([Frame(0, false, 5, 0), Frame(0, false, 3, 0), Frame(0, false, 2, 0)], [1, 1], NullCaptures);
    var c5 := Config([Frame(0, false, 5, 0), Frame(0, true, 3, 0)], [1, 1], NullCaptures);
    NestedGreedyLine166Turns0();
    assert Run(p, s, c0, fuel - 0) == Run(p, s, c1, fuel - 1);
    NestedGreedyLine166Turns1();
    assert Run(p, s, c1, fuel - 1) == Run(p, s, c2, fuel - 2);
    NestedGreedyLine166Turns2();
    assert Run(p, s, c2, fuel - 2) == Run(p, s, c3, fuel - 3);
    NestedGreedyLine166Turns3();
    assert Run(p, s, c3, fuel - 3) == Run(p, s, c4, fuel - 4);
    NestedGreedyLine166Turns4();
  }

  lemma NestedGreedyLine166Run5(fuel: nat)
    requires fuel >= 2
    ensures var p, s: seq<Char> := Nested(RepeatGreedy), [];
      Run(p, s, Config([Frame(0, false, 5, 0), Frame(0, true, 3, 0)], [1, 1], NullCaptures), fuel)
      == Result(NoMatch, Config([], [], NullCaptures))
  {
    var p, s: seq<Char> := Nested(RepeatGreedy), [];
    var c5 := Config([Frame(0, false, 5, 0), Frame(0, true, 3, 0)], [1, 1], NullCaptures);
    var c6 := Config([Frame(0, true, 5, 0)], [1], NullCaptures);
    NestedGreedyLine166Turns5();
    assert Run(p, s, c5, fuel - 0) == Run(p, s, c6, fuel - 1);
    NestedGreedyLine166Turns6();
  }

  lemma NestedGreedyLine166Turns0()
    ensures var p, s: seq<Char> := Nested(RepeatGreedy), [];
      Step(p, s, Config([Frame(0, false, 0, 0)], [], NullCaptures))
      == Running(Config([Frame(0, false, 5, 0)], [0], NullCaptures))
  {
  }

  lemma NestedGreedyLine166Turns1()
    ensures var p, s: seq<Char> := Nested(RepeatGreedy), [];
      Step(p, s, Config([Frame(0, false, 5, 0)], [0], NullCaptures))
      == Running(Config([Frame(0, false, 5, 0), Frame(0, false, 1, 0)], [1], NullCaptures))
  {
  }

  lemma NestedGreedyLine166Turns2()
    ensures var p, s: seq<Char> := Nested(RepeatGreedy), [];
      Step(p, s, Config([Frame(0, false, 5, 0), Frame(0, false, 1, 0)], [1], NullCaptures))
      == Running(Config([Frame(0, false, 5, 0), Frame(0, false, 3, 0)], [1, 0], NullCaptures))
  {
  }

  lemma NestedGreedyLine166Turns3()
    ensures var p, s: seq<Char> := Nested(RepeatGreedy), [];
      Step(p, s, Config([Frame(0, false, 5, 0), Frame(0, false, 3, 0)], [1, 0], NullCaptures))
      == Running(Config([Frame(0, false, 5, 0), Frame(0, false, 3, 0), Frame(0, false, 2, 0)], [1, 1], NullCaptures))
  {
  }

  lemma NestedGreedyLine166Turns4()
    ensures var p, s: seq<Char> := Nested(RepeatGreedy), [];
      Step(p, s, Config([Frame(0, false, 5, 0), Frame(0, false, 3, 0), Frame(0, false, 2, 0)], [1, 1], NullCaptures))
      == Running(Config([Frame(0, false, 5, 0), Frame(0, true, 3, 0)], [1, 1], NullCaptures))
  {
  }

  lemma NestedGreedyLine166Turns5()
    ensures var p, s: seq<Char> := Nested(RepeatGreedy), [];
      Step(p, s, Config([Frame(0, false, 5, 0), Frame(0, true, 3, 0)], [1, 1], NullCaptures))
      == Running(Config([Frame(0, true, 5, 0)], [1], NullCaptures))
  {
  }

  lemma NestedGreedyLine166Turns6()
    ensures var p, s: seq<Char> := Nested(RepeatGreedy), [];
      Step(p, s, Config([Frame(0, true, 5, 0)], [1], NullCaptures))
      == Stopped(NoMatch, Config([], [], NullCaptures))
  {
  }

  /** "aaabb" (v2/regex_test.c:167): 14 turns. */
  lemma NestedGreedyLine167()
    ensures Run(Nested(RepeatGreedy), [97, 97, 97, 98, 98], Start([], NullCaptures), 64).verdict == NoMatch
    ensures Run(Nested(RepeatGreedy), [97, 97, 97, 98, 98], Start([], NullCaptures), 64).final.iters == []
  {
    NestedGreedyLine167Run0(64);
    NestedGreedyLine167Run5(59);
    NestedGreedyLine167Run10(54);
  }

  lemma NestedGreedyLine167Run0(fuel: nat)
    requires fuel >= 5
    ensures var p, s: seq<Char> := Nested(RepeatGreedy), [97, 97, 97, 98, 98];
      Run(p, s, Config([Frame(0, false, 0, 0)], [], NullCaptures), fuel)
      == Run(p, s, Config([Frame(0, false, 5, 0), Frame(0, false, 3, 0), Frame(1, false, 3, 0)], [1, 1], NullCaptures), fuel - 5)
  {
    var p, s: seq<Char> := Nested(RepeatGreedy), [97, 97, 97, 98, 98];
    var c0 := Config([Frame(0, false, 0, 0)], [], NullCaptures);
    var c1 := Config([Frame(0, false, 5, 0)], [0], NullCaptures);
    var c2 := Config([Frame(0, false, 5, 0), Frame(0, false, 1, 0)], [1], NullCaptures);
    var c3 := Config([Frame(0, false, 5, 0), Frame(0, false, 3, 0)], [1, 0], NullCaptures);
    var c4 := Config([Frame(0, false, 5, 0), Frame(0, false, 3, 0), Frame(0, false, 2, 0)], [1, 1], NullCaptures);
    var c5 := Config([Frame(0, false, 5, 0), Frame(0, false, 3, 0), Frame(1, false, 3, 0)], [1, 1], NullCaptures);
    NestedGreedyLine167Turns0();
    assert Run(p, s, c0, fuel - 0) == Run(p, s, c1, fuel - 1);
    NestedGreedyLine167Turns1();
    assert Run(p, s, c1, fuel - 1) == Run(p, s, c2, fuel - 2);
    NestedGreedyLine167Turns2();
    assert Run(p, s, c2, fuel - 2) == Run(p, s, c3, fuel - 3);
    NestedGreedyLine167Turns3();
    assert Run(p, s, c3, fuel - 3) == Run(p, s, c4, fuel - 4);
    NestedGreedyLine167Turns4();
  }

  lemma NestedGreedyLine167Run5(fuel: nat)
    requires fuel >= 5
    ensures var p, s: seq<Char> := Nested(RepeatGreedy), [97, 97, 97, 98, 98];
      Run(p, s, Config([Frame(0, false, 5, 0), Frame(0, false, 3, 0), Frame(1, false, 3, 0)], [1, 1], NullCaptures), fuel)
      == Run(p, s, Config([Frame(0, false, 5, 0), Frame(0, false, 3, 0), Frame(1, true, 3, 1)], [1], NullCaptures), fuel - 5)
  {
    var p, s: seq<Char> := Nested(RepeatGreedy), [97, 97, 97, 98, 98];
    var c5 := Config([Frame(0, false, 5, 0), Frame(0, false, 3, 0), Frame(1, false, 3, 0)], [1, 1], NullCaptures);
    var c6 := Config([Frame(0, false, 5, 0), Frame(0, false, 3, 0), Frame(1, false, 3, 1), Frame(1, false, 2, 0)], [1, 2], NullCaptures);
    var c7 := Config([Frame(0, false, 5, 0), Frame(0, false, 3, 0), Frame(1, false, 3, 1), Frame(2, false, 3, 0)], [1, 2], NullCaptures);
    var c8 := Config([Frame(0, false, 5, 0), Frame(0, false, 3, 0), Frame(1, false, 3, 1), Frame(2, true, 3, 2)], [1, 3], NullCaptures);
    var c9 := Config([Frame(0, false, 5, 0), Frame(0, false, 3, 0), Frame(1, false, 3, 1), Frame(2, true, 3, 2), Frame(2, false, 4, 0)], [1], NullCaptures);
    var c10 := Config([Frame(0, false, 5, 0), Frame(0, false, 3, 0), Frame(1, true, 3, 1)], [1], NullCaptures);
    NestedGreedyLine167Turns5();
    assert Run(p, s, c5, fuel - 0) == Run(p, s, c6, fuel - 1);
    NestedGreedyLine167Turns6();
    assert Run(p, s, c6, fuel - 1) == Run(p, s, c7, fuel - 2);
    NestedGreedyLine167Turns7();
    assert Run(p, s, c7, fuel - 2) == Run(p, s, c8, fuel - 3);
    NestedGreedyLine167Turns8();
    assert Run(p, s, c8, fuel - 3) == Run(p, s, c9, fuel - 4);
    NestedGreedyLine167Turns9();
  }

  lemma NestedGreedyLine167Run10(fuel: nat)
    requires fuel >= 4
    ensures var p, s: seq<Char> := Nested(RepeatGreedy), [97, 97, 97, 98, 98];
      Run(p, s, Config([Frame(0, false, 5, 0), Frame(0, false, 3, 0), Frame(1, true, 3, 1)], [1], NullCaptures), fuel)
      == Result(NoMatch, Config([], [], NullCaptures))
  {
    var p, s: seq<Char> := Nested(RepeatGreedy), [97, 97, 97, 98, 98];
    var c10 := Config([Frame(0, false, 5, 0), Frame(0, false, 3, 0), Frame(1, true, 3, 1)], [1], NullCaptures);
    var c11 := Config([Frame(0, false, 5, 0), Frame(0, false, 3, 0), Frame(1, true, 3, 1), Frame(1, false, 4, 0)], [1], NullCaptures);
    var c12 := Config([Frame(0, false, 5, 0), Frame(0, true, 3, 0)], [1], NullCaptures);
    var c13 := Config([Frame(0, true, 5, 0)], [], NullCaptures);
    NestedGreedyLine167Turns10();
    assert Run(p, s, c10, fuel - 0) == Run(p, s, c11, fuel - 1);
    NestedGreedyLine167Turns11();
    assert Run(p, s, c11, fuel - 1) == Run(p, s, c12, fuel - 2);
    NestedGreedyLine167Turns12();
    assert Run(p, s, c12, fuel - 2) == Run(p, s, c13, fuel - 3);
    NestedGreedyLine167Turns13();
  }

  lemma NestedGreedyLine167Turns0()
    ensures var p, s: seq<Char> := Nested(RepeatGreedy), [97, 97, 97, 98, 98];
      Step(p, s, Config([Frame(0, false, 0, 0)], [], NullCaptures))
      == Running(Config([Frame(0, false, 5, 0)], [0], NullCaptures))
  {
  }

  lemma NestedGreedyLine167Turns1()
    ensures var p, s: seq<Char> := Nested(RepeatGreedy), [97, 97, 97, 98, 98];
      Step(p, s, Config([Frame(0, false, 5, 0)], [0], NullCaptures))
      == Running(Config([Frame(0, false, 5, 0), Frame(0, false, 1, 0)], [1], NullCaptures))
  {
  }

  lemma NestedGreedyLine167Turns2()
    ensures var p, s: seq<Char> := Nested(RepeatGreedy), [97, 97, 97, 98, 98];
      Step(p, s, Config([Frame(0, false, 5, 0), Frame(0, false, 1, 0)], [1], NullCaptures))
      == Running(Config([Frame(0, false, 5, 0), Frame(0, false, 3, 0)], [1, 0], NullCaptures))
  {
  }

  lemma NestedGreedyLine167Turns3()
    ensures var p, s: seq<Char> := Nested(RepeatGreedy), [97, 97, 97, 98, 98];
      Step(p, s, Config([Frame(0, false, 5, 0), Frame(0, false, 3, 0)], [1, 0], NullCaptures))
      == Running(Config([Frame(0, false, 5, 0), Frame(0, false, 3, 0), Frame(0, false, 2, 0)], [1, 1], NullCaptures))
  {
  }

  lemma NestedGreedyLine167Turns4()
    ensures var p, s: seq<Char> := Nested(RepeatGreedy), [97, 97, 97, 98, 98];
      Step(p, s, Config([Frame(0, false, 5, 0), Frame(0, false, 3, 0), Frame(0, false, 2, 0)], [1, 1], NullCaptures))
      == Running(Config([Frame(0, false, 5, 0), Frame(0, false, 3, 0), Frame(1, false, 3, 0)], [1, 1], NullCaptures))
  {
  }

  lemma NestedGreedyLine167Turns5()
    ensures var p, s: seq<Char> := Nested(RepeatGreedy), [97, 97, 97, 98, 98];
      Step(p, s, Config([Frame(0, false, 5, 0), Frame(0, false, 3, 0), Frame(1, false, 3, 0)], [1, 1], NullCaptures))
      == Running(Config([Frame(0, false, 5, 0), Frame(0, false, 3, 0), Frame(1, false, 3, 1), Frame(1, false, 2, 0)], [1, 2], NullCaptures))
  {
  }

  lemma NestedGreedyLine167Turns6()
    ensures var p, s: seq<Char> := Nested(RepeatGreedy), [97, 97, 97, 98, 98];
      Step(p, s, Config([Frame(0, false, 5, 0), Frame(0, false, 3, 0), Frame(1, false, 3, 1), Frame(1, false, 2, 0)], [1, 2], NullCaptures))
      == Running(Config([Frame(0, false, 5, 0), Frame(0, false, 3, 0), Frame(1, false, 3, 1), Frame(2, false, 3, 0)], [1, 2], NullCaptures))
  {
  }

  lemma NestedGreedyLine167Turns7()
    ensures var p, s: seq<Char> := Nested(RepeatGreedy), [97, 97, 97, 98, 98];
      Step(p, s, Config([Frame(0, false, 5, 0), Frame(0, false, 3, 0), Frame(1, false, 3, 1), Frame(2, false, 3, 0)], [1, 2], NullCaptures))
      == Running(Config([Frame(0, false, 5, 0), Frame(0, false, 3, 0), Frame(1, false, 3, 1), Frame(2, true, 3, 2)], [1, 3], NullCaptures))
  {
  }

  lemma NestedGreedyLine167Turns8()
    ensures var p, s: seq<Char> := Nested(RepeatGreedy), [97, 97, 97, 98, 98];
      Step(p, s, Config([Frame(0, false, 5, 0), Frame(0, false, 3, 0), Frame(1, false, 3, 1), Frame(2, true, 3, 2)], [1, 3], NullCaptures))
      == Running(Config([Frame(0, false, 5, 0), Frame(0, false, 3, 0), Frame(1, false, 3, 1), Frame(2, true, 3, 2), Frame(2, false, 4, 0)], [1], NullCaptures))
  {
  }

  lemma NestedGreedyLine167Turns9()
    ensures var p, s: seq<Char> := Nested(RepeatGreedy), [97, 97, 97, 98, 98];
      Step(p, s, Config([Frame(0, false, 5, 0), Frame(0, false, 3, 0), Frame(1, false, 3, 1), Frame(2, true, 3, 2), Frame(2, false, 4, 0)], [1], NullCaptures))
      == Running(Config([Frame(0, false, 5, 0), Frame(0, false, 3, 0), Frame(1, true, 3, 1)], [1], NullCaptures))
  {
    var p, s: seq<Char> := Nested(RepeatGreedy), [97, 97, 97, 98, 98];
    assert s[2..3][0] != p.chars[1..2][0];
    assert DropLast([Frame(0, false, 5, 0), Frame(0, false, 3, 0), Frame(1, false, 3, 1), Frame(2, true, 3, 2), Frame(2, false, 4, 0)]) == [Frame(0, false, 5, 0), Frame(0, false, 3, 0), Frame(1, false, 3, 1), Frame(2, true, 3, 2)];
    NestedGreedyLine167Turns9Pop0();
  }

  lemma NestedGreedyLine167Turns9Pop0()
    ensures var p: Program := Nested(RepeatGreedy);
      Unwind(p, [Frame(0, false, 5, 0), Frame(0, false, 3, 0), Frame(1, false, 3, 1), Frame(2, true, 3, 2)], [1], NullCaptures)
      == Config([Frame(0, false, 5, 0), Frame(0, false, 3, 0), Frame(1, false, 3, 1)], [1], NullCaptures)
  {
    assert DropLast([Frame(0, false, 5, 0), Frame(0, false, 3, 0), Frame(1, false, 3, 1), Frame(2, true, 3, 2)]) == [Frame(0, false, 5, 0), Frame(0, false, 3, 0), Frame(1, false, 3, 1)];
  }

  lemma NestedGreedyLine167Turns10()
    ensures var p, s: seq<Char> := Nested(RepeatGreedy), [97, 97, 97, 98, 98];
      Step(p, s, Config([Frame(0, false, 5, 0), Frame(0, false, 3, 0), Frame(1, true, 3, 1)], [1], NullCaptures))
      == Running(Config([Frame(0, false, 5, 0), Frame(0, false, 3, 0), Frame(1, true, 3, 1), Frame(1, false, 4, 0)], [1], NullCaptures))
  {
  }

  lemma NestedGreedyLine167Turns11()
    ensures var p, s: seq<Char> := Nested(RepeatGreedy), [97, 97, 97, 98, 98];
      Step(p, s, Config([Frame(0, false, 5, 0), Frame(0, false, 3, 0), Frame(1, true, 3, 1), Frame(1, false, 4, 0)], [1], NullCaptures))
      == Running(Config([Frame(0, false, 5, 0), Frame(0, true, 3, 0)], [1], NullCaptures))
  {
    var p, s: seq<Char> := Nested(RepeatGreedy), [97, 97, 97, 98, 98];
    assert s[1..2][0] != p.chars[1..2][0];
    assert DropLast([Frame(0, false, 5, 0), Frame(0, false, 3, 0), Frame(1, true, 3, 1), Frame(1, false, 4, 0)]) == [Frame(0, false, 5, 0), Frame(0, false, 3, 0), Frame(1, true, 3, 1)];
    NestedGreedyLine167Turns11Pop0();
  }

  lemma NestedGreedyLine167Turns11Pop0()
    ensures var p: Program := Nested(RepeatGreedy);
      Unwind(p, [Frame(0, false, 5, 0), Frame(0, false, 3, 0), Frame(1, true, 3, 1)], [1], NullCaptures)
      == Config([Frame(0, false, 5, 0), Frame(0, false, 3, 0)], [1], NullCaptures)
  {
    assert DropLast([Frame(0, false, 5, 0), Frame(0, false, 3, 0), Frame(1, true, 3, 1)]) == [Frame(0, false, 5, 0), Frame(0, false, 3, 0)];
  }

  lemma NestedGreedyLine167Turns12()
    ensures var p, s: seq<Char> := Nested(RepeatGreedy), [97, 97, 97, 98, 98];
      Step(p, s, Config([Frame(0, false, 5, 0), Frame(0, true, 3, 0)], [1], NullCaptures))
      == Running(Config([Frame(0, true, 5, 0)], [], NullCaptures))
  {
  }

  lemma NestedGreedyLine167Turns13()
    ensures var p, s: seq<Char> := Nested(RepeatGreedy), [97, 97, 97, 98, 98];
      Step(p, s, Config([Frame(0, true, 5, 0)], [], NullCaptures))
      == Stopped(NoMatch, Config([], [], NullCaptures))
  {
  }

  /** "aaa" (v2/regex_test.c:168): 14 turns. */
  lemma NestedGreedyLine168()
    ensures Run(Nested(RepeatGreedy), [97, 97, 97], Start([], NullCaptures), 64).verdict == NoMatch
    ensures Run(Nested(RepeatGreedy), [97, 97, 97], Start([], NullCaptures), 64).final.iters == []
  {
    NestedGreedyLine168Run0(64);
    NestedGreedyLine168Run5(59);
    NestedGreedyLine168Run10(54);
  }

  lemma NestedGreedyLine168Run0(fuel: nat)
    requires fuel >= 5
    ensures var p, s: seq<Char> := Nested(RepeatGreedy), [97, 97, 97];
      Run(p, s, Config([Frame(0, false, 0, 0)], [], NullCaptures), fuel)
      == Run(p, s, Config([Frame(0, false, 5, 0), Frame(0, false, 3, 0), Frame(1, false, 3, 0)], [1, 1], NullCaptures), fuel - 5)
  {
    var p, s: seq<Char> := Nested(RepeatGreedy), [97, 97, 97];
    var c0 := Config([Frame(0, false, 0, 0)], [], NullCaptures);
    var c1 := Config([Frame(0, false, 5, 0)], [0], NullCaptures);
    var c2 := Config([Frame(0, false, 5, 0), Frame(0, false, 1, 0)], [1], NullCaptures);
    var c3 := Config([Frame(0, false, 5, 0), Frame(0, false, 3, 0)], [1, 0], NullCaptures);
    var c4 := Config([Frame(0, false, 5, 0), Frame(0, false, 3, 0), Frame(0, false, 2, 0)], [1, 1], NullCaptures);
    var c5 := Config([Frame(0, false, 5, 0), Frame(0, false, 3, 0), Frame(1, false, 3, 0)], [1, 1], NullCaptures);
    NestedGreedyLine168Turns0();
    assert Run(p, s, c0, fuel - 0) == Run(p, s, c1, fuel - 1);
    NestedGreedyLine168Turns1();
    assert Run(p, s, c1, fuel - 1) == Run(p, s, c2, fuel - 2);
    NestedGreedyLine168Turns2();
    assert Run(p, s, c2, fuel - 2) == Run(p, s, c3, fuel - 3);
    NestedGreedyLine168Turns3();
    assert Run(p, s, c3, fuel - 3) == Run(p, s, c4, fuel - 4);
    NestedGreedyLine168Turns4();
  }

  lemma NestedGreedyLine168Run5(fuel: nat)
    requires fuel >= 5
    ensures var p, s: seq<Char> := Nested(RepeatGreedy), [97, 97, 97];
      Run(p, s, Config([Frame(0, false, 5, 0), Frame(0, false, 3, 0), Frame(1, false, 3, 0)], [1, 1], NullCaptures), fuel)
      == Run(p, s, Config([Frame(0, false, 5, 0), Frame(0, false, 3, 0), Frame(1, true, 3, 1)], [1], NullCaptures), fuel - 5)
  {
    var p, s: seq<Char> := Nested(RepeatGreedy), [97, 97, 97];
    var c5 := Config([Frame(0, false, 5, 0), Frame(0, false, 3, 0), Frame(1, false, 3, 0)], [1, 1], NullCaptures);
    var c6 := Config([Frame(0, false, 5, 0), Frame(0, false, 3, 0), Frame(1, false, 3, 1), Frame(1, false, 2, 0)], [1, 2], NullCaptures);
    var c7 := Config([Frame(0, false, 5, 0), Frame(0, false, 3, 0), Frame(1, false, 3, 1), Frame(2, false, 3, 0)], [1, 2], NullCaptures);
    var c8 := Config([Frame(0, false, 5, 0), Frame(0, false, 3, 0), Frame(1, false, 3, 1), Frame(2, true, 3, 2)], [1, 3], NullCaptures);
    var c9 := Config([Frame(0, false, 5, 0), Frame(0, false, 3, 0), Frame(1, false, 3, 1), Frame(2, true, 3, 2), Frame(2, false, 4, 0)], [1], NullCaptures);
    var c10 := Config([Frame(0, false, 5, 0), Frame(0, false, 3, 0), Frame(1, true, 3, 1)], [1], NullCaptures);
    NestedGreedyLine168Turns5();
    assert Run(p, s, c5, fuel - 0) == Run(p, s, c6, fuel - 1);
    NestedGreedyLine168Turns6();
    assert Run(p, s, c6, fuel - 1) == Run(p, s, c7, fuel - 2);
    NestedGreedyLine168Turns7();
    assert Run(p, s, c7, fuel - 2) == Run(p, s, c8, fuel - 3);
    NestedGreedyLine168Turns8();
    assert Run(p, s, c8, fuel - 3) == Run(p, s, c9, fuel - 4);
    NestedGreedyLine168Turns9();
  }

  lemma NestedGreedyLine168Run10(fuel: nat)
    requires fuel >= 4
    ensures var p, s: seq<Char> := Nested(RepeatGreedy), [97, 97, 97];
      Run(p, s, Config([Frame(0, false, 5, 0), Frame(0, false, 3, 0), Frame(1, true, 3, 1)], [1], NullCaptures), fuel)
      == Result(NoMatch, Config([], [], NullCaptures))
  {
    var p, s: seq<Char> := Nested(RepeatGreedy), [97, 97, 97];
    var c10 := Config([Frame(0, false, 5, 0), Frame(0, false, 3, 0), Frame(1, true, 3, 1)], [1], NullCaptures);
    var c11 := Config([Frame(0, false, 5, 0), Frame(0, false, 3, 0), Frame(1, true, 3, 1), Frame(1, false, 4, 0)], [1], NullCaptures);
    var c12 := Config([Frame(0, false, 5, 0), Frame(0, true, 3, 0)], [1], NullCaptures);
    var c13 := Config([Frame(0, true, 5, 0)], [], NullCaptures);
    NestedGreedyLine168Turns10();
    assert Run(p, s, c10, fuel - 0) == Run(p, s, c11, fuel - 1);
    NestedGreedyLine168Turns11();
    assert Run(p, s, c11, fuel - 1) == Run(p, s, c12, fuel - 2);
    NestedGreedyLine168Turns12();
    assert Run(p, s, c12, fuel - 2) == Run(p, s, c13, fuel - 3);
    NestedGreedyLine168Turns13();
  }

  lemma NestedGreedyLine168Turns0()
    ensures var p, s: seq<Char> := Nested(RepeatGreedy), [97, 97, 97];
      Step(p, s, Config([Frame(0, false, 0, 0)], [], NullCaptures))
      == Running(Config([Frame(0, false, 5, 0)], [0], NullCaptures))
  {
  }

  lemma NestedGreedyLine168Turns1()
    ensures var p, s: seq<Char> := Nested(RepeatGreedy), [97, 97, 97];
      Step(p, s, Config([Frame(0, false, 5, 0)], [0], NullCaptures))
      == Running(Config([Frame(0, false, 5, 0), Frame(0, false, 1, 0)], [1], NullCaptures))
  {
  }

  lemma NestedGreedyLine168Turns2()
    ensures var p, s: seq<Char> := Nested(RepeatGreedy), [97, 97, 97];
      Step(p, s, Config([Frame(0, false, 5, 0), Frame(0, false, 1, 0)], [1], NullCaptures))
      == Running(Config([Frame(0, false, 5, 0), Frame(0, false, 3, 0)], [1, 0], NullCaptures))
  {
  }

  lemma NestedGreedyLine168Turns3()
    ensures var p, s: seq<Char> := Nested(RepeatGreedy), [97, 97, 97];
      Step(p, s, Config([Frame(0, false, 5, 0), Frame(0, false, 3, 0)], [1, 0], NullCaptures))
      == Running(Config([Frame(0, false, 5, 0), Frame(0, false, 3, 0), Frame(0, false, 2, 0)], [1, 1], NullCaptures))
  {
  }

  lemma NestedGreedyLine168Turns4()
    ensures var p, s: seq<Char> := Nested(RepeatGreedy), [97, 97, 97];
      Step(p, s, Config([Frame(0, false, 5, 0), Frame(0, false, 3, 0), Frame(0, false, 2, 0)], [1, 1], NullCaptures))
      == Running(Config([Frame(0, false, 5, 0), Frame(0, false, 3, 0), Frame(1, false, 3, 0)], [1, 1], NullCaptures))
  {
  }

  lemma NestedGreedyLine168Turns5()
    ensures var p, s: seq<Char> := Nested(RepeatGreedy), [97, 97, 97];
      Step(p, s, Config([Frame(0, false, 5, 0), Frame(0, false, 3, 0), Frame(1, false, 3, 0)], [1, 1], NullCaptures))
      == Running(Config([Frame(0, false, 5, 0), Frame(0, false, 3, 0), Frame(1, false, 3, 1), Frame(1, false, 2, 0)], [1, 2], NullCaptures))
  {
  }

  lemma NestedGreedyLine168Turns6()
    ensures var p, s: seq<Char> := Nested(RepeatGreedy), [97, 97, 97];
      Step(p, s, Config([Frame(0, false, 5, 0), Frame(0, false, 3, 0), Frame(1, false, 3, 1), Frame(1, false, 2, 0)], [1, 2], NullCaptures))
      == Running(Config([Frame(0, false, 5, 0), Frame(0, false, 3, 0), Frame(1, false, 3, 1), Frame(2, false, 3, 0)], [1, 2], NullCaptures))
  {
  }

  lemma NestedGreedyLine168Turns7()
    ensures var p, s: seq<Char> := Nested(RepeatGreedy), [97, 97, 97];
      Step(p, s, Config([Frame(0, false, 5, 0), Frame(0, false, 3, 0), Frame(1, false, 3, 1), Frame(2, false, 3, 0)], [1, 2], NullCaptures))
      == Running(Config([Frame(0, false, 5, 0), Frame(0, false, 3, 0), Frame(1, false, 3, 1), Frame(2, true, 3, 2)], [1, 3], NullCaptures))
  {
  }

  lemma NestedGreedyLine168Turns8()
    ensures var p, s: seq<Char> := Nested(RepeatGreedy), [97, 97, 97];
      Step(p, s, Config([Frame(0, false, 5, 0), Frame(0, false, 3, 0), Frame(1, false, 3, 1), Frame(2, true, 3, 2)], [1, 3], NullCaptures))
      == Running(Config([Frame(0, false, 5, 0), Frame(0, false, 3, 0), Frame(1, false, 3, 1), Frame(2, true, 3, 2), Frame(2, false, 4, 0)], [1], NullCaptures))
  {
  }

  lemma NestedGreedyLine168Turns9()
    ensures var p, s: seq<Char> := Nested(RepeatGreedy), [97, 97, 97];
      Step(p, s, Config([Frame(0, false, 5, 0), Frame(0, false, 3, 0), Frame(1, false, 3, 1), Frame(2, true, 3, 2), Frame(2, false, 4, 0)], [1], NullCaptures))
      == Running(Config([Frame(0, false, 5, 0), Frame(0, false, 3, 0), Frame(1, true, 3, 1)], [1], NullCaptures))
  {
    var p, s: seq<Char> := Nested(RepeatGreedy), [97, 97, 97];
    assert s[2..3][0] != p.chars[1..2][0];
    assert DropLast([Frame(0, false, 5, 0), Frame(0, false, 3, 0), Frame(1, false, 3, 1), Frame(2, true, 3, 2), Frame(2, false, 4, 0)]) == [Frame(0, false, 5, 0), Frame(0, false, 3, 0), Frame(1, false, 3, 1), Frame(2, true, 3, 2)];
    NestedGreedyLine168Turns9Pop0();
  }

  lemma NestedGreedyLine168Turns9Pop0()
    ensures var p: Program := Nested(RepeatGreedy);
      Unwind(p, [Frame(0, false, 5, 0), Frame(0, false, 3, 0), Frame(1, false, 3, 1), Frame(2, true, 3, 2)], [1], NullCaptures)
      == Config([Frame(0, false, 5, 0), Frame(0, false, 3, 0), Frame(1, false, 3, 1)], [1], NullCaptures)
  {
    assert DropLast([Frame(0, false, 5, 0), Frame(0, false, 3, 0), Frame(1, false, 3, 1), Frame(2, true, 3, 2)]) == [Frame(0, false, 5, 0), Frame(0, false, 3, 0), Frame(1, false, 3, 1)];
  }

  lemma NestedGreedyLine168Turns10()
    ensures var p, s: seq<Char> := Nested(RepeatGreedy), [97, 97, 97];
      Step(p, s, Config([Frame(0, false, 5, 0), Frame(0, false, 3, 0), Frame(1, true, 3, 1)], [1], NullCaptures))
      == Running(Config([Frame(0, false, 5, 0), Frame(0, false, 3, 0), Frame(1, true, 3, 1), Frame(1, false, 4, 0)], [1], NullCaptures))
  {
  }

  lemma NestedGreedyLine168Turns11()
    ensures var p, s: seq<Char> := Nested(RepeatGreedy), [97, 97, 97];
      Step(p, s, Config([Frame(0, false, 5, 0), Frame(0, false, 3, 0), Frame(1, true, 3, 1), Frame(1, false, 4, 0)], [1], NullCaptures))
      == Running(Config([Frame(0, false, 5, 0), Frame(0, true, 3, 0)], [1], NullCaptures))
  {
    var p, s: seq<Char> := Nested(RepeatGreedy), [97, 97, 97];
    assert s[1..2][0] != p.chars[1..2][0];
    assert DropLast([Frame(0, false, 5, 0), Frame(0, false, 3, 0), Frame(1, true, 3, 1), Frame(1, false, 4, 0)]) == [Frame(0, false, 5, 0), Frame(0, false, 3, 0), Frame(1, true, 3, 1)];
    NestedGreedyLine168Turns11Pop0();
  }

  lemma NestedGreedyLine168Turns11Pop0()
    ensures var p: Program := Nested(RepeatGreedy);
      Unwind(p, [Frame(0, false, 5, 0), Frame(0, false, 3, 0), Frame(1, true, 3, 1)], [1], NullCaptures)
      == Config([Frame(0, false, 5, 0), Frame(0, false, 3, 0)], [1], NullCaptures)
  {
    assert DropLast([Frame(0, false, 5, 0), Frame(0, false, 3, 0), Frame(1, true, 3, 1)]) == [Frame(0, false, 5, 0), Frame(0, false, 3, 0)];
  }

  lemma NestedGreedyLine168Turns12()
    ensures var p, s: seq<Char> := Nested(RepeatGreedy), [97, 97, 97];
      Step(p, s, Config([Frame(0, false, 5, 0), Frame(0, true, 3, 0)], [1], NullCaptures))
      == Running(Config([Frame(0, true, 5, 0)], [], NullCaptures))
  {
  }

  lemma NestedGreedyLine168Turns13()
    ensures var p, s: seq<Char> := Nested(RepeatGreedy), [97, 97, 97];
      Step(p, s, Config([Frame(0, true, 5, 0)], [], NullCaptures))
      == Stopped(NoMatch, Config([], [], NullCaptures))
  {
  }

  /** Lazy `(a{1,2}?b){1,3}?` accepts and rejects the same strings as the greedy loops (v2/regex_test.c:146-170). */
  lemma NestedLazyTests()
    ensures Run(Nested(RepeatLazy), [97, 97, 98], Start([], NullCaptures), 64).verdict == Matched
    ensures Run(Nested(RepeatLazy), [97, 97, 98, 97, 98], Start([], NullCaptures), 64).verdict == Matched
    ensures Run(Nested(RepeatLazy), [97, 98, 97, 98, 97, 97, 98], Start([], NullCaptures), 64).verdict == Matched
    ensures Run(Nested(RepeatLazy), [], Start([], NullCaptures), 64).verdict == NoMatch
    ensures Run(Nested(RepeatLazy), [], Start([], NullCaptures), 64).final.iters == []
    ensures Run(Nested(RepeatLazy), [97, 97, 97, 98, 98], Start([], NullCaptures), 64).verdict == NoMatch
    ensures Run(Nested(RepeatLazy), [97, 97, 97, 98, 98], Start([], NullCaptures), 64).final.iters == []
    ensures Run(Nested(RepeatLazy), [97, 97, 97], Start([], NullCaptures), 64).verdict == NoMatch
    ensures Run(Nested(RepeatLazy), [97, 97, 97], Start([], NullCaptures), 64).final.iters == []
  {
    NestedLazyLine163();
    NestedLazyLine164();
    NestedLazyLine165();
    NestedLazyLine166();
    NestedLazyLine167();
    NestedLazyLine168();
  }

  /** "aab" (v2/regex_test.c:163): 15 turns. */
  lemma NestedLazyLine163()
    ensures Run(Nested(RepeatLazy), [97, 97, 98], Start([], NullCaptures), 64).verdict == Matched
  {
    NestedLazyLine163Run0(64);
    NestedLazyLine163Run5(59);
    NestedLazyLine163Run10(54);
  }

  lemma NestedLazyLine163Run0(fuel: nat)
    requires fuel >= 5
    ensures var p, s: seq<Char> := Nested(RepeatLazy), [97, 97, 98];
      Run(p, s, Config([Frame(0, false, 0, 0)], [], NullCaptures), fuel)
      == Run(p, s, Config([Frame(0, true, 5, 0), Frame(0, true, 3, 0)], [1], NullCaptures), fuel - 5)
  {
    var p, s: seq<Char> := Nested(RepeatLazy), [97, 97, 98];
    var c0 := Config([Frame(0, false, 0, 0)], [], NullCaptures);
    var c1 := Config([Frame(0, false, 5, 0)], [0], NullCaptures);
    var c2 := Config([Frame(0, true, 5, 0)], [], NullCaptures);
    var c3 := Config([Frame(0, true, 5, 0), Frame(0, false, 1, 0)], [1], NullCaptures);
    var c4 := Config([Frame(0, true, 5, 0), Frame(0, false, 3, 0)], [1, 0], NullCaptures);
    var c5 := Config([Frame(0, true, 5, 0), Frame(0, true, 3, 0)], [1], NullCaptures);
    NestedLazyLine163Turns0();
    assert Run(p, s, c0, fuel - 0) == Run(p, s, c1, fuel - 1);
    NestedLazyLine163Turns1();
    assert Run(p, s, c1, fuel - 1) == Run(p, s, c2, fuel - 2);
    NestedLazyLine163Turns2();
    assert Run(p, s, c2, fuel - 2) == Run(p, s, c3, fuel - 3);
    NestedLazyLine163Turns3();
    assert Run(p, s, c3, fuel - 3) == Run(p, s, c4, fuel - 4);
    NestedLazyLine163Turns4();
  }

  lemma NestedLazyLine163Run5(fuel: nat)
    requires fuel >= 5
    ensures var p, s: seq<Char> := Nested(RepeatLazy), [97, 97, 98];
      Run(p, s, Config([Frame(0, true, 5, 0), Frame(0, true, 3, 0)], [1], NullCaptures), fuel)
      == Run(p, s, Config([Frame(0, true, 5, 0), Frame(0, true, 3, 0), Frame(1, true, 3, 1), Frame(1, false, 2, 0)], [1, 2], NullCaptures), fuel - 5)
  {
    var p, s: seq<Char> := Nested(RepeatLazy), [97, 97, 98];
    var c5 := Config([Frame(0, true, 5, 0), Frame(0, true, 3, 0)], [1], NullCaptures);
    var c6 := Config([Frame(0, true, 5, 0), Frame(0, true, 3, 0), Frame(0, false, 2, 0)], [1, 1], NullCaptures);
    var c7 := Config([Frame(0, true, 5, 0), Frame(0, true, 3, 0), Frame(1, false, 3, 0)], [1, 1], NullCaptures);
    var c8 := Config([Frame(0, true, 5, 0), Frame(0, true, 3, 0), Frame(1, false, 3, 1), Frame(1, false, 4, 0)], [1], NullCaptures);
    var c9 := Config([Frame(0, true, 5, 0), Frame(0, true, 3, 0), Frame(1, true, 3, 1)], [1], NullCaptures);
    var c10 := Config([Frame(0, true, 5, 0), Frame(0, true, 3, 0), Frame(1, true, 3, 1), Frame(1, false, 2, 0)], [1, 2], NullCaptures);
    NestedLazyLine163Turns5();
    assert Run(p, s, c5, fuel - 0) == Run(p, s, c6, fuel - 1);
    NestedLazyLine163Turns6();
    assert Run(p, s, c6, fuel - 1) == Run(p, s, c7, fuel - 2);
    NestedLazyLine163Turns7();
    assert Run(p, s, c7, fuel - 2) == Run(p, s, c8, fuel - 3);
    NestedLazyLine163Turns8();
    assert Run(p, s, c8, fuel - 3) == Run(p, s, c9, fuel - 4);
    NestedLazyLine163Turns9();
  }

  lemma NestedLazyLine163Run10(fuel: nat)
    requires fuel >= 5
    ensures var p, s: seq<Char> := Nested(RepeatLazy), [97, 97, 98];
      Run(p, s, Config([Frame(0, true, 5, 0), Frame(0, true, 3, 0), Frame(1, true, 3, 1), Frame(1, false, 2, 0)], [1, 2], NullCaptures), fuel)
      == Result(Matched, Config([Frame(0, true, 5, 0), Frame(0, true, 3, 0), Frame(1, true, 3, 1), Frame(2, false, 3, 2), Frame(3, false, 5, 1), Frame(3, false, 6, 0)], [], NullCaptures))
  {
    var p, s: seq<Char> := Nested(RepeatLazy), [97, 97, 98];
    var c10 := Config([Frame(0, true, 5, 0), Frame(0, true, 3, 0), Frame(1, true, 3, 1), Frame(1, false, 2, 0)], [1, 2], NullCaptures);
    var c11 := Config([Frame(0, true, 5, 0), Frame(0, true, 3, 0), Frame(1, true, 3, 1), Frame(2, false, 3, 0)], [1, 2], NullCaptures);
    var c12 := Config([Frame(0, true, 5, 0), Frame(0, true, 3, 0), Frame(1, true, 3, 1), Frame(2, false, 3, 2), Frame(2, false, 4, 0)], [1], NullCaptures);
    var c13 := Config([Frame(0, true, 5, 0), Frame(0, true, 3, 0), Frame(1, true, 3, 1), Frame(2, false, 3, 2), Frame(3, false, 5, 0)], [1], NullCaptures);
    var c14 := Config([Frame(0, true, 5, 0), Frame(0, true, 3, 0), Frame(1, true, 3, 1), Frame(2, false, 3, 2), Frame(3, false, 5, 1), Frame(3, false, 6, 0)], [], NullCaptures);
    NestedLazyLine163Turns10();
    assert Run(p, s, c10, fuel - 0) == Run(p, s, c11, fuel - 1);
    NestedLazyLine163Turns11();
    assert Run(p, s, c11, fuel - 1) == Run(p, s, c12, fuel - 2);
    NestedLazyLine163Turns12();
    assert Run(p, s, c12, fuel - 2) == Run(p, s, c13, fuel - 3);
    NestedLazyLine163Turns13();
    assert Run(p, s, c13, fuel - 3) == Run(p, s, c14, fuel - 4);
    NestedLazyLine163Turns14();
  }

  lemma NestedLazyLine163Turns0()
    ensures var p, s: seq<Char> := Nested(RepeatLazy), [97, 97, 98];
      Step(p, s, Config([Frame(0, false, 0, 0)], [], NullCaptures))
      == Running(Config([Frame(0, false, 5, 0)], [0], NullCaptures))
  {
  }

  lemma NestedLazyLine163Turns1()
    ensures var p, s: seq<Char> := Nested(RepeatLazy), [97, 97, 98];
      Step(p, s, Config([Frame(0, false, 5, 0)], [0], NullCaptures))
      == Running(Config([Frame(0, true, 5, 0)], [], NullCaptures))
  {
  }

  lemma NestedLazyLine163Turns2()
    ensures var p, s: seq<Char> := Nested(RepeatLazy), [97, 97, 98];
      Step(p, s, Config([Frame(0, true, 5, 0)], [], NullCaptures))
      == Running(Config([Frame(0, true, 5, 0), Frame(0, false, 1, 0)], [1], NullCaptures))
  {
  }

  lemma NestedLazyLine163Turns3()
    ensures var p, s: seq<Char> := Nested(RepeatLazy), [97, 97, 98];
      Step(p, s, Config([Frame(0, true, 5, 0), Frame(0, false, 1, 0)], [1], NullCaptures))
      == Running(Config([Frame(0, true, 5, 0), Frame(0, false, 3, 0)], [1, 0], NullCaptures))
  {
  }

  lemma NestedLazyLine163Turns4()
    ensures var p, s: seq<Char> := Nested(RepeatLazy), [97, 97, 98];
      Step(p, s, Config([Frame(0, true, 5, 0), Frame(0, false, 3, 0)], [1, 0], NullCaptures))
      == Running(Config([Frame(0, true, 5, 0), Frame(0, true, 3, 0)], [1], NullCaptures))
  {
  }

  lemma NestedLazyLine163Turns5()
    ensures var p, s: seq<Char> := Nested(RepeatLazy), [97, 97, 98];
      Step(p, s, Config([Frame(0, true, 5, 0), Frame(0, true, 3, 0)], [1], NullCaptures))
      == Running(Config([Frame(0, true, 5, 0), Frame(0, true, 3, 0), Frame(0, false, 2, 0)], [1, 1], NullCaptures))
  {
  }

  lemma NestedLazyLine163Turns6()
    ensures var p, s: seq<Char> := Nested(RepeatLazy), [97, 97, 98];
      Step(p, s, Config([Frame(0, true, 5, 0), Frame(0, true, 3, 0), Frame(0, false, 2, 0)], [1, 1], NullCaptures))
      == Running(Config([Frame(0, true, 5, 0), Frame(0, true, 3, 0), Frame(1, false, 3, 0)], [1, 1], NullCaptures))
  {
  }

  lemma NestedLazyLine163Turns7()
    ensures var p, s: seq<Char> := Nested(RepeatLazy), [97, 97, 98];
      Step(p, s, Config([Frame(0, true, 5, 0), Frame(0, true, 3, 0), Frame(1, false, 3, 0)], [1, 1], NullCaptures))
      == Running(Config([Frame(0, true, 5, 0), Frame(0, true, 3, 0), Frame(1, false, 3, 1), Frame(1, false, 4, 0)], [1], NullCaptures))
  {
  }

  lemma NestedLazyLine163Turns8()
    ensures var p, s: seq<Char> := Nested(RepeatLazy), [97, 97, 98];
      Step(p, s, Config([Frame(0, true, 5, 0), Frame(0, true, 3, 0), Frame(1, false, 3, 1), Frame(1, false, 4, 0)], [1], NullCaptures))
      == Running(Config([Frame(0, true, 5, 0), Frame(0, true, 3, 0), Frame(1, true, 3, 1)], [1], NullCaptures))
  {
    var p, s: seq<Char> := Nested(RepeatLazy), [97, 97, 98];
    assert s[1..2][0] != p.chars[1..2][0];
  }

  lemma NestedLazyLine163Turns9()
    ensures var p, s: seq<Char> := Nested(RepeatLazy), [97, 97, 98];
      Step(p, s, Config([Frame(0, true, 5, 0), Frame(0, true, 3, 0), Frame(1, true, 3, 1)], [1], NullCaptures))
      == Running(Config([Frame(0, true, 5, 0), Frame(0, true, 3, 0), Frame(1, true, 3, 1), Frame(1, false, 2, 0)], [1, 2], NullCaptures))
  {
  }

  lemma NestedLazyLine163Turns10()
    ensures var p, s: seq<Char> := Nested(RepeatLazy), [97, 97, 98];
      Step(p, s, Config([Frame(0, true, 5, 0), Frame(0, true, 3, 0), Frame(1, true, 3, 1), Frame(1, false, 2, 0)], [1, 2], NullCaptures))
      == Running(Config([Frame(0, true, 5, 0), Frame(0, true, 3, 0), Frame(1, true, 3, 1), Frame(2, false, 3, 0)], [1, 2], NullCaptures))
  {
  }

  lemma NestedLazyLine163Turns11()
    ensures var p, s: seq<Char> := Nested(RepeatLazy), [97, 97, 98];
      Step(p, s, Config([Frame(0, true, 5, 0), Frame(0, true, 3, 0), Frame(1, true, 3, 1), Frame(2, false, 3, 0)], [1, 2], NullCaptures))
      == Running(Config([Frame(0, true, 5, 0), Frame(0, true, 3, 0), Frame(1, true, 3, 1), Frame(2, false, 3, 2), Frame(2, false, 4, 0)], [1], NullCaptures))
  {
  }

  lemma NestedLazyLine163Turns12()
    ensures var p, s: seq<Char> := Nested(RepeatLazy), [97, 97, 98];
      Step(p, s, Config([Frame(0, true, 5, 0), Frame(0, true, 3, 0), Frame(1, true, 3, 1), Frame(2, false, 3, 2), Frame(2, false, 4, 0)], [1], NullCaptures))
      == Running(Config([Frame(0, true, 5, 0), Frame(0, true, 3, 0), Frame(1, true, 3, 1), Frame(2, false, 3, 2), Frame(3, false, 5, 0)], [1], NullCaptures))
  {
  }

  lemma NestedLazyLine163Turns13()
    ensures var p, s: seq<Char> := Nested(RepeatLazy), [97, 97, 98];
      Step(p, s, Config([Frame(0, true, 5, 0), Frame(0, true, 3, 0), Frame(1, true, 3, 1), Frame(2, false, 3, 2), Frame(3, false, 5, 0)], [1], NullCaptures))
      == Running(Config([Frame(0, true, 5, 0), Frame(0, true, 3, 0), Frame(1, true, 3, 1), Frame(2, false, 3, 2), Frame(3, false, 5, 1), Frame(3, false, 6, 0)], [], NullCaptures))
  {
  }

  lemma NestedLazyLine163Turns14()
    ensures var p, s: seq<Char> := Nested(RepeatLazy), [97, 97, 98];
      Step(p, s, Config([Frame(0, true, 5, 0), Frame(0, true, 3, 0), Frame(1, true, 3, 1), Frame(2, false, 3, 2), Frame(3, false, 5, 1), Frame(3, false, 6, 0)], [], NullCaptures))
      == Stopped(Matched, Config([Frame(0, true, 5, 0), Frame(0, true, 3, 0), Frame(1, true, 3, 1), Frame(2, false, 3, 2), Frame(3, false, 5, 1), Frame(3, false, 6, 0)], [], NullCaptures))
  {
  }

  /** "aabab" (v2/regex_test.c:164): 15 turns. */
  lemma NestedLazyLine164()
    ensures Run(Nested(RepeatLazy), [97, 97, 98, 97, 98], Start([], NullCaptures), 64).verdict == Matched
  {
    NestedLazyLine164Run0(64);
    NestedLazyLine164Run5(59);
    NestedLazyLine164Run10(54);
  }

  lemma NestedLazyLine164Run0(fuel: nat)
    requires fuel >= 5
    ensures var p, s: seq<Char> := Nested(RepeatLazy), [97, 97, 98, 97, 98];
      Run(p, s, Config([Frame(0, false, 0, 0)], [], NullCaptures), fuel)
      == Run(p, s, Config([Frame(0, true, 5, 0), Frame(0, true, 3, 0)], [1], NullCaptures), fuel - 5)
  {
    var p, s: seq<Char> := Nested(RepeatLazy), [97, 97, 98, 97, 98];
    var c0 := Config([Frame(0, false, 0, 0)], [], NullCaptures);
    var c1 := Config([Frame(0, false, 5, 0)], [0], NullCaptures);
    var c2 := Config([Frame(0, true, 5, 0)], [], NullCaptures);
    var c3 := Config([Frame(0, true, 5, 0), Frame(0, false, 1, 0)], [1], NullCaptures);
    var c4 := Config([Frame(0, true, 5, 0), Frame(0, false, 3, 0)], [1, 0], NullCaptures);
    var c5 := Config([Frame(0, true, 5, 0), Frame(0, true, 3, 0)], [1], NullCaptures);
    NestedLazyLine164Turns0();
    assert Run(p, s, c0, fuel - 0) == Run(p, s, c1, fuel - 1);
    NestedLazyLine164Turns1();
    assert Run(p, s, c1, fuel - 1) == Run(p, s, c2, fuel - 2);
    NestedLazyLine164Turns2();
    assert Run(p, s, c2, fuel - 2) == Run(p, s, c3, fuel - 3);
    NestedLazyLine164Turns3();
    assert Run(p, s, c3, fuel - 3) == Run(p, s, c4, fuel - 4);
    NestedLazyLine164Turns4();
  }

  lemma NestedLazyLine164Run5(fuel: nat)
    requires fuel >= 5
    ensures var p, s: seq<Char> := Nested(RepeatLazy), [97, 97, 98, 97, 98];
      Run(p, s, Config([Frame(0, true, 5, 0), Frame(0, true, 3, 0)], [1], NullCaptures), fuel)
      == Run(p, s, Config([Frame(0, true, 5, 0), Frame(0, true, 3, 0), Frame(1, true, 3, 1), Frame(1, false, 2, 0)], [1, 2], NullCaptures), fuel - 5)
  {
    var p, s: seq<Char> := Nested(RepeatLazy), [97, 97, 98, 97, 98];
    var c5 := Config([Frame(0, true, 5, 0), Frame(0, true, 3, 0)], [1], NullCaptures);
    var c6 := Config([Frame(0, true, 5, 0), Frame(0, true, 3, 0), Frame(0, false, 2, 0)], [1, 1], NullCaptures);
    var c7 := Config([Frame(0, true, 5, 0), Frame(0, true, 3, 0), Frame(1, false, 3, 0)], [1, 1], NullCaptures);
    var c8 := Config([Frame(0, true, 5, 0), Frame(0, true, 3, 0), Frame(1, false, 3, 1), Frame(1, false, 4, 0)], [1], NullCaptures);
    var c9 := Config([Frame(0, true, 5, 0), Frame(0, true, 3, 0), Frame(1, true, 3, 1)], [1], NullCaptures);
    var c10 := Config([Frame(0, true, 5, 0), Frame(0, true, 3, 0), Frame(1, true, 3, 1), Frame(1, false, 2, 0)], [1, 2], NullCaptures);
    NestedLazyLine164Turns5();
    assert Run(p, s, c5, fuel - 0) == Run(p, s, c6, fuel - 1);
    NestedLazyLine164Turns6();
    assert Run(p, s, c6, fuel - 1) == Run(p, s, c7, fuel - 2);
    NestedLazyLine164Turns7();
    assert Run(p, s, c7, fuel - 2) == Run(p, s, c8, fuel - 3);
    NestedLazyLine164Turns8();
    assert Run(p, s, c8, fuel - 3) == Run(p, s, c9, fuel - 4);
    NestedLazyLine164Turns9();
  }

  lemma NestedLazyLine164Run10(fuel: nat)
    requires fuel >= 5
    ensures var p, s: seq<Char> := Nested(RepeatLazy), [97, 97, 98, 97, 98];
      Run(p, s, Config([Frame(0, true, 5, 0), Frame(0, true, 3, 0), Frame(1, true, 3, 1), Frame(1, false, 2, 0)], [1, 2], NullCaptures), fuel)
      == Result(Matched, Config([Frame(0, true, 5, 0), Frame(0, true, 3, 0), Frame(1, true, 3, 1), Frame(2, false, 3, 2), Frame(3, false, 5, 1), Frame(3, false, 6, 0)], [], NullCaptures))
  {
    var p, s: seq<Char> := Nested(RepeatLazy), [97, 97, 98, 97, 98];
    var c10 := Config([Frame(0, true, 5, 0), Frame(0, true, 3, 0), Frame(1, true, 3, 1), Frame(1, false, 2, 0)], [1, 2], NullCaptures);
    var c11 := Config([Frame(0, true, 5, 0), Frame(0, true, 3, 0), Frame(1, true, 3, 1), Frame(2, false, 3, 0)], [1, 2], NullCaptures);
    var c12 := Config([Frame(0, true, 5, 0), Frame(0, true, 3, 0), Frame(1, true, 3, 1), Frame(2, false, 3, 2), Frame(2, false, 4, 0)], [1], NullCaptures);
    var c13 := Config([Frame(0, true, 5, 0), Frame(0, true, 3, 0), Frame(1, true, 3, 1), Frame(2, false, 3, 2), Frame(3, false, 5, 0)], [1], NullCaptures);
    var c14 := Config([Frame(0, true, 5, 0), Frame(0, true, 3, 0), Frame(1, true, 3, 1), Frame(2, false, 3, 2), Frame(3, false, 5, 1), Frame(3, false, 6, 0)], [], NullCaptures);
    NestedLazyLine164Turns10();
    assert Run(p, s, c10, fuel - 0) == Run(p, s, c11, fuel - 1);
    NestedLazyLine164Turns11();
    assert Run(p, s, c11, fuel - 1) == Run(p, s, c12, fuel - 2);
    NestedLazyLine164Turns12();
    assert Run(p, s, c12, fuel - 2) == Run(p, s, c13, fuel - 3);
    NestedLazyLine164Turns13();
    assert Run(p, s, c13, fuel - 3) == Run(p, s, c14, fuel - 4);
    NestedLazyLine164Turns14();
  }

  lemma NestedLazyLine164Turns0()
    ensures var p, s: seq<Char> := Nested(RepeatLazy), [97, 97, 98, 97, 98];
      Step(p, s, Config([Frame(0, false, 0, 0)], [], NullCaptures))
      == Running(Config([Frame(0, false, 5, 0)], [0], NullCaptures))
  {
  }

  lemma NestedLazyLine164Turns1()
    ensures var p, s: seq<Char> := Nested(RepeatLazy), [97, 97, 98, 97, 98];
      Step(p, s, Config([Frame(0, false, 5, 0)], [0], NullCaptures))
      == Running(Config([Frame(0, true, 5, 0)], [], NullCaptures))
  {
  }

  lemma NestedLazyLine164Turns2()
    ensures var p, s: seq<Char> := Nested(RepeatLazy), [97, 97, 98, 97, 98];
      Step(p, s, Config([Frame(0, true, 5, 0)], [], NullCaptures))
      == Running(Config([Frame(0, true, 5, 0), Frame(0, false, 1, 0)], [1], NullCaptures))
  {
  }

  lemma NestedLazyLine164Turns3()
    ensures var p, s: seq<Char> := Nested(RepeatLazy), [97, 97, 98, 97, 98];
      Step(p, s, Config([Frame(0, true, 5, 0), Frame(0, false, 1, 0)], [1], NullCaptures))
      == Running(Config([Frame(0, true, 5, 0), Frame(0, false, 3, 0)], [1, 0], NullCaptures))
  {
  }

  lemma NestedLazyLine164Turns4()
    ensures var p, s: seq<Char> := Nested(RepeatLazy), [97, 97, 98, 97, 98];
      Step(p, s, Config([Frame(0, true, 5, 0), Frame(0, false, 3, 0)], [1, 0], NullCaptures))
      == Running(Config([Frame(0, true, 5, 0), Frame(0, true, 3, 0)], [1], NullCaptures))
  {
  }

  lemma NestedLazyLine164Turns5()
    ensures var p, s: seq<Char> := Nested(RepeatLazy), [97, 97, 98, 97, 98];
      Step(p, s, Config([Frame(0, true, 5, 0), Frame(0, true, 3, 0)], [1], NullCaptures))
      == Running(Config([Frame(0, true, 5, 0), Frame(0, true, 3, 0), Frame(0, false, 2, 0)], [1, 1], NullCaptures))
  {
  }

  lemma NestedLazyLine164Turns6()
    ensures var p, s: seq<Char> := Nested(RepeatLazy), [97, 97, 98, 97, 98];
      Step(p, s, Config([Frame(0, true, 5, 0), Frame(0, true, 3, 0), Frame(0, false, 2, 0)], [1, 1], NullCaptures))
      == Running(Config([Frame(0, true, 5, 0), Frame(0, true, 3, 0), Frame(1, false, 3, 0)], [1, 1], NullCaptures))
  {
  }

  lemma NestedLazyLine164Turns7()
    ensures var p, s: seq<Char> := Nested(RepeatLazy), [97, 97, 98, 97, 98];
      Step(p, s, Config([Frame(0, true, 5, 0), Frame(0, true, 3, 0), Frame(1, false, 3, 0)], [1, 1], NullCaptures))
      == Running(Config([Frame(0, true, 5, 0), Frame(0, true, 3, 0), Frame(1, false, 3, 1), Frame(1, false, 4, 0)], [1], NullCaptures))
  {
  }

  lemma NestedLazyLine164Turns8()
    ensures var p, s: seq<Char> := Nested(RepeatLazy), [97, 97, 98, 97, 98];
      Step(p, s, Config([Frame(0, true, 5, 0), Frame(0, true, 3, 0), Frame(1, false, 3, 1), Frame(1, false, 4, 0)], [1], NullCaptures))
      == Running(Config([Frame(0, true, 5, 0), Frame(0, true, 3, 0), Frame(1, true, 3, 1)], [1], NullCaptures))
  {
    var p, s: seq<Char> := Nested(RepeatLazy), [97, 97, 98, 97, 98];
    assert s[1..2][0] != p.chars[1..2][0];
  }

  lemma NestedLazyLine164Turns9()
    ensures var p, s: seq<Char> := Nested(RepeatLazy), [97, 97, 98, 97, 98];
      Step(p, s, Config([Frame(0, true, 5, 0), Frame(0, true, 3, 0), Frame(1, true, 3, 1)], [1], NullCaptures))
      == Running(Config([Frame(0, true, 5, 0), Frame(0, true, 3, 0), Frame(1, true, 3, 1), Frame(1, false, 2, 0)], [1, 2], NullCaptures))
  {
  }

  lemma NestedLazyLine164Turns10()
    ensures var p, s: seq<Char> := Nested(RepeatLazy), [97, 97, 98, 97, 98];
      Step(p, s, Config([Frame(0, true, 5, 0), Frame(0, true, 3, 0), Frame(1, true, 3, 1), Frame(1, false, 2, 0)], [1, 2], NullCaptures))
      == Running(Config([Frame(0, true, 5, 0), Frame(0, true, 3, 0), Frame(1, true, 3, 1), Frame(2, false, 3, 0)], [1, 2], NullCaptures))
  {
  }

  lemma NestedLazyLine164Turns11()
    ensures var p, s: seq<Char> := Nested(RepeatLazy), [97, 97, 98, 97, 98];
      Step(p, s, Config([Frame(0, true, 5, 0), Frame(0, true, 3, 0), Frame(1, true, 3, 1), Frame(2, false, 3, 0)], [1, 2], NullCaptures))
      == Running(Config([Frame(0, true, 5, 0), Frame(0, true, 3, 0), Frame(1, true, 3, 1), Frame(2, false, 3, 2), Frame(2, false, 4, 0)], [1], NullCaptures))
  {
  }

  lemma NestedLazyLine164Turns12()
    ensures var p, s: seq<Char> := Nested(RepeatLazy), [97, 97, 98, 97, 98];
      Step(p, s, Config([Frame(0, true, 5, 0), Frame(0, true, 3, 0), Frame(1, true, 3, 1), Frame(2, false, 3, 2), Frame(2, false, 4, 0)], [1], NullCaptures))
      == Running(Config([Frame(0, true, 5, 0), Frame(0, true, 3, 0), Frame(1, true, 3, 1), Frame(2, false, 3, 2), Frame(3, false, 5, 0)], [1], NullCaptures))
  {
  }

  lemma NestedLazyLine164Turns13()
    ensures var p, s: seq<Char> := Nested(RepeatLazy), [97, 97, 98, 97, 98];
      Step(p, s, Config([Frame(0, true, 5, 0), Frame(0, true, 3, 0), Frame(1, true, 3, 1), Frame(2, false, 3, 2), Frame(3, false, 5, 0)], [1], NullCaptures))
      == Running(Config([Frame(0, true, 5, 0), Frame(0, true, 3, 0), Frame(1, true, 3, 1), Frame(2, false, 3, 2), Frame(3, false, 5, 1), Frame(3, false, 6, 0)], [], NullCaptures))
  {
  }

  lemma NestedLazyLine164Turns14()
    ensures var p, s: seq<Char> := Nested(RepeatLazy), [97, 97, 98, 97, 98];
      Step(p, s, Config([Frame(0, true, 5, 0), Frame(0, true, 3, 0), Frame(1, true, 3, 1), Frame(2, false, 3, 2), Frame(3, false, 5, 1), Frame(3, false, 6, 0)], [], NullCaptures))
      == Stopped(Matched, Config([Frame(0, true, 5, 0), Frame(0, true, 3, 0), Frame(1, true, 3, 1), Frame(2, false, 3, 2), Frame(3, false, 5, 1), Frame(3, false, 6, 0)], [], NullCaptures))
  {
  }

  /** "ababaab" (v2/regex_test.c:165): 11 turns. */
  lemma NestedLazyLine165()
    ensures Run(Nested(RepeatLazy), [97, 98, 97, 98, 97, 97, 98], Start([], NullCaptures), 64).verdict == Matched
  {
    NestedLazyLine165Run0(64);
    NestedLazyLine165Run5(59);
    NestedLazyLine165Run10(54);
  }

  lemma NestedLazyLine165Run0(fuel: nat)
    requires fuel >= 5
    ensures var p, s: seq<Char> := Nested(RepeatLazy), [97, 98, 97, 98, 97, 97, 98];
      Run(p, s, Config([Frame(0, false, 0, 0)], [], NullCaptures), fuel)
      == Run(p, s, Config([Frame(0, true, 5, 0), Frame(0, true, 3, 0)], [1], NullCaptures), fuel - 5)
  {
    var p, s: seq<Char> := Nested(RepeatLazy), [97, 98, 97, 98, 97, 97, 98];
    var c0 := Config([Frame(0, false, 0, 0)], [], NullCaptures);
    var c1 := Config([Frame(0, false, 5, 0)], [0], NullCaptures);
    var c2 := Config([Frame(0, true, 5, 0)], [], NullCaptures);
    var c3 := Config([Frame(0, true, 5, 0), Frame(0, false, 1, 0)], [1], NullCaptures);
    var c4 := Config([Frame(0, true, 5, 0), Frame(0, false, 3, 0)], [1, 0], NullCaptures);
    var c5 := Config([Frame(0, true, 5, 0), Frame(0, true, 3, 0)], [1], NullCaptures);
    NestedLazyLine165Turns0();
    assert Run(p, s, c0, fuel - 0) == Run(p, s, c1, fuel - 1);
    NestedLazyLine165Turns1();
    assert Run(p, s, c1, fuel - 1) == Run(p, s, c2, fuel - 2);
    NestedLazyLine165Turns2();
    assert Run(p, s, c2, fuel - 2) == Run(p, s, c3, fuel - 3);
    NestedLazyLine165Turns3();
    assert Run(p, s, c3, fuel - 3) == Run(p, s, c4, fuel - 4);
    NestedLazyLine165Turns4();
  }

  lemma NestedLazyLine165Run5(fuel: nat)
    requires fuel >= 5
    ensures var p, s: seq<Char> := Nested(RepeatLazy), [97, 98, 97, 98, 97, 97, 98];
      Run(p, s, Config([Frame(0, true, 5, 0), Frame(0, true, 3, 0)], [1], NullCaptures), fuel)
      == Run(p, s, Config([Frame(0, true, 5, 0), Frame(0, true, 3, 0), Frame(1, false, 3, 1), Frame(2, false, 5, 1), Frame(2, false, 6, 0)], [], NullCaptures), fuel - 5)
  {
    var p, s: seq<Char> := Nested(RepeatLazy), [97, 98, 97, 98, 97, 97, 98];
    var c5 := Config([Frame(0, true, 5, 0), Frame(0, true, 3, 0)], [1], NullCaptures);
    var c6 := Config([Frame(0, true, 5, 0), Frame(0, true, 3, 0), Frame(0, false, 2, 0)], [1, 1], NullCaptures);
    var c7 := Config([Frame(0, true, 5, 0), Frame(0, true, 3, 0), Frame(1, false, 3, 0)], [1, 1], NullCaptures);
    var c8 := Config([Frame(0, true, 5, 0), Frame(0, true, 3, 0), Frame(1, false, 3, 1), Frame(1, false, 4, 0)], [1], NullCaptures);
    var c9 := Config([Frame(0, true, 5, 0), Frame(0, true, 3, 0), Frame(1, false, 3, 1), Frame(2, false, 5, 0)], [1], NullCaptures);
    var c10 := Config([Frame(0, true, 5, 0), Frame(0, true, 3, 0), Frame(1, false, 3, 1), Frame(2, false, 5, 1), Frame(2, false, 6, 0)], [], NullCaptures);
    NestedLazyLine165Turns5();
    assert Run(p, s, c5, fuel - 0) == Run(p, s, c6, fuel - 1);
    NestedLazyLine165Turns6();
    assert Run(p, s, c6, fuel - 1) == Run(p, s, c7, fuel - 2);
    NestedLazyLine165Turns7();
    assert Run(p, s, c7, fuel - 2) == Run(p, s, c8, fuel - 3);
    NestedLazyLine165Turns8();
    assert Run(p, s, c8, fuel - 3) == Run(p, s, c9, fuel - 4);
    NestedLazyLine165Turns9();
  }

  lemma NestedLazyLine165Run10(fuel: nat)
    requires fuel >= 1
    ensures var p, s: seq<Char> := Nested(RepeatLazy), [97, 98, 97, 98, 97, 97, 98];
      Run(p, s, Config([Frame(0, true, 5, 0), Frame(0, true, 3, 0), Frame(1, false, 3, 1), Frame(2, false, 5, 1), Frame(2, false, 6, 0)], [], NullCaptures), fuel)
      == Result(Matched, Config([Frame(0, true, 5, 0), Frame(0, true, 3, 0), Frame(1, false, 3, 1), Frame(2, false, 5, 1), Frame(2, false, 6, 0)], [], NullCaptures))
  {
    var p, s: seq<Char> := Nested(RepeatLazy), [97, 98, 97, 98, 97, 97, 98];
    var c10 := Config([Frame(0, true, 5, 0), Frame(0, true, 3, 0), Frame(1, false, 3, 1), Frame(2, false, 5, 1), Frame(2, false, 6, 0)], [], NullCaptures);
    NestedLazyLine165Turns10();
  }

  lemma NestedLazyLine165Turns0()
    ensures var p, s: seq<Char> := Nested(RepeatLazy), [97, 98, 97, 98, 97, 97, 98];
      Step(p, s, Config([Frame(0, false, 0, 0)], [], NullCaptures))
      == Running(Config([Frame(0, false, 5, 0)], [0], NullCaptures))
  {
  }

  lemma NestedLazyLine165Turns1()
    ensures var p, s: seq<Char> := Nested(RepeatLazy), [97, 98, 97, 98, 97, 97, 98];
      Step(p, s, Config([Frame(0, false, 5, 0)], [0], NullCaptures))
      == Running(Config([Frame(0, true, 5, 0)], [], NullCaptures))
  {
  }

  lemma NestedLazyLine165Turns2()
    ensures var p, s: seq<Char> := Nested(RepeatLazy), [97, 98, 97, 98, 97, 97, 98];
      Step(p, s, Config([Frame(0, true, 5, 0)], [], NullCaptures))
      == Running(Config([Frame(0, true, 5, 0), Frame(0, false, 1, 0)], [1], NullCaptures))
  {
  }

  lemma NestedLazyLine165Turns3()
    ensures var p, s: seq<Char> := Nested(RepeatLazy), [97, 98, 97, 98, 97, 97, 98];
      Step(p, s, Config([Frame(0, true, 5, 0), Frame(0, false, 1, 0)], [1], NullCaptures))
      == Running(Config([Frame(0, true, 5, 0), Frame(0, false, 3, 0)], [1, 0], NullCaptures))
  {
  }

  lemma NestedLazyLine165Turns4()
    ensures var p, s: seq<Char> := Nested(RepeatLazy), [97, 98, 97, 98, 97, 97, 98];
      Step(p, s, Config([Frame(0, true, 5, 0), Frame(0, false, 3, 0)], [1, 0], NullCaptures))
      == Running(Config([Frame(0, true, 5, 0), Frame(0, true, 3, 0)], [1], NullCaptures))
  {
  }

  lemma NestedLazyLine165Turns5()
    ensures var p, s: seq<Char> := Nested(RepeatLazy), [97, 98, 97, 98, 97, 97, 98];
      Step(p, s, Config([Frame(0, true, 5, 0), Frame(0, true, 3, 0)], [1], NullCaptures))
      == Running(Config([Frame(0, true, 5, 0), Frame(0, true, 3, 0), Frame(0, false, 2, 0)], [1, 1], NullCaptures))
  {
  }

  lemma NestedLazyLine165Turns6()
    ensures var p, s: seq<Char> := Nested(RepeatLazy), [97, 98, 97, 98, 97, 97, 98];
      Step(p, s, Config([Frame(0, true, 5, 0), Frame(0, true, 3, 0), Frame(0, false, 2, 0)], [1, 1], NullCaptures))
      == Running(Config([Frame(0, true, 5, 0), Frame(0, true, 3, 0), Frame(1, false, 3, 0)], [1, 1], NullCaptures))
  {
  }

  lemma NestedLazyLine165Turns7()
    ensures var p, s: seq<Char> := Nested(RepeatLazy), [97, 98, 97, 98, 97, 97, 98];
      Step(p, s, Config([Frame(0, true, 5, 0), Frame(0, true, 3, 0), Frame(1, false, 3, 0)], [1, 1], NullCaptures))
      == Running(Config([Frame(0, true, 5, 0), Frame(0, true, 3, 0), Frame(1, false, 3, 1), Frame(1, false, 4, 0)], [1], NullCaptures))
  {
  }

  lemma NestedLazyLine165Turns8()
    ensures var p, s: seq<Char> := Nested(RepeatLazy), [97, 98, 97, 98, 97, 97, 98];
      Step(p, s, Config([Frame(0, true, 5, 0), Frame(0, true, 3, 0), Frame(1, false, 3, 1), Frame(1, false, 4, 0)], [1], NullCaptures))
      == Running(Config([Frame(0, true, 5, 0), Frame(0, true, 3, 0), Frame(1, false, 3, 1), Frame(2, false, 5, 0)], [1], NullCaptures))
  {
  }

  lemma NestedLazyLine165Turns9()
    ensures var p, s: seq<Char> := Nested(RepeatLazy), [97, 98, 97, 98, 97, 97, 98];
      Step(p, s, Config([Frame(0, true, 5, 0), Frame(0, true, 3, 0), Frame(1, false, 3, 1), Frame(2, false, 5, 0)], [1], NullCaptures))
      == Running(Config([Frame(0, true, 5, 0), Frame(0, true, 3, 0), Frame(1, false, 3, 1), Frame(2, false, 5, 1), Frame(2, false, 6, 0)], [], NullCaptures))
  {
  }

  lemma NestedLazyLine165Turns10()
    ensures var p, s: seq<Char> := Nested(RepeatLazy), [97, 98, 97, 98, 97, 97, 98];
      Step(p, s, Config([Frame(0, true, 5, 0), Frame(0, true, 3, 0), Frame(1, false, 3, 1), Frame(2, false, 5, 1), Frame(2, false, 6, 0)], [], NullCaptures))
      == Stopped(Matched, Config([Frame(0, true, 5, 0), Frame(0, true, 3, 0), Frame(1, false, 3, 1), Frame(2, false, 5, 1), Frame(2, false, 6, 0)], [], NullCaptures))
  {
  }

  /** "" (v2/regex_test.c:166): 7 turns. */
  lemma NestedLazyLine166()
    ensures Run(Nested(RepeatLazy), [], Start([], NullCaptures), 64).verdict == NoMatch
    ensures Run(Nested(RepeatLazy), [], Start([], NullCaptures), 64).final.iters == []
  {
    NestedLazyLine166Run0(64);
    NestedLazyLine166Run5(59);
  }

  lemma NestedLazyLine166Run0(fuel: nat)
    requires fuel >= 5
    ensures var p, s: seq<Char> := Nested(RepeatLazy), [];
      Run(p, s, Config([Frame(0, false, 0, 0)], [], NullCaptures), fuel)
      == Run(p, s, Config([Frame(0, true, 5, 0), Frame(0, true, 3, 0)], [1], NullCaptures), fuel - 5)
  {
    var p, s: seq<Char> := Nested(RepeatLazy), [];
    var c0 := Config([Frame(0, false, 0, 0)], [], NullCaptures);
    var c1 := Config([Frame(0, false, 5, 0)], [0], NullCaptures);
    var c2 := Config([Frame(0, true, 5, 0)], [], NullCaptures);
    var c3 := Config([Frame(0, true, 5, 0), Frame(0, false, 1, 0)], [1], NullCaptures);
    var c4 := Config([Frame(0, true, 5, 0), Frame(0, false, 3, 0)], [1, 0], NullCaptures);
    var c5 := Config([Frame(0, true, 5, 0), Frame(0, true, 3, 0)], [1], NullCaptures);
    NestedLazyLine166Turns0();
    assert Run(p, s, c0, fuel - 0) == Run(p, s, c1, fuel - 1);
    NestedLazyLine166Turns1();
    assert Run(p, s, c1, fuel - 1) == Run(p, s, c2, fuel - 2);
    NestedLazyLine166Turns2();
    assert Run(p, s, c2, fuel - 2) == Run(p, s, c3, fuel - 3);
    NestedLazyLine166Turns3();
    assert Run(p, s, c3, fuel - 3) == Run(p, s, c4, fuel - 4);
    NestedLazyLine166Turns4();
  }

  lemma NestedLazyLine166Run5(fuel: nat)
    requires fuel >= 2
    ensures var p, s: seq<Char> := Nested(RepeatLazy), [];
      Run(p, s, Config([Frame(0, true, 5, 0), Frame(0, true, 3, 0)], [1], NullCaptures), fuel)
      == Result(NoMatch, Config([], [], NullCaptures))
  {
    var p, s: seq<Char> := Nested(RepeatLazy), [];
    var c5 := Config([Frame(0, true, 5, 0), Frame(0, true, 3, 0)], [1], NullCaptures);
    var c6 := Config([Frame(0, true, 5, 0), Frame(0, true, 3, 0), Frame(0, false, 2, 0)], [1, 1], NullCaptures);
    NestedLazyLine166Turns5();
    assert Run(p, s, c5, fuel - 0) == Run(p, s, c6, fuel - 1);
    NestedLazyLine166Turns6();
  }

  lemma NestedLazyLine166Turns0()
    ensures var p, s: seq<Char> := Nested(RepeatLazy), [];
      Step(p, s, Config([Frame(0, false, 0, 0)], [], NullCaptures))
      == Running(Config([Frame(0, false, 5, 0)], [0], NullCaptures))
  {
  }

  lemma NestedLazyLine166Turns1()
    ensures var p, s: seq<Char> := Nested(RepeatLazy), [];
      Step(p, s, Config([Frame(0, false, 5, 0)], [0], NullCaptures))
      == Running(Config([Frame(0, true, 5, 0)], [], NullCaptures))
  {
  }

  lemma NestedLazyLine166Turns2()
    ensures var p, s: seq<Char> := Nested(RepeatLazy), [];
      Step(p, s, Config([Frame(0, true, 5, 0)], [], NullCaptures))
      == Running(Config([Frame(0, true, 5, 0), Frame(0, false, 1, 0)], [1], NullCaptures))
  {
  }

  lemma NestedLazyLine166Turns3()
    ensures var p, s: seq<Char> := Nested(RepeatLazy), [];
      Step(p, s, Config([Frame(0, true, 5, 0), Frame(0, false, 1, 0)], [1], NullCaptures))
      == Running(Config([Frame(0, true, 5, 0), Frame(0, false, 3, 0)], [1, 0], NullCaptures))
  {
  }

  lemma NestedLazyLine166Turns4()
    ensures var p, s: seq<Char> := Nested(RepeatLazy), [];
      Step(p, s, Config([Frame(0, true, 5, 0), Frame(0, false, 3, 0)], [1, 0], NullCaptures))
      == Running(Config([Frame(0, true, 5, 0), Frame(0, true, 3, 0)], [1], NullCaptures))
  {
  }

  lemma NestedLazyLine166Turns5()
    ensures var p, s: seq<Char> := Nested(RepeatLazy), [];
      Step(p, s, Config([Frame(0, true, 5, 0), Frame(0, true, 3, 0)], [1], NullCaptures))
      == Running(Config([Frame(0, true, 5, 0), Frame(0, true, 3, 0), Frame(0, false, 2, 0)], [1, 1], NullCaptures))
  {
  }

  lemma NestedLazyLine166Turns6()
    ensures var p, s: seq<Char> := Nested(RepeatLazy), [];
      Step(p, s, Config([Frame(0, true, 5, 0), Frame(0, true, 3, 0), Frame(0, false, 2, 0)], [1, 1], NullCaptures))
      == Stopped(NoMatch, Config([], [], NullCaptures))
  {
    var p, s: seq<Char> := Nested(RepeatLazy), [];
    assert DropLast([Frame(0, true, 5, 0), Frame(0, true, 3, 0), Frame(0, false, 2, 0)]) == [Frame(0, true, 5, 0), Frame(0, true, 3, 0)];
    NestedLazyLine166Turns6Pop1();
  }

  lemma NestedLazyLine166Turns6Pop0()
    ensures var p: Program := Nested(RepeatLazy);
      Unwind(p, [Frame(0, true, 5, 0)], [1], NullCaptures)
      == Config([], [], NullCaptures)
  {
    assert DropLast([Frame(0, true, 5, 0)]) == [];
  }

  lemma NestedLazyLine166Turns6Pop1()
    ensures var p: Program := Nested(RepeatLazy);
      Unwind(p, [Frame(0, true, 5, 0), Frame(0, true, 3, 0)], [1, 1], NullCaptures)
      == Config([], [], NullCaptures)
  {
    assert DropLast([Frame(0, true, 5, 0), Frame(0, true, 3, 0)]) == [Frame(0, true, 5, 0)];
    NestedLazyLine166Turns6Pop0();
  }

  /** "aaabb" (v2/regex_test.c:167): 14 turns. */
  lemma NestedLazyLine167()
    ensures Run(Nested(RepeatLazy), [97, 97, 97, 98, 98], Start([], NullCaptures), 64).verdict == NoMatch
    ensures Run(Nested(RepeatLazy), [97, 97, 97, 98, 98], Start([], NullCaptures), 64).final.iters == []
  {
    NestedLazyLine167Run0(64);
    NestedLazyLine167Run5(59);
    NestedLazyLine167Run10(54);
  }

  lemma NestedLazyLine167Run0(fuel: nat)
    requires fuel >= 5
    ensures var p, s: seq<Char> := Nested(RepeatLazy), [97, 97, 97, 98, 98];
      Run(p, s, Config([Frame(0, false, 0, 0)], [], NullCaptures), fuel)
      == Run(p, s, Config([Frame(0, true, 5, 0), Frame(0, true, 3, 0)], [1], NullCaptures), fuel - 5)
  {
    var p, s: seq<Char> := Nested(RepeatLazy), [97, 97, 97, 98, 98];
    var c0 := Config([Frame(0, false, 0, 0)], [], NullCaptures);
    var c1 := Config([Frame(0, false, 5, 0)], [0], NullCaptures);
    var c2 := Config([Frame(0, true, 5, 0)], [], NullCaptures);
    var c3 := Config([Frame(0, true, 5, 0), Frame(0, false, 1, 0)], [1], NullCaptures);
    var c4 := Config([Frame(0, true, 5, 0), Frame(0, false, 3, 0)], [1, 0], NullCaptures);
    var c5 := Config([Frame(0, true, 5, 0), Frame(0, true, 3, 0)], [1], NullCaptures);
    NestedLazyLine167Turns0();
    assert Run(p, s, c0, fuel - 0) == Run(p, s, c1, fuel - 1);
    NestedLazyLine167Turns1();
    assert Run(p, s, c1, fuel - 1) == Run(p, s, c2, fuel - 2);
    NestedLazyLine167Turns2();
    assert Run(p, s, c2, fuel - 2) == Run(p, s, c3, fuel - 3);
    NestedLazyLine167Turns3();
    assert Run(p, s, c3, fuel - 3) == Run(p, s, c4, fuel - 4);
    NestedLazyLine167Turns4();
  }

  lemma NestedLazyLine167Run5(fuel: nat)
    requires fuel >= 5
    ensures var p, s: seq<Char> := Nested(RepeatLazy), [97, 97, 97, 98, 98];
      Run(p, s, Config([Frame(0, true, 5, 0), Frame(0, true, 3, 0)], [1], NullCaptures), fuel)
      == Run(p, s, Config([Frame(0, true, 5, 0), Frame(0, true, 3, 0), Frame(1, true, 3, 1), Frame(1, false, 2, 0)], [1, 2], NullCaptures), fuel - 5)
  {
    var p, s: seq<Char> := Nested(RepeatLazy), [97, 97, 97, 98, 98];
    var c5 := Config([Frame(0, true, 5, 0), Frame(0, true, 3, 0)], [1], NullCaptures);
    var c6 := Config([Frame(0, true, 5, 0), Frame(0, true, 3, 0), Frame(0, false, 2, 0)], [1, 1], NullCaptures);
    var c7 := Config([Frame(0, true, 5, 0), Frame(0, true, 3, 0), Frame(1, false, 3, 0)], [1, 1], NullCaptures);
    var c8 := Config([Frame(0, true, 5, 0), Frame(0, true, 3, 0), Frame(1, false, 3, 1), Frame(1, false, 4, 0)], [1], NullCaptures);
    var c9 := Config([Frame(0, true, 5, 0), Frame(0, true, 3, 0), Frame(1, true, 3, 1)], [1], NullCaptures);
    var c10 := Config([Frame(0, true, 5, 0), Frame(0, true, 3, 0), Frame(1, true, 3, 1), Frame(1, false, 2, 0)], [1, 2], NullCaptures);
    NestedLazyLine167Turns5();
    assert Run(p, s, c5, fuel - 0) == Run(p, s, c6, fuel - 1);
    NestedLazyLine167Turns6();
    assert Run(p, s, c6, fuel - 1) == Run(p, s, c7, fuel - 2);
    NestedLazyLine167Turns7();
    assert Run(p, s, c7, fuel - 2) == Run(p, s, c8, fuel - 3);
    NestedLazyLine167Turns8();
    assert Run(p, s, c8, fuel - 3) == Run(p, s, c9, fuel - 4);
    NestedLazyLine167Turns9();
  }

  lemma NestedLazyLine167Run10(fuel: nat)
    requires fuel >= 4
    ensures var p, s: seq<Char> := Nested(RepeatLazy), [97, 97, 97, 98, 98];
      Run(p, s, Config([Frame(0, true, 5, 0), Frame(0, true, 3, 0), Frame(1, true, 3, 1), Frame(1, false, 2, 0)], [1, 2], NullCaptures), fuel)
      == Result(NoMatch, Config([], [], NullCaptures))
  {
    var p, s: seq<Char> := Nested(RepeatLazy), [97, 97, 97, 98, 98];
    var c10 := Config([Frame(0, true, 5, 0), Frame(0, true, 3, 0), Frame(1, true, 3, 1), Frame(1, false, 2, 0)], [1, 2], NullCaptures);
    var c11 := Config([Frame(0, true, 5, 0), Frame(0, true, 3, 0), Frame(1, true, 3, 1), Frame(2, false, 3, 0)], [1, 2], NullCaptures);
    var c12 := Config([Frame(0, true, 5, 0), Frame(0, true, 3, 0), Frame(1, true, 3, 1), Frame(2, false, 3, 2), Frame(2, false, 4, 0)], [1], NullCaptures);
    var c13 := Config([Frame(0, true, 5, 0), Frame(0, true, 3, 0), Frame(1, true, 3, 1), Frame(2, true, 3, 2)], [1], NullCaptures);
    NestedLazyLine167Turns10();
    assert Run(p, s, c10, fuel - 0) == Run(p, s, c11, fuel - 1);
    NestedLazyLine167Turns11();
    assert Run(p, s, c11, fuel - 1) == Run(p, s, c12, fuel - 2);
    NestedLazyLine167Turns12();
    assert Run(p, s, c12, fuel - 2) == Run(p, s, c13, fuel - 3);
    NestedLazyLine167Turns13();
  }

  lemma NestedLazyLine167Turns0()
    ensures var p, s: seq<Char> := Nested(RepeatLazy), [97, 97, 97, 98, 98];
      Step(p, s, Config([Frame(0, false, 0, 0)], [], NullCaptures))
      == Running(Config([Frame(0, false, 5, 0)], [0], NullCaptures))
  {
  }

  lemma NestedLazyLine167Turns1()
    ensures var p, s: seq<Char> := Nested(RepeatLazy), [97, 97, 97, 98, 98];
      Step(p, s, Config([Frame(0, false, 5, 0)], [0], NullCaptures))
      == Running(Config([Frame(0, true, 5, 0)], [], NullCaptures))
  {
  }

  lemma NestedLazyLine167Turns2()
    ensures var p, s: seq<Char> := Nested(RepeatLazy), [97, 97, 97, 98, 98];
      Step(p, s, Config([Frame(0, true, 5, 0)], [], NullCaptures))
      == Running(Config([Frame(0, true, 5, 0), Frame(0, false, 1, 0)], [1], NullCaptures))
  {
  }

  lemma NestedLazyLine167Turns3()
    ensures var p, s: seq<Char> := Nested(RepeatLazy), [97, 97, 97, 98, 98];
      Step(p, s, Config([Frame(0, true, 5, 0), Frame(0, false, 1, 0)], [1], NullCaptures))
      == Running(Config([Frame(0, true, 5, 0), Frame(0, false, 3, 0)], [1, 0], NullCaptures))
  {
  }

  lemma NestedLazyLine167Turns4()
    ensures var p, s: seq<Char> := Nested(RepeatLazy), [97, 97, 97, 98, 98];
      Step(p, s, Config([Frame(0, true, 5, 0), Frame(0, false, 3, 0)], [1, 0], NullCaptures))
      == Running(Config([Frame(0, true, 5, 0), Frame(0, true, 3, 0)], [1], NullCaptures))
  {
  }

  lemma NestedLazyLine167Turns5()
    ensures var p, s: seq<Char> := Nested(RepeatLazy), [97, 97, 97, 98, 98];
      Step(p, s, Config([Frame(0, true, 5, 0), Frame(0, true, 3, 0)], [1], NullCaptures))
      == Running(Config([Frame(0, true, 5, 0), Frame(0, true, 3, 0), Frame(0, false, 2, 0)], [1, 1], NullCaptures))
  {
  }

  lemma NestedLazyLine167Turns6()
    ensures var p, s: seq<Char> := Nested(RepeatLazy), [97, 97, 97, 98, 98];
      Step(p, s, Config([Frame(0, true, 5, 0), Frame(0, true, 3, 0), Frame(0, false, 2, 0)], [1, 1], NullCaptures))
      == Running(Config([Frame(0, true, 5, 0), Frame(0, true, 3, 0), Frame(1, false, 3, 0)], [1, 1], NullCaptures))
  {
  }

  lemma NestedLazyLine167Turns7()
    ensures var p, s: seq<Char> := Nested(RepeatLazy), [97, 97, 97, 98, 98];
      Step(p, s, Config([Frame(0, true, 5, 0), Frame(0, true, 3, 0), Frame(1, false, 3, 0)], [1, 1], NullCaptures))
      == Running(Config([Frame(0, true, 5, 0), Frame(0, true, 3, 0), Frame(1, false, 3, 1), Frame(1, false, 4, 0)], [1], NullCaptures))
  {
  }

  lemma NestedLazyLine167Turns8()
    ensures var p, s: seq<Char> := Nested(RepeatLazy), [97, 97, 97, 98, 98];
      Step(p, s, Config([Frame(0, true, 5, 0), Frame(0, true, 3, 0), Frame(1, false, 3, 1), Frame(1, false, 4, 0)], [1], NullCaptures))
      == Running(Config([Frame(0, true, 5, 0), Frame(0, true, 3, 0), Frame(1, true, 3, 1)], [1], NullCaptures))
  {
    var p, s: seq<Char> := Nested(RepeatLazy), [97, 97, 97, 98, 98];
    assert s[1..2][0] != p.chars[1..2][0];
  }

  lemma NestedLazyLine167Turns9()
    ensures var p, s: seq<Char> := Nested(RepeatLazy), [97, 97, 97, 98, 98];
      Step(p, s, Config([Frame(0, true, 5, 0), Frame(0, true, 3, 0), Frame(1, true, 3, 1)], [1], NullCaptures))
      == Running(Config([Frame(0, true, 5, 0), Frame(0, true, 3, 0), Frame(1, true, 3, 1), Frame(1, false, 2, 0)], [1, 2], NullCaptures))
  {
  }

  lemma NestedLazyLine167Turns10()
    ensures var p, s: seq<Char> := Nested(RepeatLazy), [97, 97, 97, 98, 98];
      Step(p, s, Config([Frame(0, true, 5, 0), Frame(0, true, 3, 0), Frame(1, true, 3, 1), Frame(1, false, 2, 0)], [1, 2], NullCaptures))
      == Running(Config([Frame(0, true, 5, 0), Frame(0, true, 3, 0), Frame(1, true, 3, 1), Frame(2, false, 3, 0)], [1, 2], NullCaptures))
  {
  }

  lemma NestedLazyLine167Turns11()
    ensures var p, s: seq<Char> := Nested(RepeatLazy), [97, 97, 97, 98, 98];
      Step(p, s, Config([Frame(0, true, 5, 0), Frame(0, true, 3, 0), Frame(1, true, 3, 1), Frame(2, false, 3, 0)], [1, 2], NullCaptures))
      == Running(Config([Frame(0, true, 5, 0), Frame(0, true, 3, 0), Frame(1, true, 3, 1), Frame(2, false, 3, 2), Frame(2, false, 4, 0)], [1], NullCaptures))
  {
  }

  lemma NestedLazyLine167Turns12()
    ensures var p, s: seq<Char> := Nested(RepeatLazy), [97, 97, 97, 98, 98];
      Step(p, s, Config([Frame(0, true, 5, 0), Frame(0, true, 3, 0), Frame(1, true, 3, 1), Frame(2, false, 3, 2), Frame(2, false, 4, 0)], [1], NullCaptures))
      == Running(Config([Frame(0, true, 5, 0), Frame(0, true, 3, 0), Frame(1, true, 3, 1), Frame(2, true, 3, 2)], [1], NullCaptures))
  {
    var p, s: seq<Char> := Nested(RepeatLazy), [97, 97, 97, 98, 98];
    assert s[2..3][0] != p.chars[1..2][0];
  }

  lemma NestedLazyLine167Turns13()
    ensures var p, s: seq<Char> := Nested(RepeatLazy), [97, 97, 97, 98, 98];
      Step(p, s, Config([Frame(0, true, 5, 0), Frame(0, true, 3, 0), Frame(1, true, 3, 1), Frame(2, true, 3, 2)], [1], NullCaptures))
      == Stopped(NoMatch, Config([], [], NullCaptures))
  {
    var p, s: seq<Char> := Nested(RepeatLazy), [97, 97, 97, 98, 98];
    assert DropLast([Frame(0, true, 5, 0), Frame(0, true, 3, 0), Frame(1, true, 3, 1), Frame(2, true, 3, 2)]) == [Frame(0, true, 5, 0), Frame(0, true, 3, 0), Frame(1, true, 3, 1)];
    NestedLazyLine167Turns13Pop2();
  }

  lemma NestedLazyLine167Turns13Pop0()
    ensures var p: Program := Nested(RepeatLazy);
      Unwind(p, [Frame(0, true, 5, 0)], [], NullCaptures)
      == Config([], [], NullCaptures)
  {
    assert DropLast([Frame(0, true, 5, 0)]) == [];
  }

  lemma NestedLazyLine167Turns13Pop1()
    ensures var p: Program := Nested(RepeatLazy);
      Unwind(p, [Frame(0, true, 5, 0), Frame(0, true, 3, 0)], [1], NullCaptures)
      == Config([], [], NullCaptures)
  {
    assert DropLast([Frame(0, true, 5, 0), Frame(0, true, 3, 0)]) == [Frame(0, true, 5, 0)];
    NestedLazyLine167Turns13Pop0();
  }

  lemma NestedLazyLine167Turns13Pop2()
    ensures var p: Program := Nested(RepeatLazy);
      Unwind(p, [Frame(0, true, 5, 0), Frame(0, true, 3, 0), Frame(1, true, 3, 1)], [1], NullCaptures)
      == Config([], [], NullCaptures)
  {
    assert DropLast([Frame(0, true, 5, 0), Frame(0, true, 3, 0), Frame(1, true, 3, 1)]) == [Frame(0, true, 5, 0), Frame(0, true, 3, 0)];
    NestedLazyLine167Turns13Pop1();
  }

  /** "aaa" (v2/regex_test.c:168): 14 turns. */
  lemma NestedLazyLine168()
    ensures Run(Nested(RepeatLazy), [97, 97, 97], Start([], NullCaptures), 64).verdict == NoMatch
    ensures Run(Nested(RepeatLazy), [97, 97, 97], Start([], NullCaptures), 64).final.iters == []
  {
    NestedLazyLine168Run0(64);
    NestedLazyLine168Run5(59);
    NestedLazyLine168Run10(54);
  }

  lemma NestedLazyLine168Run0(fuel: nat)
    requires fuel >= 5
    ensures var p, s: seq<Char> := Nested(RepeatLazy), [97, 97, 97];
      Run(p, s, Config([Frame(0, false, 0, 0)], [], NullCaptures), fuel)
      == Run(p, s, Config([Frame(0, true, 5, 0), Frame(0, true, 3, 0)], [1], NullCaptures), fuel - 5)
  {
    var p, s: seq<Char> := Nested(RepeatLazy), [97, 97, 97];
    var c0 := Config([Frame(0, false, 0, 0)], [], NullCaptures);
    var c1 := Config([Frame(0, false, 5, 0)], [0], NullCaptures);
    var c2 := Config([Frame(0, true, 5, 0)], [], NullCaptures);
    var c3 := Config([Frame(0, true, 5, 0), Frame(0, false, 1, 0)], [1], NullCaptures);
    var c4 := Config([Frame(0, true, 5, 0), Frame(0, false, 3, 0)], [1, 0], NullCaptures);
    var c5 := Config([Frame(0, true, 5, 0), Frame(0, true, 3, 0)], [1], NullCaptures);
    NestedLazyLine168Turns0();
    assert Run(p, s, c0, fuel - 0) == Run(p, s, c1, fuel - 1);
    NestedLazyLine168Turns1();
    assert Run(p, s, c1, fuel - 1) == Run(p, s, c2, fuel - 2);
    NestedLazyLine168Turns2();
    assert Run(p, s, c2, fuel - 2) == Run(p, s, c3, fuel - 3);
    NestedLazyLine168Turns3();
    assert Run(p, s, c3, fuel - 3) == Run(p, s, c4, fuel - 4);
    NestedLazyLine168Turns4();
  }

  lemma NestedLazyLine168Run5(fuel: nat)
    requires fuel >= 5
    ensures var p, s: seq<Char> := Nested(RepeatLazy), [97, 97, 97];
      Run(p, s, Config([Frame(0, true, 5, 0), Frame(0, true, 3, 0)], [1], NullCaptures), fuel)
      == Run(p, s, Config([Frame(0, true, 5, 0), Frame(0, true, 3, 0), Frame(1, true, 3, 1), Frame(1, false, 2, 0)], [1, 2], NullCaptures), fuel - 5)
  {
    var p, s: seq<Char> := Nested(RepeatLazy), [97, 97, 97];
    var c5 := Config([Frame(0, true, 5, 0), Frame(0, true, 3, 0)], [1], NullCaptures);
    var c6 := Config([Frame(0, true, 5, 0), Frame(0, true, 3, 0), Frame(0, false, 2, 0)], [1, 1], NullCaptures);
    var c7 := Config([Frame(0, true, 5, 0), Frame(0, true, 3, 0), Frame(1, false, 3, 0)], [1, 1], NullCaptures);
    var c8 := Config([Frame(0, true, 5, 0), Frame(0, true, 3, 0), Frame(1, false, 3, 1), Frame(1, false, 4, 0)], [1], NullCaptures);
    var c9 := Config([Frame(0, true, 5, 0), Frame(0, true, 3, 0), Frame(1, true, 3, 1)], [1], NullCaptures);
    var c10 := Config([Frame(0, true, 5, 0), Frame(0, true, 3, 0), Frame(1, true, 3, 1), Frame(1, false, 2, 0)], [1, 2], NullCaptures);
    NestedLazyLine168Turns5();
    assert Run(p, s, c5, fuel - 0) == Run(p, s, c6, fuel - 1);
    NestedLazyLine168Turns6();
    assert Run(p, s, c6, fuel - 1) == Run(p, s, c7, fuel - 2);
    NestedLazyLine168Turns7();
    assert Run(p, s, c7, fuel - 2) == Run(p, s, c8, fuel - 3);
    NestedLazyLine168Turns8();
    assert Run(p, s, c8, fuel - 3) == Run(p, s, c9, fuel - 4);
    NestedLazyLine168Turns9();
  }

  lemma NestedLazyLine168Run10(fuel: nat)
    requires fuel >= 4
    ensures var p, s: seq<Char> := Nested(RepeatLazy), [97, 97, 97];
      Run(p, s, Config([Frame(0, true, 5, 0), Frame(0, true, 3, 0), Frame(1, true, 3, 1), Frame(1, false, 2, 0)], [1, 2], NullCaptures), fuel)
      == Result(NoMatch, Config([], [], NullCaptures))
  {
    var p, s: seq<Char> := Nested(RepeatLazy), [97, 97, 97];
    var c10 := Config([Frame(0, true, 5, 0), Frame(0, true, 3, 0), Frame(1, true, 3, 1), Frame(1, false, 2, 0)], [1, 2], NullCaptures);
    var c11 := Config([Frame(0, true, 5, 0), Frame(0, true, 3, 0), Frame(1, true, 3, 1), Frame(2, false, 3, 0)], [1, 2], NullCaptures);
    var c12 := Config([Frame(0, true, 5, 0), Frame(0, true, 3, 0), Frame(1, true, 3, 1), Frame(2, false, 3, 2), Frame(2, false, 4, 0)], [1], NullCaptures);
    var c13 := Config([Frame(0, true, 5, 0), Frame(0, true, 3, 0), Frame(1, true, 3, 1), Frame(2, true, 3, 2)], [1], NullCaptures);
    NestedLazyLine168Turns10();
    assert Run(p, s, c10, fuel - 0) == Run(p, s, c11, fuel - 1);
    NestedLazyLine168Turns11();
    assert Run(p, s, c11, fuel - 1) == Run(p, s, c12, fuel - 2);
    NestedLazyLine168Turns12();
    assert Run(p, s, c12, fuel - 2) == Run(p, s, c13, fuel - 3);
    NestedLazyLine168Turns13();
  }

  lemma NestedLazyLine168Turns0()
    ensures var p, s: seq<Char> := Nested(RepeatLazy), [97, 97, 97];
      Step(p, s, Config([Frame(0, false, 0, 0)], [], NullCaptures))
      == Running(Config([Frame(0, false, 5, 0)], [0], NullCaptures))
  {
  }

  lemma NestedLazyLine168Turns1()
    ensures var p, s: seq<Char> := Nested(RepeatLazy), [97, 97, 97];
      Step(p, s, Config([Frame(0, false, 5, 0)], [0], NullCaptures))
      == Running(Config([Frame(0, true, 5, 0)], [], NullCaptures))
  {
  }

  lemma NestedLazyLine168Turns2()
    ensures var p, s: seq<Char> := Nested(RepeatLazy), [97, 97, 97];
      Step(p, s, Config([Frame(0, true, 5, 0)], [], NullCaptures))
      == Running(Config([Frame(0, true, 5, 0), Frame(0, false, 1, 0)], [1], NullCaptures))
  {
  }

  lemma NestedLazyLine168Turns3()
    ensures var p, s: seq<Char> := Nested(RepeatLazy), [97, 97, 97];
      Step(p, s, Config([Frame(0, true, 5, 0), Frame(0, false, 1, 0)], [1], NullCaptures))
      == Running(Config([Frame(0, true, 5, 0), Frame(0, false, 3, 0)], [1, 0], NullCaptures))
  {
  }

  lemma NestedLazyLine168Turns4()
    ensures var p, s: seq<Char> := Nested(RepeatLazy), [97, 97, 97];
      Step(p, s, Config([Frame(0, true, 5, 0), Frame(0, false, 3, 0)], [1, 0], NullCaptures))
      == Running(Config([Frame(0, true, 5, 0), Frame(0, true, 3, 0)], [1], NullCaptures))
  {
  }

  lemma NestedLazyLine168Turns5()
    ensures var p, s: seq<Char> := Nested(RepeatLazy), [97, 97, 97];
      Step(p, s, Config([Frame(0, true, 5, 0), Frame(0, true, 3, 0)], [1], NullCaptures))
      == Running(Config([Frame(0, true, 5, 0), Frame(0, true, 3, 0), Frame(0, false, 2, 0)], [1, 1], NullCaptures))
  {
  }

  lemma NestedLazyLine168Turns6()
    ensures var p, s: seq<Char> := Nested(RepeatLazy), [97, 97, 97];
      Step(p, s, Config([Frame(0, true, 5, 0), Frame(0, true, 3, 0), Frame(0, false, 2, 0)], [1, 1], NullCaptures))
      == Running(Config([Frame(0, true, 5, 0), Frame(0, true, 3, 0), Frame(1, false, 3, 0)], [1, 1], NullCaptures))
  {
  }

  lemma NestedLazyLine168Turns7()
    ensures var p, s: seq<Char> := Nested(RepeatLazy), [97, 97, 97];
      Step(p, s, Config([Frame(0, true, 5, 0), Frame(0, true, 3, 0), Frame(1, false, 3, 0)], [1, 1], NullCaptures))
      == Running(Config([Frame(0, true, 5, 0), Frame(0, true, 3, 0), Frame(1, false, 3, 1), Frame(1, false, 4, 0)], [1], NullCaptures))
  {
  }

  lemma NestedLazyLine168Turns8()
    ensures var p, s: seq<Char> := Nested(RepeatLazy), [97, 97, 97];
      Step(p, s, Config([Frame(0, true, 5, 0), Frame(0, true, 3, 0), Frame(1, false, 3, 1), Frame(1, false, 4, 0)], [1], NullCaptures))
      == Running(Config([Frame(0, true, 5, 0), Frame(0, true, 3, 0), Frame(1, true, 3, 1)], [1], NullCaptures))
  {
    var p, s: seq<Char> := Nested(RepeatLazy), [97, 97, 97];
    assert s[1..2][0] != p.chars[1..2][0];
  }

  lemma NestedLazyLine168Turns9()
    ensures var p, s: seq<Char> := Nested(RepeatLazy), [97, 97, 97];
      Step(p, s, Config([Frame(0, true, 5, 0), Frame(0, true, 3, 0), Frame(1, true, 3, 1)], [1], NullCaptures))
      == Running(Config([Frame(0, true, 5, 0), Frame(0, true, 3, 0), Frame(1, true, 3, 1), Frame(1, false, 2, 0)], [1, 2], NullCaptures))
  {
  }

  lemma NestedLazyLine168Turns10()
    ensures var p, s: seq<Char> := Nested(RepeatLazy), [97, 97, 97];
      Step(p, s, Config([Frame(0, true, 5, 0), Frame(0, true, 3, 0), Frame(1, true, 3, 1), Frame(1, false, 2, 0)], [1, 2], NullCaptures))
      == Running(Config([Frame(0, true, 5, 0), Frame(0, true, 3, 0), Frame(1, true, 3, 1), Frame(2, false, 3, 0)], [1, 2], NullCaptures))
  {
  }

  lemma NestedLazyLine168Turns11()
    ensures var p, s: seq<Char> := Nested(RepeatLazy), [97, 97, 97];
      Step(p, s, Config([Frame(0, true, 5, 0), Frame(0, true, 3, 0), Frame(1, true, 3, 1), Frame(2, false, 3, 0)], [1, 2], NullCaptures))
      == Running(Config([Frame(0, true, 5, 0), Frame(0, true, 3, 0), Frame(1, true, 3, 1), Frame(2, false, 3, 2), Frame(2, false, 4, 0)], [1], NullCaptures))
  {
  }

  lemma NestedLazyLine168Turns12()
    ensures var p, s: seq<Char> := Nested(RepeatLazy), [97, 97, 97];
      Step(p, s, Config([Frame(0, true, 5, 0), Frame(0, true, 3, 0), Frame(1, true, 3, 1), Frame(2, false, 3, 2), Frame(2, false, 4, 0)], [1], NullCaptures))
      == Running(Config([Frame(0, true, 5, 0), Frame(0, true, 3, 0), Frame(1, true, 3, 1), Frame(2, true, 3, 2)], [1], NullCaptures))
  {
    var p, s: seq<Char> := Nested(RepeatLazy), [97, 97, 97];
    assert s[2..3][0] != p.chars[1..2][0];
  }

  lemma NestedLazyLine168Turns13()
    ensures var p, s: seq<Char> := Nested(RepeatLazy), [97, 97, 97];
      Step(p, s, Config([Frame(0, true, 5, 0), Frame(0, true, 3, 0), Frame(1, true, 3, 1), Frame(2, true, 3, 2)], [1], NullCaptures))
      == Stopped(NoMatch, Config([], [], NullCaptures))
  {
    var p, s: seq<Char> := Nested(RepeatLazy), [97, 97, 97];
    assert DropLast([Frame(0, true, 5, 0), Frame(0, true, 3, 0), Frame(1, true, 3, 1), Frame(2, true, 3, 2)]) == [Frame(0, true, 5, 0), Frame(0, true, 3, 0), Frame(1, true, 3, 1)];
    NestedLazyLine168Turns13Pop2();
  }

  lemma NestedLazyLine168Turns13Pop0()
    ensures var p: Program := Nested(RepeatLazy);
      Unwind(p, [Frame(0, true, 5, 0)], [], NullCaptures)
      == Config([], [], NullCaptures)
  {
    assert DropLast([Frame(0, true, 5, 0)]) == [];
  }

  lemma NestedLazyLine168Turns13Pop1()
    ensures var p: Program := Nested(RepeatLazy);
      Unwind(p, [Frame(0, true, 5, 0), Frame(0, true, 3, 0)], [1], NullCaptures)
      == Config([], [], NullCaptures)
  {
    assert DropLast([Frame(0, true, 5, 0), Frame(0, true, 3, 0)]) == [Frame(0, true, 5, 0)];
    NestedLazyLine168Turns13Pop0();
  }

  lemma NestedLazyLine168Turns13Pop2()
    ensures var p: Program := Nested(RepeatLazy);
      Unwind(p, [Frame(0, true, 5, 0), Frame(0, true, 3, 0), Frame(1, true, 3, 1)], [1], NullCaptures)
      == Config([], [], NullCaptures)
  {
    assert DropLast([Frame(0, true, 5, 0), Frame(0, true, 3, 0), Frame(1, true, 3, 1)]) == [Frame(0, true, 5, 0), Frame(0, true, 3, 0)];
    NestedLazyLine168Turns13Pop1();
  }
}
