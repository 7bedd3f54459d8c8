/** The driver's capture tests: the capture table after a match, and its restoration
    after a failed run. Each test runs the executor from its start state on a budget of
    64 turns. The test lemma chains the `Run` lemmas, each of which covers at most ten
    turns; each `Turns` lemma states the outcome of one turn of `Step` on the literal
    configurations of that run. */
module CaptureRuns {
  import opened Bytecode
  import opened Machine
  import opened Programs

  /** `(ab)(cd)` records both groups on "abcd"; on "abc" every write is undone (v2/regex_test.c:173-207). */
  lemma TwoGroupsTests()
    ensures Run(TwoGroups, [97, 98, 99, 100], Start([], NullCaptures), 64).verdict == Matched
    ensures Run(TwoGroups, [97, 98, 99, 100], Start([], NullCaptures), 64).final.caps == NullCaptures[0 := Capture(0, 2)][1 := Capture(2, 4)]
    ensures Run(TwoGroups, [97, 98, 99], Start([], NullCaptures), 64).verdict == NoMatch
    ensures Run(TwoGroups, [97, 98, 99], Start([], NullCaptures), 64).final.iters == []
    ensures Run(TwoGroups, [97, 98, 99], Start([], NullCaptures), 64).final.caps == NullCaptures
  {
    TwoGroupsLine189();
    TwoGroupsLine199();
  }

  /** "abcd" (v2/regex_test.c:189): 7 turns. */
  lemma TwoGroupsLine189()
    ensures Run(TwoGroups, [97, 98, 99, 100], Start([], NullCaptures), 64).verdict == Matched
    ensures Run(TwoGroups, [97, 98, 99, 100], Start([], NullCaptures), 64).final.caps == NullCaptures[0 := Capture(0, 2)][1 := Capture(2, 4)]
  {
    TwoGroupsLine189Turns0();
    TwoGroupsLine189Turns1();
    TwoGroupsLine189Turns2();
    TwoGroupsLine189Turns3();
    TwoGroupsLine189Turns4();
    TwoGroupsLine189Turns5();
    TwoGroupsLine189Turns6();
  }

  lemma TwoGroupsLine189Turns0()
    ensures var p, s: seq<Char> := TwoGroups, [97, 98, 99, 100];
      Step(p, s, Config([Frame(0, false, 0, 0)], [], NullCaptures))
      == Running(Config([Frame(0, true, 0, NullOffset), Frame(0, false, 1, 0)], [], NullCaptures[0 := Capture(0, NullOffset)]))
  {
  }

  lemma TwoGroupsLine189Turns1()
    ensures var p, s: seq<Char> := TwoGroups, [97, 98, 99, 100];
      Step(p, s, Config([Frame(0, true, 0, NullOffset), Frame(0, false, 1, 0)], [], NullCaptures[0 := Capture(0, NullOffset)]))
      == Running(Config([Frame(0, true, 0, NullOffset), Frame(2, false, 2, 0)], [], NullCaptures[0 := Capture(0, NullOffset)]))
  {
  }

  lemma TwoGroupsLine189Turns2()
    ensures var p, s: seq<Char> := TwoGroups, [97, 98, 99, 100];
      Step(p, s, Config([Frame(0, true, 0, NullOffset), Frame(2, false, 2, 0)], [], NullCaptures[0 := Capture(0, NullOffset)]))
      == Running(Config([Frame(0, true, 0, NullOffset), Frame(2, true, 2, NullOffset), Frame(2, false, 3, 0)], [], NullCaptures[0 := Capture(0, 2)]))
  {
  }

  lemma TwoGroupsLine189Turns3()
    ensures var p, s: seq<Char> := TwoGroups, [97, 98, 99, 100];
      Step(p, s, Config([Frame(0, true, 0, NullOffset), Frame(2, true, 2, NullOffset), Frame(2, false, 3, 0)], [], NullCaptures[0 := Capture(0, 2)]))
      == Running(Config([Frame(0, true, 0, NullOffset), Frame(2, true, 2, NullOffset), Frame(2, true, 3, NullOffset), Frame(2, false, 4, 0)], [], NullCaptures[0 := Capture(0, 2)][1 := Capture(2, NullOffset)]))
  {
  }

  lemma TwoGroupsLine189Turns4()
    ensures var p, s: seq<Char> := TwoGroups, [97, 98, 99, 100];
      Step(p, s, Config([Frame(0, true, 0, NullOffset), Frame(2, true, 2, NullOffset), Frame(2, true, 3, NullOffset), Frame(2, false, 4, 0)], [], NullCaptures[0 := Capture(0, 2)][1 := Capture(2, NullOffset)]))
      == Running(Config([Frame(0, true, 0, NullOffset), Frame(2, true, 2, NullOffset), Frame(2, true, 3, NullOffset), Frame(4, false, 5, 0)], [], NullCaptures[0 := Capture(0, 2)][1 := Capture(2, NullOffset)]))
  {
  }

  lemma TwoGroupsLine189Turns5()
    ensures var p, s: seq<Char> := TwoGroups, [97, 98, 99, 100];
      Step(p, s, Config([Frame(0, true, 0, NullOffset), Frame(2, true, 2, NullOffset), Frame(2, true, 3, NullOffset), Frame(4, false, 5, 0)], [], NullCaptures[0 := Capture(0, 2)][1 := Capture(2, NullOffset)]))
      == Running(Config([Frame(0, true, 0, NullOffset), Frame(2, true, 2, NullOffset), Frame(2, true, 3, NullOffset), Frame(4, true, 5, NullOffset), Frame(4, false, 6, 0)], [], NullCaptures[0 := Capture(0, 2)][1 := Capture(2, 4)]))
  {
  }

  lemma TwoGroupsLine189Turns6()
    ensures var p, s: seq<Char> := TwoGroups, [97, 98, 99, 100];
      Step(p, s, Config([Frame(0, true, 0, NullOffset), Frame(2, true, 2, NullOffset), Frame(2, true, 3, NullOffset), Frame(4, true, 5, NullOffset), Frame(4, false, 6, 0)], [], NullCaptures[0 := Capture(0, 2)][1 := Capture(2, 4)]))
      == Stopped(Matched, Config([Frame(0, true, 0, NullOffset), Frame(2, true, 2, NullOffset), Frame(2, true, 3, NullOffset), Frame(4, true, 5, NullOffset), Frame(4, false, 6, 0)], [], NullCaptures[0 := Capture(0, 2)][1 := Capture(2, 4)]))
  {
  }

  /** "abc" (v2/regex_test.c:199): 5 turns. */
  lemma TwoGroupsLine199()
    ensures Run(TwoGroups, [97, 98, 99], Start([], NullCaptures), 64).verdict == NoMatch
    ensures Run(TwoGroups, [97, 98, 99], Start([], NullCaptures), 64).final.iters == []
    ensures Run(TwoGroups, [97, 98, 99], Start([], NullCaptures), 64).final.caps == NullCaptures
  {
    TwoGroupsLine199Turns0();
    TwoGroupsLine199Turns1();
    TwoGroupsLine199Turns2();
    TwoGroupsLine199Turns3();
    TwoGroupsLine199Turns4();
  }

  lemma TwoGroupsLine199Turns0()
    ensures var p, s: seq<Char> := TwoGroups, [97, 98, 99];
      Step(p, s, Config([Frame(0, false, 0, 0)], [], NullCaptures))
      == Running(Config([Frame(0, true, 0, NullOffset), Frame(0, false, 1, 0)], [], NullCaptures[0 := Capture(0, NullOffset)]))
  {
  }

  lemma TwoGroupsLine199Turns1()
    ensures var p, s: seq<Char> := TwoGroups, [97, 98, 99];
      Step(p, s, Config([Frame(0, true, 0, NullOffset), Frame(0, false, 1, 0)], [], NullCaptures[0 := Capture(0, NullOffset)]))
      == Running(Config([Frame(0, true, 0, NullOffset), Frame(2, false, 2, 0)], [], NullCaptures[0 := Capture(0, NullOffset)]))
  {
  }

  lemma TwoGroupsLine199Turns2()
    ensures var p, s: seq<Char> := TwoGroups, [97, 98, 99];
      Step(p, s, Config([Frame(0, true, 0, NullOffset), Frame(2, false, 2, 0)], [], NullCaptures[0 := Capture(0, NullOffset)]))
      == Running(Config([Frame(0, true, 0, NullOffset), Frame(2, true, 2, NullOffset), Frame(2, false, 3, 0)], [], NullCaptures[0 := Capture(0, 2)]))
  {
  }

  lemma TwoGroupsLine199Turns3()
    ensures var p, s: seq<Char> := TwoGroups, [97, 98, 99];
      Step(p, s, Config([Frame(0, true, 0, NullOffset), Frame(2, true, 2, NullOffset), Frame(2, false, 3, 0)], [], NullCaptures[0 := Capture(0, 2)]))
      == Running(Config([Frame(0, true, 0, NullOffset), Frame(2, true, 2, NullOffset), Frame(2, true, 3, NullOffset), Frame(2, false, 4, 0)], [], NullCaptures[0 := Capture(0, 2)][1 := Capture(2, NullOffset)]))
  {
  }

  lemma TwoGroupsLine199Turns4()
    ensures var p, s: seq<Char> := TwoGroups, [97, 98, 99];
      Step(p, s, Config([Frame(0, true, 0, NullOffset), Frame(2, true, 2, NullOffset), Frame(2, true, 3, NullOffset), Frame(2, false, 4, 0)], [], NullCaptures[0 := Capture(0, 2)][1 := Capture(2, NullOffset)]))
      == Stopped(NoMatch, Config([], [], NullCaptures))
  {
    var p, s: seq<Char> := TwoGroups, [97, 98, 99];
    assert DropLast([Frame(0, true, 0, NullOffset), Frame(2, true, 2, NullOffset), Frame(2, true, 3, NullOffset), Frame(2, false, 4, 0)]) == [Frame(0, true, 0, NullOffset), Frame(2, true, 2, NullOffset), Frame(2, true, 3, NullOffset)];
    TwoGroupsLine199Turns4Pop2();
  }

  lemma TwoGroupsLine199Turns4Pop0()
    ensures var p: Program := TwoGroups;
      Unwind(p, [Frame(0, true, 0, NullOffset)], [], NullCaptures[0 := Capture(0, NullOffset)])
      == Config([], [], NullCaptures)
  {
    assert DropLast([Frame(0, true, 0, NullOffset)]) == [];
    var p: Program := TwoGroups;
    assert Undo(p, Frame(0, true, 0, NullOffset), NullCaptures[0 := Capture(0, NullOffset)]) == NullCaptures;
  }

  lemma TwoGroupsLine199Turns4Pop1()
    ensures var p: Program := TwoGroups;
      Unwind(p, [Frame(0, true, 0, NullOffset), Frame(2, true, 2, NullOffset)], [], NullCaptures[0 := Capture(0, 2)])
      == Config([], [], NullCaptures)
  {
    assert DropLast([Frame(0, true, 0, NullOffset), Frame(2, true, 2, NullOffset)]) == [Frame(0, true, 0, NullOffset)];
    TwoGroupsLine199Turns4Pop0();
    var p: Program := TwoGroups;
    assert Undo(p, Frame(2, true, 2, NullOffset), NullCaptures[0 := Capture(0, 2)]) == NullCaptures[0 := Capture(0, NullOffset)];
  }

  lemma TwoGroupsLine199Turns4Pop2()
    ensures var p: Program := TwoGroups;
      Unwind(p, [Frame(0, true, 0, NullOffset), Frame(2, true, 2, NullOffset), Frame(2, true, 3, NullOffset)], [], NullCaptures[0 := Capture(0, 2)][1 := Capture(2, NullOffset)])
      == Config([], [], NullCaptures)
  {
    assert DropLast([Frame(0, true, 0, NullOffset), Frame(2, true, 2, NullOffset), Frame(2, true, 3, NullOffset)]) == [Frame(0, true, 0, NullOffset), Frame(2, true, 2, NullOffset)];
    TwoGroupsLine199Turns4Pop1();
    var p: Program := TwoGroups;
    assert Undo(p, Frame(2, true, 3, NullOffset), NullCaptures[0 := Capture(0, 2)][1 := Capture(2, NullOffset)]) == NullCaptures[0 := Capture(0, 2)];
  }

  /** `(ab)|(cd)` records only the group of the branch taken (v2/regex_test.c:211-254). */
  lemma EitherGroupTests()
    ensures Run(EitherGroup, [97, 98], Start([], NullCaptures), 64).verdict == Matched
    ensures Run(EitherGroup, [97, 98], Start([], NullCaptures), 64).final.caps == NullCaptures[0 := Capture(0, 2)]
    ensures Run(EitherGroup, [99, 100], Start([], NullCaptures), 64).verdict == Matched
    ensures Run(EitherGroup, [99, 100], Start([], NullCaptures), 64).final.caps == NullCaptures[1 := Capture(0, 2)]
    ensures Run(EitherGroup, [97, 99], Start([], NullCaptures), 64).verdict == NoMatch
    ensures Run(EitherGroup, [97, 99], Start([], NullCaptures), 64).final.iters == []
    ensures Run(EitherGroup, [97, 99], Start([], NullCaptures), 64).final.caps == NullCaptures
  {
    EitherGroupLine229();
    EitherGroupLine238();
    EitherGroupLine247();
  }

  /** "ab" (v2/regex_test.c:229): 6 turns. */
  lemma EitherGroupLine229()
    ensures Run(EitherGroup, [97, 98], Start([], NullCaptures), 64).verdict == Matched
    ensures Run(EitherGroup, [97, 98], Start([], NullCaptures), 64).final.caps == NullCaptures[0 := Capture(0, 2)]
  {
    EitherGroupLine229Turns0();
    EitherGroupLine229Turns1();
    EitherGroupLine229Turns2();
    EitherGroupLine229Turns3();
    EitherGroupLine229Turns4();
    EitherGroupLine229Turns5();
  }

  lemma EitherGroupLine229Turns0()
    ensures var p, s: seq<Char> := EitherGroup, [97, 98];
      Step(p, s, Config([Frame(0, false, 0, 0)], [], NullCaptures))
      == Running(Config([Frame(0, false, 0, 0), Frame(0, false, 1, 0)], [], NullCaptures))
  {
  }

  lemma EitherGroupLine229Turns1()
    ensures var p, s: seq<Char> := EitherGroup, [97, 98];
      Step(p, s, Config([Frame(0, false, 0, 0), Frame(0, false, 1, 0)], [], NullCaptures))
      == Running(Config([Frame(0, false, 0, 0), Frame(0, true, 1, NullOffset), Frame(0, false, 2, 0)], [], NullCaptures[0 := Capture(0, NullOffset)]))
  {
  }

  lemma EitherGroupLine229Turns2()
    ensures var p, s: seq<Char> := EitherGroup, [97, 98];
      Step(p, s, Config([Frame(0, false, 0, 0), Frame(0, true, 1, NullOffset), Frame(0, false, 2, 0)], [], NullCaptures[0 := Capture(0, NullOffset)]))
      == Running(Config([Frame(0, false, 0, 0), Frame(0, true, 1, NullOffset), Frame(2, false, 3, 0)], [], NullCaptures[0 := Capture(0, NullOffset)]))
  {
  }

  lemma EitherGroupLine229Turns3()
    ensures var p, s: seq<Char> := EitherGroup, [97, 98];
      Step(p, s, Config([Frame(0, false, 0, 0), Frame(0, true, 1, NullOffset), Frame(2, false, 3, 0)], [], NullCaptures[0 := Capture(0, NullOffset)]))
      == Running(Config([Frame(0, false, 0, 0), Frame(0, true, 1, NullOffset), Frame(2, true, 3, NullOffset), Frame(2, false, 4, 0)], [], NullCaptures[0 := Capture(0, 2)]))
  {
  }

  lemma EitherGroupLine229Turns4()
    ensures var p, s: seq<Char> := EitherGroup, [97, 98];
      Step(p, s, Config([Frame(0, false, 0, 0), Frame(0, true, 1, NullOffset), Frame(2, true, 3, NullOffset), Frame(2, false, 4, 0)], [], NullCaptures[0 := Capture(0, 2)]))
      == Running(Config([Frame(0, false, 0, 0), Frame(0, true, 1, NullOffset), Frame(2, true, 3, NullOffset), Frame(2, false, 8, 0)], [0], NullCaptures[0 := Capture(0, 2)]))
  {
  }

  lemma EitherGroupLine229Turns5()
    ensures var p, s: seq<Char> := EitherGroup, [97, 98];
      Step(p, s, Config([Frame(0, false, 0, 0), Frame(0, true, 1, NullOffset), Frame(2, true, 3, NullOffset), Frame(2, false, 8, 0)], [0], NullCaptures[0 := Capture(0, 2)]))
      == Stopped(Matched, Config([Frame(0, false, 0, 0), Frame(0, true, 1, NullOffset), Frame(2, true, 3, NullOffset), Frame(2, false, 8, 0)], [0], NullCaptures[0 := Capture(0, 2)]))
  {
  }

  /** "cd" (v2/regex_test.c:238): 8 turns. */
  lemma EitherGroupLine238()
    ensures Run(EitherGroup, [99, 100], Start([], NullCaptures), 64).verdict == Matched
    ensures Run(EitherGroup, [99, 100], Start([], NullCaptures), 64).final.caps == NullCaptures[1 := Capture(0, 2)]
  {
    EitherGroupLine238Turns0();
    EitherGroupLine238Turns1();
    EitherGroupLine238Turns2();
    EitherGroupLine238Turns3();
    EitherGroupLine238Turns4();
    EitherGroupLine238Turns5();
    EitherGroupLine238Turns6();
    EitherGroupLine238Turns7();
  }

  lemma EitherGroupLine238Turns0()
    ensures var p, s: seq<Char> := EitherGroup, [99, 100];
      Step(p, s, Config([Frame(0, false, 0, 0)], [], NullCaptures))
      == Running(Config([Frame(0, false, 0, 0), Frame(0, false, 1, 0)], [], NullCaptures))
  {
  }

  lemma EitherGroupLine238Turns1()
    ensures var p, s: seq<Char> := EitherGroup, [99, 100];
      Step(p, s, Config([Frame(0, false, 0, 0), Frame(0, false, 1, 0)], [], NullCaptures))
      == Running(Config([Frame(0, false, 0, 0), Frame(0, true, 1, NullOffset), Frame(0, false, 2, 0)], [], NullCaptures[0 := Capture(0, NullOffset)]))
  {
  }

  lemma EitherGroupLine238Turns2()
    ensures var p, s: seq<Char> := EitherGroup, [99, 100];
      Step(p, s, Config([Frame(0, false, 0, 0), Frame(0, true, 1, NullOffset), Frame(0, false, 2, 0)], [], NullCaptures[0 := Capture(0, NullOffset)]))
      == Running(Config([Frame(0, true, 0, 0)], [], NullCaptures))
  {
    var p, s: seq<Char> := EitherGroup, [99, 100];
    assert s[0..2][0] != p.chars[0..2][0];
    assert DropLast([Frame(0, false, 0, 0), Frame(0, true, 1, NullOffset), Frame(0, false, 2, 0)]) == [Frame(0, false, 0, 0), Frame(0, true, 1, NullOffset)];
    EitherGroupLine238Turns2Pop0();
  }

  lemma EitherGroupLine238Turns2Pop0()
    ensures var p: Program := EitherGroup;
      Unwind(p, [Frame(0, false, 0, 0), Frame(0, true, 1, NullOffset)], [], NullCaptures[0 := Capture(0, NullOffset)])
      == Config([Frame(0, false, 0, 0)], [], NullCaptures)
  {
    assert DropLast([Frame(0, false, 0, 0), Frame(0, true, 1, NullOffset)]) == [Frame(0, false, 0, 0)];
    var p: Program := EitherGroup;
    assert Undo(p, Frame(0, true, 1, NullOffset), NullCaptures[0 := Capture(0, NullOffset)]) == NullCaptures;
  }

  lemma EitherGroupLine238Turns3()
    ensures var p, s: seq<Char> := EitherGroup, [99, 100];
      Step(p, s, Config([Frame(0, true, 0, 0)], [], NullCaptures))
      == Running(Config([Frame(0, true, 0, 0), Frame(0, false, 5, 0)], [], NullCaptures))
  {
  }

  lemma EitherGroupLine238Turns4()
    ensures var p, s: seq<Char> := EitherGroup, [99, 100];
      Step(p, s, Config([Frame(0, true, 0, 0), Frame(0, false, 5, 0)], [], NullCaptures))
      == Running(Config([Frame(0, true, 0, 0), Frame(0, true, 5, NullOffset), Frame(0, false, 6, 0)], [], NullCaptures[1 := Capture(0, NullOffset)]))
  {
  }

  lemma EitherGroupLine238Turns5()
    ensures var p, s: seq<Char> := EitherGroup, [99, 100];
      Step(p, s, Config([Frame(0, true, 0, 0), Frame(0, true, 5, NullOffset), Frame(0, false, 6, 0)], [], NullCaptures[1 := Capture(0, NullOffset)]))
      == Running(Config([Frame(0, true, 0, 0), Frame(0, true, 5, NullOffset), Frame(2, false, 7, 0)], [], NullCaptures[1 := Capture(0, NullOffset)]))
  {
  }

  lemma EitherGroupLine238Turns6()
    ensures var p, s: seq<Char> := EitherGroup, [99, 100];
      Step(p, s, Config([Frame(0, true, 0, 0), Frame(0, true, 5, NullOffset), Frame(2, false, 7, 0)], [], NullCaptures[1 := Capture(0, NullOffset)]))
      == Running(Config([Frame(0, true, 0, 0), Frame(0, true, 5, NullOffset), Frame(2, true, 7, NullOffset), Frame(2, false, 8, 0)], [], NullCaptures[1 := Capture(0, 2)]))
  {
  }

  lemma EitherGroupLine238Turns7()
    ensures var p, s: seq<Char> := EitherGroup, [99, 100];
      Step(p, s, Config([Frame(0, true, 0, 0), Frame(0, true, 5, NullOffset), Frame(2, true, 7, NullOffset), Frame(2, false, 8, 0)], [], NullCaptures[1 := Capture(0, 2)]))
      == Stopped(Matched, Config([Frame(0, true, 0, 0), Frame(0, true, 5, NullOffset), Frame(2, true, 7, NullOffset), Frame(2, false, 8, 0)], [], NullCaptures[1 := Capture(0, 2)]))
  {
  }

  /** "ac" (v2/regex_test.c:247): 6 turns. */
  lemma EitherGroupLine247()
    ensures Run(EitherGroup, [97, 99], Start([], NullCaptures), 64).verdict == NoMatch
    ensures Run(EitherGroup, [97, 99], Start([], NullCaptures), 64).final.iters == []
    ensures Run(EitherGroup, [97, 99], Start([], NullCaptures), 64).final.caps == NullCaptures
  {
    EitherGroupLine247Turns0();
    EitherGroupLine247Turns1();
    EitherGroupLine247Turns2();
    EitherGroupLine247Turns3();
    EitherGroupLine247Turns4();
    EitherGroupLine247Turns5();
  }

  lemma EitherGroupLine247Turns0()
    ensures var p, s: seq<Char> := EitherGroup, [97, 99];
      Step(p, s, Config([Frame(0, false, 0, 0)], [], NullCaptures))
      == Running(Config([Frame(0, false, 0, 0), Frame(0, false, 1, 0)], [], NullCaptures))
  {
  }

  lemma EitherGroupLine247Turns1()
    ensures var p, s: seq<Char> := EitherGroup, [97, 99];
      Step(p, s, Config([Frame(0, false, 0, 0), Frame(0, false, 1, 0)], [], NullCaptures))
      == Running(Config([Frame(0, false, 0, 0), Frame(0, true, 1, NullOffset), Frame(0, false, 2, 0)], [], NullCaptures[0 := Capture(0, NullOffset)]))
  {
  }

  lemma EitherGroupLine247Turns2()
    ensures var p, s: seq<Char> := EitherGroup, [97, 99];
      Step(p, s, Config([Frame(0, false, 0, 0), Frame(0, true, 1, NullOffset), Frame(0, false, 2, 0)], [], NullCaptures[0 := Capture(0, NullOffset)]))
      == Running(Config([Frame(0, true, 0, 0)], [], NullCaptures))
  {
    var p, s: seq<Char> := EitherGroup, [97, 99];
    assert s[0..2][1] != p.chars[0..2][1];
    assert DropLast([Frame(0, false, 0, 0), Frame(0, true, 1, NullOffset), Frame(0, false, 2, 0)]) == [Frame(0, false, 0, 0), Frame(0, true, 1, NullOffset)];
    EitherGroupLine247Turns2Pop0();
  }

  lemma EitherGroupLine247Turns2Pop0()
    ensures var p: Program := EitherGroup;
      Unwind(p, [Frame(0, false, 0, 0), Frame(0, true, 1, NullOffset)], [], NullCaptures[0 := Capture(0, NullOffset)])
      == Config([Frame(0, false, 0, 0)], [], NullCaptures)
  {
    assert DropLast([Frame(0, false, 0, 0), Frame(0, true, 1, NullOffset)]) == [Frame(0, false, 0, 0)];
    var p: Program := EitherGroup;
    assert Undo(p, Frame(0, true, 1, NullOffset), NullCaptures[0 := Capture(0, NullOffset)]) == NullCaptures;
  }

  lemma EitherGroupLine247Turns3()
    ensures var p, s: seq<Char> := EitherGroup, [97, 99];
      Step(p, s, Config([Frame(0, true, 0, 0)], [], NullCaptures))
      == Running(Config([Frame(0, true, 0, 0), Frame(0, false, 5, 0)], [], NullCaptures))
  {
  }

  lemma EitherGroupLine247Turns4()
    ensures var p, s: seq<Char> := EitherGroup, [97, 99];
      Step(p, s, Config([Frame(0, true, 0, 0), Frame(0, false, 5, 0)], [], NullCaptures))
      == Running(Config([Frame(0, true, 0, 0), Frame(0, true, 5, NullOffset), Frame(0, false, 6, 0)], [], NullCaptures[1 := Capture(0, NullOffset)]))
  {
  }

  lemma EitherGroupLine247Turns5()
    ensures var p, s: seq<Char> := EitherGroup, [97, 99];
      Step(p, s, Config([Frame(0, true, 0, 0), Frame(0, true, 5, NullOffset), Frame(0, false, 6, 0)], [], NullCaptures[1 := Capture(0, NullOffset)]))
      == Stopped(NoMatch, Config([], [], NullCaptures))
  {
    var p, s: seq<Char> := EitherGroup, [97, 99];
    assert s[0..2][0] != p.chars[2..4][0];
    assert DropLast([Frame(0, true, 0, 0), Frame(0, true, 5, NullOffset), Frame(0, false, 6, 0)]) == [Frame(0, true, 0, 0), Frame(0, true, 5, NullOffset)];
    EitherGroupLine247Turns5Pop1();
  }

  lemma EitherGroupLine247Turns5Pop0()
    ensures var p: Program := EitherGroup;
      Unwind(p, [Frame(0, true, 0, 0)], [], NullCaptures)
      == Config([], [], NullCaptures)
  {
    assert DropLast([Frame(0, true, 0, 0)]) == [];
  }

  lemma EitherGroupLine247Turns5Pop1()
    ensures var p: Program := EitherGroup;
      Unwind(p, [Frame(0, true, 0, 0), Frame(0, true, 5, NullOffset)], [], NullCaptures[1 := Capture(0, NullOffset)])
      == Config([], [], NullCaptures)
  {
    assert DropLast([Frame(0, true, 0, 0), Frame(0, true, 5, NullOffset)]) == [Frame(0, true, 0, 0)];
    EitherGroupLine247Turns5Pop0();
    var p: Program := EitherGroup;
    assert Undo(p, Frame(0, true, 5, NullOffset), NullCaptures[1 := Capture(0, NullOffset)]) == NullCaptures;
  }

  /** `(ab|cd)` records group 0 whichever branch matched (v2/regex_test.c:256-294). */
  lemma GroupOfEitherTests()
    ensures Run(GroupOfEither, [97, 98], Start([], NullCaptures), 64).verdict == Matched
    ensures Run(GroupOfEither, [97, 98], Start([], NullCaptures), 64).final.caps == NullCaptures[0 := Capture(0, 2)]
    ensures Run(GroupOfEither, [99, 100], Start([], NullCaptures), 64).verdict == Matched
    ensures Run(GroupOfEither, [99, 100], Start([], NullCaptures), 64).final.caps == NullCaptures[0 := Capture(0, 2)]
    ensures Run(GroupOfEither, [97, 99], Start([], NullCaptures), 64).verdict == NoMatch
    ensures Run(GroupOfEither, [97, 99], Start([], NullCaptures), 64).final.iters == []
    ensures Run(GroupOfEither, [97, 99], Start([], NullCaptures), 64).final.caps == NullCaptures
  {
    GroupOfEitherLine274();
    GroupOfEitherLine281();
    GroupOfEitherLine288();
  }

  /** "ab" (v2/regex_test.c:274): 6 turns. */
  lemma GroupOfEitherLine274()
    ensures Run(GroupOfEither, [97, 98], Start([], NullCaptures), 64).verdict == Matched
    ensures Run(GroupOfEither, [97, 98], Start([], NullCaptures), 64).final.caps == NullCaptures[0 := Capture(0, 2)]
  {
    GroupOfEitherLine274Turns0();
    GroupOfEitherLine274Turns1();
    GroupOfEitherLine274Turns2();
    GroupOfEitherLine274Turns3();
    GroupOfEitherLine274Turns4();
    GroupOfEitherLine274Turns5();
  }

  lemma GroupOfEitherLine274Turns0()
    ensures var p, s: seq<Char> := GroupOfEither, [97, 98];
      Step(p, s, Config([Frame(0, false, 0, 0)], [], NullCaptures))
      == Running(Config([Frame(0, true, 0, NullOffset), Frame(0, false, 1, 0)], [], NullCaptures[0 := Capture(0, NullOffset)]))
  {
  }

  lemma GroupOfEitherLine274Turns1()
    ensures var p, s: seq<Char> := GroupOfEither, [97, 98];
      Step(p, s, Config([Frame(0, true, 0, NullOffset), Frame(0, false, 1, 0)], [], NullCaptures[0 := Capture(0, NullOffset)]))
      == Running(Config([Frame(0, true, 0, NullOffset), Frame(0, false, 1, 0), Frame(0, false, 2, 0)], [], NullCaptures[0 := Capture(0, NullOffset)]))
  {
  }

  lemma GroupOfEitherLine274Turns2()
    ensures var p, s: seq<Char> := GroupOfEither, [97, 98];
      Step(p, s, Config([Frame(0, true, 0, NullOffset), Frame(0, false, 1, 0), Frame(0, false, 2, 0)], [], NullCaptures[0 := Capture(0, NullOffset)]))
      == Running(Config([Frame(0, true, 0, NullOffset), Frame(0, false, 1, 0), Frame(2, false, 3, 0)], [], NullCaptures[0 := Capture(0, NullOffset)]))
  {
  }

  lemma GroupOfEitherLine274Turns3()
    ensures var p, s: seq<Char> := GroupOfEither, [97, 98];
      Step(p, s, Config([Frame(0, true, 0, NullOffset), Frame(0, false, 1, 0), Frame(2, false, 3, 0)], [], NullCaptures[0 := Capture(0, NullOffset)]))
      == Running(Config([Frame(0, true, 0, NullOffset), Frame(0, false, 1, 0), Frame(2, false, 5, 0)], [0], NullCaptures[0 := Capture(0, NullOffset)]))
  {
  }

  lemma GroupOfEitherLine274Turns4()
    ensures var p, s: seq<Char> := GroupOfEither, [97, 98];
      Step(p, s, Config([Frame(0, true, 0, NullOffset), Frame(0, false, 1, 0), Frame(2, false, 5, 0)], [0], NullCaptures[0 := Capture(0, NullOffset)]))
      == Running(Config([Frame(0, true, 0, NullOffset), Frame(0, false, 1, 0), Frame(2, true, 5, NullOffset), Frame(2, false, 6, 0)], [0], NullCaptures[0 := Capture(0, 2)]))
  {
  }

  lemma GroupOfEitherLine274Turns5()
    ensures var p, s: seq<Char> := GroupOfEither, [97, 98];
      Step(p, s, Config([Frame(0, true, 0, NullOffset), Frame(0, false, 1, 0), Frame(2, true, 5, NullOffset), Frame(2, false, 6, 0)], [0], NullCaptures[0 := Capture(0, 2)]))
      == Stopped(Matched, Config([Frame(0, true, 0, NullOffset), Frame(0, false, 1, 0), Frame(2, true, 5, NullOffset), Frame(2, false, 6, 0)], [0], NullCaptures[0 := Capture(0, 2)]))
  {
  }

  /** "cd" (v2/regex_test.c:281): 7 turns. */
  lemma GroupOfEitherLine281()
    ensures Run(GroupOfEither, [99, 100], Start([], NullCaptures), 64).verdict == Matched
    ensures Run(GroupOfEither, [99, 100], Start([], NullCaptures), 64).final.caps == NullCaptures[0 := Capture(0, 2)]
  {
    GroupOfEitherLine281Turns0();
    GroupOfEitherLine281Turns1();
    GroupOfEitherLine281Turns2();
    GroupOfEitherLine281Turns3();
    GroupOfEitherLine281Turns4();
    GroupOfEitherLine281Turns5();
    GroupOfEitherLine281Turns6();
  }

  lemma GroupOfEitherLine281Turns0()
    ensures var p, s: seq<Char> := GroupOfEither, [99, 100];
      Step(p, s, Config([Frame(0, false, 0, 0)], [], NullCaptures))
      == Running(Config([Frame(0, true, 0, NullOffset), Frame(0, false, 1, 0)], [], NullCaptures[0 := Capture(0, NullOffset)]))
  {
  }

  lemma GroupOfEitherLine281Turns1()
    ensures var p, s: seq<Char> := GroupOfEither, [99, 100];
      Step(p, s, Config([Frame(0, true, 0, NullOffset), Frame(0, false, 1, 0)], [], NullCaptures[0 := Capture(0, NullOffset)]))
      == Running(Config([Frame(0, true, 0, NullOffset), Frame(0, false, 1, 0), Frame(0, false, 2, 0)], [], NullCaptures[0 := Capture(0, NullOffset)]))
  {
  }

  lemma GroupOfEitherLine281Turns2()
    ensures var p, s: seq<Char> := GroupOfEither, [99, 100];
      Step(p, s, Config([Frame(0, true, 0, NullOffset), Frame(0, false, 1, 0), Frame(0, false, 2, 0)], [], NullCaptures[0 := Capture(0, NullOffset)]))
      == Running(Config([Frame(0, true, 0, NullOffset), Frame(0, true, 1, 0)], [], NullCaptures[0 := Capture(0, NullOffset)]))
  {
    var p, s: seq<Char> := GroupOfEither, [99, 100];
    assert s[0..2][0] != p.chars[0..2][0];
  }

  lemma GroupOfEitherLine281Turns3()
    ensures var p, s: seq<Char> := GroupOfEither, [99, 100];
      Step(p, s, Config([Frame(0, true, 0, NullOffset), Frame(0, true, 1, 0)], [], NullCaptures[0 := Capture(0, NullOffset)]))
      == Running(Config([Frame(0, true, 0, NullOffset), Frame(0, true, 1, 0), Frame(0, false, 4, 0)], [], NullCaptures[0 := Capture(0, NullOffset)]))
  {
  }

  lemma GroupOfEitherLine281Turns4()
    ensures var p, s: seq<Char> := GroupOfEither, [99, 100];
      Step(p, s, Config([Frame(0, true, 0, NullOffset), Frame(0, true, 1, 0), Frame(0, false, 4, 0)], [], NullCaptures[0 := Capture(0, NullOffset)]))
      == Running(Config([Frame(0, true, 0, NullOffset), Frame(0, true, 1, 0), Frame(2, false, 5, 0)], [], NullCaptures[0 := Capture(0, NullOffset)]))
  {
  }

  lemma GroupOfEitherLine281Turns5()
    ensures var p, s: seq<Char> := GroupOfEither, [99, 100];
      Step(p, s, Config([Frame(0, true, 0, NullOffset), Frame(0, true, 1, 0), Frame(2, false, 5, 0)], [], NullCaptures[0 := Capture(0, NullOffset)]))
      == Running(Config([Frame(0, true, 0, NullOffset), Frame(0, true, 1, 0), Frame(2, true, 5, NullOffset), Frame(2, false, 6, 0)], [], NullCaptures[0 := Capture(0, 2)]))
  {
  }

  lemma GroupOfEitherLine281Turns6()
    ensures var p, s: seq<Char> := GroupOfEither, [99, 100];
      Step(p, s, Config([Frame(0, true, 0, NullOffset), Frame(0, true, 1, 0), Frame(2, true, 5, NullOffset), Frame(2, false, 6, 0)], [], NullCaptures[0 := Capture(0, 2)]))
      == Stopped(Matched, Config([Frame(0, true, 0, NullOffset), Frame(0, true, 1, 0), Frame(2, true, 5, NullOffset), Frame(2, false, 6, 0)], [], NullCaptures[0 := Capture(0, 2)]))
  {
  }

  /** "ac" (v2/regex_test.c:288): 5 turns. */
  lemma GroupOfEitherLine288()
    ensures Run(GroupOfEither, [97, 99], Start([], NullCaptures), 64).verdict == NoMatch
    ensures Run(GroupOfEither, [97, 99], Start([], NullCaptures), 64).final.iters == []
    ensures Run(GroupOfEither, [97, 99], Start([], NullCaptures), 64).final.caps == NullCaptures
  {
    GroupOfEitherLine288Turns0();
    GroupOfEitherLine288Turns1();
    GroupOfEitherLine288Turns2();
    GroupOfEitherLine288Turns3();
    GroupOfEitherLine288Turns4();
  }

  lemma GroupOfEitherLine288Turns0()
    ensures var p, s: seq<Char> := GroupOfEither, [97, 99];
      Step(p, s, Config([Frame(0, false, 0, 0)], [], NullCaptures))
      == Running(Config([Frame(0, true, 0, NullOffset), Frame(0, false, 1, 0)], [], NullCaptures[0 := Capture(0, NullOffset)]))
  {
  }

  lemma GroupOfEitherLine288Turns1()
    ensures var p, s: seq<Char> := GroupOfEither, [97, 99];
      Step(p, s, Config([Frame(0, true, 0, NullOffset), Frame(0, false, 1, 0)], [], NullCaptures[0 := Capture(0, NullOffset)]))
      == Running(Config([Frame(0, true, 0, NullOffset), Frame(0, false, 1, 0), Frame(0, false, 2, 0)], [], NullCaptures[0 := Capture(0, NullOffset)]))
  {
  }

  lemma GroupOfEitherLine288Turns2()
    ensures var p, s: seq<Char> := GroupOfEither, [97, 99];
      Step(p, s, Config([Frame(0, true, 0, NullOffset), Frame(0, false, 1, 0), Frame(0, false, 2, 0)], [], NullCaptures[0 := Capture(0, NullOffset)]))
      == Running(Config([Frame(0, true, 0, NullOffset), Frame(0, true, 1, 0)], [], NullCaptures[0 := Capture(0, NullOffset)]))
  {
    var p, s: seq<Char> := GroupOfEither, [97, 99];
    assert s[0..2][1] != p.chars[0..2][1];
  }

  lemma GroupOfEitherLine288Turns3()
    ensures var p, s: seq<Char> := GroupOfEither, [97, 99];
      Step(p, s, Config([Frame(0, true, 0, NullOffset), Frame(0, true, 1, 0)], [], NullCaptures[0 := Capture(0, NullOffset)]))
      == Running(Config([Frame(0, true, 0, NullOffset), Frame(0, true, 1, 0), Frame(0, false, 4, 0)], [], NullCaptures[0 := Capture(0, NullOffset)]))
  {
  }

  lemma GroupOfEitherLine288Turns4()
    ensures var p, s: seq<Char> := GroupOfEither, [97, 99];
      Step(p, s, Config([Frame(0, true, 0, NullOffset), Frame(0, true, 1, 0), Frame(0, false, 4, 0)], [], NullCaptures[0 := Capture(0, NullOffset)]))
      == Stopped(NoMatch, Config([], [], NullCaptures))
  {
    var p, s: seq<Char> := GroupOfEither, [97, 99];
    assert s[0..2][0] != p.chars[2..4][0];
    assert DropLast([Frame(0, true, 0, NullOffset), Frame(0, true, 1, 0), Frame(0, false, 4, 0)]) == [Frame(0, true, 0, NullOffset), Frame(0, true, 1, 0)];
    GroupOfEitherLine288Turns4Pop1();
  }

  lemma GroupOfEitherLine288Turns4Pop0()
    ensures var p: Program := GroupOfEither;
      Unwind(p, [Frame(0, true, 0, NullOffset)], [], NullCaptures[0 := Capture(0, NullOffset)])
      == Config([], [], NullCaptures)
  {
    assert DropLast([Frame(0, true, 0, NullOffset)]) == [];
    var p: Program := GroupOfEither;
    assert Undo(p, Frame(0, true, 0, NullOffset), NullCaptures[0 := Capture(0, NullOffset)]) == NullCaptures;
  }

  lemma GroupOfEitherLine288Turns4Pop1()
    ensures var p: Program := GroupOfEither;
      Unwind(p, [Frame(0, true, 0, NullOffset), Frame(0, true, 1, 0)], [], NullCaptures[0 := Capture(0, NullOffset)])
      == Config([], [], NullCaptures)
  {
    assert DropLast([Frame(0, true, 0, NullOffset), Frame(0, true, 1, 0)]) == [Frame(0, true, 0, NullOffset)];
    GroupOfEitherLine288Turns4Pop0();
  }
}
