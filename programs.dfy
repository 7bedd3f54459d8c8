/** The hand-assembled bytecode programs of the executor's test driver
    (v2/regex_test.c), and one more that shows an iteration counter left behind by
    a failed run. The regular expression each program stands for is given in its
    comment; `chars` holds the bytes as numbers ('a' is 97). */
module Programs {
  import opened Bytecode

  /** `aa`: one literal run of two bytes. */
  const LiteralAa := Program([Instr(MatchString, 0, 0, 2), Instr(MatchDone, 0, 0, 0)], [97, 97])

  /** `[a-z][^A-Z]`: a charset and an inverted charset of one range each. */
  const Ranges := Program(
    [Instr(MatchCharset, 0, 0, 2), Instr(MatchCharsetInv, 0, 2, 2), Instr(MatchDone, 0, 0, 0)],
    [97, 122, 65, 90])

  /** `a{m,n}b` (greedy) or `a{m,n}?b` (lazy): the JUMP opens the counter and enters
      the loop at its repeat instruction, whose `start` is the body `a`. */
  function Loop(kind: Opcode, min: nat, max: nat): Program {
    Program(
      [Instr(Jump, 2, 0, 0), Instr(MatchString, 0, 0, 1), Instr(kind, 1, min, max),
       Instr(MatchString, 0, 1, 1), Instr(MatchDone, 0, 0, 0)],
      [97, 98])
  }

  /** `a*b` (greedy) or `a*?b` (lazy). */
  function Star(kind: Opcode): Program {
    Loop(kind, 0, MaxRepeats)
  }

  /** `a{3}b`, greedy or lazy. */
  function Exactly3(kind: Opcode): Program {
    Loop(kind, 3, 3)
  }

  /** `a|b`: BACKTRK_JUMP tries the first branch and jumps to the second once
      backtracked into; the first branch ends in a JUMP past the second. */
  const Alternation := Program(
    [Instr(BacktrackJump, 3, 0, 0), Instr(MatchString, 0, 0, 1), Instr(Jump, 4, 0, 0),
     Instr(MatchString, 0, 1, 1), Instr(MatchDone, 0, 0, 0)],
    [97, 98])

  /** `(a{1,2}b){1,3}`, both loops greedy or both lazy. */
  function Nested(kind: Opcode): Program {
    Program(
      [Instr(Jump, 5, 0, 0), Instr(Jump, 3, 0, 0), Instr(MatchString, 0, 0, 1),
       Instr(kind, 2, 1, 2), Instr(MatchString, 0, 1, 1), Instr(kind, 1, 1, 3),
       Instr(MatchDone, 0, 0, 0)],
      [97, 98])
  }

  /** `(ab)(cd)`: groups 0 and 1. */
  const TwoGroups := Program(
    [Instr(CaptureStart, 0, 0, 0), Instr(MatchString, 0, 0, 2), Instr(CaptureEnd, 0, 0, 0),
     Instr(CaptureStart, 0, 1, 0), Instr(MatchString, 0, 2, 2), Instr(CaptureEnd, 0, 1, 0),
     Instr(MatchDone, 0, 0, 0)],
    [97, 98, 99, 100])

  /** `(ab)|(cd)`: one group in each branch. */
  const EitherGroup := Program(
    [Instr(BacktrackJump, 5, 0, 0), Instr(CaptureStart, 0, 0, 0), Instr(MatchString, 0, 0, 2),
     Instr(CaptureEnd, 0, 0, 0), Instr(Jump, 8, 0, 0), Instr(CaptureStart, 0, 1, 0),
     Instr(MatchString, 0, 2, 2), Instr(CaptureEnd, 0, 1, 0), Instr(MatchDone, 0, 0, 0)],
    [97, 98, 99, 100])

  /** `(ab|cd)`: one group around an alternation. */
  const GroupOfEither := Program(
    [Instr(CaptureStart, 0, 0, 0), Instr(BacktrackJump, 4, 0, 0), Instr(MatchString, 0, 0, 2),
     Instr(Jump, 5, 0, 0), Instr(MatchString, 0, 2, 2), Instr(CaptureEnd, 0, 0, 0),
     Instr(MatchDone, 0, 0, 0)],
    [97, 98, 99, 100])

  /** `(a|b)c`, assembled the way `a|b` is, followed by a literal `c`: not one of the
      driver's programs. The JUMP that ends the first branch pushes an iteration
      counter that nothing pops. */
  const AlternationThenC := Program(
    [Instr(BacktrackJump, 3, 0, 0), Instr(MatchString, 0, 0, 1), Instr(Jump, 4, 0, 0),
     Instr(MatchString, 0, 1, 1), Instr(MatchString, 0, 2, 1), Instr(MatchDone, 0, 0, 0)],
    [97, 98, 99])
}
