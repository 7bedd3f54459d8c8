/** The instruction set of the bytecode virtual machine: opcodes, instructions,
    programs, and what it takes for a program to be safe to execute. */
module Bytecode {

  /** `rxChar` is plain `char`. The model assumes a platform where plain `char` is
      signed, so character data and subject bytes compare as values in -128..127;
      where `char` is unsigned they would compare as 0..255 instead. */
  newtype Char = x: int | -128 <= x < 128

  /** Size of the capture table (`captures[10][2]`). */
  const MaxCaptures: nat := 10

  /** Marker for a capture boundary that was never written (`RX_NULL_OFFSET`). */
  const NullOffset: nat := 0xFFFF_FFFF

  /** The "unbounded" maximum of a repeat (`RX_MAX_REPEATS`). */
  const MaxRepeats: nat := 0xFFFF_FFFF

  /** The ten opcodes, in the order of their numeric codes 0..9. */
  datatype Opcode =
    | MatchDone        // end of the program: the subject matched
    | MatchCharset     // one byte inside one of the (lo, hi) ranges
    | MatchCharsetInv  // one byte outside all of the (lo, hi) ranges
    | MatchString      // a run of literal bytes
    | RepeatGreedy     // try another iteration before proceeding
    | RepeatLazy       // try proceeding before another iteration
    | Jump             // unconditional jump; opens a fresh iteration counter
    | BacktrackJump    // fall through first, jump once backtracked
    | CaptureStart     // record the start of a capture group
    | CaptureEnd       // record the end of a capture group

  /** `rxInstr`: `start` is a branch target; `from`/`len` are a char-buffer offset and
      length, a min/max repeat count, or (in `from`) a capture id. */
  datatype Instr = Instr(op: Opcode, start: nat, from: nat, len: nat)

  /** `rxProgram`: the instructions and the flat character data they refer to. */
  datatype Program = Program(instrs: seq<Instr>, chars: seq<Char>)

  predicate IsMatchOp(op: Opcode) {
    op == MatchCharset || op == MatchCharsetInv || op == MatchString
  }

  predicate IsCharsetOp(op: Opcode) {
    op == MatchCharset || op == MatchCharsetInv
  }

  predicate IsCaptureOp(op: Opcode) {
    op == CaptureStart || op == CaptureEnd
  }

  /** What one instruction needs for the executor never to index out of bounds. */
  predicate InstrFits(p: Program, ins: Instr) {
    && ins.start < |p.instrs|
    && (IsMatchOp(ins.op) ==> ins.from + ins.len <= |p.chars|)
    && (IsCharsetOp(ins.op) ==> ins.len % 2 == 0)
    && (IsCaptureOp(ins.op) ==> ins.from < MaxCaptures)
  }

  /** A program the executor can run: it is not empty, it ends in MATCH_DONE (so
      "next instruction" never leaves the program), and every instruction fits. */
  predicate WellFormed(p: Program) {
    && |p.instrs| > 0
    && p.instrs[|p.instrs| - 1].op == MatchDone
    && forall i :: 0 <= i < |p.instrs| ==> InstrFits(p, p.instrs[i])
  }

  /** The instruction after a non-final one is still inside the program. */
  lemma NextInside(p: Program, i: nat)
    requires WellFormed(p) && i < |p.instrs| && p.instrs[i].op != MatchDone
    ensures i + 1 < |p.instrs|
  {
  }
}
