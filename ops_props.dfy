/** What each case of the executor's `switch` does, stated against the instruction
    it runs: matching ops advance in place, JUMP and BACKTRK_JUMP move or fork
    without touching the captures, the repeat ops respect their bounds, and a
    capture write is undone by backtracking past its frame. */
module OpsProps {
  import opened Bytecode
  import opened Charset
  import opened Machine

  /** The bytes a matching instruction accepts at offset `off`. */
  predicate Accepts(p: Program, s: seq<Char>, off: nat, ins: Instr)
    requires InstrFits(p, ins) && IsMatchOp(ins.op)
  {
    if ins.op == MatchString then
      off + ins.len <= |s| && forall i :: off <= i < off + ins.len ==> s[i] == p.chars[ins.from + (i - off)]
    else
      off < |s| && (InCharset(s[off], p.chars[ins.from .. ins.from + ins.len]) <==> ins.op == MatchCharset)
  }

  /** MATCH_STRING, MATCH_CHARSET and MATCH_CHARSET_INV succeed exactly when their
      bytes are at the top frame's offset; then the top frame moves past them and to
      the next instruction in place, and the depth of the stack, the frames below,
      the counters and the captures stay as they were. */
  lemma MatchAdvancesInPlace(p: Program, s: seq<Char>, c: Config)
    requires Fits(p, c) && c.frames != [] && IsMatchOp(TopOp(p, c))
    ensures var f := Last(c.frames);
      var ins := p.instrs[f.instr];
      var m := Dispatch(p, s, c);
      && (m.Next? <==> Accepts(p, s, f.off, ins))
      && (m.Next? ==>
            && |m.next.frames| == |c.frames|
            && m.next.frames[..|c.frames| - 1] == c.frames[..|c.frames| - 1]
            && Last(m.next.frames).off == f.off + (if ins.op == MatchString then ins.len else 1)
            && Last(m.next.frames).instr == f.instr + 1
            && Last(m.next.frames).backtracked == f.backtracked
            && m.next.iters == c.iters && m.next.caps == c.caps)
      && (!m.Next? ==> m == Fail(c))
  {
    var f := Last(c.frames);
    var ins := p.instrs[f.instr];
    assert InstrFits(p, ins);
    if ins.op == MatchString {
      if f.off + ins.len <= |s| {
        if s[f.off .. f.off + ins.len] == p.chars[ins.from .. ins.from + ins.len] {
          forall i | f.off <= i < f.off + ins.len
            ensures s[i] == p.chars[ins.from + (i - f.off)]
          {
            assert s[f.off .. f.off + ins.len][i - f.off] == p.chars[ins.from .. ins.from + ins.len][i - f.off];
          }
        } else {
          var j :| 0 <= j < ins.len && s[f.off .. f.off + ins.len][j] != p.chars[ins.from .. ins.from + ins.len][j];
          assert s[f.off + j] != p.chars[ins.from + (f.off + j - f.off)];
        }
      }
    }
  }

  /** Both charset instructions fail at the end of the subject, the inverted one
      included: there is no byte there to be outside the set. */
  lemma CharsetFailsAtEnd(p: Program, s: seq<Char>, c: Config)
    requires Fits(p, c) && c.frames != [] && IsCharsetOp(TopOp(p, c))
    requires Last(c.frames).off >= |s|
    ensures Dispatch(p, s, c) == Fail(c)
  {
  }

  /** JUMP moves the top frame to its target without pushing a frame, and pushes a
      zero iteration counter. */
  lemma JumpMovesTop(p: Program, s: seq<Char>, c: Config)
    requires Fits(p, c) && c.frames != [] && TopOp(p, c) == Jump
    ensures var f := Last(c.frames);
      var m := Dispatch(p, s, c);
      && m.Next?
      && |m.next.frames| == |c.frames|
      && m.next.frames[..|c.frames| - 1] == c.frames[..|c.frames| - 1]
      && Last(m.next.frames) == f.(instr := p.instrs[f.instr].start)
      && m.next.iters == c.iters + [0]
      && m.next.caps == c.caps
  {
  }

  /** BACKTRK_JUMP keeps its own frame as the way back and pushes a new one: at the
      next instruction on its first visit, at its target once backtracked into.
      Counters and captures are left alone. */
  lemma BacktrackJumpForks(p: Program, s: seq<Char>, c: Config)
    requires Fits(p, c) && c.frames != [] && TopOp(p, c) == BacktrackJump
    ensures var f := Last(c.frames);
      var m := Dispatch(p, s, c);
      && m.Next?
      && m.next.frames[..|c.frames|] == c.frames
      && |m.next.frames| == |c.frames| + 1
      && Last(m.next.frames).off == f.off
      && Last(m.next.frames).instr == (if f.backtracked then p.instrs[f.instr].start else f.instr + 1)
      && !Last(m.next.frames).backtracked
      && m.next.iters == c.iters && m.next.caps == c.caps
  {
  }

  /** The turn enters the loop body: a fresh frame at the body's first instruction. */
  predicate EntersBody(p: Program, c: Config, m: Move)
    requires Fits(p, c) && c.frames != []
  {
    var f := Last(c.frames);
    m.Next? && |m.next.frames| == |c.frames| + 1 && Last(m.next.frames) == Fresh(f.off, p.instrs[f.instr].start)
  }

  /** The turn leaves the loop: a fresh frame at the instruction after the repeat. */
  predicate LeavesLoop(p: Program, c: Config, m: Move)
    requires Fits(p, c) && c.frames != []
  {
    var f := Last(c.frames);
    m.Next? && |m.next.frames| == |c.frames| + 1 && Last(m.next.frames) == Fresh(f.off, f.instr + 1)
  }

  /** REPEAT_GREEDY (its body placed before it, as `JUMP; body; REPEAT` lays it
      out): on a visit it runs the body once more exactly when the counter has not
      reached the maximum `len`, and once backtracked into it goes on past the loop
      exactly when the frame counted at least the minimum `from`. */
  lemma GreedyBounds(p: Program, s: seq<Char>, c: Config)
    requires Fits(p, c) && c.frames != [] && TopOp(p, c) == RepeatGreedy
    requires p.instrs[Last(c.frames).instr].start <= Last(c.frames).instr
    ensures var f := Last(c.frames);
      var ins := p.instrs[f.instr];
      var m := Dispatch(p, s, c);
      && (EntersBody(p, c, m) <==> !f.backtracked && c.iters != [] && Last(c.iters) != ins.len)
      && (LeavesLoop(p, c, m) <==> f.backtracked && f.numiters >= ins.from)
      && (m.Fail? <==> f.backtracked && f.numiters < ins.from)
  {
  }

  /** REPEAT_LAZY, laid out the same way: on a visit it goes on past the loop
      exactly when the counter it pops has reached the minimum `from`, and once
      backtracked into it runs the body once more exactly when the frame has not
      reached the maximum `len`. */
  lemma LazyBounds(p: Program, s: seq<Char>, c: Config)
    requires Fits(p, c) && c.frames != [] && TopOp(p, c) == RepeatLazy
    requires p.instrs[Last(c.frames).instr].start <= Last(c.frames).instr
    ensures var f := Last(c.frames);
      var ins := p.instrs[f.instr];
      var m := Dispatch(p, s, c);
      && (EntersBody(p, c, m) <==> f.backtracked && f.numiters != ins.len)
      && (LeavesLoop(p, c, m) <==> !f.backtracked && c.iters != [] && Last(c.iters) >= ins.from)
      && (m.Fail? <==> f.backtracked && f.numiters == ins.len)
  {
  }

  /** CAPTURE_START and CAPTURE_END write the offset into their boundary of their
      group and nothing else, mark their own frame and keep the old boundary in it,
      and push a frame for the next instruction; undoing the marked frame gives
      back the capture table as it was. */
  lemma CaptureIsUndone(p: Program, s: seq<Char>, c: Config)
    requires Fits(p, c) && c.frames != [] && IsCaptureOp(TopOp(p, c))
    ensures var f := Last(c.frames);
      var ins := p.instrs[f.instr];
      var m := Dispatch(p, s, c);
      && m.Next?
      && |m.next.frames| == |c.frames| + 1
      && m.next.frames[..|c.frames| - 1] == c.frames[..|c.frames| - 1]
      && m.next.frames[|c.frames| - 1].backtracked
      && Last(m.next.frames) == Fresh(f.off, f.instr + 1)
      && (ins.op == CaptureStart ==> m.next.caps[ins.from].start == f.off && m.next.caps[ins.from].end == c.caps[ins.from].end)
      && (ins.op == CaptureEnd ==> m.next.caps[ins.from].end == f.off && m.next.caps[ins.from].start == c.caps[ins.from].start)
      && (forall k :: 0 <= k < MaxCaptures && k != ins.from ==> m.next.caps[k] == c.caps[k])
      && Undo(p, m.next.frames[|c.frames| - 1], m.next.caps) == c.caps
  {
  }
}
