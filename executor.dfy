/** `rxExecute` and the functions that drive it: the imperative executor, proved to
    compute exactly what `Machine.Run` describes. */
module Executor {
  import opened Bytecode
  import Charset
  import opened Machine
  import MachineProps

  class Executor {
    const program: Program
    const str: seq<Char>
    // the frame stack: `states[..statesCount]`, grown like `realloc`
    var states: array<Frame>
    var statesCount: nat
    var statesMem: nat
    // the iteration-counter stack: `iternum[..iternumCount]`
    var iternum: array<nat>
    var iternumCount: nat
    var iternumMem: nat
    // `captures[10][2]`
    const captures: array2<nat>

    ghost predicate Valid()
      reads this
    {
      && statesMem == states.Length && statesCount <= statesMem
      && iternumMem == iternum.Length && iternumCount <= iternumMem
      && captures.Length0 == MaxCaptures && captures.Length1 == 2
    }

    ghost function Frames(): seq<Frame>
      reads this`states, this`statesCount, states
      requires statesCount <= states.Length
    {
      states[..statesCount]
    }

    ghost function Iters(): seq<nat>
      reads this`iternum, this`iternumCount, iternum
      requires iternumCount <= iternum.Length
    {
      iternum[..iternumCount]
    }

    ghost function Caps(): (r: seq<Capture>)
      reads captures
      requires captures.Length0 == MaxCaptures && captures.Length1 == 2
      ensures |r| == MaxCaptures
    {
      seq(MaxCaptures, k requires 0 <= k < MaxCaptures reads captures => Capture(captures[k, 0], captures[k, 1]))
    }

    /** The abstract state the executor is in. */
    ghost function Cfg(): Config
      reads this, states, iternum, captures
      requires Valid()
    {
      Config(Frames(), Iters(), Caps())
    }

    /** `rxInitExecute`: no frames, no counters, every capture boundary unset. */
    constructor Init(p: Program, s: seq<Char>)
      ensures Valid() && program == p && str == s
      ensures Frames() == [] && Iters() == [] && Caps() == NullCaptures
      ensures statesMem == 0 && iternumMem == 0
      ensures fresh(states) && fresh(iternum) && fresh(captures)
    {
      program, str := p, s;
      states, statesCount, statesMem := new Frame[0], 0, 0;
      iternum, iternumCount, iternumMem := new nat[0], 0, 0;
      var caps := new nat[MaxCaptures, 2];
      var i := 0;
      while i < MaxCaptures
        invariant 0 <= i <= MaxCaptures
        invariant forall k, j :: 0 <= k < i && 0 <= j < 2 ==> caps[k, j] == NullOffset
      {
        caps[i, 0] := NullOffset;
        caps[i, 1] := NullOffset;
        i := i + 1;
      }
      captures := caps;
      new;
      assert forall k :: 0 <= k < MaxCaptures ==> Caps()[k] == NullCaptures[k];
    }

    /** `rxFreeExecute`: both stacks' storage is released. */
    method FreeExecute()
      modifies this`states, this`iternum
      ensures states.Length == 0 && iternum.Length == 0
      ensures fresh(states) && fresh(iternum)
    {
      states := new Frame[0];
      iternum := new nat[0];
    }

    /** `rxPushState`: appends an unmarked frame with a zero count, growing the
        storage to `mem * 2 + 16` when it is full. */
    method PushState(off: nat, instr: nat)
      requires Valid()
      modifies this`states, this`statesCount, this`statesMem, states
      ensures Valid()
      ensures Frames() == old(Frames()) + [Frame(off, false, instr, 0)]
      ensures statesMem == if old(statesCount) == old(statesMem) then old(statesMem) * 2 + 16 else old(statesMem)
      ensures states == old(states) || fresh(states)
    {
      if statesCount == statesMem {
        var ncnt := statesMem * 2 + 16;
        var ns := new Frame[ncnt];
        forall i | 0 <= i < statesCount {
          ns[i] := states[i];
        }
        states, statesMem := ns, ncnt;
      }
      states[statesCount] := Frame(off, false, instr, 0);
      statesCount := statesCount + 1;
    }

    /** `rxPushIterCnt`: appends a counter, growing the storage like `PushState`. */
    method PushIterCnt(it: nat)
      requires Valid()
      modifies this`iternum, this`iternumCount, this`iternumMem, iternum
      ensures Valid()
      ensures Iters() == old(Iters()) + [it]
      ensures iternumMem == if old(iternumCount) == old(iternumMem) then old(iternumMem) * 2 + 16 else old(iternumMem)
      ensures iternum == old(iternum) || fresh(iternum)
    {
      if iternumCount == iternumMem {
        var ncnt := iternumMem * 2 + 16;
        var ni := new nat[ncnt];
        forall i | 0 <= i < iternumCount {
          ni[i] := iternum[i];
        }
        iternum, iternumMem := ni, ncnt;
      }
      iternum[iternumCount] := it;
      iternumCount := iternumCount + 1;
    }

    /** Writes one capture boundary (`side` 0 is the start, 1 the end). */
    method SetCapture(k: nat, side: nat, value: nat)
      requires Valid() && k < MaxCaptures && side < 2
      modifies captures
      ensures Valid()
      ensures Caps() == old(Caps())[k := if side == 0 then old(Caps())[k].(start := value)
                                         else old(Caps())[k].(end := value)]
    {
      captures[k, side] := value;
      assert forall j :: 0 <= j < MaxCaptures && j != k ==> Caps()[j] == old(Caps())[j];
    }

    /** One turn of the pop-and-undo loop: pops a frame already marked backtracked
        and undoes its capture write or lazy counter push. */
    method PopBacktracked()
      requires Valid() && Fits(program, Cfg()) && statesCount > 0 && states[statesCount - 1].backtracked
      modifies this`statesCount, this`iternumCount, captures
      ensures Valid() && Fits(program, Cfg())
      ensures statesCount == old(statesCount) - 1
      ensures Frames() == DropLast(old(Frames()))
      ensures Caps() == Undo(program, Last(old(Frames())), old(Caps()))
      ensures Iters() ==
        if program.instrs[Last(old(Frames())).instr].op == RepeatLazy && old(Iters()) != []
           && Last(old(Frames())).numiters + 1 == Last(old(Iters()))
        then DropLast(old(Iters()))
        else old(Iters())
      ensures Unwind(program, Frames(), Iters(), Caps()) == Unwind(program, old(Frames()), old(Iters()), old(Caps()))
    {
      ghost var before := Cfg();
      statesCount := statesCount - 1;
      var s := states[statesCount];
      assert s == Last(before.frames) && s.backtracked;
      assert Frames() == DropLast(before.frames);
      var op := program.instrs[s.instr];
      if op.op == RepeatLazy && iternumCount > 0 && s.numiters + 1 == iternum[iternumCount - 1] {
        iternumCount := iternumCount - 1;
      }
      assert Iters() ==
        if op.op == RepeatLazy && before.iters != [] && s.numiters + 1 == Last(before.iters) then DropLast(before.iters)
        else before.iters;
      if op.op == CaptureStart {
        SetCapture(op.from, 0, s.numiters);
      }
      if op.op == CaptureEnd {
        SetCapture(op.from, 1, s.numiters);
      }
      assert Caps() == Undo(program, s, before.caps);
    }

    /** `did_not_match`: drops the failed top frame, pops every frame already marked
        backtracked (undoing what it did), and marks the first frame left so that its
        other path is taken next. `alive` is false when no frame is left. */
    method Backtrack() returns (alive: bool)
      requires Valid() && statesCount > 0 && Fits(program, Cfg())
      modifies this`statesCount, this`iternumCount, states, captures
      ensures Valid()
      ensures Machine.Backtrack(program, old(Cfg())) == if alive then Running(Cfg()) else Stopped(NoMatch, Cfg())
    {
      ghost var start := Cfg();
      statesCount := statesCount - 1;
      ghost var goal := Unwind(program, DropLast(start.frames), start.iters, start.caps);
      assert Frames() == DropLast(start.frames);
      while statesCount > 0 && states[statesCount - 1].backtracked
        invariant Valid() && Fits(program, Cfg())
        invariant Unwind(program, Frames(), Iters(), Caps()) == goal
        decreases statesCount
      {
        PopBacktracked();
      }
      assert Cfg() == goal;
      if statesCount == 0 {
        assert Machine.Backtrack(program, start) == Stopped(NoMatch, goal);
        return false;
      }
      states[statesCount - 1] := states[statesCount - 1].(backtracked := true);
      assert Frames() == SetLast(goal.frames, Last(goal.frames).(backtracked := true));
      assert Machine.Backtrack(program, start) == Running(Cfg());
      return true;
    }

    /** The frame on top of the stack. */
    function Top(): Frame
      reads this`states, this`statesCount, states
      requires 0 < statesCount <= states.Length
    {
      states[statesCount - 1]
    }

    /** The state in which one case of the main loop's `switch` runs. */
    ghost predicate Ready()
      reads this, states, iternum, captures
    {
      Valid() && statesCount > 0 && WellFormed(program) && Fits(program, Cfg())
    }

    /** The executor changed only by growing or reusing its storage. */
    twostate predicate Storage()
      reads this
    {
      && (states == old(states) || fresh(states))
      && (iternum == old(iternum) || fresh(iternum))
    }

    /** Whether the byte at `off` exists and is inside the ranges (outside them
        for MATCH_CHARSET_INV). */
    method CharsetTest(off: nat, ins: Instr) returns (matched: bool)
      requires IsCharsetOp(ins.op) && InstrFits(program, ins)
      ensures matched == CharsetAccepts(program, str, off, ins)
    {
      if |str| < off + 1 {
        return false;
      }
      matched := Charset.MatchCharset(str[off], program.chars, ins.from, ins.len);
      if ins.op == MatchCharsetInv {
        matched := !matched;
      }
    }

    /** MATCH_CHARSET and MATCH_CHARSET_INV: one byte inside (outside) the ranges
        advances the top frame in place; the end of the subject fails either way. */
    method ExecCharset() returns (failed: bool)
      requires Ready() && IsCharsetOp(program.instrs[Top().instr].op)
      modifies states
      ensures Ready() && Storage() && Iters() == old(Iters()) && Caps() == old(Caps())
      ensures MatchCase(program, str, old(Cfg())) == if failed then Fail(Cfg()) else Next(Cfg())
    {
      ghost var c := Cfg();
      var s := Top();
      var op := program.instrs[s.instr];
      assert InstrFits(program, op);
      var matched := CharsetTest(s.off, op);
      if matched {
        // replace the single-path frame by its successor
        NextInside(program, s.instr);
        states[statesCount - 1] := s.(off := s.off + 1, instr := s.instr + 1);
        assert Frames() == SetLast(c.frames, s.(off := s.off + 1, instr := s.instr + 1));
        assert MatchCase(program, str, c) == Next(Cfg());
      } else {
        assert MatchCase(program, str, c) == Fail(Cfg());
      }
      failed := !matched;
    }

    /** MATCH_STRING: the literal run at the frame's offset advances it in place. */
    method ExecString() returns (failed: bool)
      requires Ready() && program.instrs[Top().instr].op == MatchString
      modifies states
      ensures Ready() && Storage() && Iters() == old(Iters()) && Caps() == old(Caps())
      ensures MatchCase(program, str, old(Cfg())) == if failed then Fail(Cfg()) else Next(Cfg())
    {
      ghost var c := Cfg();
      var s := Top();
      var op := program.instrs[s.instr];
      assert InstrFits(program, op);
      var matched := |str| >= s.off + op.len;
      if matched {
        matched := str[s.off .. s.off + op.len] == program.chars[op.from .. op.from + op.len];
      }
      assert matched == StringAccepts(program, str, s.off, op);
      if matched {
        NextInside(program, s.instr);
        states[statesCount - 1] := s.(off := s.off + op.len, instr := s.instr + 1);
        assert Frames() == SetLast(c.frames, s.(off := s.off + op.len, instr := s.instr + 1));
        assert MatchCase(program, str, c) == Next(Cfg());
      } else {
        assert MatchCase(program, str, c) == Fail(Cfg());
      }
      failed := !matched;
    }

    /** REPEAT_GREEDY: on a first visit count the iteration and try the body once
        more unless at the maximum; once backtracked, drop the loop's counter and
        leave the loop if the minimum was reached. */
    method ExecRepeatGreedy() returns (failed: bool, fault: bool)
      requires Ready() && program.instrs[Top().instr].op == RepeatGreedy
      modifies this`states, this`statesCount, this`statesMem, this`iternumCount, states, iternum
      ensures Ready() && Storage() && Caps() == old(Caps())
      ensures GreedyCase(program, old(Cfg())) ==
        if fault then Halt(Fault)
        else if failed then Fail(Cfg())
        else Next(Cfg())
      ensures fault ==> Cfg() == old(Cfg())
    {
      if Top().backtracked {
        failed := GreedyLeave();
        fault := false;
      } else {
        fault := GreedyEnter();
        failed := false;
      }
    }

    /** REPEAT_GREEDY once backtracked. */
    method GreedyLeave() returns (failed: bool)
      requires Ready() && program.instrs[Top().instr].op == RepeatGreedy && Top().backtracked
      modifies this`states, this`statesCount, this`statesMem, this`iternumCount, states
      ensures Ready() && Storage() && Caps() == old(Caps())
      ensures GreedyCase(program, old(Cfg())) == if failed then Fail(Cfg()) else Next(Cfg())
    {
      ghost var c := Cfg();
      var s := Top();
      var op := program.instrs[s.instr];
      assert InstrFits(program, op);
      ghost var iters' := if c.iters != [] && s.numiters + 1 == Last(c.iters) then DropLast(c.iters) else c.iters;
      if iternumCount > 0 && s.numiters + 1 == iternum[iternumCount - 1] {
        iternumCount := iternumCount - 1;
      }
      assert Iters() == iters';
      if s.numiters < op.from {
        assert Cfg() == c.(iters := iters');
        assert GreedyCase(program, c) == Fail(Cfg());
        return true;
      }
      NextInside(program, s.instr);
      PushState(s.off, s.instr + 1);
      assert Cfg() == Config(c.frames + [Fresh(s.off, s.instr + 1)], iters', c.caps);
      assert GreedyCase(program, c) == Next(Cfg());
      return false;
    }

    /** REPEAT_GREEDY on a first visit. */
    method GreedyEnter() returns (fault: bool)
      requires Ready() && program.instrs[Top().instr].op == RepeatGreedy && !Top().backtracked
      modifies this`states, this`statesCount, this`statesMem, states, iternum
      ensures Ready() && Storage() && Caps() == old(Caps())
      ensures GreedyCase(program, old(Cfg())) == if fault then Halt(Fault) else Next(Cfg())
      ensures fault ==> Cfg() == old(Cfg())
    {
      ghost var c := Cfg();
      var s := Top();
      var op := program.instrs[s.instr];
      assert InstrFits(program, op);
      if iternumCount == 0 {
        return true;
      }
      var n := iternum[iternumCount - 1];
      iternum[iternumCount - 1] := n + 1;
      assert Iters() == SetLast(c.iters, n + 1);
      if n == op.len {
        states[statesCount - 1] := s.(numiters := n, backtracked := true);
        assert Frames() == SetLast(c.frames, s.(numiters := n, backtracked := true));
        assert GreedyCase(program, c) == Next(Cfg());
      } else {
        states[statesCount - 1] := s.(numiters := n);
        assert Frames() == SetLast(c.frames, s.(numiters := n));
        PushState(s.off, op.start);
        assert GreedyCase(program, c) == Next(Cfg());
      }
      return false;
    }

    /** REPEAT_LAZY: on a first visit take the count off the counter stack and try
        to leave the loop; once backtracked, try one more iteration unless at the
        maximum, with a counter for it. */
    method ExecRepeatLazy() returns (failed: bool, fault: bool)
      requires Ready() && program.instrs[Top().instr].op == RepeatLazy
      modifies this`states, this`statesCount, this`statesMem, this`iternum, this`iternumCount, this`iternumMem, states, iternum
      ensures Ready() && Storage() && Caps() == old(Caps())
      ensures LazyCase(program, old(Cfg())) ==
        if fault then Halt(Fault)
        else if failed then Fail(Cfg())
        else Next(Cfg())
      ensures fault ==> Cfg() == old(Cfg())
    {
      if Top().backtracked {
        failed := LazyMore();
        fault := false;
      } else {
        fault := LazyEnter();
        failed := false;
      }
    }

    /** REPEAT_LAZY once backtracked. */
    method LazyMore() returns (failed: bool)
      requires Ready() && program.instrs[Top().instr].op == RepeatLazy && Top().backtracked
      modifies this`states, this`statesCount, this`statesMem, this`iternum, this`iternumCount, this`iternumMem, states, iternum
      ensures Ready() && Storage() && Caps() == old(Caps())
      ensures LazyCase(program, old(Cfg())) == if failed then Fail(Cfg()) else Next(Cfg())
    {
      ghost var c := Cfg();
      var s := Top();
      var op := program.instrs[s.instr];
      assert InstrFits(program, op);
      if s.numiters == op.len {
        return true;
      }
      PushState(s.off, op.start);
      PushIterCnt(s.numiters + 1);
      assert Cfg() == Config(c.frames + [Fresh(s.off, op.start)], c.iters + [s.numiters + 1], c.caps);
      assert LazyCase(program, c) == Next(Cfg());
      return false;
    }

    /** REPEAT_LAZY on a first visit. */
    method LazyEnter() returns (fault: bool)
      requires Ready() && program.instrs[Top().instr].op == RepeatLazy && !Top().backtracked
      modifies this`states, this`statesCount, this`statesMem, this`iternumCount, states
      ensures Ready() && Storage() && Caps() == old(Caps())
      ensures LazyCase(program, old(Cfg())) == if fault then Halt(Fault) else Next(Cfg())
      ensures fault ==> Cfg() == old(Cfg())
    {
      ghost var c := Cfg();
      var s := Top();
      var op := program.instrs[s.instr];
      assert InstrFits(program, op);
      if iternumCount == 0 {
        return true;
      }
      var n := iternum[iternumCount - 1];
      iternumCount := iternumCount - 1;
      ghost var iters' := DropLast(c.iters);
      assert Iters() == iters';
      if n < op.from {
        states[statesCount - 1] := s.(numiters := n, backtracked := true);
        assert Frames() == SetLast(c.frames, s.(numiters := n, backtracked := true));
        assert Cfg() == Config(SetLast(c.frames, s.(numiters := n, backtracked := true)), iters', c.caps);
        assert LazyCase(program, c) == Next(Cfg());
      } else {
        NextInside(program, s.instr);
        states[statesCount - 1] := s.(numiters := n);
        assert Frames() == SetLast(c.frames, s.(numiters := n));
        PushState(s.off, s.instr + 1);
        assert Cfg() == Config(SetLast(c.frames, s.(numiters := n)) + [Fresh(s.off, s.instr + 1)], iters', c.caps);
        assert LazyCase(program, c) == Next(Cfg());
      }
      return false;
    }

    /** JUMP: a fresh zero counter, and the top frame moves to the target in place. */
    method ExecJump()
      requires Ready() && program.instrs[Top().instr].op == Jump
      modifies this`iternum, this`iternumCount, this`iternumMem, states, iternum
      ensures Ready() && Storage() && Caps() == old(Caps())
      ensures JumpCase(program, old(Cfg())) == Next(Cfg())
    {
      var s := Top();
      var op := program.instrs[s.instr];
      assert InstrFits(program, op);
      PushIterCnt(0);
      states[statesCount - 1] := s.(instr := op.start);
    }

    /** BACKTRK_JUMP: push the fall-through path first, the target once backtracked. */
    method ExecBacktrackJump()
      requires Ready() && program.instrs[Top().instr].op == BacktrackJump
      modifies this`states, this`statesCount, this`statesMem, states
      ensures Ready() && Storage() && Iters() == old(Iters()) && Caps() == old(Caps())
      ensures BacktrackJumpCase(program, old(Cfg())) == Next(Cfg())
    {
      var s := Top();
      var op := program.instrs[s.instr];
      assert InstrFits(program, op);
      NextInside(program, s.instr);
      PushState(s.off, if s.backtracked then op.start else s.instr + 1);
    }

    /** CAPTURE_START and CAPTURE_END: mark the frame (there is no other path), keep
        the old boundary in its `numiters`, write the offset, continue in a new frame. */
    method ExecCapture()
      requires Ready() && IsCaptureOp(program.instrs[Top().instr].op)
      modifies this`states, this`statesCount, this`statesMem, states, captures
      ensures Ready() && Storage() && Iters() == old(Iters())
      ensures CaptureCase(program, old(Cfg())) == Next(Cfg())
    {
      ghost var c := Cfg();
      var s := Top();
      var op := program.instrs[s.instr];
      assert InstrFits(program, op);
      NextInside(program, s.instr);
      var k := op.from;
      var side := if op.op == CaptureStart then 0 else 1;
      var g := s.(backtracked := true, numiters := captures[k, side]);
      assert g.numiters == if op.op == CaptureStart then c.caps[k].start else c.caps[k].end;
      states[statesCount - 1] := g;
      assert Frames() == SetLast(c.frames, g);
      SetCapture(k, side, s.off);
      ghost var caps' := c.caps[k := if op.op == CaptureStart then c.caps[k].(start := s.off) else c.caps[k].(end := s.off)];
      assert Caps() == caps';
      PushState(s.off, s.instr + 1);
      ghost var next := Config(SetLast(c.frames, g) + [Fresh(s.off, s.instr + 1)], c.iters, caps');
      assert CaptureCase(program, c) == Next(next);
      assert Cfg() == next;
    }

    /** The `switch` on the top frame's opcode. `failed` means the case jumps to
        `did_not_match`; `stop` that the function returns `v` from inside it. */
    method ExecCase() returns (failed: bool, stop: bool, v: Verdict)
      requires Ready()
      modifies this, states, iternum, captures
      ensures Valid() && Storage() && Fits(program, Cfg())
      ensures !stop ==> statesCount > 0
      ensures Dispatch(program, str, old(Cfg())) ==
        if stop then Halt(v)
        else if failed then Fail(Cfg())
        else Next(Cfg())
      ensures stop ==> Cfg() == old(Cfg())
    {
      var op := program.instrs[Top().instr].op;
      failed, stop, v := false, false, Matched;
      match op {
        case MatchDone =>
          stop := true;
        case MatchCharset | MatchCharsetInv =>
          failed := ExecCharset();
        case MatchString =>
          failed := ExecString();
        case RepeatGreedy =>
          failed, stop := ExecRepeatGreedy();
          v := Fault;
        case RepeatLazy =>
          failed, stop := ExecRepeatLazy();
          v := Fault;
        case Jump =>
          ExecJump();
        case BacktrackJump =>
          ExecBacktrackJump();
        case CaptureStart | CaptureEnd =>
          ExecCapture();
      }
    }

    /** One turn of the main loop: the `switch`, then `did_not_match` when the case
        failed. `rest` is the number of turns left after this one. */
    method ExecTurn(ghost rest: nat) returns (stop: bool, v: Verdict)
      requires Ready()
      modifies this, states, iternum, captures
      ensures Valid() && Storage() && Fits(program, Cfg())
      ensures !stop ==> statesCount > 0
      ensures Step(program, str, old(Cfg())) == if stop then Stopped(v, Cfg()) else Running(Cfg())
      ensures stop ==> Run(program, str, old(Cfg()), rest + 1) == Result(v, Cfg())
      ensures !stop ==> Run(program, str, old(Cfg()), rest + 1) == Run(program, str, Cfg(), rest)
    {
      var failed;
      failed, stop, v := ExecCase();
      if failed && !stop {
        var alive := Backtrack();
        if !alive {
          return true, NoMatch;
        }
      }
    }

    /** The main loop, `while (states_count)`, for at most `fuel` turns. */
    method ExecLoop(fuel: nat) returns (v: Verdict)
      requires Ready()
      modifies this, states, iternum, captures
      ensures Valid() && Storage()
      ensures Result(v, Cfg()) == Run(program, str, old(Cfg()), fuel)
    {
      ghost var cur := Cfg();
      ghost var goal := Run(program, str, cur, fuel);
      var budget := fuel;
      // the stack is never empty at the top of the loop: the turn that empties
      // it is the one that returns
      while budget > 0
        invariant Ready() && Storage() && cur == Cfg() && cur.frames != [] && Fits(program, cur)
        invariant Run(program, str, cur, budget) == goal
        decreases budget
      {
        budget := budget - 1;
        var stop;
        stop, v := ExecTurn(budget);
        if stop {
          return;
        }
        cur := Cfg();
      }
      return OutOfFuel;
    }

    /** `rxExecDo`: runs the program from instruction 0 at subject offset 0 for at
        most `fuel` turns of its main loop. Matched is the source's 1 and NoMatch
        its 0; a failed run leaves no frames and the capture table as it was. */
    method ExecDo(fuel: nat) returns (v: Verdict)
      requires Valid() && statesCount == 0 && WellFormed(program)
      modifies this, states, iternum, captures
      ensures Valid()
      ensures Result(v, Cfg()) == Run(program, str, Start(old(Iters()), old(Caps())), fuel)
      ensures v == NoMatch ==> Frames() == [] && Caps() == old(Caps())
      ensures v == Matched ==> Frames() != [] && program.instrs[Last(Frames()).instr].op == MatchDone
    {
      MachineProps.FailedRunRestoresCaptures(program, str, Iters(), Caps(), fuel);
      ghost var c0 := Start(Iters(), Caps());
      PushState(0, 0);
      assert Cfg() == c0;
      v := ExecLoop(fuel);
    }
  }
}
