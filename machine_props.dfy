/** What every state reachable by the executor looks like, and what follows from it:
    the capture table is always recoverable from the frames' undo log, so a failed
    run leaves the captures as they were before the run. */
module MachineProps {
  import opened Bytecode
  import opened Machine

  /** Opcodes of frames that can still take another path when backtracked into. */
  predicate Resumable(op: Opcode) {
    op == RepeatGreedy || op == RepeatLazy || op == BacktrackJump
  }

  /** A frame below the top: a branching op, or a capture op that has already
      written its boundary (and so is marked and holds the old value). */
  predicate Pending(p: Program, f: Frame)
    requires f.instr < |p.instrs|
  {
    var op := p.instrs[f.instr].op;
    Resumable(op) || (IsCaptureOp(op) && f.backtracked)
  }

  predicate AllPending(p: Program, frames: seq<Frame>)
    requires forall i :: 0 <= i < |frames| ==> frames[i].instr < |p.instrs|
  {
    forall i :: 0 <= i < |frames| ==> Pending(p, frames[i])
  }

  /** The shape of the frame stack: every frame below the top is pending, and a
      marked top frame is a branching op about to take its other path. */
  predicate Shaped(p: Program, frames: seq<Frame>)
    requires forall i :: 0 <= i < |frames| ==> frames[i].instr < |p.instrs|
  {
    frames != [] ==>
      && AllPending(p, DropLast(frames))
      && (Last(frames).backtracked ==> Resumable(p.instrs[Last(frames).instr].op))
  }

  /** The capture table obtained by undoing, from the top of the stack down, every
      capture write recorded in the frames. */
  function Restore(p: Program, frames: seq<Frame>, caps: seq<Capture>): (r: seq<Capture>)
    requires WellFormed(p) && |caps| == MaxCaptures
    requires forall i :: 0 <= i < |frames| ==> frames[i].instr < |p.instrs|
    ensures |r| == MaxCaptures
    decreases |frames|
  {
    if frames == [] then caps
    else Restore(p, DropLast(frames), Undo(p, Last(frames), caps))
  }

  /** The executor invariant, relative to the capture table `base` the run started with. */
  predicate Inv(p: Program, c: Config, base: seq<Capture>) {
    && Fits(p, c)
    && Shaped(p, c.frames)
    && Restore(p, c.frames, c.caps) == base
  }

  lemma StartInv(p: Program, iters: seq<nat>, caps: seq<Capture>)
    requires WellFormed(p) && |caps| == MaxCaptures
    ensures Inv(p, Start(iters, caps), caps)
  {
    assert Restore(p, [Frame(0, false, 0, 0)], caps) == Restore(p, [], caps);
  }

  /** Pushing a frame that holds no undo entry leaves `Restore` alone. */
  lemma RestorePush(p: Program, frames: seq<Frame>, x: Frame, caps: seq<Capture>)
    requires WellFormed(p) && |caps| == MaxCaptures && x.instr < |p.instrs|
    requires forall i :: 0 <= i < |frames| ==> frames[i].instr < |p.instrs|
    ensures Restore(p, frames + [x], caps) == Restore(p, frames, Undo(p, x, caps))
  {
    assert DropLast(frames + [x]) == frames;
  }

  /** The pop-and-undo loop replays exactly the undo entries of the frames it pops. */
  lemma {:induction false} UnwindRestores(p: Program, frames: seq<Frame>, iters: seq<nat>, caps: seq<Capture>)
    requires Fits(p, Config(frames, iters, caps)) && AllPending(p, frames)
    ensures var u := Unwind(p, frames, iters, caps);
      && AllPending(p, u.frames)
      && Restore(p, u.frames, u.caps) == Restore(p, frames, caps)
    decreases |frames|
  {
    if frames != [] && Last(frames).backtracked {
      var g := Last(frames);
      var ins := p.instrs[g.instr];
      var iters' :=
        if ins.op == RepeatLazy && iters != [] && g.numiters + 1 == Last(iters) then DropLast(iters)
        else iters;
      UnwindRestores(p, DropLast(frames), iters', Undo(p, g, caps));
    }
  }

  /** Backtracking keeps the invariant, and when it runs out of frames the capture
      table is back to `base`. */
  lemma BacktrackKeeps(p: Program, c: Config, base: seq<Capture>)
    requires Inv(p, c, base) && c.frames != []
    ensures var o := Backtrack(p, c);
      && (o.Running? ==> Inv(p, o.cfg, base))
      && (o.Stopped? ==> o.cfg.frames == [] && o.cfg.caps == base)
  {
    var rest := DropLast(c.frames);
    assert c.frames == rest + [Last(c.frames)];
    RestorePush(p, rest, Last(c.frames), c.caps);
    assert Restore(p, rest, c.caps) == base;
    assert AllPending(p, rest);
    UnwindRestores(p, rest, c.iters, c.caps);
    var u := Unwind(p, rest, c.iters, c.caps);
    assert Restore(p, u.frames, u.caps) == base;
    if u.frames != [] {
      MarkTop(p, u, base);
    }
  }

  /** Marking the top of an unwound stack keeps the invariant. */
  lemma MarkTop(p: Program, u: Config, base: seq<Capture>)
    requires Fits(p, u) && u.frames != [] && AllPending(p, u.frames) && !Last(u.frames).backtracked
    requires Restore(p, u.frames, u.caps) == base
    ensures Inv(p, u.(frames := SetLast(u.frames, Last(u.frames).(backtracked := true))), base)
  {
    var t := Last(u.frames);
    var t' := t.(backtracked := true);
    assert Pending(p, u.frames[|u.frames| - 1]);
    var below := DropLast(u.frames);
    assert u.frames == below + [t];
    var marked := SetLast(u.frames, t');
    assert marked == below + [t'];
    assert DropLast(marked) == below;
    RestorePush(p, below, t, u.caps);
    RestorePush(p, below, t', u.caps);
    assert AllPending(p, below) by {
      forall i | 0 <= i < |below| ensures Pending(p, below[i]) {
        assert below[i] == u.frames[i];
      }
    }
  }

  /** Under the invariant the top frame holds no undo entry. */
  lemma TopHoldsNoUndo(p: Program, c: Config, base: seq<Capture>)
    requires Inv(p, c, base) && c.frames != []
    ensures Undo(p, Last(c.frames), c.caps) == c.caps
  {
  }

  /** Replacing the top frame by one with no undo entry keeps the invariant. */
  lemma SetTopKeeps(p: Program, c: Config, x: Frame, base: seq<Capture>)
    requires Inv(p, c, base) && c.frames != [] && x.instr < |p.instrs|
    requires Undo(p, x, c.caps) == c.caps
    requires x.backtracked ==> Resumable(p.instrs[x.instr].op)
    ensures Inv(p, c.(frames := SetLast(c.frames, x)), base)
  {
    TopHoldsNoUndo(p, c, base);
    var below := DropLast(c.frames);
    assert c.frames == below + [Last(c.frames)];
    var frames' := SetLast(c.frames, x);
    assert frames' == below + [x];
    assert DropLast(frames') == below;
    RestorePush(p, below, Last(c.frames), c.caps);
    RestorePush(p, below, x, c.caps);
  }

  /** Pushing a fresh frame on top of a pending frame keeps the invariant. */
  lemma PushKeeps(p: Program, c: Config, off: nat, target: nat, base: seq<Capture>)
    requires Fits(p, c) && c.frames != [] && target < |p.instrs|
    requires Restore(p, c.frames, c.caps) == base
    requires AllPending(p, DropLast(c.frames)) && Pending(p, Last(c.frames))
    ensures Inv(p, c.(frames := c.frames + [Fresh(off, target)]), base)
  {
    var frames' := c.frames + [Fresh(off, target)];
    assert DropLast(frames') == c.frames;
    RestorePush(p, c.frames, Fresh(off, target), c.caps);
    assert AllPending(p, c.frames) by {
      forall i | 0 <= i < |c.frames| ensures Pending(p, c.frames[i]) {
        if i < |c.frames| - 1 {
          assert c.frames[i] == DropLast(c.frames)[i];
        }
      }
    }
  }

  /** What the invariant promises about one case of the `switch`: it continues
      from, or fails in, a state with the invariant, returns Matched only on
      MATCH_DONE, and Fault only with an empty counter stack. */
  ghost predicate MoveKeeps(p: Program, c: Config, m: Move, base: seq<Capture>)
    requires Fits(p, c) && c.frames != []
  {
    match m
    case Next(next) => Inv(p, next, base)
    case Fail(at) => Inv(p, at, base) && at.frames != []
    case Halt(v) =>
      && v != NoMatch
      && (v == Matched ==> p.instrs[Last(c.frames).instr].op == MatchDone)
      && (v == Fault ==> c.iters == [])
  }

  lemma MatchCaseKeeps(p: Program, s: seq<Char>, c: Config, base: seq<Capture>)
    requires Inv(p, c, base) && c.frames != [] && IsMatchOp(TopOp(p, c))
    ensures MoveKeeps(p, c, MatchCase(p, s, c), base)
  {
    var f := Last(c.frames);
    var ins := p.instrs[f.instr];
    assert InstrFits(p, ins);
    if MatchCase(p, s, c).Next? {
      NextInside(p, f.instr);
      var len := if ins.op == MatchString then ins.len else 1;
      SetTopKeeps(p, c, f.(off := f.off + len, instr := f.instr + 1), base);
    }
  }

  lemma GreedyCaseKeeps(p: Program, c: Config, base: seq<Capture>)
    requires Inv(p, c, base) && c.frames != [] && TopOp(p, c) == RepeatGreedy
    ensures MoveKeeps(p, c, GreedyCase(p, c), base)
  {
    var f := Last(c.frames);
    var ins := p.instrs[f.instr];
    assert InstrFits(p, ins);
    if f.backtracked {
      var iters' := if c.iters != [] && f.numiters + 1 == Last(c.iters) then DropLast(c.iters) else c.iters;
      if f.numiters >= ins.from {
        NextInside(p, f.instr);
        PushKeeps(p, c.(iters := iters'), f.off, f.instr + 1, base);
      }
    } else if c.iters != [] {
      var n := Last(c.iters);
      if n == ins.len {
        SetTopKeeps(p, c, f.(numiters := n, backtracked := true), base);
      } else {
        var g := f.(numiters := n);
        SetTopKeeps(p, c, g, base);
        var c' := c.(frames := SetLast(c.frames, g));
        PushKeeps(p, c', f.off, ins.start, base);
        assert GreedyCase(p, c) == Next(Config(c'.frames + [Fresh(f.off, ins.start)], SetLast(c.iters, n + 1), c.caps));
      }
    }
  }

  lemma LazyCaseKeeps(p: Program, c: Config, base: seq<Capture>)
    requires Inv(p, c, base) && c.frames != [] && TopOp(p, c) == RepeatLazy
    ensures MoveKeeps(p, c, LazyCase(p, c), base)
  {
    var f := Last(c.frames);
    var ins := p.instrs[f.instr];
    assert InstrFits(p, ins);
    if f.backtracked {
      if f.numiters != ins.len {
        PushKeeps(p, c, f.off, ins.start, base);
      }
    } else if c.iters != [] {
      var n := Last(c.iters);
      if n < ins.from {
        SetTopKeeps(p, c, f.(numiters := n, backtracked := true), base);
      } else {
        var g := f.(numiters := n);
        NextInside(p, f.instr);
        SetTopKeeps(p, c, g, base);
        var c' := c.(frames := SetLast(c.frames, g));
        PushKeeps(p, c', f.off, f.instr + 1, base);
        assert LazyCase(p, c) == Next(Config(c'.frames + [Fresh(f.off, f.instr + 1)], DropLast(c.iters), c.caps));
      }
    }
  }

  /** Replacing the top frame and the table together keeps `Restore` when the
      new top undoes to what the old top undid to. */
  lemma ReplaceTopRestores(p: Program, frames: seq<Frame>, g: Frame, caps: seq<Capture>, caps': seq<Capture>)
    requires WellFormed(p) && |caps| == MaxCaptures && |caps'| == MaxCaptures
    requires frames != [] && g.instr < |p.instrs|
    requires forall i :: 0 <= i < |frames| ==> frames[i].instr < |p.instrs|
    requires Undo(p, g, caps') == Undo(p, Last(frames), caps)
    ensures Restore(p, SetLast(frames, g), caps') == Restore(p, frames, caps)
  {
    var below := DropLast(frames);
    assert frames == below + [Last(frames)];
    assert SetLast(frames, g) == below + [g];
    RestorePush(p, below, g, caps');
    RestorePush(p, below, Last(frames), caps);
  }

  lemma CaptureCaseKeeps(p: Program, c: Config, base: seq<Capture>)
    requires Inv(p, c, base) && c.frames != [] && IsCaptureOp(TopOp(p, c))
    ensures MoveKeeps(p, c, CaptureCase(p, c), base)
  {
    var f := Last(c.frames);
    var ins := p.instrs[f.instr];
    assert InstrFits(p, ins);
    NextInside(p, f.instr);
    var k := ins.from;
    var g := f.(backtracked := true, numiters := if ins.op == CaptureStart then c.caps[k].start else c.caps[k].end);
    var caps' := c.caps[k := if ins.op == CaptureStart then c.caps[k].(start := f.off) else c.caps[k].(end := f.off)];
    var c' := Config(SetLast(c.frames, g), c.iters, caps');
    assert CaptureCase(p, c) == Next(c'.(frames := c'.frames + [Fresh(f.off, f.instr + 1)]));
    TopHoldsNoUndo(p, c, base);
    assert Undo(p, g, caps') == c.caps;
    ReplaceTopRestores(p, c.frames, g, c.caps, caps');
    assert DropLast(c'.frames) == DropLast(c.frames);
    PushKeeps(p, c', f.off, f.instr + 1, base);
  }

  /** Every case of the `switch` keeps the invariant. */
  lemma DispatchKeeps(p: Program, s: seq<Char>, c: Config, base: seq<Capture>)
    requires Inv(p, c, base) && c.frames != []
    ensures MoveKeeps(p, c, Dispatch(p, s, c), base)
  {
    var f := Last(c.frames);
    var ins := p.instrs[f.instr];
    assert InstrFits(p, ins);
    match ins.op
    case MatchDone =>
    case MatchCharset => MatchCaseKeeps(p, s, c, base);
    case MatchCharsetInv => MatchCaseKeeps(p, s, c, base);
    case MatchString => MatchCaseKeeps(p, s, c, base);
    case RepeatGreedy => GreedyCaseKeeps(p, c, base);
    case RepeatLazy => LazyCaseKeeps(p, c, base);
    case Jump =>
      SetTopKeeps(p, c, f.(instr := ins.start), base);
    case BacktrackJump =>
      NextInside(p, f.instr);
      PushKeeps(p, c, f.off, if f.backtracked then ins.start else f.instr + 1, base);
    case CaptureStart => CaptureCaseKeeps(p, c, base);
    case CaptureEnd => CaptureCaseKeeps(p, c, base);
  }

  /** Every turn of the main loop keeps the invariant; a turn that fails the run
      leaves no frames and the capture table it started from. */
  lemma StepKeeps(p: Program, s: seq<Char>, c: Config, base: seq<Capture>)
    requires Inv(p, c, base) && c.frames != []
    ensures var o := Step(p, s, c);
      && (o.Running? ==> Inv(p, o.cfg, base))
      && (o.Stopped? && o.verdict == NoMatch ==> o.cfg.frames == [] && o.cfg.caps == base)
      && (o.Stopped? && o.verdict != NoMatch ==> o.cfg == c)
      && (o.Stopped? && o.verdict == Matched ==> p.instrs[Last(c.frames).instr].op == MatchDone)
      && (o.Stopped? && o.verdict == Fault ==> c.iters == [])
  {
    DispatchKeeps(p, s, c, base);
    match Dispatch(p, s, c)
    case Next(_) =>
    case Fail(at) => BacktrackKeeps(p, at, base);
    case Halt(_) =>
  }

  /** What one turn does to a state satisfying `P`: the next state satisfies `P`
      again, or the loop stops with a result satisfying `Q`. */
  ghost predicate Leads(p: Program, s: seq<Char>, d: Config, P: Config -> bool, Q: Result -> bool)
    requires Fits(p, d) && d.frames != []
  {
    match Step(p, s, d)
    case Running(next) => P(next)
    case Stopped(v, last) => Q(Result(v, last))
  }

  /** Induction over the main loop: a property every turn carries forward, and
      which gives `Q` when the budget runs out, gives `Q` of the whole run. */
  lemma {:induction false} RunInduction(p: Program, s: seq<Char>, c: Config, fuel: nat, P: Config -> bool, Q: Result -> bool)
    requires Fits(p, c) && c.frames != [] && P(c)
    requires forall d :: Fits(p, d) && d.frames != [] && P(d) ==> Q(Result(OutOfFuel, d)) && Leads(p, s, d, P, Q)
    ensures Q(Run(p, s, c, fuel))
    decreases fuel
  {
    if fuel > 0 {
      assert Leads(p, s, c, P, Q);
      match Step(p, s, c)
      case Running(next) =>
        RunInduction(p, s, next, fuel - 1, P, Q);
      case Stopped(_, _) =>
    }
  }

  /** How a run that started from a state with the invariant ends. */
  ghost predicate Ends(p: Program, r: Result, base: seq<Capture>) {
    && (r.verdict == NoMatch ==> r.final.frames == [] && |r.final.caps| == MaxCaptures && r.final.caps == base)
    && (r.verdict != NoMatch ==> Inv(p, r.final, base) && r.final.frames != [])
    && (r.verdict == Matched ==> p.instrs[Last(r.final.frames).instr].op == MatchDone)
    && (r.verdict == Fault ==> r.final.iters == [])
  }

  /** A whole run keeps the invariant: it reports a match only standing on
      MATCH_DONE, and a failed run ends with an empty frame stack and the capture
      table it started with. */
  lemma RunKeeps(p: Program, s: seq<Char>, c: Config, base: seq<Capture>, fuel: nat)
    requires Inv(p, c, base) && c.frames != []
    ensures Ends(p, Run(p, s, c, fuel), base)
  {
    var P := d => Inv(p, d, base);
    var Q := r => Ends(p, r, base);
    forall d | Fits(p, d) && d.frames != [] && P(d)
      ensures Q(Result(OutOfFuel, d)) && Leads(p, s, d, P, Q)
    {
      StepKeeps(p, s, d, base);
    }
    RunInduction(p, s, c, fuel, P, Q);
  }

  /** `rxExecDo` from its initial frame: a failed run has popped every frame and put
      every capture boundary back to what it was before the run (all unset after
      `rxInitExecute`); a successful run stops on MATCH_DONE. */
  lemma FailedRunRestoresCaptures(p: Program, s: seq<Char>, iters: seq<nat>, caps: seq<Capture>, fuel: nat)
    requires WellFormed(p) && |caps| == MaxCaptures
    ensures var r := Run(p, s, Start(iters, caps), fuel);
      && (r.verdict == NoMatch ==> r.final.frames == [] && r.final.caps == caps)
      && (r.verdict == Matched ==> r.final.frames != [] && p.instrs[Last(r.final.frames).instr].op == MatchDone)
  {
    StartInv(p, iters, caps);
    RunKeeps(p, s, Start(iters, caps), caps, fuel);
  }
}
