/** The backtracking executor of `rxExecDo` as a state machine on values: one
    `Step` is one turn of the source's `while (states_count)` loop, including the
    pop-and-undo loop after a failed match, and `Run` iterates `Step` on a budget. */
module Machine {
  import opened Bytecode
  import opened Charset

  /** `rxState`: subject offset, the "backtracked" flag, instruction index, and the
      `numiters` word (iteration count for repeats, old boundary for captures). */
  datatype Frame = Frame(off: nat, backtracked: bool, instr: nat, numiters: nat)

  /** One row of the capture table: `captures[k][0]` and `captures[k][1]`. */
  datatype Capture = Capture(start: nat, end: nat)

  /** The executor's mutable state: frame stack and iteration-counter stack (the
      last element is the top) and the capture table. */
  datatype Config = Config(frames: seq<Frame>, iters: seq<nat>, caps: seq<Capture>)

  /** Matched and NoMatch are the source's return values 1 and 0. Fault stands for
      reading the top of an empty iteration-counter stack, which the source does
      without a check; OutOfFuel means the step budget ran out first. */
  datatype Verdict = Matched | NoMatch | Fault | OutOfFuel

  datatype Outcome = Running(cfg: Config) | Stopped(verdict: Verdict, cfg: Config)

  datatype Result = Result(verdict: Verdict, final: Config)

  /** An unset capture row. */
  const NullCapture := Capture(NullOffset, NullOffset)

  /** The capture table as `rxInitExecute` leaves it. */
  const NullCaptures: seq<Capture> :=
    [NullCapture, NullCapture, NullCapture, NullCapture, NullCapture,
     NullCapture, NullCapture, NullCapture, NullCapture, NullCapture]

  /** The state `rxExecDo` starts from: one frame at offset 0, instruction 0. */
  function Start(iters: seq<nat>, caps: seq<Capture>): Config {
    Config([Frame(0, false, 0, 0)], iters, caps)
  }

  function Last<T>(s: seq<T>): T
    requires s != []
  {
    s[|s| - 1]
  }

  function DropLast<T>(s: seq<T>): seq<T>
    requires s != []
  {
    s[..|s| - 1]
  }

  function SetLast<T>(s: seq<T>, x: T): seq<T>
    requires s != []
  {
    s[|s| - 1 := x]
  }

  /** The frame pushed by `rxPushState`. */
  function Fresh(off: nat, instr: nat): Frame {
    Frame(off, false, instr, 0)
  }

  /** A state the executor can step from without indexing out of bounds. */
  predicate Fits(p: Program, c: Config) {
    && WellFormed(p)
    && |c.caps| == MaxCaptures
    && forall i :: 0 <= i < |c.frames| ==> c.frames[i].instr < |p.instrs|
  }

  /** Undoing the capture write a backtracked CAPTURE_START/END frame made: the
      boundary goes back to the value saved in its `numiters`. */
  function Undo(p: Program, g: Frame, caps: seq<Capture>): (r: seq<Capture>)
    requires WellFormed(p) && g.instr < |p.instrs| && |caps| == MaxCaptures
    ensures |r| == MaxCaptures
  {
    var ins := p.instrs[g.instr];
    if !g.backtracked then caps
    else if ins.op == CaptureStart then caps[ins.from := caps[ins.from].(start := g.numiters)]
    else if ins.op == CaptureEnd then caps[ins.from := caps[ins.from].(end := g.numiters)]
    else caps
  }

  /** The pop-and-undo loop: pop every frame already marked backtracked, restoring
      the capture boundary each capture frame overwrote and dropping the counter a
      backtracked lazy repeat pushed. */
  function Unwind(p: Program, frames: seq<Frame>, iters: seq<nat>, caps: seq<Capture>): (r: Config)
    requires Fits(p, Config(frames, iters, caps))
    ensures Fits(p, r) && |r.frames| <= |frames| && r.frames == frames[..|r.frames|]
    ensures r.frames != [] ==> !Last(r.frames).backtracked
    decreases |frames|
  {
    if frames != [] && Last(frames).backtracked then
      var g := Last(frames);
      var ins := p.instrs[g.instr];
      var iters' :=
        if ins.op == RepeatLazy && iters != [] && g.numiters + 1 == Last(iters) then DropLast(iters)
        else iters;
      Unwind(p, DropLast(frames), iters', Undo(p, g, caps))
    else
      Config(frames, iters, caps)
  }

  /** `did_not_match`: drop the failed top frame, unwind, and either fail (empty
      stack) or mark the first frame left so that its other path is taken next. */
  function Backtrack(p: Program, c: Config): (o: Outcome)
    requires Fits(p, c) && c.frames != []
    ensures Fits(p, o.cfg)
    ensures o.Running? ==> o.cfg.frames != [] && Last(o.cfg.frames).backtracked
    ensures o.Stopped? ==> o.verdict == NoMatch && o.cfg.frames == []
  {
    var u := Unwind(p, DropLast(c.frames), c.iters, c.caps);
    if u.frames == [] then Stopped(NoMatch, u)
    else Running(u.(frames := SetLast(u.frames, Last(u.frames).(backtracked := true))))
  }

  /** Whether the byte at `off` is accepted by the charset instruction `ins`. */
  predicate CharsetAccepts(p: Program, s: seq<Char>, off: nat, ins: Instr)
    requires InstrFits(p, ins) && IsCharsetOp(ins.op)
  {
    off + 1 <= |s| && (InCharset(s[off], p.chars[ins.from .. ins.from + ins.len]) != (ins.op == MatchCharsetInv))
  }

  /** Whether the literal run of the string instruction `ins` occurs at `off`. */
  predicate StringAccepts(p: Program, s: seq<Char>, off: nat, ins: Instr)
    requires InstrFits(p, ins) && ins.op == MatchString
  {
    off + ins.len <= |s| && s[off .. off + ins.len] == p.chars[ins.from .. ins.from + ins.len]
  }

  /** What one case of the `switch` does: continue from a new state, jump to
      `did_not_match` from a state, or return a verdict. */
  datatype Move = Next(next: Config) | Fail(at: Config) | Halt(verdict: Verdict)

  /** The opcode of the top frame's instruction. */
  function TopOp(p: Program, c: Config): Opcode
    requires Fits(p, c) && c.frames != []
  {
    p.instrs[Last(c.frames).instr].op
  }

  /** MATCH_CHARSET, MATCH_CHARSET_INV and MATCH_STRING: on success the top frame
      advances in place past what it matched (no other path to remember). */
  function MatchCase(p: Program, s: seq<Char>, c: Config): (m: Move)
    requires Fits(p, c) && c.frames != [] && IsMatchOp(TopOp(p, c))
    ensures m.Next? ==> Fits(p, m.next) && m.next.frames != []
    ensures m.Fail? ==> m.at == c
    ensures !m.Halt?
  {
    var f := Last(c.frames);
    var ins := p.instrs[f.instr];
    assert InstrFits(p, ins);
    var accepted := if ins.op == MatchString then StringAccepts(p, s, f.off, ins) else CharsetAccepts(p, s, f.off, ins);
    var len := if ins.op == MatchString then ins.len else 1;
    if accepted then Next(c.(frames := SetLast(c.frames, f.(off := f.off + len, instr := f.instr + 1))))
    else Fail(c)
  }

  /** REPEAT_GREEDY. */
  function GreedyCase(p: Program, c: Config): (m: Move)
    requires Fits(p, c) && c.frames != [] && TopOp(p, c) == RepeatGreedy
    ensures m.Next? ==> Fits(p, m.next) && m.next.frames != []
    ensures m.Fail? ==> m.at.frames == c.frames && m.at.caps == c.caps
    ensures m.Halt? ==> m.verdict == Fault && c.iters == []
  {
    var f := Last(c.frames);
    var ins := p.instrs[f.instr];
    assert InstrFits(p, ins);
    if f.backtracked then
      // the body failed further on: drop this loop's counter if it is still on
      // top, then leave the loop if enough iterations were made
      var iters' := if c.iters != [] && f.numiters + 1 == Last(c.iters) then DropLast(c.iters) else c.iters;
      if f.numiters < ins.from then Fail(c.(iters := iters'))
      else Next(Config(c.frames + [Fresh(f.off, f.instr + 1)], iters', c.caps))
    else if c.iters == [] then
      Halt(Fault)
    else
      // count this visit and try one more iteration unless the maximum is reached
      var n := Last(c.iters);
      var iters' := SetLast(c.iters, n + 1);
      if n == ins.len then
        Next(Config(SetLast(c.frames, f.(numiters := n, backtracked := true)), iters', c.caps))
      else
        Next(Config(SetLast(c.frames, f.(numiters := n)) + [Fresh(f.off, ins.start)], iters', c.caps))
  }

  /** REPEAT_LAZY. */
  function LazyCase(p: Program, c: Config): (m: Move)
    requires Fits(p, c) && c.frames != [] && TopOp(p, c) == RepeatLazy
    ensures m.Next? ==> Fits(p, m.next) && m.next.frames != []
    ensures m.Fail? ==> m.at == c
    ensures m.Halt? ==> m.verdict == Fault && c.iters == []
  {
    var f := Last(c.frames);
    var ins := p.instrs[f.instr];
    assert InstrFits(p, ins);
    if f.backtracked then
      // the continuation failed: try one more iteration unless at the maximum
      if f.numiters == ins.len then Fail(c)
      else Next(Config(c.frames + [Fresh(f.off, ins.start)], c.iters + [f.numiters + 1], c.caps))
    else if c.iters == [] then
      Halt(Fault)
    else
      // take the count off the counter stack and leave the loop if allowed
      var n := Last(c.iters);
      var iters' := DropLast(c.iters);
      if n < ins.from then
        Next(Config(SetLast(c.frames, f.(numiters := n, backtracked := true)), iters', c.caps))
      else
        Next(Config(SetLast(c.frames, f.(numiters := n)) + [Fresh(f.off, f.instr + 1)], iters', c.caps))
  }

  /** JUMP: a zero counter is pushed and the top frame moves to the target. */
  function JumpCase(p: Program, c: Config): (m: Move)
    requires Fits(p, c) && c.frames != [] && TopOp(p, c) == Jump
    ensures m.Next? && Fits(p, m.next) && m.next.frames != []
  {
    var f := Last(c.frames);
    var ins := p.instrs[f.instr];
    assert InstrFits(p, ins);
    Next(Config(SetLast(c.frames, f.(instr := ins.start)), c.iters + [0], c.caps))
  }

  /** BACKTRK_JUMP: the fall-through path first, the target once backtracked into. */
  function BacktrackJumpCase(p: Program, c: Config): (m: Move)
    requires Fits(p, c) && c.frames != [] && TopOp(p, c) == BacktrackJump
    ensures m.Next? && Fits(p, m.next) && m.next.frames != []
  {
    var f := Last(c.frames);
    var ins := p.instrs[f.instr];
    assert InstrFits(p, ins);
    var target := if f.backtracked then ins.start else f.instr + 1;
    Next(c.(frames := c.frames + [Fresh(f.off, target)]))
  }

  /** CAPTURE_START and CAPTURE_END: the frame is marked and keeps the boundary it
      overwrites, and execution goes on in a new frame. */
  function CaptureCase(p: Program, c: Config): (m: Move)
    requires Fits(p, c) && c.frames != [] && IsCaptureOp(TopOp(p, c))
    ensures m.Next? && Fits(p, m.next) && m.next.frames != []
  {
    var f := Last(c.frames);
    var ins := p.instrs[f.instr];
    assert InstrFits(p, ins);
    var k := ins.from;
    var g := f.(backtracked := true, numiters := if ins.op == CaptureStart then c.caps[k].start else c.caps[k].end);
    var caps' := c.caps[k := if ins.op == CaptureStart then c.caps[k].(start := f.off) else c.caps[k].(end := f.off)];
    Next(Config(SetLast(c.frames, g) + [Fresh(f.off, f.instr + 1)], c.iters, caps'))
  }

  /** The `switch` on the top frame's opcode. */
  function Dispatch(p: Program, s: seq<Char>, c: Config): (m: Move)
    requires Fits(p, c) && c.frames != []
    ensures m.Next? ==> Fits(p, m.next) && m.next.frames != []
    ensures m.Fail? ==> Fits(p, m.at) && m.at.frames != []
  {
    match TopOp(p, c)
    case MatchDone => Halt(Matched)
    case MatchCharset => MatchCase(p, s, c)
    case MatchCharsetInv => MatchCase(p, s, c)
    case MatchString => MatchCase(p, s, c)
    case RepeatGreedy => GreedyCase(p, c)
    case RepeatLazy => LazyCase(p, c)
    case Jump => JumpCase(p, c)
    case BacktrackJump => BacktrackJumpCase(p, c)
    case CaptureStart => CaptureCase(p, c)
    case CaptureEnd => CaptureCase(p, c)
  }

  /** One turn of the executor's main loop: the `switch`, then `did_not_match`
      when the case failed. */
  function Step(p: Program, s: seq<Char>, c: Config): (o: Outcome)
    requires Fits(p, c) && c.frames != []
    ensures Fits(p, o.cfg)
    ensures o.Running? ==> o.cfg.frames != []
  {
    match Dispatch(p, s, c)
    case Next(next) => Running(next)
    case Fail(at) => Backtrack(p, at)
    case Halt(v) => Stopped(v, c)
  }

  /** At most `fuel` turns of the main loop. */
  function Run(p: Program, s: seq<Char>, c: Config, fuel: nat): (r: Result)
    requires Fits(p, c) && c.frames != []
    ensures Fits(p, r.final)
    ensures r.verdict == NoMatch <==> r.final.frames == []
    decreases fuel
  {
    if fuel == 0 then Result(OutOfFuel, c)
    else
      match Step(p, s, c)
      case Stopped(v, last) => Result(v, last)
      case Running(next) => Run(p, s, next, fuel - 1)
  }
}
