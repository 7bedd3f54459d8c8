# The sgregex v2 bytecode executor, in Dafny

This project models the backtracking virtual machine of `v2/regex.c`: the executor
that runs a compiled regular-expression program (`rxProgram`: ten opcodes over an
instruction array and a character buffer) against a subject string. It keeps an
explicit stack of `rxState` frames, a stack of iteration counters and a ten-row
capture table. `rxExecDo` returns 1 when it reaches MATCH_DONE, which makes it an
anchored prefix match from offset 0. It returns 0 once backtracking has popped
every frame.

The model has two levels.

- `Machine` is the executor as a state machine on values:
  - `Dispatch` is the `switch` on the top frame's opcode, one function per case.
  - `Backtrack` and `Unwind` are the `did_not_match` pop-and-undo loop.
  - `Step` is one turn of `while (states_count)`, and `Run` iterates it on a budget of turns.
- `Executor.Executor` is `rxExecute` as a class. The frame and counter stacks are
  arrays grown the way `realloc` grows them, and the captures are an `array2`.
  Its methods are proved to compute exactly what `Machine` describes. `ExecDo`
  ends in the state and with the verdict of `Machine.Run`.

Properties of the machine:

- `MachineProps` proves the invariant that makes capture undo work. Replaying
  the undo entries saved in the frames always gives back the table the run
  started with. So a failed run leaves every capture as it found it.
- `OpsProps` states what each opcode does in terms of its instruction alone.
- `LoopRuns` runs the loop program `a{m,n}b` (greedy) and `a{m,n}?b` (lazy) of the
  test driver for every pair of bounds `m <= n` and every subject made of `k`
  bytes `a` and then nothing or a byte other than `a`. Both kinds match exactly
  when `m <= k <= n` and a `b` follows, both finish within `4 * k + 7` turns, and
  both leave the counter stack empty. The proof is an induction on a ranked
  invariant: a description of every state the run passes through, and a measure
  that each turn lowers.
- `LoopTests` derives the driver's `a*b` and `a{3}b` tests from `LoopRuns`.
- The other test modules (`LiteralRuns`, `AlternationRuns`, `NestedRuns`,
  `CaptureRuns`) replay the remaining hand-assembled programs of the test driver
  `v2/regex_test.c` on all of its subjects. Each proves the verdict the driver
  expects, and where the driver checks them, the final captures and the empty
  counter stack.
  - Each such proof is a chain of single-turn facts (`...Turns<k>`) grouped into
    runs of at most ten turns (`...Run<k>`).
  - A turn that pops several frames has one fact per popped frame (`...Pop<k>`).

Modelling choices:

- `rxChar` is plain `char`, whose signedness the C language leaves to the platform.
  The model assumes a platform where `char` is signed: bytes are `Char`, the
  integers -128..127, and charset bounds compare as signed values.
- `Run` takes a budget of turns (`fuel`). A regular expression whose loop body can
  match the empty string may run for a very long time, so a run that spends its
  budget ends with `OutOfFuel`.
- The source reads the top of the counter stack (`RX_NUM_ITERS`) without checking
  that it is non-empty. A repeat op reached before any JUMP has pushed a counter
  therefore reads out of bounds. The model stops there with the verdict `Fault`.

## Model

| member | source | states |
|---|---|---|
| Charset.MatchCharset | v2/regex.c:77-88 | the scan of (lo, hi) pairs returns true exactly when some pair has lo <= ch <= hi, reading only `chars[from..from+len]` |
| Executor.Executor.Init | v2/regex.c:91-111 | both stacks are empty with no storage, and all ten capture rows are unset (`RX_NULL_OFFSET` at both ends) |
| Executor.Executor.FreeExecute | v2/regex.c:113-125 | the storage of both stacks is released (replaced by empty arrays) |
| Executor.Executor.PushState | v2/regex.c:127-142 | the frame stack becomes the old stack plus one unmarked frame `{off, instr, numiters 0}`; storage grows to `mem * 2 + 16` exactly when it was full |
| Executor.Executor.PushIterCnt | v2/regex.c:144-155 | the counter stack becomes the old stack plus `it`; storage grows like `PushState` |
| Executor.Executor.PopBacktracked | v2/regex.c:307-324 | one turn of the pop-and-undo loop pops the top frame, restores the capture boundary that frame saved (`Machine.Undo`), pops the counter when the frame is a lazy repeat whose `numiters + 1` is on top of the counter stack, and leaves the outcome of the whole loop (`Machine.Unwind`) unchanged |
| Executor.Executor.Backtrack | v2/regex.c:304-330 | `did_not_match` ends in the state `Machine.Backtrack` gives, and reports failure exactly when no frame is left |
| Executor.Executor.CharsetTest | v2/regex.c:187-193 | the charset test is true exactly when a byte exists at `off` and its membership differs from the `_INV` flag |
| Executor.Executor.ExecCharset | v2/regex.c:184-203 | MATCH_CHARSET(_INV) does what `Machine.MatchCase` says: advance the top frame in place, or fail from the unchanged state |
| Executor.Executor.ExecString | v2/regex.c:205-219 | MATCH_STRING does what `Machine.MatchCase` says |
| Executor.Executor.ExecRepeatGreedy | v2/regex.c:221-244 | REPEAT_GREEDY does what `Machine.GreedyCase` says, including the fault of an empty counter stack |
| Executor.Executor.GreedyLeave | v2/regex.c:223-234 | a backtracked greedy repeat drops its own counter if it is on top, then fails below the minimum or pushes the continuation |
| Executor.Executor.GreedyEnter | v2/regex.c:235-243 | a greedy repeat on a visit counts the iteration and marks itself at the maximum or pushes the body |
| Executor.Executor.ExecRepeatLazy | v2/regex.c:246-267 | REPEAT_LAZY does what `Machine.LazyCase` says |
| Executor.Executor.LazyMore | v2/regex.c:248-256 | a backtracked lazy repeat fails at the maximum or pushes the body with the next count |
| Executor.Executor.LazyEnter | v2/regex.c:257-266 | a lazy repeat on a visit pops the count and marks itself below the minimum or pushes the continuation |
| Executor.Executor.ExecJump | v2/regex.c:269-273 | JUMP does what `Machine.JumpCase` says |
| Executor.Executor.ExecBacktrackJump | v2/regex.c:275-285 | BACKTRK_JUMP does what `Machine.BacktrackJumpCase` says |
| Executor.Executor.ExecCapture | v2/regex.c:287-301 | CAPTURE_START/END do what `Machine.CaptureCase` says |
| Executor.Executor.ExecCase | v2/regex.c:178-302 | the `switch` ends in the state `Machine.Dispatch` gives: continue, fail, or stop with MATCH_DONE's 1 or a fault |
| Executor.Executor.ExecTurn | v2/regex.c:171-331 | one turn ends in the state `Machine.Step` gives, so a run from before the turn equals a run from after it with one turn less |
| Executor.Executor.ExecLoop | v2/regex.c:171-331 | the loop ends with the verdict and the state of `Machine.Run` from the state it started in |
| Executor.Executor.ExecDo | v2/regex.c:165-332 | `rxExecDo` ends with the verdict and state of `Machine.Run` from one frame at offset 0; a 0 result leaves no frames and the captures as they were; a 1 result stands on MATCH_DONE |
| Machine.Undo | v2/regex.c:316-323 | undoing a frame gives a capture table of ten rows again |
| Machine.Unwind | v2/regex.c:307-324 | the pop-and-undo loop leaves a prefix of the stack whose top, if any, is not marked |
| Machine.Backtrack | v2/regex.c:304-330 | backtracking either fails with an empty stack or continues from a marked top frame |
| Machine.MatchCase | v2/regex.c:184-219 | a matching op never stops the run, and on failure leaves the state unchanged |
| Machine.GreedyCase | v2/regex.c:221-244 | a greedy repeat faults only on an empty counter stack, and a failure keeps frames and captures |
| Machine.LazyCase | v2/regex.c:246-267 | a lazy repeat faults only on an empty counter stack, and fails from the unchanged state |
| Machine.JumpCase | v2/regex.c:269-273 | JUMP always continues |
| Machine.BacktrackJumpCase | v2/regex.c:275-285 | BACKTRK_JUMP always continues |
| Machine.CaptureCase | v2/regex.c:287-301 | the capture ops always continue |
| Machine.Dispatch | v2/regex.c:178-302 | the `switch` keeps the state inside the program and the stack non-empty when it continues or fails |
| Machine.Step | v2/regex.c:171-331 | a turn keeps the state inside the program, and the stack non-empty while running |
| Machine.Run | v2/regex.c:165-332 | a run ends with 0 (NoMatch) exactly when its frame stack is empty |
| MachineProps.UnwindRestores | v2/regex.c:307-324 | the pop-and-undo loop replays exactly the undo entries of the frames it pops: the capture table recovered from the frames is the same before and after |
| MachineProps.BacktrackKeeps | v2/regex.c:304-330 | `did_not_match` keeps the undo invariant, and when it empties the stack the captures are back to where the run started |
| MachineProps.MatchCaseKeeps | v2/regex.c:184-219 | the matching ops keep the undo invariant |
| MachineProps.GreedyCaseKeeps | v2/regex.c:221-244 | REPEAT_GREEDY keeps the undo invariant |
| MachineProps.LazyCaseKeeps | v2/regex.c:246-267 | REPEAT_LAZY keeps the undo invariant |
| MachineProps.CaptureCaseKeeps | v2/regex.c:287-301 | a capture write saved in the marked frame keeps the undo invariant |
| MachineProps.DispatchKeeps | v2/regex.c:178-302 | every case of the `switch` keeps the undo invariant; MATCH_DONE stops on its own instruction, and a fault means the counter stack is empty |
| MachineProps.StepKeeps | v2/regex.c:171-331 | every turn keeps the invariant; a failing turn leaves no frames and the starting captures |
| MachineProps.RunInduction | v2/regex.c:171-331 | a property every turn of the main loop carries forward holds of the whole run |
| MachineProps.RunKeeps | v2/regex.c:165-332 | a run from a state with the invariant ends with 0 only with no frames and the starting captures, and with 1 only on MATCH_DONE |
| MachineProps.FailedRunRestoresCaptures | v2/regex.c:165-332 | from `rxExecDo`'s first frame, a failed run leaves no frames and every capture as before the run; a match stands on MATCH_DONE |
| OpsProps.MatchAdvancesInPlace | v2/regex.c:184-219 | a matching op succeeds exactly when its bytes are at the offset (MATCH_STRING: `off + len <= size` and equal bytes), then advances `off` and `instr` of the top frame in place with the stack depth, lower frames, counters and captures unchanged; otherwise it fails from the unchanged state |
| OpsProps.CharsetFailsAtEnd | v2/regex.c:187-193 | both charset ops fail at the end of the subject, the inverted one included |
| OpsProps.JumpMovesTop | v2/regex.c:269-273 | JUMP pushes a zero counter and moves the top frame to `start` without pushing a frame |
| OpsProps.BacktrackJumpForks | v2/regex.c:275-285 | BACKTRK_JUMP pushes a frame at `instr + 1` on a first visit and at `start` once backtracked, keeping its own frame below |
| OpsProps.GreedyBounds | v2/regex.c:221-244 | a greedy loop enters its body again exactly when the counter is not at the maximum, and leaves exactly when backtracked at or above the minimum (failing below it) |
| OpsProps.LazyBounds | v2/regex.c:246-267 | a lazy loop leaves exactly when the popped counter reaches the minimum, and enters its body again exactly when backtracked below the maximum (failing at it) |
| OpsProps.CaptureIsUndone | v2/regex.c:287-301 | a capture op writes `off` into its own boundary only, marks its frame holding the old boundary, pushes the next instruction, and undoing that frame restores the table |
| LiteralRuns.LiteralAaTests | v2/regex_test.c:44-56 | `aa` matches "aa", "aaa", "aab" and rejects "ab", "a", leaving no counter behind |
| LiteralRuns.RangesTests | v2/regex_test.c:59-77 | `[a-z][^A-Z]` accepts "a0", "z#", "f!", "ff", and rejects "Az", "Za", "aZ", "zA" |
| LoopRuns.RunRanked | v2/regex.c:171-331 | a run that starts in a state of an invariant, where every turn either stays in the invariant with a smaller rank or stops with an accepted result, ends with an accepted result once the budget exceeds the rank |
| LoopRuns.RunAsRunOf | v2/regex.c:165-332 | a run driven by any turn function that agrees with `Machine.Step` on the states the executor can run is the executor's run |
| LoopRuns.LoopRun | v2/regex.c:165-332 | for both kinds, every `m <= n` and every `k`, the loop program on `k` bytes `a` and then `t` ends within `4 * k + 7` turns; it matches exactly when `m <= k <= n` and `t` starts with `b`, reports no match otherwise, and leaves no counter on the stack |
| LoopRuns.GreedyLazyAgree | v2/regex.c:221-267 | the greedy and the lazy loop give the same verdict on every such subject |
| LoopTests.LoopTest | v2/regex_test.c:80-125 | a driver test on a loop program ends as `LoopRuns.LoopRun` says, within the driver's budget of 64 turns |
| LoopTests.StarTests | v2/regex_test.c:80-100 | `a*b` and `a*?b` match "ab", "b", "aaaab" and reject "aaaa", leaving no counter behind |
| LoopTests.Exactly3Tests | v2/regex_test.c:103-125 | `a{3}b` and `a{3}?b` match "aaab", "aaabb" and reject "aaa", "aab", "aaaaa", "aaaaab", leaving no counter behind |
| AlternationRuns.AlternationTests | v2/regex_test.c:128-143 | `a\|b` matches "a" and "b" and rejects "c" |
| AlternationRuns.AlternationThenCLeaksCounter | v2/regex_test.c:21-27 | `(a\|b)c` rejects "ab" but leaves one counter on the stack |
| NestedRuns.NestedGreedyTests | v2/regex_test.c:146-170 | greedy `(a{1,2}b){1,3}` matches "aab", "aabab", "ababaab" and rejects "", "aaabb", "aaa", leaving no counter behind |
| NestedRuns.NestedLazyTests | v2/regex_test.c:146-170 | lazy `(a{1,2}?b){1,3}?` gives the same verdicts as the greedy loops, leaving no counter behind |
| CaptureRuns.TwoGroupsTests | v2/regex_test.c:173-207 | `(ab)(cd)` sets group 0 to 0-2 and group 1 to 2-4 on "abcd"; on "abc" it fails with every group unset |
| CaptureRuns.EitherGroupTests | v2/regex_test.c:211-254 | `(ab)\|(cd)` sets only group 0 on "ab", only group 1 on "cd", and none on the failing "ac" |
| CaptureRuns.GroupOfEitherTests | v2/regex_test.c:256-294 | `(ab\|cd)` sets group 0 on "ab" and on "cd", and none on the failing "ac" |

## Left out

- `RX_LOG` tracing is left out: it only prints to standard output.
- Allocation failure of `realloc` is left out. `PushState` and `PushIterCnt` always get their storage, and `FreeExecute` is modelled only as both stacks' storage being released.
- Bit-field packing (`op:4`, `start:28`, `off:28`) and the 32-bit wrap-around of `numiters` and of the counters are left out. Offsets and counts are unbounded naturals, and `RX_NULL_OFFSET` and `RX_MAX_REPEATS` are the plain number 0xFFFFFFFF. The source's test `numiters == RX_NUM_ITERS - 1` is modelled as `numiters + 1 == top`, which is the same test without wrap-around.
- Opcodes outside the ten are left out: the datatype has exactly ten, so the source's fall-through for an unknown opcode has no counterpart.
- `str_size` is the length of the subject sequence. A caller passing a size other than the string's length is not modelled.
- Lazy repeat, v2/regex.c:254-255: `rxPushState` may move the frame array, and `s->numiters` is then read from the array's old, freed location. The model reads the value the frame held before the push, which is what the code means.
- Executor.Executor.ExecDo: does not promise that a failed run leaves the counter stack empty, which the test driver checks (v2/regex_test.c:21-27). A JUMP that is not a loop entry pushes a counter that no backtrack pops. `AlternationRuns.AlternationThenCLeaksCounter` shows `(a|b)c` failing on "ab" with one counter left. Every failing run of the driver's subjects does end with an empty counter stack: the test lemmas prove it for each of them, and `LoopRuns.LoopRun` proves it for every subject of the loop programs.
- Executor.Executor.ExecDo: the source loop has no bound. The model runs at most `fuel` turns and reports `OutOfFuel` when they are spent.
- Platforms where plain `char` is unsigned are left out. There `rxChar` bytes compare as 0..255, so a charset range whose bounds straddle 0x80, or a subject byte of 0x80 or above, can test differently from the signed comparison the model makes.
- The tree-walking matcher in `regex.c`/`regex.h`/`test.c` and the compiler, match driver and replace API of `sgregex.c` are not part of this model.
