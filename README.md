# exec: argument tokenizer, line splitter and completion state machine

A Dafny model of the pure core of the `exec` module of github-script-docker. That module
runs a command-line tool as a child process. The model covers the parts that do not
touch the operating system:

- `argStringToArray`: the module's own shell-independent tokenizer.
- The way `exec` builds a `ToolRunner` from a command line and extra arguments.
- `_getCommandString` and `_cloneExecOptions`.
- `_processLineBuffer`, and the stdout/stderr listeners that feed it chunks.
- `ExecState`: the state machine that decides when a run is finished and whether it
  failed. It is driven by the child process's `error`, `exit` and `close` events, by
  stderr output and by its grace-period timer.

Modules, one per file:

| file | module | models |
|---|---|---|
| `wrappers.dfy` | `Wrappers` | `Option` (JavaScript `null`/`undefined`) and `Result` (a thrown `Error`) |
| `text.dfy` | `Text` | `String.prototype.trim` and `indexOf` |
| `tokenizer.dfy` | `ArgTokenizer` | `argStringToArray` |
| `line_buffer.dfy` | `LineBuffer` | `_processLineBuffer` and the per-stream `data` listeners |
| `options.dfy` | `Options` | `_cloneExecOptions` |
| `completion.dfy` | `Completion` | `ExecState`'s logic and the event handlers, as functions on a state value, with the lemmas about event sequences |
| `exec_state.dfy` | `ExecStateMachine` | the class `ExecState`; each method's new state is given by a `Completion` function |
| `runner.dfy` | `Runner` | the `ToolRunner` constructor check and `_getCommandString` |
| `exec.dfy` | `Exec` | `exec` in `index.mjs` |

Timers are abstract. `pending` is the set of scheduled `HandleTimeout` callbacks, and
`nextTimer` is the handle the next `setTimeout` returns. A timer firing is the method
`OnTimerFired(h)`, which the host can only call for a handle still in `pending`. The
`done` and `debug` events are logs kept in the state: `doneEvents` and `debugLog`.

Three places where the code does less than its surrounding code suggests; the model follows
the code:

- **The carry-over buffers.** `_processLineBuffer` assigns the leftover text only to its
  own parameter `strBuffer` (`toolrunner.mjs:64`), and the listeners pass the constants
  `stdbuffer`/`errbuffer = ''` (144, 163). So each chunk is split on its own, a line split
  across two chunks is delivered only from the terminator's chunk onward, and a final
  unterminated line is never delivered. The flush in the `done` handler (213-219) tests
  those constants and can therefore never fire. `LineBuffer.SplitLineIsLost`,
  `LineBuffer.PartialLastLineIsDropped` and `LineBuffer.LineListener.FlushOnDone` state
  this.
- **Timers.** `_setResult` cancels only the handle held in `timeout` (366-369), but
  `CheckComplete` may have armed several: each `exit` before `close` overwrites `timeout`
  with a new handle (338) without clearing the previous one. When a second `exit`
  arrives and `close` then settles the run, the first timer is still scheduled after
  settlement (`Completion.SecondExitLeavesTimer`). The
  `done` guard makes that timer harmless (`Completion.LeftoverTimerIsHarmless`).
- **Empty error messages.** An `error` event whose message is the empty string does not
  count as a start failure, because `''` is falsy at line 350
  (`Completion.EmptySpawnErrorIsNotAFailure`).

`processExitCode` is an `Option<int>`: `None` is the `null` code of a process killed by a
signal. Since `null !== 0`, a `null` code counts as a non-zero exit.

## Model

| member | source | states |
|---|---|---|
| `Text.Trim` | modules/exec/src/toolrunner.mjs:298 | `trim()` removes whitespace from both ends and touches nothing else: the result is a contiguous part of the input with only whitespace before and after it, and it starts and ends with non-whitespace |
| `ArgTokenizer.ArgStringToArray` | modules/exec/src/toolrunner.mjs:247-302 | the scanning loop returns exactly `Tokenize(argString)`: the quote/escape/space rules, then the trimmed last token |
| `ArgTokenizer.ScanConsistent` | modules/exec/src/toolrunner.mjs:264-295 | scanning keeps two facts: `escaped` is only set inside quotes, and every token pushed at a space is non-empty |
| `ArgTokenizer.EscapedOnlyInQuotes` | modules/exec/src/toolrunner.mjs:276-284 | after any prefix of the input, a pending escape implies being inside quotes |
| `ArgTokenizer.TokensNonEmpty` | modules/exec/src/toolrunner.mjs:286-301 | every token but the last is non-empty; the last is empty only when its accumulator held nothing but whitespace |
| `ArgTokenizer.EmptyLine` | modules/exec/src/toolrunner.mjs:247-301 | the empty string has no tokens |
| `ArgTokenizer.BackslashOutsideQuotes` | modules/exec/src/toolrunner.mjs:276-294 | outside quotes a backslash is appended literally and nothing else changes |
| `ArgTokenizer.EscapedQuoteOrBackslashInQuotes` | modules/exec/src/toolrunner.mjs:254-278 | inside quotes, `\"` appends a lone `"` and stays inside quotes, and `\\` appends two backslashes |
| `ArgTokenizer.EscapedOtherInQuotes` | modules/exec/src/toolrunner.mjs:254-283 | inside quotes, `\x` for any other `x` appends both characters |
| `ArgTokenizer.BareQuoteToggles` | modules/exec/src/toolrunner.mjs:267-270 | an unescaped `"` only toggles `inQuotes` |
| `ArgTokenizer.AppendClearsEscape` | modules/exec/src/toolrunner.mjs:254-262 | whenever a character reaches the accumulator, `escaped` is false afterwards |
| `ArgTokenizer.QuotesNeverCopied` | modules/exec/src/toolrunner.mjs:264-301 | without a backslash in the input, no token contains a `"`: bare quotes only toggle |
| `ArgTokenizer.CommandLineRoundTrip` | modules/exec/src/toolrunner.mjs:247-302 | a tool path and arguments without quotes or whitespace, joined by spaces, tokenize back to the same list |
| `ArgTokenizer.ScanSpaceWord` | modules/exec/src/toolrunner.mjs:286-292 | outside quotes, a space after a non-empty accumulator pushes it as a token and a following plain word starts the next one |
| `ArgTokenizer.ScanQuoted` | modules/exec/src/toolrunner.mjs:267-292 | text between two quotes without a quote or backslash becomes the accumulator unchanged, spaces included, and the quotes are dropped |
| `ArgTokenizer.QuotedThenPlain` | modules/exec/src/toolrunner.mjs:264-301 | a quoted non-empty text followed by a space and a plain word gives exactly two tokens: the text with its spaces, then the word |
| `ArgTokenizer.ExampleTwoWords` | modules/exec/src/toolrunner.mjs:286-292 | `a b` gives `["a", "b"]` |
| `ArgTokenizer.ExampleQuotedToken` | modules/exec/src/toolrunner.mjs:267-292 | `"a b" c` gives `["a b", "c"]` |
| `ArgTokenizer.ExampleBackslashOutsideQuotes` | modules/exec/src/toolrunner.mjs:276-294 | `a\"b` gives `["a\b"]`: the backslash is literal and the quote opens a quoted section |
| `ArgTokenizer.ExampleQuotedSpace` | modules/exec/src/toolrunner.mjs:297-299 | `" "` gives `[""]`: only the last token is trimmed, and it can come out empty |
| `ArgTokenizer.ExampleEmptyQuotes` | modules/exec/src/toolrunner.mjs:297-301 | `""` gives no tokens |
| `LineBuffer.ProcessLineBuffer` | modules/exec/src/toolrunner.mjs:50-64 | the loop hands `onLine` exactly the lines of `SplitLines(strBuffer + data)`; the remainder stays in a local |
| `LineBuffer.SplitLinesFree` | modules/exec/src/toolrunner.mjs:53-62 | no emitted line and not the remainder contain the terminator |
| `LineBuffer.SplitLinesRejoin` | modules/exec/src/toolrunner.mjs:52-64 | each line followed by the terminator, then the remainder, gives back `strBuffer + data` |
| `LineBuffer.SplitAtBoundary` | modules/exec/src/toolrunner.mjs:52-62 | when the first part of a text ends at a terminator, its lines are those of the first part followed by those of the second |
| `LineBuffer.ChunksAtBoundaries` | modules/exec/src/toolrunner.mjs:144-160 | if every chunk ends at a terminator, splitting each chunk on its own gives the lines of the whole stream |
| `LineBuffer.LineListener.constructor` | modules/exec/src/toolrunner.mjs:144 | the listener's carry-over buffer is `''` and nothing has been delivered |
| `LineBuffer.LineListener.OnData` | modules/exec/src/toolrunner.mjs:144-160 | a `data` event delivers the chunk's own complete lines; the buffer stays `''` |
| `LineBuffer.LineListener.FlushOnDone` | modules/exec/src/toolrunner.mjs:212-219 | the `done` handler emits the buffer only if it is non-empty; with the constant `''` buffer of a valid listener it emits nothing |
| `LineBuffer.SplitLineIsLost` | modules/exec/src/toolrunner.mjs:144-160 | chunks `hel` and `lo\n` deliver only `lo`, where the whole stream holds the line `hello` |
| `LineBuffer.PartialLastLineIsDropped` | modules/exec/src/toolrunner.mjs:212-219 | the chunk `hello\nworld` delivers `hello` only; `world` is lost |
| `Options.CloneExecOptions` | modules/exec/src/toolrunner.mjs:71-84 | defaulting as JavaScript `or` does it: a truthy property is kept and any other takes its default; flags are on only when set to `true`; the grace period is never 0 |
| `Options.ZeroDelayDefaults` | modules/exec/src/toolrunner.mjs:79 | a `delay` of 0 becomes 10000 |
| `Options.NoOptionsDefaults` | modules/exec/src/toolrunner.mjs:72-83 | without options, every flag is off, the delay is 10000 and the host's cwd, env and streams are used |
| `Completion.Outcome` | modules/exec/src/toolrunner.mjs:346-363 | a run fails iff it exited and (it failed to start, or its code is not 0, `null` included, without `ignoreReturnCode`, or it wrote to stderr under `failOnStdErr`); the error is a start failure carrying the message iff the message is non-empty, an exit-code failure carrying the code iff it started and the code fails while not ignored, and otherwise the stderr failure |
| `Completion.ExitCodeDecides` | modules/exec/src/toolrunner.mjs:354-362 | for a run that exited without a start error, with return codes checked: a non-zero or `null` code fails with that code, and code 0 succeeds unless stderr output must fail the run |
| `Completion.StderrFailsCleanExit` | modules/exec/src/toolrunner.mjs:348-361 | for every state: a run that started, whose code is 0 or whose codes are ignored, and that wrote to stderr under `failOnStdErr`, fails with the stderr error |
| `Completion.StderrFailsCleanRun` | modules/exec/src/toolrunner.mjs:166-210 | under `failOnStdErr`, the events stderr output, `exit 0`, `close 0` from the initial state emit exactly one `done`, carrying the stderr error and code 0 |
| `Completion.ApplyKeepsInv` | modules/exec/src/toolrunner.mjs:190-210 | every event keeps the invariant: one `done` event exactly when done, no current timer once done, the current timer is scheduled, closed implies exited |
| `Completion.RunKeepsInv` | modules/exec/src/toolrunner.mjs:330-389 | the invariant holds after any sequence of events |
| `Completion.SettlesAtMostOnce` | modules/exec/src/toolrunner.mjs:330-373 | whatever events arrive, in any order, `done` is emitted at most once |
| `Completion.DoneIsFinal` | modules/exec/src/toolrunner.mjs:331-333 | once done, no further event changes `done` or the emitted outcome |
| `Completion.CloseSettles` | modules/exec/src/toolrunner.mjs:204-210 | `close` settles at once with the code it carries and clears the timer |
| `Completion.SpawnErrorSettles` | modules/exec/src/toolrunner.mjs:190-195 | an `error` event with a message settles at once as a start failure carrying that message |
| `Completion.EmptySpawnErrorIsNotAFailure` | modules/exec/src/toolrunner.mjs:350 | from the initial state (no exit code yet), an `error` event with an empty message settles as a success with code 0 |
| `Completion.EmptySpawnErrorUsesExitCode` | modules/exec/src/toolrunner.mjs:190-362 | in any unsettled state, an `error` event with an empty message settles the run with one `done` carrying the current exit code; its error is never a start failure, and it fails exactly when the code fails while not ignored or stderr output must fail the run |
| `Completion.ExitArmsTimer` | modules/exec/src/toolrunner.mjs:337-339 | `exit` before `close` does not settle; it schedules a fresh timer and makes it current |
| `Completion.StderrDoesNotSettle` | modules/exec/src/toolrunner.mjs:165-166 | stderr output sets `processStderr` and neither settles nor schedules anything |
| `Completion.GracePeriodSettles` | modules/exec/src/toolrunner.mjs:375-389 | if the streams never close, the timer armed at `exit` settles the run with the "streams did not close" warning and the outcome of the exit code |
| `Completion.ArrivalOrderIrrelevant` | modules/exec/src/toolrunner.mjs:197-210 | `exit` then `close` and `close` then `exit` emit the same single `done` event |
| `Completion.LeftoverTimerIsHarmless` | modules/exec/src/toolrunner.mjs:375-378 | a timer that fires after settlement changes nothing but the host's timer set |
| `Completion.SecondExitLeavesTimer` | modules/exec/src/toolrunner.mjs:338 | two `exit` events then `close`: the first timer stays scheduled after settlement, and its firing settles nothing again |
| `ExecStateMachine.ExecState.constructor` | modules/exec/src/toolrunner.mjs:305-328 | the fields start at their initialisers; `delay` is the options' delay when truthy, else 10000 |
| `ExecStateMachine.ExecState.CheckComplete` | modules/exec/src/toolrunner.mjs:330-340 | once done, nothing changes; if closed, it settles; if exited only, it arms a new timer and overwrites `timeout`; otherwise nothing changes |
| `ExecStateMachine.ExecState.SetResult` | modules/exec/src/toolrunner.mjs:346-373 | emits `done` with `Outcome` and `processExitCode`, clears the current timer to `null`, and sets `done` |
| `ExecStateMachine.ExecState.HandleTimeout` | modules/exec/src/toolrunner.mjs:375-389 | does nothing once done; otherwise warns only when exited but not closed, then settles |
| `ExecStateMachine.ExecState.OnError` | modules/exec/src/toolrunner.mjs:190-195 | sets `processError`, `processExited` and `processClosed`, then runs `CheckComplete` |
| `ExecStateMachine.ExecState.OnExit` | modules/exec/src/toolrunner.mjs:197-202 | sets the code and `processExited`, logs the code, then runs `CheckComplete` |
| `ExecStateMachine.ExecState.OnClose` | modules/exec/src/toolrunner.mjs:204-210 | sets the code, `processExited` and `processClosed`, logs the closing, then runs `CheckComplete` |
| `ExecStateMachine.ExecState.OnStderrData` | modules/exec/src/toolrunner.mjs:166 | sets `processStderr` only |
| `ExecStateMachine.ExecState.OnTimerFired` | modules/exec/src/toolrunner.mjs:338 | a scheduled timer fires once: it leaves the host's set and runs `HandleTimeout` |
| `Runner.NewToolRunner` | modules/exec/src/toolrunner.mjs:13-23 | an empty tool path is refused; absent arguments and options become `[]` and `{}` |
| `Runner.GetCommandString` | modules/exec/src/toolrunner.mjs:35-48 | the echo is `[command]` (unless `noPrefix`), then the tool path, then `" " + arg` for each argument |
| `Runner.EchoTokenizes` | modules/exec/src/toolrunner.mjs:35-48 | the echoed line tokenizes back to the prefixed tool path and the arguments when none holds a quote or whitespace |
| `Exec.RunnerFor` | modules/exec/src/index.mjs:12-19 | from a token list: the command-line error iff the list is empty, the tool-path error iff its first token is empty, otherwise the tool path followed by the runner's arguments is the tokens followed by the caller's arguments |
| `Exec.Exec` | modules/exec/src/index.mjs:11-20 | fails with the command-line error iff there are no tokens, and with the tool-path error iff the first token is empty; otherwise the tool path followed by the runner's arguments is the tokens followed by the caller's arguments (absent means `[]`) |
| `Exec.EmptyCommandLines` | modules/exec/src/index.mjs:12-15 | `''` and `'""'` are refused as empty command lines |
| `Exec.QuotedSpaceCommandLine` | modules/exec/src/index.mjs:12-18 | `'" "'` passes the length check and is refused by the `ToolRunner` constructor as an empty tool path |
| `Exec.PlainCommandLine` | modules/exec/src/index.mjs:16-18 | a command line of plain words runs its first word, with the other words and then the caller's arguments, in order |

## Left out

- Spawning the process and wiring its streams are operating-system I/O and are not
  modelled: `child.spawn`, `_getSpawnOptions`, the chunk callbacks, the writes to
  `outStream`/`errStream`, `cp.stdin.end`, `removeAllListeners` and the promise's
  resolve/reject (`toolrunner.mjs:118-237`). The state updates their `error`, `exit`,
  `close` and `data` handlers make are the event methods of `ExecState` and `LineListener`.
- `ExecStateMachine.ExecState.OnError`, `OnExit` and `OnClose` (and `Completion.Apply`) still
  apply process events that arrive after settlement. In the code, the `done` handler calls
  `cp.removeAllListeners()` (221), so such events never reach the handlers at 190-210. After
  settlement the model guarantees only that `done` and the emitted `done` events stay fixed
  (`Completion.DoneIsFinal`); `processExitCode`, the flags and `debugLog` may still change.
- Rooting a relative tool path (`path.resolve`, `ioUtil.isRooted`) and the `PATH` search
  of `io.which` call into code outside the model. `ioUtil` is not part of this model.
- Real timers are left out: the grace period's length only appears in the warning, and
  time never passes. A timer firing is an explicit event.
- Decoding a chunk with `Buffer.toString` is left out, so chunks are strings.
- `LineBuffer.ProcessLineBuffer`: the `catch` in `_processLineBuffer` (65-68) is not
  modelled. The model assumes the `stdline`/`errline` listeners never throw. In the code, a
  throwing listener ends that chunk's loop, and the chunk's remaining lines are never
  delivered; the model delivers all of them.
- Error and debug message texts are left out, including the `delay / 1000` seconds
  figure. Each error or message is a datatype value carrying what its text
  interpolates: the tool path, the message, the code, the delay.
- JavaScript strings are sequences of UTF-16 code units, while Dafny strings hold Unicode
  scalar values. Every character the tokenizer, `trim` and the line terminator look at
  is in the Basic Multilingual Plane, so results agree for well-formed strings.
- `Options.CloneExecOptions`: option values have their declared types (string, boolean,
  integer). JavaScript truthiness of other values, such as `NaN` or a non-empty string
  for `silent`, is not modelled.
- `ExecStateMachine.ExecState.constructor`: it requires a non-empty tool path instead of
  modelling the throw at `toolrunner.mjs:308-310`. Its only caller (132) passes the path
  that `which(tool, true)` resolved. That path is non-empty because `which` throws when its
  first lookup finds nothing (`io.mjs:19-27`). It then looks the tool up a second time and
  returns that result, so the throw is reachable only if the file disappears between the
  two lookups; the model leaves that race out.
- `modules/github/src/index.mjs`, `src/index.mjs` and `test/full.js` are configuration
  loading, script evaluation and a network call, and are not part of this model.
