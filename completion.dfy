/** The completion logic of `ExecState` (modules/exec/src/toolrunner.mjs) and the process
    event handlers that drive it, as functions on a snapshot of the state. The class in
    module ExecStateMachine is specified by these functions.

    Timers are abstract: `pending` is the set of scheduled `HandleTimeout` callbacks the
    host still holds, `nextTimer` the handle the next `setTimeout` returns. */
module Completion {
  import opened Wrappers

  /** The errors `_setResult` can settle with (their messages name the tool path). */
  datatype ExecError =
    | StartFailed(toolPath: string, message: string)
    | ExitCodeFailure(toolPath: string, code: Option<int>)
    | StderrWritten(toolPath: string)

  /** Debug notifications: the two from the `exit`/`close` handlers and the timeout warning. */
  datatype DebugMessage = ExitCodeReceived(code: Option<int>) | StreamsClosed | StreamsDidNotClose(delay: int)

  /** One `done` event: the error (none on success) and the exit code reported with it. */
  datatype Done = Done(error: Option<ExecError>, exitCode: Option<int>)

  /** What the state reads but never changes. */
  datatype Config = Config(toolPath: string, delay: int, ignoreReturnCode: bool, failOnStdErr: bool)

  /** The fields of an `ExecState`, the host's pending timers, and the events emitted so far. */
  datatype RunState = RunState(
    processClosed: bool,
    processError: string,
    processExitCode: Option<int>,
    processExited: bool,
    processStderr: bool,
    done: bool,
    timeout: Option<nat>,
    pending: set<nat>,
    nextTimer: nat,
    doneEvents: seq<Done>,
    debugLog: seq<DebugMessage>)

  /** The field initialisers: exit code 0, no error, nothing seen, no timer. */
  const Initial := RunState(false, "", Some(0), false, false, false, None, {}, 0, [], [])

  /** The error `_setResult` settles with. It fails exactly when the process has exited and
      it could not start, or exited with a code other than 0 (a `null` code included) while
      return codes are not ignored, or wrote to stderr under `failOnStdErr`; the first of
      these that applies decides the error. */
  function Outcome(cfg: Config, s: RunState): (e: Option<ExecError>)
    ensures e.Some? <==> (s.processExited && (s.processError != ""
                                               || (s.processExitCode != Some(0) && !cfg.ignoreReturnCode)
                                               || (s.processStderr && cfg.failOnStdErr)))
    ensures e.Some? ==> e.value.toolPath == cfg.toolPath
    ensures e.Some? && e.value.StartFailed? ==> e.value.message == s.processError
    ensures e.Some? && e.value.ExitCodeFailure? ==>
      s.processError == "" && e.value.code == s.processExitCode
    ensures e.Some? && e.value.StderrWritten? ==>
      s.processError == "" && (s.processExitCode == Some(0) || cfg.ignoreReturnCode)
    ensures e.Some? ==>
      && (e.value.StartFailed? <==> s.processError != "")
      && (e.value.ExitCodeFailure? <==>
            s.processError == "" && s.processExitCode != Some(0) && !cfg.ignoreReturnCode)
  {
    if !s.processExited then None
    else if s.processError != "" then Some(StartFailed(cfg.toolPath, s.processError))
    else if s.processExitCode != Some(0) && !cfg.ignoreReturnCode then
      Some(ExitCodeFailure(cfg.toolPath, s.processExitCode))
    else if s.processStderr && cfg.failOnStdErr then Some(StderrWritten(cfg.toolPath))
    else None
  }

  /** `_setResult`: clear the current timer, mark done, emit `done`. */
  function SetResult(cfg: Config, s: RunState): RunState {
    s.(pending := if s.timeout.Some? then s.pending - {s.timeout.value} else s.pending,
       timeout := None,
       done := true,
       doneEvents := s.doneEvents + [Done(Outcome(cfg, s), s.processExitCode)])
  }

  /** `CheckComplete`: settle once closed; once exited, schedule `HandleTimeout` and
      overwrite `timeout` with the new handle (an earlier handle stays scheduled). */
  function CheckComplete(cfg: Config, s: RunState): RunState {
    if s.done then s
    else if s.processClosed then SetResult(cfg, s)
    else if s.processExited then
      s.(timeout := Some(s.nextTimer), pending := s.pending + {s.nextTimer}, nextTimer := s.nextTimer + 1)
    else s
  }

  /** `HandleTimeout`: unless done, warn when the streams are still open, then settle. */
  function HandleTimeout(cfg: Config, s: RunState): RunState {
    if s.done then s
    else
      var warned := if !s.processClosed && s.processExited
        then s.(debugLog := s.debugLog + [StreamsDidNotClose(cfg.delay)]) else s;
      SetResult(cfg, warned)
  }

  /** The `error` handler. */
  function OnError(cfg: Config, s: RunState, message: string): RunState {
    CheckComplete(cfg, s.(processError := message, processExited := true, processClosed := true))
  }

  /** The `exit` handler. */
  function OnExit(cfg: Config, s: RunState, code: Option<int>): RunState {
    CheckComplete(cfg, s.(processExitCode := code, processExited := true,
                          debugLog := s.debugLog + [ExitCodeReceived(code)]))
  }

  /** The `close` handler. */
  function OnClose(cfg: Config, s: RunState, code: Option<int>): RunState {
    CheckComplete(cfg, s.(processExitCode := code, processExited := true, processClosed := true,
                          debugLog := s.debugLog + [StreamsClosed]))
  }

  /** The stderr `data` handler's effect on the state. */
  function OnStderrData(s: RunState): RunState {
    s.(processStderr := true)
  }

  /** The host runs the scheduled callback `h` once and forgets it. */
  function TimerFires(cfg: Config, s: RunState, h: nat): RunState
    requires h in s.pending
  {
    HandleTimeout(cfg, s.(pending := s.pending - {h}))
  }

  // ---- Event traces ----

  datatype Event =
    | SpawnError(message: string)
    | Exit(code: Option<int>)
    | Close(code: Option<int>)
    | StderrData
    | TimerFired(handle: nat)

  /** One event; a timer that is not scheduled cannot fire. */
  function Apply(cfg: Config, s: RunState, e: Event): RunState {
    match e
    case SpawnError(m) => OnError(cfg, s, m)
    case Exit(c) => OnExit(cfg, s, c)
    case Close(c) => OnClose(cfg, s, c)
    case StderrData => OnStderrData(s)
    case TimerFired(h) => if h in s.pending then TimerFires(cfg, s, h) else s
  }

  function Run(cfg: Config, s: RunState, events: seq<Event>): RunState
    decreases |events|
  {
    if events == [] then s else Run(cfg, Apply(cfg, s, events[0]), events[1..])
  }

  /** What every reachable state satisfies: one `done` event exactly when done, no current
      timer once done, the current timer is scheduled, handles are below `nextTimer`, and
      closed implies exited. */
  ghost predicate Inv(s: RunState) {
    && |s.doneEvents| == (if s.done then 1 else 0)
    && (s.done ==> s.timeout.None?)
    && (s.timeout.Some? ==> s.timeout.value in s.pending)
    && (forall h :: h in s.pending ==> h < s.nextTimer)
    && (s.processClosed ==> s.processExited)
  }

  lemma ApplyKeepsInv(cfg: Config, s: RunState, e: Event)
    requires Inv(s)
    ensures Inv(Apply(cfg, s, e))
  {
  }

  lemma {:induction false} RunKeepsInv(cfg: Config, s: RunState, events: seq<Event>)
    requires Inv(s)
    ensures Inv(Run(cfg, s, events))
    decreases |events|
  {
    if events != [] {
      ApplyKeepsInv(cfg, s, events[0]);
      RunKeepsInv(cfg, Apply(cfg, s, events[0]), events[1..]);
    }
  }

  lemma RunTwo(cfg: Config, s: RunState, a: Event, b: Event)
    ensures Run(cfg, s, [a, b]) == Apply(cfg, Apply(cfg, s, a), b)
  {
    var s1 := Apply(cfg, s, a);
    assert [a, b][1..] == [b];
    assert Run(cfg, s, [a, b]) == Run(cfg, s1, [b]);
    assert [b][1..] == [];
    assert Run(cfg, s1, [b]) == Run(cfg, Apply(cfg, s1, b), []);
  }

  lemma RunThree(cfg: Config, s: RunState, a: Event, b: Event, c: Event)
    ensures Run(cfg, s, [a, b, c]) == Apply(cfg, Apply(cfg, Apply(cfg, s, a), b), c)
  {
    assert [a, b, c][1..] == [b, c];
    RunTwo(cfg, Apply(cfg, s, a), b, c);
  }

  /** Whatever events arrive, in whatever order, `done` is emitted at most once. */
  lemma SettlesAtMostOnce(cfg: Config, events: seq<Event>)
    ensures |Run(cfg, Initial, events).doneEvents| <= 1
  {
    RunKeepsInv(cfg, Initial, events);
  }

  /** Once done, no event changes the outcome or un-settles the state. */
  lemma {:induction false} DoneIsFinal(cfg: Config, s: RunState, events: seq<Event>)
    requires s.done
    ensures Run(cfg, s, events).done
    ensures Run(cfg, s, events).doneEvents == s.doneEvents
    decreases |events|
  {
    if events != [] {
      DoneIsFinal(cfg, Apply(cfg, s, events[0]), events[1..]);
    }
  }

  // ---- Single events ----

  /** `close` settles at once, reporting the code it carried. */
  lemma CloseSettles(cfg: Config, s: RunState, code: Option<int>)
    requires !s.done
    ensures var t := OnClose(cfg, s, code);
      && t.done && t.timeout.None?
      && t.doneEvents == s.doneEvents + [Done(Outcome(cfg, s.(processExitCode := code,
           processExited := true, processClosed := true)), code)]
  {
  }

  /** A spawn `error` with a message settles at once as a start failure carrying it. */
  lemma SpawnErrorSettles(cfg: Config, s: RunState, message: string)
    requires !s.done && message != ""
    ensures var t := OnError(cfg, s, message);
      t.done && t.doneEvents == s.doneEvents + [Done(Some(StartFailed(cfg.toolPath, message)), s.processExitCode)]
  {
  }

  /** A spawn `error` whose message is empty is not a start failure (the empty string is
      falsy): before any exit code arrives the outcome is a success with code 0. */
  lemma EmptySpawnErrorIsNotAFailure(cfg: Config)
    ensures OnError(cfg, Initial, "").doneEvents == [Done(None, Some(0))]
  {
  }

  /** In any unsettled state, a spawn `error` with an empty message settles the run, and
      the outcome is decided by the exit code and stderr alone: never a start failure. */
  lemma EmptySpawnErrorUsesExitCode(cfg: Config, s: RunState)
    requires !s.done
    ensures var t := OnError(cfg, s, "");
      && t.done
      && t.doneEvents == s.doneEvents + [t.doneEvents[|s.doneEvents|]]
      && var d := t.doneEvents[|s.doneEvents|];
      && d.exitCode == s.processExitCode
      && (d.error.Some? ==> !d.error.value.StartFailed?)
      && (d.error.Some? <==> (s.processExitCode != Some(0) && !cfg.ignoreReturnCode)
                             || (s.processStderr && cfg.failOnStdErr))
  {
  }

  /** `exit` without `close` does not settle; it schedules a fresh timer and makes it current. */
  lemma ExitArmsTimer(cfg: Config, s: RunState, code: Option<int>)
    requires Inv(s) && !s.done && !s.processClosed
    ensures var t := OnExit(cfg, s, code);
      && !t.done && t.doneEvents == s.doneEvents
      && t.timeout == Some(s.nextTimer) && s.nextTimer in t.pending && s.nextTimer !in s.pending
  {
  }

  /** Stderr output alone never settles and never schedules a timer. */
  lemma StderrDoesNotSettle(s: RunState)
    ensures var t := OnStderrData(s);
      t.done == s.done && t.doneEvents == s.doneEvents && t.pending == s.pending && t.processStderr
  {
  }

  /** If the streams never close, the timer armed at `exit` still settles the run, with the
      warning and the outcome the exit code decides. */
  lemma GracePeriodSettles(cfg: Config, s: RunState, code: Option<int>)
    requires Inv(s) && !s.done && !s.processClosed
    ensures var t := OnExit(cfg, s, code);
      var u := TimerFires(cfg, t, t.timeout.value);
      && u.done
      && u.debugLog == t.debugLog + [StreamsDidNotClose(cfg.delay)]
      && u.doneEvents == s.doneEvents + [Done(Outcome(cfg, t), code)]
  {
    ExitArmsTimer(cfg, s, code);
  }

  /** `exit` then `close`, or `close` then `exit`: the same single `done` event. */
  lemma ArrivalOrderIrrelevant(cfg: Config, s: RunState, code: Option<int>)
    requires !s.done && !s.processClosed
    ensures Run(cfg, s, [Exit(code), Close(code)]).doneEvents
         == Run(cfg, s, [Close(code), Exit(code)]).doneEvents
  {
    var exitFirst := OnClose(cfg, OnExit(cfg, s, code), code);
    var closeFirst := OnExit(cfg, OnClose(cfg, s, code), code);
    RunTwo(cfg, s, Exit(code), Close(code));
    RunTwo(cfg, s, Close(code), Exit(code));
    var settled := s.(processExitCode := code, processExited := true, processClosed := true);
    assert Outcome(cfg, OnExit(cfg, s, code).(processClosed := true)) == Outcome(cfg, settled);
  }

  /** A timer that stayed scheduled after settling fires harmlessly. */
  lemma LeftoverTimerIsHarmless(cfg: Config, s: RunState, h: nat)
    requires s.done && h in s.pending
    ensures TimerFires(cfg, s, h) == s.(pending := s.pending - {h})
  {
  }

  /** A second `exit` before `close` arms a second timer; settling clears only the current
      one, so the first stays scheduled, and when it fires nothing is settled again. */
  lemma SecondExitLeavesTimer(cfg: Config)
    ensures var s := Run(cfg, Initial, [Exit(Some(0)), Exit(Some(0)), Close(Some(0))]);
      && s.done && s.pending == {0}
      && Run(cfg, s, [TimerFired(0)]).doneEvents == s.doneEvents
  {
    RunThree(cfg, Initial, Exit(Some(0)), Exit(Some(0)), Close(Some(0)));
    var s1 := OnExit(cfg, Initial, Some(0));
    assert s1.pending == {0} && s1.timeout == Some(0);
    var s2 := OnExit(cfg, s1, Some(0));
    assert s2.pending == {0, 1} && s2.timeout == Some(1);
    var s3 := OnClose(cfg, s2, Some(0));
    assert s3.pending == {0};
    assert [TimerFired(0)][1..] == [];
  }

  // ---- The outcome rule ----

  /** With return codes checked, a code other than 0 (or none at all, after a signal) fails
      with that code, and code 0 succeeds unless stderr output must fail the run. */
  lemma ExitCodeDecides(cfg: Config, s: RunState)
    requires s.processExited && s.processError == "" && !cfg.ignoreReturnCode
    ensures s.processExitCode != Some(0) ==>
      Outcome(cfg, s) == Some(ExitCodeFailure(cfg.toolPath, s.processExitCode))
    ensures s.processExitCode == Some(0) && !(s.processStderr && cfg.failOnStdErr) ==>
      Outcome(cfg, s) == None
  {
  }

  /** Stderr output under `failOnStdErr` fails a run that started and whose exit code
      passes (0, or any code when return codes are ignored). */
  lemma StderrFailsCleanExit(cfg: Config, s: RunState)
    requires s.processExited && s.processError == ""
    requires s.processExitCode == Some(0) || cfg.ignoreReturnCode
    requires s.processStderr && cfg.failOnStdErr
    ensures Outcome(cfg, s) == Some(StderrWritten(cfg.toolPath))
  {
  }

  /** The trace stderr output, `exit 0`, `close 0` settles once, with the stderr error. */
  lemma StderrFailsCleanRun(cfg: Config)
    requires cfg.failOnStdErr
    ensures var s := Run(cfg, Initial, [StderrData, Exit(Some(0)), Close(Some(0))]);
      s.doneEvents == [Done(Some(StderrWritten(cfg.toolPath)), Some(0))]
  {
    RunThree(cfg, Initial, StderrData, Exit(Some(0)), Close(Some(0)));
  }
}
