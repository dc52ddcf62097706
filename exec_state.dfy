/** The class `ExecState` (modules/exec/src/toolrunner.mjs) and the process event handlers
    `exec` attaches to the child process, as methods. Each method's new state is the one the
    matching function of module Completion gives, so the lemmas proved there hold of it. */
module ExecStateMachine {
  import opened Wrappers
  import Options
  import Completion

  class ExecState {
    const options: Options.ExecOptions
    const toolPath: string
    const delay: int

    var processClosed: bool
    var processError: string
    var processExitCode: Option<int>
    var processExited: bool
    var processStderr: bool
    var done: bool
    var timeout: Option<nat>

    /** The host's scheduled `HandleTimeout` callbacks and the next handle it hands out. */
    var pending: set<nat>
    var nextTimer: nat

    /** The `done` and `debug` events emitted so far. */
    var doneEvents: seq<Completion.Done>
    var debugLog: seq<Completion.DebugMessage>

    function Cfg(): Completion.Config {
      Completion.Config(toolPath, delay, options.ignoreReturnCode, options.failOnStdErr)
    }

    function State(): Completion.RunState
      reads this
    {
      Completion.RunState(processClosed, processError, processExitCode, processExited, processStderr,
                          done, timeout, pending, nextTimer, doneEvents, debugLog)
    }

    /** The constructor. Its only caller passes the path `which` resolved, which is non-empty
        unless the tool disappears between `which`'s two lookups. */
    constructor (options: Options.ExecOptions, toolPath: string)
      requires toolPath != ""
      ensures this.options == options && this.toolPath == toolPath
      ensures delay == if options.delay != 0 then options.delay else 10000
      ensures State() == Completion.Initial
    {
      this.options := options;
      this.toolPath := toolPath;
      delay := if options.delay != 0 then options.delay else 10000;
      processClosed, processError, processExitCode := false, "", Some(0);
      processExited, processStderr, done, timeout := false, false, false, None;
      pending, nextTimer := {}, 0;
      doneEvents, debugLog := [], [];
    }

    method CheckComplete()
      modifies this
      ensures State() == Completion.CheckComplete(Cfg(), old(State()))
    {
      if done {
        return;
      }
      if processClosed {
        SetResult();
      } else if processExited {
        timeout := Some(nextTimer);
        pending := pending + {nextTimer};
        nextTimer := nextTimer + 1;
      }
    }

    /** `_setResult`. */
    method SetResult()
      modifies this
      ensures State() == Completion.SetResult(Cfg(), old(State()))
    {
      var error: Option<Completion.ExecError> := None;
      if processExited {
        if processError != "" {
          error := Some(Completion.StartFailed(toolPath, processError));
        } else if processExitCode != Some(0) && !options.ignoreReturnCode {
          error := Some(Completion.ExitCodeFailure(toolPath, processExitCode));
        } else if processStderr && options.failOnStdErr {
          error := Some(Completion.StderrWritten(toolPath));
        }
      }
      if timeout.Some? {
        pending := pending - {timeout.value};
        timeout := None;
      }
      done := true;
      doneEvents := doneEvents + [Completion.Done(error, processExitCode)];
    }

    static method HandleTimeout(state: ExecState)
      modifies state
      ensures state.State() == Completion.HandleTimeout(state.Cfg(), old(state.State()))
    {
      if state.done {
        return;
      }
      if !state.processClosed && state.processExited {
        state.debugLog := state.debugLog + [Completion.StreamsDidNotClose(state.delay)];
      }
      state.SetResult();
    }

    /** `cp.on('error', ...)`. */
    method OnError(message: string)
      modifies this
      ensures State() == Completion.OnError(Cfg(), old(State()), message)
    {
      processError := message;
      processExited := true;
      processClosed := true;
      CheckComplete();
    }

    /** `cp.on('exit', ...)`. */
    method OnExit(code: Option<int>)
      modifies this
      ensures State() == Completion.OnExit(Cfg(), old(State()), code)
    {
      processExitCode := code;
      processExited := true;
      debugLog := debugLog + [Completion.ExitCodeReceived(code)];
      CheckComplete();
    }

    /** `cp.on('close', ...)`. */
    method OnClose(code: Option<int>)
      modifies this
      ensures State() == Completion.OnClose(Cfg(), old(State()), code)
    {
      processExitCode := code;
      processExited := true;
      processClosed := true;
      debugLog := debugLog + [Completion.StreamsClosed];
      CheckComplete();
    }

    /** The state update in `cp.stderr.on('data', ...)`. */
    method OnStderrData()
      modifies this
      ensures State() == Completion.OnStderrData(old(State()))
    {
      processStderr := true;
    }

    /** The host runs the scheduled callback `h`: `HandleTimeout(this)`. */
    method OnTimerFired(h: nat)
      requires h in pending
      modifies this
      ensures State() == Completion.TimerFires(Cfg(), old(State()), h)
    {
      pending := pending - {h};
      HandleTimeout(this);
    }
  }

  /** A process that exits but whose streams never close: the timer settles the run once,
      and a late `close` emits no second `done`. */
  method HangingStreamsScenario(options: Options.ExecOptions)
    requires !options.ignoreReturnCode
  {
    var state := new ExecState(options, "/bin/tool");
    state.OnExit(Some(3));
    assert state.timeout == Some(0) && !state.done;
    state.OnTimerFired(0);
    assert state.done;
    assert state.doneEvents == [Completion.Done(Some(Completion.ExitCodeFailure("/bin/tool", Some(3))), Some(3))];
    state.OnClose(Some(3));
    assert |state.doneEvents| == 1;
  }
}
