/** `_cloneExecOptions` (modules/exec/src/toolrunner.mjs): the caller's exec options with
    every missing or falsy property replaced by its default, as JavaScript's `||` does. */
module Options {
  import opened Wrappers

  /** A writable stream: the host process's own stdout/stderr, or one the caller passed. */
  datatype Sink = ProcessStdout | ProcessStderr | CallerStream(id: nat)

  type Env = map<string, string>

  /** The options object as the caller passes it; `None` is an absent or `null` property. */
  datatype RawOptions = RawOptions(
    cwd: Option<string>,
    env: Option<Env>,
    silent: Option<bool>,
    failOnStdErr: Option<bool>,
    ignoreReturnCode: Option<bool>,
    delay: Option<int>,
    outStream: Option<Sink>,
    errStream: Option<Sink>)

  /** `options || {}`: an absent options object has no properties. */
  const NoOptions := RawOptions(None, None, None, None, None, None, None, None)

  /** The options with every default filled in. */
  datatype ExecOptions = ExecOptions(
    cwd: string,
    env: Env,
    silent: bool,
    failOnStdErr: bool,
    ignoreReturnCode: bool,
    delay: int,
    outStream: Sink,
    errStream: Sink)

  const DefaultDelay := 10000

  /** `v || d` for a string property: the empty string is falsy. */
  function OrString(v: Option<string>, d: string): string {
    if v.Some? && v.value != "" then v.value else d
  }

  /** `v || false` for a boolean property. */
  function OrFalse(v: Option<bool>): bool {
    v == Some(true)
  }

  /** `v || d` for a number: `0` is falsy. */
  function OrNumber(v: Option<int>, d: int): int {
    if v.Some? && v.value != 0 then v.value else d
  }

  /** `_cloneExecOptions(options)`; `processCwd` and `processEnv` stand for `process.cwd()`
      and `process.env`. A property the caller set to a truthy value is kept, every other
      property takes its default, and the grace period is never zero. */
  function CloneExecOptions(options: Option<RawOptions>, processCwd: string, processEnv: Env): (r: ExecOptions)
    ensures var o := options.GetOr(NoOptions);
      && r.delay != 0
      && (o.delay.Some? && o.delay.value != 0 ==> r.delay == o.delay.value)
      && (o.delay.None? || o.delay == Some(0) ==> r.delay == DefaultDelay)
      && (r.silent <==> o.silent == Some(true))
      && (r.failOnStdErr <==> o.failOnStdErr == Some(true))
      && (r.ignoreReturnCode <==> o.ignoreReturnCode == Some(true))
      && r.cwd == (if o.cwd.Some? && o.cwd.value != "" then o.cwd.value else processCwd)
      && r.env == o.env.GetOr(processEnv)
      && r.outStream == o.outStream.GetOr(ProcessStdout)
      && r.errStream == o.errStream.GetOr(ProcessStderr)
  {
    var o := options.GetOr(NoOptions);
    ExecOptions(
      OrString(o.cwd, processCwd),
      o.env.GetOr(processEnv),
      OrFalse(o.silent),
      OrFalse(o.failOnStdErr),
      OrFalse(o.ignoreReturnCode),
      OrNumber(o.delay, DefaultDelay),
      o.outStream.GetOr(ProcessStdout),
      o.errStream.GetOr(ProcessStderr))
  }

  /** A grace period of `0` is falsy and becomes the 10-second default; with no options at
      all every flag is off. */
  lemma ZeroDelayDefaults(o: RawOptions, processCwd: string, processEnv: Env)
    requires o.delay == Some(0)
    ensures CloneExecOptions(Some(o), processCwd, processEnv).delay == 10000
  {
  }

  lemma NoOptionsDefaults(processCwd: string, processEnv: Env)
    ensures var r := CloneExecOptions(None, processCwd, processEnv);
      && !r.silent && !r.failOnStdErr && !r.ignoreReturnCode
      && r.delay == 10000 && r.outStream == ProcessStdout && r.errStream == ProcessStderr
      && r.cwd == processCwd && r.env == processEnv
  {
  }
}
