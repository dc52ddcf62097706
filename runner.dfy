/** The parts of class `ToolRunner` (modules/exec/src/toolrunner.mjs) that do not touch the
    operating system: its constructor's check and `_getCommandString`. */
module Runner {
  import opened Wrappers
  import opened Options
  import opened ArgTokenizer
  import opened Text

  /** The errors `exec` and the `ToolRunner` constructor throw about their parameters. */
  datatype ParameterError = CommandLineEmpty | ToolPathEmpty

  /** A tool runner: the tool path, its arguments and the caller's options. */
  datatype ToolRunner = ToolRunner(toolPath: string, args: seq<string>, options: RawOptions)

  /** `new ToolRunner(toolPath, args, options)`: an empty tool path is refused; absent
      arguments and options become empty ones. */
  function NewToolRunner(toolPath: string, args: Option<seq<string>>, options: Option<RawOptions>)
    : (r: Result<ToolRunner, ParameterError>)
    ensures r.Failure? <==> toolPath == ""
    ensures r.Failure? ==> r.error == ToolPathEmpty
    ensures r.Success? ==>
      && r.value.toolPath == toolPath
      && r.value.args == (if args.Some? then args.value else [])
      && r.value.options == (if options.Some? then options.value else NoOptions)
  {
    if toolPath == "" then Failure(ToolPathEmpty)
    else Success(ToolRunner(toolPath, args.GetOr([]), options.GetOr(NoOptions)))
  }

  const CommandPrefix := "[command]"

  /** `_getCommandString(options, noPrefix)`: the echoed command line is the prefix (unless
      `noPrefix`), the tool path, and a space before each argument, with no quoting. */
  method GetCommandString(runner: ToolRunner, noPrefix: bool) returns (cmd: string)
    ensures cmd == (if noPrefix then "" else CommandPrefix) + CommandLine(runner.toolPath, runner.args)
  {
    var prefix := if noPrefix then "" else CommandPrefix;
    cmd := prefix;
    cmd := cmd + runner.toolPath;
    var i := 0;
    while i < |runner.args|
      invariant 0 <= i <= |runner.args|
      invariant cmd == prefix + runner.toolPath + Spaced(runner.args[..i])
    {
      SpacedSnoc(runner.args[..i], runner.args[i]);
      assert runner.args[..i + 1] == runner.args[..i] + [runner.args[i]];
      cmd := cmd + " " + runner.args[i];
      i := i + 1;
    }
    assert runner.args[..i] == runner.args;
  }

  /** The echoed command line, read back by the tokenizer, gives the prefixed tool path and
      the arguments, as long as none of them holds a quote or whitespace. */
  lemma EchoTokenizes(runner: ToolRunner)
    requires Plain(runner.toolPath) && forall k :: 0 <= k < |runner.args| ==> Plain(runner.args[k])
    ensures Tokenize(CommandPrefix + CommandLine(runner.toolPath, runner.args))
         == [CommandPrefix + runner.toolPath] + runner.args
  {
    var tool := CommandPrefix + runner.toolPath;
    assert CommandPrefix + CommandLine(runner.toolPath, runner.args) == CommandLine(tool, runner.args);
    assert Plain(tool) by {
      forall j | 0 <= j < |tool| ensures tool[j] != '"' && !IsJsWhitespace(tool[j]) {
        if j >= |CommandPrefix| {
          assert tool[j] == runner.toolPath[j - |CommandPrefix|];
        }
      }
    }
    CommandLineRoundTrip(tool, runner.args);
  }
}
