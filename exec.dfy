/** `exec(commandLine, args, options)` (modules/exec/src/index.mjs): tokenize the command
    line, take its first token as the tool and the rest, then the caller's arguments, as the
    tool's arguments, and build the `ToolRunner` that runs it. Running it is the process
    side this model does not include; its completion logic is in module ExecStateMachine. */
module Exec {
  import opened Wrappers
  import opened Options
  import opened ArgTokenizer
  import opened Runner

  /** What `exec` does with the tokens of its command line: the first names the tool, the
      rest, then the caller's arguments, are the tool's arguments. */
  function RunnerFor(commandArgs: seq<string>, args: Option<seq<string>>, options: Option<RawOptions>)
    : (r: Result<ToolRunner, ParameterError>)
    ensures r == Failure(CommandLineEmpty) <==> commandArgs == []
    ensures r == Failure(ToolPathEmpty) <==> commandArgs != [] && commandArgs[0] == ""
    ensures r.Success? ==>
      && [r.value.toolPath] + r.value.args == commandArgs + args.GetOr([])
      && r.value.options == options.GetOr(NoOptions)
  {
    if |commandArgs| == 0 then Failure(CommandLineEmpty)
    else
      var r := NewToolRunner(commandArgs[0], Some(commandArgs[1..] + args.GetOr([])), options);
      assert r.Success? ==> [r.value.toolPath] + r.value.args == commandArgs + args.GetOr([]) by {
        assert commandArgs == [commandArgs[0]] + commandArgs[1..];
      }
      r
  }

  /** The runner `exec` builds, or the parameter error it throws. */
  function Exec(commandLine: string, args: Option<seq<string>>, options: Option<RawOptions>)
    : (r: Result<ToolRunner, ParameterError>)
    ensures r == Failure(CommandLineEmpty) <==> Tokenize(commandLine) == []
    ensures r == Failure(ToolPathEmpty) <==> Tokenize(commandLine) != [] && Tokenize(commandLine)[0] == ""
    ensures r.Success? ==>
      && [r.value.toolPath] + r.value.args == Tokenize(commandLine) + args.GetOr([])
      && r.value.options == options.GetOr(NoOptions)
  {
    RunnerFor(Tokenize(commandLine), args, options)
  }

  /** The empty command line, and one of only an empty quoted string, have no tokens. */
  lemma EmptyCommandLines(args: Option<seq<string>>, options: Option<RawOptions>)
    ensures Exec("", args, options) == Failure(CommandLineEmpty)
    ensures Exec("\"\"", args, options) == Failure(CommandLineEmpty)
  {
    EmptyLine();
    ExampleEmptyQuotes();
  }

  /** A quoted space yields one empty token: it passes the length check in `exec` and is
      refused by the `ToolRunner` constructor instead. */
  lemma QuotedSpaceCommandLine(args: Option<seq<string>>, options: Option<RawOptions>)
    ensures Exec("\" \"", args, options) == Failure(ToolPathEmpty)
  {
    ExampleQuotedSpace();
  }

  /** A command line of plain words runs its first word with the remaining words followed by
      the caller's arguments, all in order. */
  lemma PlainCommandLine(tool: string, words: seq<string>, args: Option<seq<string>>, options: Option<RawOptions>)
    requires Plain(tool) && forall k :: 0 <= k < |words| ==> Plain(words[k])
    ensures Exec(CommandLine(tool, words), args, options)
         == Success(ToolRunner(tool, words + args.GetOr([]), options.GetOr(NoOptions)))
  {
    CommandLineRoundTrip(tool, words);
    var r := Exec(CommandLine(tool, words), args, options);
    assert ([tool] + words + args.GetOr([]))[1..] == words + args.GetOr([]);
  }
}
