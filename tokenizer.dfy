/** `argStringToArray` (modules/exec/src/toolrunner.mjs): splits a command line into argument
    tokens by its own quoting rules, independent of any shell. */
module ArgTokenizer {
  import opened Text

  /** The scanner's variables: the tokens pushed so far, the two flags and the accumulator. */
  datatype Scan = Scan(args: seq<string>, inQuotes: bool, escaped: bool, arg: string)

  const Start := Scan([], false, false, "")

  /** The inner `append(c)`: a pending backslash is re-inserted unless `c` is a quote. */
  function Append(st: Scan, c: char): Scan {
    st.(arg := st.arg + (if st.escaped && c != '"' then "\\" else "") + [c], escaped := false)
  }

  /** One iteration of the scanning loop on character `c`. */
  function Step(st: Scan, c: char): Scan {
    if c == '"' then
      if !st.escaped then st.(inQuotes := !st.inQuotes) else Append(st, c)
    else if c == '\\' && st.escaped then Append(st, c)
    else if c == '\\' && st.inQuotes then st.(escaped := true)
    else if c == ' ' && !st.inQuotes then
      if |st.arg| > 0 then st.(args := st.args + [st.arg], arg := "") else st
    else Append(st, c)
  }

  /** The loop run over all of `s` from state `st`. */
  function ScanFrom(st: Scan, s: string): Scan
    decreases |s|
  {
    if s == [] then st else ScanFrom(Step(st, s[0]), s[1..])
  }

  /** After the loop: a non-empty accumulator is trimmed and pushed as the final token. */
  function Finish(st: Scan): seq<string> {
    if |st.arg| > 0 then st.args + [Trim(st.arg)] else st.args
  }

  /** The tokens of `s`. */
  function Tokenize(s: string): seq<string> {
    Finish(ScanFrom(Start, s))
  }

  lemma {:induction false} ScanFromSnoc(st: Scan, s: string, c: char)
    ensures ScanFrom(st, s + [c]) == Step(ScanFrom(st, s), c)
    decreases |s|
  {
    if s == [] {
      assert s + [c] == [c];
    } else {
      assert (s + [c])[1..] == s[1..] + [c];
      ScanFromSnoc(Step(st, s[0]), s[1..], c);
    }
  }

  lemma {:induction false} ScanFromConcat(st: Scan, a: string, b: string)
    ensures ScanFrom(st, a + b) == ScanFrom(ScanFrom(st, a), b)
    decreases |a|
  {
    if a == [] {
      assert a + b == b;
    } else {
      assert (a + b)[1..] == a[1..] + b;
      ScanFromConcat(Step(st, a[0]), a[1..], b);
    }
  }

  /** The scanning loop of `argStringToArray`; the result is exactly the tokens of `argString`. */
  method ArgStringToArray(argString: string) returns (args: seq<string>)
    ensures args == Tokenize(argString)
  {
    args := [];
    var inQuotes, escaped, arg := false, false, "";
    var i := 0;
    while i < |argString|
      invariant 0 <= i <= |argString|
      invariant Scan(args, inQuotes, escaped, arg) == ScanFrom(Start, argString[..i])
    {
      var c := argString[i];
      ScanFromSnoc(Start, argString[..i], c);
      assert argString[..i + 1] == argString[..i] + [c];
      if c == '"' {
        if !escaped {
          inQuotes := !inQuotes;
        } else {
          arg, escaped := arg + [c], false;
        }
      } else if c == '\\' && escaped {
        arg, escaped := arg + "\\" + [c], false;
      } else if c == '\\' && inQuotes {
        escaped := true;
      } else if c == ' ' && !inQuotes {
        if |arg| > 0 {
          args, arg := args + [arg], "";
        }
      } else {
        arg, escaped := arg + (if escaped then "\\" else "") + [c], false;
      }
      i := i + 1;
    }
    assert argString[..i] == argString;
    if |arg| > 0 {
      args := args + [Trim(arg)];
    }
  }

  // ---- What scanning keeps true ----

  /** `escaped` is only ever set inside quotes, and every token pushed at a space is non-empty. */
  ghost predicate Consistent(st: Scan) {
    (st.escaped ==> st.inQuotes) && forall t :: t in st.args ==> t != ""
  }

  lemma {:induction false} ScanConsistent(st: Scan, s: string)
    requires Consistent(st)
    ensures Consistent(ScanFrom(st, s))
    decreases |s|
  {
    if s != [] {
      ScanConsistent(Step(st, s[0]), s[1..]);
    }
  }

  /** Outside quotes no escape is pending. */
  lemma EscapedOnlyInQuotes(s: string)
    ensures ScanFrom(Start, s).escaped ==> ScanFrom(Start, s).inQuotes
  {
    ScanConsistent(Start, s);
  }

  /** Every token except the last is non-empty; only the final, trimmed token can be empty,
      and then only because its accumulator held nothing but whitespace. */
  lemma TokensNonEmpty(s: string)
    ensures forall i :: 0 <= i < |Tokenize(s)| - 1 ==> Tokenize(s)[i] != ""
    ensures Tokenize(s) != [] && Tokenize(s)[|Tokenize(s)| - 1] == "" ==>
      var acc := ScanFrom(Start, s).arg;
      acc != "" && forall j :: 0 <= j < |acc| ==> IsJsWhitespace(acc[j])
  {
    var st := ScanFrom(Start, s);
    ScanConsistent(Start, s);
    if |st.arg| == 0 {
      assert forall i :: 0 <= i < |Tokenize(s)| ==> Tokenize(s)[i] in st.args;
    } else {
      assert forall i :: 0 <= i < |Tokenize(s)| - 1 ==> Tokenize(s)[i] in st.args;
    }
  }

  /** The empty command line has no tokens. */
  lemma EmptyLine()
    ensures Tokenize("") == []
  {
  }

  // ---- The character rules ----

  /** Outside quotes a backslash is an ordinary character. */
  lemma BackslashOutsideQuotes(s: string)
    requires !ScanFrom(Start, s).inQuotes
    ensures var before, after := ScanFrom(Start, s), ScanFrom(Start, s + "\\");
      after == before.(arg := before.arg + "\\")
  {
    ScanConsistent(Start, s);
    ScanFromSnoc(Start, s, '\\');
  }

  /** Inside quotes, `\"` yields a single quote character and stays inside quotes, while
      `\\` yields TWO backslashes. */
  lemma EscapedQuoteOrBackslashInQuotes(s: string)
    requires ScanFrom(Start, s).inQuotes && !ScanFrom(Start, s).escaped
    ensures var before, after := ScanFrom(Start, s), ScanFrom(Start, s + "\\\"");
      after == before.(arg := before.arg + "\"")
    ensures var before, after := ScanFrom(Start, s), ScanFrom(Start, s + "\\\\");
      after == before.(arg := before.arg + "\\\\")
  {
    ScanFromConcat(Start, s, "\\\"");
    ScanFromConcat(Start, s, "\\\\");
  }

  /** Inside quotes, a backslash before any other character is kept along with it. */
  lemma EscapedOtherInQuotes(s: string, x: char)
    requires ScanFrom(Start, s).inQuotes && !ScanFrom(Start, s).escaped
    requires x != '"' && x != '\\'
    ensures var before, after := ScanFrom(Start, s), ScanFrom(Start, s + ['\\', x]);
      after == before.(arg := before.arg + ['\\', x])
  {
    ScanFromConcat(Start, s, ['\\', x]);
    var before := ScanFrom(Start, s);
    assert ['\\', x][1..] == [x];
    assert ScanFrom(before, ['\\', x]) == ScanFrom(Step(before, '\\'), [x]);
  }

  /** An unescaped quote toggles `inQuotes` and adds nothing to the accumulator. */
  lemma BareQuoteToggles(s: string)
    requires !ScanFrom(Start, s).escaped
    ensures var before, after := ScanFrom(Start, s), ScanFrom(Start, s + "\"");
      after == before.(inQuotes := !before.inQuotes)
  {
    ScanFromSnoc(Start, s, '"');
  }

  /** Every character that reaches the accumulator clears `escaped`. */
  lemma AppendClearsEscape(st: Scan, c: char)
    requires |Step(st, c).arg| > |st.arg|
    ensures !Step(st, c).escaped
  {
  }

  /** Without a backslash in the input, no token ever contains a quote character. */
  lemma {:induction false} NoQuoteWithoutBackslash(st: Scan, s: string)
    requires !st.escaped && '"' !in st.arg && forall t :: t in st.args ==> '"' !in t
    requires '\\' !in s
    ensures var r := ScanFrom(st, s);
      !r.escaped && '"' !in r.arg && forall t :: t in r.args ==> '"' !in t
    decreases |s|
  {
    if s != [] {
      assert s[0] in s;
      assert forall c :: c in s[1..] ==> c in s;
      NoQuoteWithoutBackslash(Step(st, s[0]), s[1..]);
    }
  }

  lemma QuotesNeverCopied(s: string)
    requires '\\' !in s
    ensures forall t :: t in Tokenize(s) ==> '"' !in t
  {
    NoQuoteWithoutBackslash(Start, s);
    var st := ScanFrom(Start, s);
    if |st.arg| > 0 {
      assert forall j :: 0 <= j < |Trim(st.arg)| ==> Trim(st.arg)[j] in st.arg;
    }
  }

  // ---- Round trip with space-joined command lines ----

  /** A token that survives joining with spaces: non-empty, no quote, no whitespace. */
  predicate Plain(t: string) {
    t != [] && forall j :: 0 <= j < |t| ==> t[j] != '"' && !IsJsWhitespace(t[j])
  }

  /** `" " + a` for each argument, in order. */
  function Spaced(args: seq<string>): string {
    if args == [] then "" else " " + args[0] + Spaced(args[1..])
  }

  lemma {:induction false} SpacedSnoc(args: seq<string>, a: string)
    ensures Spaced(args + [a]) == Spaced(args) + " " + a
    decreases |args|
  {
    if args == [] {
      assert Spaced([a]) == " " + a + Spaced([]);
    } else {
      assert (args + [a])[1..] == args[1..] + [a];
      SpacedSnoc(args[1..], a);
    }
  }

  /** A tool path followed by its arguments, joined by single spaces. */
  function CommandLine(tool: string, args: seq<string>): string {
    tool + Spaced(args)
  }

  lemma {:induction false} ScanPlain(st: Scan, t: string)
    requires !st.inQuotes && !st.escaped
    requires forall j :: 0 <= j < |t| ==> t[j] != '"' && !IsJsWhitespace(t[j])
    ensures ScanFrom(st, t) == st.(arg := st.arg + t)
    decreases |t|
  {
    if t != [] {
      ScanPlain(Step(st, t[0]), t[1..]);
      assert st.arg + [t[0]] + t[1..] == st.arg + t;
    }
  }

  /** Outside quotes, a space after a non-empty accumulator pushes it, and a plain word
      then starts the next token. */
  lemma ScanSpaceWord(st: Scan, a: string)
    requires !st.inQuotes && !st.escaped && st.arg != "" && Plain(a)
    ensures ScanFrom(st, " " + a) == Scan(st.args + [st.arg], false, false, a)
  {
    var pushed := Scan(st.args + [st.arg], false, false, "");
    ScanFromConcat(st, " ", a);
    assert ScanFrom(st, " ") == pushed by {
      assert " "[1..] == "";
    }
    ScanPlain(pushed, a);
    assert pushed.arg + a == a;
  }

  lemma {:induction false} ScanSpaced(prev: seq<string>, cur: string, args: seq<string>)
    requires Plain(cur) && forall k :: 0 <= k < |args| ==> Plain(args[k])
    ensures Finish(ScanFrom(Scan(prev, false, false, cur), Spaced(args))) == prev + [cur] + args
    decreases |args|
  {
    var st := Scan(prev, false, false, cur);
    if args == [] {
      assert Trim(cur) == cur;
    } else {
      var a, rest := args[0], args[1..];
      assert Spaced(args) == (" " + a) + Spaced(rest);
      ScanFromConcat(st, " " + a, Spaced(rest));
      ScanSpaceWord(st, a);
      ScanSpaced(prev + [cur], a, rest);
      assert prev + [cur] + [a] + rest == prev + [cur] + args;
    }
  }

  /** Tokenizing a tool path and plain arguments joined by spaces gives them back. */
  lemma CommandLineRoundTrip(tool: string, args: seq<string>)
    requires Plain(tool) && forall k :: 0 <= k < |args| ==> Plain(args[k])
    ensures Tokenize(CommandLine(tool, args)) == [tool] + args
  {
    var st := Scan([], false, false, tool);
    assert ScanFrom(Start, tool) == st by {
      ScanPlain(Start, tool);
      assert Start.arg + tool == tool;
    }
    assert ScanFrom(Start, CommandLine(tool, args)) == ScanFrom(st, Spaced(args)) by {
      ScanFromConcat(Start, tool, Spaced(args));
    }
    ScanSpaced([], tool, args);
  }

  // ---- Examples ----

  lemma ExampleTwoWords()
    ensures Tokenize("a b") == ["a", "b"]
  {
    CommandLineRoundTrip("a", ["b"]);
    assert CommandLine("a", ["b"]) == "a b";
  }

  /** Text between a pair of quotes that holds no quote and no backslash becomes the
      accumulator as it stands, spaces included, and the quotes are dropped. */
  lemma ScanQuoted(w: string)
    requires forall j :: 0 <= j < |w| ==> w[j] != '"' && w[j] != '\\'
    ensures ScanFrom(Start, "\"" + w + "\"") == Scan([], false, false, w)
  {
    var open := Scan([], true, false, "");
    ScanFromConcat(Start, "\"", w + "\"");
    assert "\"" + w + "\"" == "\"" + (w + "\"");
    assert ScanFrom(Start, "\"") == open by {
      assert "\""[1..] == "";
    }
    ScanFromConcat(open, w, "\"");
    ScanPlainInQuotes(open, w);
    assert open.arg + w == w;
    var inside := Scan([], true, false, w);
    assert ScanFrom(inside, "\"") == inside.(inQuotes := false) by {
      assert "\""[1..] == "";
    }
  }

  /** A quoted token followed by a plain word: the quoted text is one token, spaces and
      all, and the word is the next. */
  lemma QuotedThenPlain(w: string, c: string)
    requires w != "" && forall j :: 0 <= j < |w| ==> w[j] != '"' && w[j] != '\\'
    requires Plain(c)
    ensures Tokenize("\"" + w + "\" " + c) == [w, c]
  {
    ScanQuoted(w);
    assert "\"" + w + "\" " + c == ("\"" + w + "\"") + (" " + c);
    ScanFromConcat(Start, "\"" + w + "\"", " " + c);
    ScanSpaceWord(Scan([], false, false, w), c);
    assert Trim(c) == c;
  }

  lemma ExampleQuotedToken()
    ensures Tokenize("\"a b\" c") == ["a b", "c"]
  {
    QuotedThenPlain("a b", "c");
    assert "\"" + "a b" + "\" " + "c" == "\"a b\" c";
  }

  lemma ScanPlainInQuotes(st: Scan, t: string)
    requires st.inQuotes && !st.escaped
    requires forall j :: 0 <= j < |t| ==> t[j] != '"' && t[j] != '\\'
    ensures ScanFrom(st, t) == st.(arg := st.arg + t)
    decreases |t|
  {
    if t != [] {
      ScanPlainInQuotes(Step(st, t[0]), t[1..]);
      assert st.arg + [t[0]] + t[1..] == st.arg + t;
    }
  }

  lemma ScanBackslashQuote()
    ensures ScanFrom(Start, "a\\\"b") == Scan([], true, false, "a\\b")
  {
    var s3 := Scan([], true, false, "a\\");
    assert ScanFrom(Start, "a") == Scan([], false, false, "a") by {
      ScanPlain(Start, "a");
      assert Start.arg + "a" == "a";
    }
    assert ScanFrom(Start, "a\\") == Scan([], false, false, "a\\") by {
      BackslashOutsideQuotes("a");
      assert "a" + "\\" == "a\\";
    }
    assert ScanFrom(Start, "a\\\"") == s3 by {
      BareQuoteToggles("a\\");
      assert "a\\" + "\"" == "a\\\"";
    }
    assert ScanFrom(Start, "a\\\"b") == Step(s3, 'b') by {
      ScanFromSnoc(Start, "a\\\"", 'b');
      assert "a\\\"" + ['b'] == "a\\\"b";
    }
    assert "a\\" + "" + ['b'] == "a\\b";
  }

  lemma ExampleBackslashOutsideQuotes()
    ensures Tokenize("a\\\"b") == ["a\\b"]
  {
    ScanBackslashQuote();
    var tok := "a\\b";
    assert !IsJsWhitespace(tok[0]) && !IsJsWhitespace(tok[|tok| - 1]);
    assert Trim(tok) == tok;
  }

  lemma ExampleQuotedSpace()
    ensures Tokenize("\" \"") == [""]
  {
    var q := "\" \"";
    assert q[1..] == " \"" && q[2..] == "\"";
    var s1 := Scan([], true, false, "");
    var s2 := Scan([], true, false, " ");
    assert Step(s1, ' ') == s2 by { assert "" + "" + [' '] == " "; }
    assert ScanFrom(Start, q) == ScanFrom(s1, q[1..]);
    assert ScanFrom(s1, q[1..]) == ScanFrom(s2, q[2..]);
    assert ScanFrom(Start, q) == Scan([], false, false, " ");
    assert Trim(" ") == "" by { assert TrimStart(" ") == TrimStart(""); }
  }

  lemma ExampleEmptyQuotes()
    ensures Tokenize("\"\"") == []
  {
    var q := "\"\"";
    assert q[1..] == "\"";
    assert ScanFrom(Start, q) == ScanFrom(Scan([], true, false, ""), q[1..]);
  }
}
