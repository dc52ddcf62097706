/** `_processLineBuffer` (modules/exec/src/toolrunner.mjs) and the stdout/stderr `data`
    listeners that feed it. The line terminator `eol` stands for `os.EOL`, any non-empty string. */
module LineBuffer {
  import opened Text

  /** The lines found and the unterminated text left after the last terminator. */
  datatype Split = Split(lines: seq<string>, remainder: string)

  /** Each line followed by the terminator, in order. */
  function Terminated(lines: seq<string>, eol: string): string {
    if lines == [] then "" else lines[0] + eol + Terminated(lines[1..], eol)
  }

  /** `s` is the text before its first terminator, the terminator and the rest. */
  lemma FirstLineJoin(s: string, eol: string, n: int)
    requires eol != "" && n == IndexOf(s, eol) && n != -1
    ensures s == s[..n] + eol + s[n + |eol|..]
  {
    IndexOfFirst(s, eol);
    assert s[n..n + |eol|] == eol;
    assert s == s[..n] + s[n..n + |eol|] + s[n + |eol|..];
  }

  /** The text before the first terminator holds none. */
  lemma FirstLineFree(s: string, eol: string, n: int)
    requires eol != "" && n == IndexOf(s, eol) && n != -1
    ensures Free(s[..n], eol)
  {
    IndexOfFirst(s, eol);
    var line := s[..n];
    forall i | 0 <= i <= |line| - |eol| ensures !OccursAt(line, eol, i) {
      assert !OccursAt(s, eol, i);
      assert line[i..i + |eol|] == s[i..i + |eol|];
    }
  }

  lemma Assoc(x: string, y: string, z: string)
    ensures x + y + z == x + (y + z)
  {
  }

  lemma TerminatedCons(line: string, lines: seq<string>, eol: string)
    ensures Terminated([line] + lines, eol) == line + eol + Terminated(lines, eol)
  {
    assert ([line] + lines)[1..] == lines;
  }

  /** Splits `s` at every occurrence of `eol`, scanning left to right. Each line ends at the
      FIRST occurrence of `eol` after the previous one (`IndexOfFirst`); `SplitLinesFree` and
      `SplitLinesRejoin` alone do not fix the split when `eol` can overlap itself (as `aa`
      can), but the terminators `\n` and `\r\n` cannot. */
  function SplitLines(s: string, eol: string): (r: Split)
    requires eol != ""
    ensures |r.remainder| <= |s|
    decreases |s|
  {
    var n := IndexOf(s, eol);
    if n == -1 then Split([], s)
    else
      var rest := SplitLines(s[n + |eol|..], eol);
      Split([s[..n]] + rest.lines, rest.remainder)
  }

  /** No line and not the remainder contain the terminator. */
  lemma {:induction false} SplitLinesFree(s: string, eol: string)
    requires eol != ""
    ensures forall k :: 0 <= k < |SplitLines(s, eol).lines| ==> Free(SplitLines(s, eol).lines[k], eol)
    ensures Free(SplitLines(s, eol).remainder, eol)
    decreases |s|
  {
    var n := IndexOf(s, eol);
    IndexOfFirst(s, eol);
    if n != -1 {
      var tail := s[n + |eol|..];
      SplitLinesFree(tail, eol);
      FirstLineFree(s, eol, n);
      SplitUnfold(s, eol, n);
    }
  }

  /** Putting the terminator back after each line, then the remainder, gives `s` again. */
  lemma {:induction false} SplitLinesRejoin(s: string, eol: string)
    requires eol != ""
    ensures Terminated(SplitLines(s, eol).lines, eol) + SplitLines(s, eol).remainder == s
    decreases |s|
  {
    var n := IndexOf(s, eol);
    if n != -1 {
      var line, tail := s[..n], s[n + |eol|..];
      SplitLinesRejoin(tail, eol);
      SplitUnfold(s, eol, n);
      FirstLineJoin(s, eol, n);
      var rest := SplitLines(tail, eol);
      TerminatedCons(line, rest.lines, eol);
      Assoc(line + eol, Terminated(rest.lines, eol), rest.remainder);
    }
  }

  /** `_processLineBuffer(data, strBuffer, onLine)`: the lines handed to `onLine`, in order.
      The text after the last terminator is kept only in a local variable and is lost. */
  method ProcessLineBuffer(data: string, strBuffer: string, eol: string) returns (emitted: seq<string>)
    requires eol != ""
    ensures emitted == SplitLines(strBuffer + data, eol).lines
  {
    var s := strBuffer + data;
    var n := IndexOf(s, eol);
    emitted := [];
    while n > -1
      invariant n == IndexOf(s, eol)
      invariant emitted + SplitLines(s, eol).lines == SplitLines(strBuffer + data, eol).lines
      decreases |s|
    {
      var line := s[..n];
      emitted := emitted + [line];
      s := s[n + |eol|..];
      n := IndexOf(s, eol);
    }
  }

  /** A terminator found in `a` is found at the same place in `a + b`. */
  lemma IndexOfExtend(a: string, b: string, eol: string)
    requires IndexOf(a, eol) != -1
    ensures IndexOf(a + b, eol) == IndexOf(a, eol)
  {
    var n := IndexOf(a, eol);
    IndexOfFirst(a, eol);
    IndexOfFirst(a + b, eol);
    assert OccursAt(a + b, eol, n) by {
      assert (a + b)[n..n + |eol|] == a[n..n + |eol|];
    }
    forall i | 0 <= i < n ensures !OccursAt(a + b, eol, i) {
      assert !OccursAt(a, eol, i);
      assert (a + b)[i..i + |eol|] == a[i..i + |eol|];
    }
  }

  lemma SliceOfConcat(a: string, b: string, k: nat)
    requires k <= |a|
    ensures (a + b)[k..] == a[k..] + b && (a + b)[..k] == a[..k]
  {
  }

  lemma SplitUnfold(s: string, eol: string, n: int)
    requires eol != "" && n == IndexOf(s, eol) && n != -1
    ensures SplitLines(s, eol).lines == [s[..n]] + SplitLines(s[n + |eol|..], eol).lines
    ensures SplitLines(s, eol).remainder == SplitLines(s[n + |eol|..], eol).remainder
  {
  }

  /** Splitting a text whose first part ends exactly at a terminator is splitting each part. */
  lemma {:induction false} SplitAtBoundary(a: string, b: string, eol: string)
    requires eol != ""
    requires SplitLines(a, eol).remainder == ""
    ensures SplitLines(a + b, eol).lines == SplitLines(a, eol).lines + SplitLines(b, eol).lines
    ensures SplitLines(a + b, eol).remainder == SplitLines(b, eol).remainder
    decreases |a|
  {
    var n := IndexOf(a, eol);
    if n == -1 {
      assert a + b == b;
    } else {
      var tail := a[n + |eol|..];
      SplitAtBoundary(tail, b, eol);
      SplitAtBoundaryStep(a, b, eol, n);
    }
  }

  /** Splitting `a + b` when `a` holds a terminator at `n`: the first line comes from `a`. */
  lemma SplitConcatUnfold(a: string, b: string, eol: string, n: int)
    requires eol != "" && n == IndexOf(a, eol) && n != -1
    ensures var rest := SplitLines(a[n + |eol|..] + b, eol);
      SplitLines(a + b, eol) == Split([a[..n]] + rest.lines, rest.remainder)
  {
    IndexOfExtend(a, b, eol);
    SliceOfConcat(a, b, n + |eol|);
    SliceOfConcat(a, b, n);
    SplitUnfold(a + b, eol, n);
  }

  /** The inductive step of `SplitAtBoundary`: the first line of `a` is the first line of
      `a + b`, and the rest follows from the claim for what comes after it. */
  lemma SplitAtBoundaryStep(a: string, b: string, eol: string, n: int)
    requires eol != "" && n == IndexOf(a, eol) && n != -1
    requires var tail := a[n + |eol|..];
      && SplitLines(tail + b, eol).lines == SplitLines(tail, eol).lines + SplitLines(b, eol).lines
      && SplitLines(tail + b, eol).remainder == SplitLines(b, eol).remainder
    ensures SplitLines(a + b, eol).lines == SplitLines(a, eol).lines + SplitLines(b, eol).lines
    ensures SplitLines(a + b, eol).remainder == SplitLines(b, eol).remainder
  {
    var line, tail := a[..n], a[n + |eol|..];
    var rest, more := SplitLines(tail, eol).lines, SplitLines(b, eol).lines;
    assert SplitLines(a + b, eol) == Split([line] + (rest + more), SplitLines(b, eol).remainder) by {
      SplitConcatUnfold(a, b, eol, n);
    }
    assert SplitLines(a, eol).lines == [line] + rest by {
      SplitUnfold(a, eol, n);
    }
    LinesAssoc([line], rest, more);
  }

  lemma LinesAssoc(x: seq<string>, y: seq<string>, z: seq<string>)
    ensures x + (y + z) == x + y + z
  {
  }

  /** The lines a listener emits for a sequence of chunks: each chunk split on its own. */
  function ChunkLines(chunks: seq<string>, eol: string): seq<string>
    requires eol != ""
  {
    if chunks == [] then []
    else ChunkLines(chunks[..|chunks| - 1], eol) + SplitLines(chunks[|chunks| - 1], eol).lines
  }

  lemma ChunkLinesSnoc(chunks: seq<string>, data: string, eol: string)
    requires eol != ""
    ensures ChunkLines(chunks + [data], eol) == ChunkLines(chunks, eol) + SplitLines(data, eol).lines
  {
    assert (chunks + [data])[..|chunks|] == chunks;
  }

  /** All chunks joined. */
  function Concat(chunks: seq<string>): string {
    if chunks == [] then "" else Concat(chunks[..|chunks| - 1]) + chunks[|chunks| - 1]
  }

  /** When every chunk ends at a line boundary, splitting chunk by chunk loses nothing:
      the lines are those of the whole stream. */
  lemma {:induction false} ChunksAtBoundaries(chunks: seq<string>, eol: string)
    requires eol != ""
    requires forall k :: 0 <= k < |chunks| ==> SplitLines(chunks[k], eol).remainder == ""
    ensures SplitLines(Concat(chunks), eol) == Split(ChunkLines(chunks, eol), "")
    decreases |chunks|
  {
    if chunks != [] {
      var init := chunks[..|chunks| - 1];
      ChunksAtBoundaries(init, eol);
      SplitAtBoundary(Concat(init), chunks[|chunks| - 1], eol);
      assert chunks[..|chunks| - 1] == init;
    }
  }

  /** A stream listener as `exec` wires it: the carry-over buffer is the constant `''`,
      `lines` are the calls to the `stdline`/`errline` listener, and `flushed` are the
      `stdline`/`errline` events the `done` handler emits for a non-empty buffer. */
  class LineListener {
    const eol: string
    const buffer: string
    var lines: seq<string>
    var flushed: seq<string>
    ghost var chunks: seq<string>

    ghost predicate Valid()
      reads this
    {
      eol != "" && buffer == "" && lines == ChunkLines(chunks, eol)
    }

    constructor (eol: string)
      requires eol != ""
      ensures Valid() && this.eol == eol && chunks == [] && flushed == []
    {
      this.eol := eol;
      buffer := "";
      lines, flushed, chunks := [], [], [];
    }

    /** A `data` event: the chunk is split on its own and its complete lines are delivered. */
    method OnData(data: string)
      requires Valid()
      modifies this
      ensures Valid() && chunks == old(chunks) + [data] && flushed == old(flushed)
      ensures lines == old(lines) + SplitLines(data, eol).lines
    {
      var emitted := ProcessLineBuffer(data, buffer, eol);
      assert buffer + data == data;
      ChunkLinesSnoc(chunks, data, eol);
      lines := lines + emitted;
      chunks := chunks + [data];
    }

    /** The flush in the `done` handler: a non-empty buffer would be emitted as a last line. */
    method FlushOnDone()
      requires Valid()
      modifies this`flushed
      ensures flushed == old(flushed) + (if |buffer| > 0 then [buffer] else [])
      ensures flushed == old(flushed)
    {
      flushed := flushed + (if |buffer| > 0 then [buffer] else []);
    }
  }

  /** `s.indexOf(c)` for a one-character terminator `c` whose first occurrence is at `n`. */
  lemma IndexOfChar(s: string, c: char, n: int)
    requires 0 <= n < |s| && s[n] == c && forall i :: 0 <= i < n ==> s[i] != c
    ensures IndexOf(s, [c]) == n
  {
    assert s[n..n + 1] == [c];
    assert OccursAt(s, [c], n);
    IndexOfFirst(s, [c]);
    var r := IndexOf(s, [c]);
    assert r != -1;
  }

  /** `s.indexOf(c)` is -1 when `c` does not occur in `s`. */
  lemma IndexOfCharAbsent(s: string, c: char)
    requires forall i :: 0 <= i < |s| ==> s[i] != c
    ensures IndexOf(s, [c]) == -1
  {
    IndexOfFirst(s, [c]);
    forall i | 0 <= i <= |s| - 1 ensures !OccursAt(s, [c], i) {
      assert s[i..i + 1][0] == s[i];
    }
  }

  /** Chunks `hello\nworld` arrive and the streams close: `hello` is delivered, `world`
      neither as a line nor by the flush. */
  method PartialLastLineScenario()
  {
    var listener := new LineListener("\n");
    PartialLastLineIsDropped();
    listener.OnData("hello\nworld");
    listener.FlushOnDone();
    assert listener.lines == ["hello"] && listener.flushed == [];
  }

  /** A line split across two chunks is never delivered whole: only its tail, once the
      terminator arrives, is delivered. */
  lemma SplitLineIsLost()
    ensures ChunkLines(["hel", "lo\n"], "\n") == ["lo"]
    ensures SplitLines("hel" + "lo\n", "\n").lines == ["hello"]
  {
    IndexOfCharAbsent("hel", '\n');
    IndexOfChar("lo\n", '\n', 2);
    IndexOfCharAbsent("", '\n');
    assert "lo\n"[..2] == "lo" && "lo\n"[3..] == "";
    assert ["hel", "lo\n"][..1] == ["hel"];
    assert ["hel"][..0] == [];
    assert "hel" + "lo\n" == "hello\n";
    IndexOfChar("hello\n", '\n', 5);
    assert "hello\n"[..5] == "hello" && "hello\n"[6..] == "";
  }

  /** Output without a final terminator: only the terminated lines are delivered and the
      last partial line is dropped with the local buffer. */
  lemma PartialLastLineIsDropped()
    ensures ChunkLines(["hello\nworld"], "\n") == ["hello"]
  {
    var s := "hello\nworld";
    IndexOfChar(s, '\n', 5);
    assert s[..5] == "hello" && s[6..] == "world";
    IndexOfCharAbsent("world", '\n');
    assert ["hello\nworld"][..0] == [];
  }
}
