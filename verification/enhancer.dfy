/**
  The per-chunk transform of the prompt-enhancer route. Each chunk of the
  provider's data stream is split into lines on '\n'; empty lines are
  dropped; a line that starts with "0:" (a text part) contributes the
  `value` of the JSON after the prefix, any other line contributes nothing;
  the contributions are joined with no separator and sent on as one chunk.

  Chunks are strings here: byte decoding and re-encoding are left out.
 */
module Enhancer {
  import opened Wrappers

  /** `JSON.parse(payload).value`, abstracted: `None` when parsing throws or
      the value is falsy, otherwise the text the value contributes. */
  type ValueParser = string -> Option<string>

  /** The line is a text part: it starts with "0:". */
  predicate IsTextPart(line: string) {
    |line| >= 2 && line[0] == '0' && line[1] == ':'
  }

  /** What one line contributes to the output chunk. */
  function LineText(parse: ValueParser, line: string): (r: string)
    // only a text part contributes, and what it contributes is its parsed value
    ensures r != "" ==> IsTextPart(line) && parse(line[2..]) == Some(r)
  {
    if IsTextPart(line) then parse(line[2..]).GetOr("") else ""
  }

  /** String.split('\n'): the text between newlines, in order; a string
      with n newlines gives n + 1 pieces, empty ones included. */
  function SplitLines(s: string): (lines: seq<string>)
    ensures |lines| >= 1
    ensures forall i :: 0 <= i < |lines| ==> '\n' !in lines[i]
    decreases |s|
  {
    if |s| == 0 then [""]
    else if s[0] == '\n' then [""] + SplitLines(s[1..])
    else
      var rest := SplitLines(s[1..]);
      [[s[0]] + rest[0]] + rest[1..]
  }

  /** The inverse of `SplitLines`: the pieces with a newline between each two. */
  function JoinLines(lines: seq<string>): string
    requires |lines| >= 1
    decreases |lines|
  {
    if |lines| == 1 then lines[0] else lines[0] + "\n" + JoinLines(lines[1..])
  }

  /** `filter((line) => line !== '')`. */
  function NonEmpty(lines: seq<string>): (kept: seq<string>)
    ensures forall i :: 0 <= i < |kept| ==> kept[i] != ""
    ensures |kept| <= |lines|
  {
    if |lines| == 0 then []
    else if lines[0] == "" then NonEmpty(lines[1..])
    else [lines[0]] + NonEmpty(lines[1..])
  }

  /** `map(...)`: the contribution of each line. */
  function Contributions(parse: ValueParser, lines: seq<string>): (texts: seq<string>)
    ensures |texts| == |lines|
  {
    if |lines| == 0 then [] else [LineText(parse, lines[0])] + Contributions(parse, lines[1..])
  }

  /** `join('')`. */
  function Concat(parts: seq<string>): string {
    if |parts| == 0 then "" else parts[0] + Concat(parts[1..])
  }

  /** The transform applied to one chunk. */
  function TransformChunk(parse: ValueParser, chunk: string): string {
    Concat(Contributions(parse, NonEmpty(SplitLines(chunk))))
  }

  /** The transform applied to a stream: one output chunk per input chunk,
      each computed from its own input chunk alone. */
  function TransformStream(parse: ValueParser, chunks: seq<string>): (outs: seq<string>)
    ensures |outs| == |chunks|
    ensures forall i :: 0 <= i < |chunks| ==> outs[i] == TransformChunk(parse, chunks[i])
  {
    if |chunks| == 0 then [] else [TransformChunk(parse, chunks[0])] + TransformStream(parse, chunks[1..])
  }

  // ---------------------------------------------------------------------
  // Splitting and joining lines

  /** A string without newlines is one line. */
  lemma {:induction false} SplitOneLine(s: string)
    requires '\n' !in s
    ensures SplitLines(s) == [s]
    decreases |s|
  {
    if |s| > 0 {
      SplitOneLine(s[1..]);
      assert [s[0]] + s[1..] == s;
    }
  }

  /** Splitting at a newline splits the line list there. */
  lemma {:induction false} SplitAtNewline(a: string, b: string)
    ensures SplitLines(a + "\n" + b) == SplitLines(a) + SplitLines(b)
    decreases |a|
  {
    if |a| == 0 {
      assert a + "\n" + b == "\n" + b;
      assert ("\n" + b)[1..] == b;
    } else {
      var s := a + "\n" + b;
      assert s[0] == a[0];
      assert s[1..] == a[1..] + "\n" + b;
      SplitAtNewline(a[1..], b);
    }
  }

  lemma {:induction false} SplitJoin(s: string)
    ensures JoinLines(SplitLines(s)) == s
    decreases |s|
  {
    if |s| > 0 {
      SplitJoin(s[1..]);
      var rest := SplitLines(s[1..]);
      if s[0] == '\n' {
        assert SplitLines(s) == [""] + rest;
        assert ([""] + rest)[1..] == rest;
        assert s == "" + "\n" + s[1..];
      } else {
        var lines := SplitLines(s);
        assert lines == [[s[0]] + rest[0]] + rest[1..];
        assert s == [s[0]] + s[1..];
        if |rest| == 1 {
          assert JoinLines(lines) == [s[0]] + rest[0];
        } else {
          assert lines[1..] == rest[1..];
          assert JoinLines(rest) == rest[0] + "\n" + JoinLines(rest[1..]);
          assert JoinLines(lines) == ([s[0]] + rest[0]) + "\n" + JoinLines(rest[1..]);
        }
      }
    }
  }

  lemma {:induction false} JoinSplit(lines: seq<string>)
    requires |lines| >= 1
    requires forall i :: 0 <= i < |lines| ==> '\n' !in lines[i]
    ensures SplitLines(JoinLines(lines)) == lines
    decreases |lines|
  {
    SplitOneLine(lines[0]);
    if |lines| > 1 {
      JoinSplit(lines[1..]);
      SplitAtNewline(lines[0], JoinLines(lines[1..]));
      assert [lines[0]] + lines[1..] == lines;
    }
  }

  // ---------------------------------------------------------------------
  // The pipeline distributes over concatenation

  lemma {:induction false} NonEmptyAppend(xs: seq<string>, ys: seq<string>)
    ensures NonEmpty(xs + ys) == NonEmpty(xs) + NonEmpty(ys)
    decreases |xs|
  {
    if |xs| > 0 {
      assert (xs + ys)[0] == xs[0];
      assert (xs + ys)[1..] == xs[1..] + ys;
      NonEmptyAppend(xs[1..], ys);
    } else {
      assert xs + ys == ys;
    }
  }

  lemma {:induction false} ContributionsAppend(parse: ValueParser, xs: seq<string>, ys: seq<string>)
    ensures Contributions(parse, xs + ys) == Contributions(parse, xs) + Contributions(parse, ys)
    decreases |xs|
  {
    if |xs| > 0 {
      assert (xs + ys)[0] == xs[0];
      assert (xs + ys)[1..] == xs[1..] + ys;
      ContributionsAppend(parse, xs[1..], ys);
    } else {
      assert xs + ys == ys;
    }
  }

  lemma {:induction false} ConcatAppend(xs: seq<string>, ys: seq<string>)
    ensures Concat(xs + ys) == Concat(xs) + Concat(ys)
    decreases |xs|
  {
    if |xs| > 0 {
      assert (xs + ys)[0] == xs[0];
      assert (xs + ys)[1..] == xs[1..] + ys;
      ConcatAppend(xs[1..], ys);
    } else {
      assert xs + ys == ys;
    }
  }

  /** The output of a chunk is the output of the text before a newline
      followed by the output of the text after it: lines contribute
      independently, in order, with no separator in between. */
  lemma TransformAtNewline(parse: ValueParser, a: string, b: string)
    ensures TransformChunk(parse, a + "\n" + b) == TransformChunk(parse, a) + TransformChunk(parse, b)
  {
    SplitAtNewline(a, b);
    NonEmptyAppend(SplitLines(a), SplitLines(b));
    ContributionsAppend(parse, NonEmpty(SplitLines(a)), NonEmpty(SplitLines(b)));
    ConcatAppend(Contributions(parse, NonEmpty(SplitLines(a))), Contributions(parse, NonEmpty(SplitLines(b))));
  }

  /** A chunk without newlines is one line and yields that line's contribution;
      in particular an empty line yields nothing. */
  lemma TransformOneLine(parse: ValueParser, line: string)
    requires '\n' !in line
    ensures TransformChunk(parse, line) == LineText(parse, line)
  {
    SplitOneLine(line);
    if line == "" {
      assert NonEmpty([line]) == [];
    } else {
      assert NonEmpty([line]) == [line];
      assert Contributions(parse, [line]) == [LineText(parse, line)];
      assert Concat([LineText(parse, line)]) == LineText(parse, line) + Concat([]);
    }
  }

  /** A text-part line yields the parsed value, or nothing when parsing
      fails or the value is falsy. */
  lemma TextPartYieldsValue(parse: ValueParser, payload: string)
    requires '\n' !in payload
    ensures parse(payload).Some? ==> TransformChunk(parse, "0:" + payload) == parse(payload).value
    ensures parse(payload).None? ==> TransformChunk(parse, "0:" + payload) == ""
  {
    TransformOneLine(parse, "0:" + payload);
    assert ("0:" + payload)[2..] == payload;
  }

  /** Dropping empty lines changes nothing: an empty line contributes "" anyway. */
  lemma {:induction false} EmptyLinesContributeNothing(parse: ValueParser, lines: seq<string>)
    ensures Concat(Contributions(parse, NonEmpty(lines))) == Concat(Contributions(parse, lines))
    decreases |lines|
  {
    if |lines| > 0 {
      EmptyLinesContributeNothing(parse, lines[1..]);
    }
  }

  /** The output is the in-order concatenation of the contributions of the
      lines the chunk consists of. */
  lemma Characterization(parse: ValueParser, lines: seq<string>)
    requires |lines| >= 1
    requires forall i :: 0 <= i < |lines| ==> '\n' !in lines[i]
    ensures TransformChunk(parse, JoinLines(lines)) == Concat(Contributions(parse, lines))
  {
    JoinSplit(lines);
    EmptyLinesContributeNothing(parse, lines);
  }

  /** A chunk none of whose lines is a text part yields the empty chunk. */
  lemma {:induction false} NoTextPartNoOutput(parse: ValueParser, chunk: string)
    requires forall i :: 0 <= i < |SplitLines(chunk)| ==> !IsTextPart(SplitLines(chunk)[i])
    ensures TransformChunk(parse, chunk) == ""
  {
    var lines := SplitLines(chunk);
    SplitJoin(chunk);
    Characterization(parse, lines);
    AllEmpty(parse, lines);
  }

  lemma {:induction false} AllEmpty(parse: ValueParser, lines: seq<string>)
    requires forall i :: 0 <= i < |lines| ==> !IsTextPart(lines[i])
    ensures Concat(Contributions(parse, lines)) == ""
    decreases |lines|
  {
    if |lines| > 0 {
      AllEmpty(parse, lines[1..]);
    }
  }

  // ---------------------------------------------------------------------
  // A one-pass scanner that agrees with the pipeline

  /** At a newline the pending line is complete. */
  lemma LineEnds(parse: ValueParser, line: string, rest: string)
    requires '\n' !in line
    ensures TransformChunk(parse, line + "\n" + rest) == LineText(parse, line) + TransformChunk(parse, rest)
  {
    TransformAtNewline(parse, line, rest);
    TransformOneLine(parse, line);
  }

  /** The same, for the pending line `chunk[start..i]` of a scan that has
      emitted `out` so far. */
  lemma PendingLineEnds(parse: ValueParser, chunk: string, start: nat, i: nat, out: string)
    requires start <= i < |chunk| && chunk[i] == '\n'
    requires forall k :: start <= k < i ==> chunk[k] != '\n'
    ensures (out + LineText(parse, chunk[start..i])) + TransformChunk(parse, chunk[i + 1..])
            == out + TransformChunk(parse, chunk[start..])
  {
    assert chunk[start..] == chunk[start..i] + "\n" + chunk[i + 1..];
    LineEnds(parse, chunk[start..i], chunk[i + 1..]);
  }

  /** Reads the chunk once, emitting each line's contribution when the line ends. */
  method ExtractText(parse: ValueParser, chunk: string) returns (out: string)
    ensures out == TransformChunk(parse, chunk)
  {
    out := "";
    var start := 0;
    var i := 0;
    while i < |chunk|
      invariant 0 <= start <= i <= |chunk|
      invariant forall k :: start <= k < i ==> chunk[k] != '\n'
      invariant out + TransformChunk(parse, chunk[start..]) == TransformChunk(parse, chunk)
    {
      if chunk[i] == '\n' {
        var line := chunk[start..i];
        PendingLineEnds(parse, chunk, start, i, out);
        out := out + LineText(parse, line);
        start := i + 1;
      }
      i := i + 1;
    }
    TransformOneLine(parse, chunk[start..]);
    out := out + LineText(parse, chunk[start..]);
  }

  // ---------------------------------------------------------------------
  // Chunks are independent

  /** Transforming two streams one after the other is transforming their concatenation. */
  lemma StreamAppend(parse: ValueParser, xs: seq<string>, ys: seq<string>)
    ensures TransformStream(parse, xs + ys) == TransformStream(parse, xs) + TransformStream(parse, ys)
  {
  }

  /** A text part cut right after its "0:" prefix by a chunk boundary loses
      its text: the first piece parses an empty payload, the second piece
      is not a text part. */
  lemma SplitLineLosesText(parse: ValueParser, payload: string)
    requires '\n' !in payload && !IsTextPart(payload)
    requires parse("") == None
    requires parse(payload).Some? && parse(payload).value != ""
    ensures Concat(TransformStream(parse, ["0:" + payload])) == parse(payload).value
    ensures Concat(TransformStream(parse, ["0:", payload])) == ""
  {
    TransformOneLine(parse, "0:" + payload);
    assert ("0:" + payload)[2..] == payload;
    TransformOneLine(parse, "0:");
    TransformOneLine(parse, payload);
    var outs := TransformStream(parse, ["0:", payload]);
    assert outs == ["", ""];
    assert Concat(outs) == "" + Concat(outs[1..]);
  }
}
