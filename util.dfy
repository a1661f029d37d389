/** Text helpers of the bot: the port of Kotlin's trimIndent used to lay out help messages. */
module Util {
  import opened Errors

  /** The characters for which Python's str.isspace holds: tab to carriage return, the four
      information separators, space, NEL, no-break space, the Unicode space separators, and the
      line and paragraph separators U+2028 and U+2029. */
  const Whitespace: set<char> :=
    {'\t', '\n', '\U{000B}', '\U{000C}', '\r', '\U{001C}', '\U{001D}', '\U{001E}', '\U{001F}', ' ',
     '\U{0085}', '\U{00A0}', '\U{1680}', '\U{2000}', '\U{2001}', '\U{2002}', '\U{2003}', '\U{2004}', '\U{2005}',
     '\U{2006}', '\U{2007}', '\U{2008}', '\U{2009}', '\U{200A}', '\U{2028}', '\U{2029}', '\U{202F}', '\U{205F}',
     '\U{3000}'}

  /** Python's str.isspace on one character. */
  predicate IsSpace(c: char) {
    c in Whitespace
  }

  /** The pieces of `s` between '\n' separators (str.split("\n")): never empty. */
  function Split(s: string): (r: seq<string>)
    ensures |r| >= 1
  {
    if s == [] then [""]
    else
      var rest := Split(s[1..]);
      if s[0] == '\n' then [""] + rest else [[s[0]] + rest[0]] + rest[1..]
  }

  /** "\n".join(lines) */
  function Join(lines: seq<string>): string {
    if lines == [] then ""
    else if |lines| == 1 then lines[0]
    else lines[0] + "\n" + Join(lines[1..])
  }

  /** str.splitlines() restricted to '\n' line ends: a final '\n' ends the last line and opens no new one. */
  function SplitLines(s: string): seq<string> {
    if s == [] then []
    else if s[|s| - 1] == '\n' then Split(s[..|s| - 1])
    else Split(s)
  }

  /** The longest prefix of `line` made only of whitespace. */
  function LeadingWhitespace(line: string): (r: string)
    ensures |r| <= |line| && r == line[..|r|]
    ensures forall k :: 0 <= k < |r| ==> IsSpace(r[k])
    ensures |r| == |line| || !IsSpace(line[|r|])
  {
    if line != [] && IsSpace(line[0]) then [line[0]] + LeadingWhitespace(line[1..]) else ""
  }

  /** line[n:] in Python: the empty string when the line is shorter than n. */
  function Dedent(line: string, n: nat): string {
    if n <= |line| then line[n..] else ""
  }

  function DedentAll(lines: seq<string>, n: nat): (r: seq<string>)
    ensures |r| == |lines|
  {
    seq(|lines|, k requires 0 <= k < |lines| => Dedent(lines[k], n))
  }

  predicate NoNewlines(lines: seq<string>) {
    forall k :: 0 <= k < |lines| ==> '\n' !in lines[k]
  }

  predicate HasText(lines: seq<string>) {
    exists k :: 0 <= k < |lines| && lines[k] != ""
  }

  /** Index of the first non-empty line. */
  function FirstNonEmpty(lines: seq<string>): (f: nat)
    requires HasText(lines)
    ensures f < |lines| && lines[f] != ""
    ensures forall k :: 0 <= k < f ==> lines[k] == ""
  {
    if lines[0] != "" then 0
    else
      var w :| 0 <= w < |lines| && lines[w] != "";
      assert lines[1..][w - 1] != "";
      FirstNonEmpty(lines[1..]) + 1
  }

  /** Index of the last non-empty line. */
  function LastNonEmpty(lines: seq<string>): (l: nat)
    requires HasText(lines)
    ensures l < |lines| && lines[l] != ""
    ensures forall k :: l < k < |lines| ==> lines[k] == ""
  {
    if lines[|lines| - 1] != "" then |lines| - 1
    else
      var w :| 0 <= w < |lines| && lines[w] != "";
      assert lines[..|lines| - 1][w] != "";
      LastNonEmpty(lines[..|lines| - 1])
  }

  /** What trim_indent computes, stated on whole sequences: the span of lines from the first
      to the last non-empty one, each cut by the length of the first one's leading whitespace. */
  function TrimIndentSpec(s: string): Result<string> {
    TrimLines(SplitLines(s))
  }

  /** trim_indent after the split into lines. */
  function TrimLines(lines: seq<string>): Result<string> {
    if !HasText(lines) then IndexError
    else
      var f := FirstNonEmpty(lines);
      var l := LastNonEmpty(lines);
      Ok(Join(DedentAll(lines[f..l + 1], |LeadingWhitespace(lines[f])|)))
  }

  /** trim_indent: fails with IndexError when no line has text, else removes the first kept
      line's indentation from every kept line. */
  method TrimIndent(s: string) returns (r: Result<string>)
    ensures r == TrimIndentSpec(s)
    ensures r.IndexError? <==> forall k :: 0 <= k < |SplitLines(s)| ==> SplitLines(s)[k] == ""
  {
    var source := SplitLines(s);
    ghost var lines, lo, hi := source, 0, |source|;
    // source[0] raises IndexError once every line has been dropped
    while |source| > 0 && source[0] == ""
      invariant lo <= |lines| && source == lines[lo..]
      invariant forall k :: 0 <= k < lo ==> lines[k] == ""
    {
      source, lo := source[1..], lo + 1;
    }
    if |source| == 0 {
      return IndexError;
    }
    assert lines[lo] != "";
    while source[|source| - 1] == ""
      invariant lo < hi <= |lines| && source == lines[lo..hi] && source[0] != ""
      invariant forall k :: hi <= k < |lines| ==> lines[k] == ""
      decreases |source|
    {
      source, hi := source[..|source| - 1], hi - 1;
    }
    var first := source[0];
    var leading := "";
    for i := 0 to |first|
      invariant leading == first[..i]
      invariant forall k :: 0 <= k < i ==> IsSpace(first[k])
    {
      if IsSpace(first[i]) {
        leading := leading + [first[i]];
      } else {
        LeadingWhitespaceIs(first, i);
        break;
      }
    }
    LeadingWhitespaceIs(first, |leading|);
    TrimLinesOfSpan(lines, lo, hi);
    source := DedentAll(source, |leading|);
    r := Ok(Join(source));
  }

  /** The specification, given the span that the two loops of trim_indent leave. */
  lemma TrimLinesOfSpan(lines: seq<string>, lo: nat, hi: nat)
    requires lo < hi <= |lines| && lines[lo] != "" && lines[hi - 1] != ""
    requires forall k :: 0 <= k < lo ==> lines[k] == ""
    requires forall k :: hi <= k < |lines| ==> lines[k] == ""
    ensures TrimLines(lines) == Ok(Join(DedentAll(lines[lo..hi], |LeadingWhitespace(lines[lo])|)))
  {
    calc {
      TrimLines(lines);
    == { FirstNonEmptyIs(lines, lo); LastNonEmptyIs(lines, hi - 1); }
      Ok(Join(DedentAll(lines[lo..hi], |LeadingWhitespace(lines[lo])|)));
    }
  }

  /** A whitespace prefix followed by the end of the line or by a non-whitespace character
      is the leading whitespace. */
  lemma LeadingWhitespaceIs(line: string, n: nat)
    requires n <= |line| && forall k :: 0 <= k < n ==> IsSpace(line[k])
    requires n == |line| || !IsSpace(line[n])
    ensures |LeadingWhitespace(line)| == n
  {
    var m := |LeadingWhitespace(line)|;
    assert m <= n;
  }

  lemma FirstNonEmptyIs(lines: seq<string>, f: nat)
    requires f < |lines| && lines[f] != "" && forall k :: 0 <= k < f ==> lines[k] == ""
    ensures HasText(lines) && FirstNonEmpty(lines) == f
  {
  }

  lemma LastNonEmptyIs(lines: seq<string>, l: nat)
    requires l < |lines| && lines[l] != "" && forall k :: l < k < |lines| ==> lines[k] == ""
    ensures HasText(lines) && LastNonEmpty(lines) == l
  {
  }

  // ---------------------------------------------------------------------------
  // Splitting and joining lines

  lemma {:induction false} SplitWithoutNewline(a: string)
    requires '\n' !in a
    ensures Split(a) == [a]
  {
    if a != [] {
      SplitWithoutNewline(a[1..]);
      assert a == [a[0]] + a[1..];
    }
  }

  lemma {:induction false} SplitAfterLine(a: string, b: string)
    requires '\n' !in a
    ensures Split(a + "\n" + b) == [a] + Split(b)
  {
    var s := a + "\n" + b;
    if a == [] {
      assert s[1..] == b;
    } else {
      assert s[1..] == a[1..] + "\n" + b;
      SplitAfterLine(a[1..], b);
      assert a == [a[0]] + a[1..];
    }
  }

  /** Splitting a join of newline-free lines gives those lines back. */
  lemma {:induction false} SplitJoin(lines: seq<string>)
    requires |lines| >= 1
    requires NoNewlines(lines)
    ensures Split(Join(lines)) == lines
  {
    if |lines| == 1 {
      SplitWithoutNewline(lines[0]);
    } else {
      SplitJoin(lines[1..]);
      SplitAfterLine(lines[0], Join(lines[1..]));
    }
  }

  lemma {:induction false} JoinPrependChar(c: char, lines: seq<string>)
    requires |lines| >= 1
    ensures Join([[c] + lines[0]] + lines[1..]) == [c] + Join(lines)
  {
    var ls := [[c] + lines[0]] + lines[1..];
    assert ls[1..] == lines[1..];
  }

  /** Joining the pieces of a split gives the text back, and no piece holds a '\n'. */
  lemma {:induction false} JoinSplit(s: string)
    ensures Join(Split(s)) == s
    ensures NoNewlines(Split(s))
  {
    if s != [] {
      JoinSplit(s[1..]);
      var rest := Split(s[1..]);
      assert s == [s[0]] + s[1..];
      if s[0] == '\n' {
        assert ([""] + rest)[1..] == rest;
      } else {
        JoinPrependChar(s[0], rest);
        var r := Split(s);
        forall k | 0 <= k < |r| ensures '\n' !in r[k] {
          if k > 0 {
            assert r[k] == rest[k];
          }
        }
      }
    }
  }

  /** The lines of a text hold no '\n', and joining them back (plus the final '\n' that
      splitlines swallows) gives the text. */
  lemma SplitLinesJoin(s: string)
    ensures s == [] ==> SplitLines(s) == []
    ensures NoNewlines(SplitLines(s))
    ensures s != [] ==> Join(SplitLines(s)) + (if s[|s| - 1] == '\n' then "\n" else "") == s
  {
    if s != [] {
      if s[|s| - 1] == '\n' {
        JoinSplit(s[..|s| - 1]);
        assert s == s[..|s| - 1] + "\n";
      } else {
        JoinSplit(s);
      }
    }
  }

  // ---------------------------------------------------------------------------
  // What trim_indent promises

  /** trim_indent fails exactly when no line of the input has text; the empty string fails. */
  lemma TrimIndentFails(s: string)
    ensures TrimIndentSpec(s).IndexError? <==> forall k :: 0 <= k < |SplitLines(s)| ==> SplitLines(s)[k] == ""
    ensures TrimIndentSpec("") == IndexError
  {
  }

  /** The output's lines are the kept span of the input, from the first to the last non-empty
      line, one output line per kept line, each with the first kept line's leading-whitespace
      length cut off. */
  lemma TrimIndentLines(s: string)
    requires TrimIndentSpec(s).Ok?
    ensures var lines := SplitLines(s);
      var f, l := FirstNonEmpty(lines), LastNonEmpty(lines);
      f <= l && Split(TrimIndentSpec(s).value) == DedentAll(lines[f..l + 1], |LeadingWhitespace(lines[f])|)
  {
    SplitLinesJoin(s);
    TrimLinesSplit(SplitLines(s));
  }

  lemma TrimLinesSplit(lines: seq<string>)
    requires NoNewlines(lines) && TrimLines(lines).Ok?
    ensures var f, l := FirstNonEmpty(lines), LastNonEmpty(lines);
      f <= l && Split(TrimLines(lines).value) == DedentAll(lines[f..l + 1], |LeadingWhitespace(lines[f])|)
  {
    assert HasText(lines);
    var f, l := FirstNonEmpty(lines), LastNonEmpty(lines);
    var kept, n := lines[f..l + 1], |LeadingWhitespace(lines[f])|;
    calc {
      Split(TrimLines(lines).value);
      Split(Join(DedentAll(kept, n)));
    == { NoNewlinesSlice(lines, f, l + 1); DedentedSplits(kept, n); }
      DedentAll(kept, n);
    }
  }

  /** A slice of newline-free lines is newline-free. */
  lemma NoNewlinesSlice(lines: seq<string>, lo: nat, hi: nat)
    requires NoNewlines(lines) && lo <= hi <= |lines|
    ensures NoNewlines(lines[lo..hi])
  {
    forall k | 0 <= k < hi - lo ensures '\n' !in lines[lo..hi][k] {
      assert lines[lo..hi][k] == lines[lo + k];
    }
  }

  lemma DedentedSplits(lines: seq<string>, n: nat)
    requires NoNewlines(lines) && |lines| >= 1
    ensures Split(Join(DedentAll(lines, n))) == DedentAll(lines, n)
  {
    DedentKeepsNoNewline(lines, n);
    SplitJoin(DedentAll(lines, n));
  }

  lemma DedentKeepsNoNewline(lines: seq<string>, n: nat)
    requires NoNewlines(lines)
    ensures NoNewlines(DedentAll(lines, n))
  {
    forall k | 0 <= k < |lines| ensures '\n' !in DedentAll(lines, n)[k] {
      DedentIsSuffix(lines[k], n);
    }
  }

  /** line[n:] is the end of the line: all of it after position n, or nothing. */
  lemma DedentIsSuffix(line: string, n: nat)
    ensures var d := Dedent(line, n);
      |d| == (if n <= |line| then |line| - n else 0) && d == line[|line| - |d|..]
  {
  }

  /** When the first kept line holds a non-whitespace character, the output starts with one. */
  lemma TrimIndentFirstLine(s: string)
    requires TrimIndentSpec(s).Ok?
    requires var lines := SplitLines(s);
      exists j :: 0 <= j < |lines[FirstNonEmpty(lines)]| && !IsSpace(lines[FirstNonEmpty(lines)][j])
    ensures var out := Split(TrimIndentSpec(s).value);
      out[0] != "" && !IsSpace(out[0][0])
  {
    var lines := SplitLines(s);
    var f, l := FirstNonEmpty(lines), LastNonEmpty(lines);
    var first := lines[f];
    TrimIndentLines(s);
    assert DedentAll(lines[f..l + 1], |LeadingWhitespace(first)|)[0] == Dedent(first, |LeadingWhitespace(first)|);
    DedentedFirstLine(first);
  }

  lemma DedentedFirstLine(line: string)
    requires exists j :: 0 <= j < |line| && !IsSpace(line[j])
    ensures var d := Dedent(line, |LeadingWhitespace(line)|);
      d != "" && !IsSpace(d[0])
  {
    var j :| 0 <= j < |line| && !IsSpace(line[j]);
    var n := |LeadingWhitespace(line)|;
    assert n <= j;
    assert Dedent(line, n)[0] == line[n];
  }

  /** Later lines are cut by the first line's indentation even when they are indented less,
      so their text is lost: "  a\nb" becomes "a\n". */
  lemma TrimIndentCutsLessIndentedLines()
    ensures TrimIndentSpec("  a\nb") == Ok("a\n")
  {
    var lines := ["  a", "b"];
    LinesOfExample();
    LeadingWhitespaceIs("  a", 2);
    TrimLinesOfSpan(lines, 0, 2);
    assert lines[0..2] == lines;
    DedentedExample();
  }

  /** The example text has two lines: the indented one and the unindented one. */
  lemma LinesOfExample()
    ensures SplitLines("  a\nb") == ["  a", "b"]
  {
    SplitAfterLine("  a", "b");
    SplitWithoutNewline("b");
    assert "  a\nb" == "  a" + "\n" + "b";
  }

  /** Cutting two characters from each example line and joining them. */
  lemma DedentedExample()
    ensures Join(DedentAll(["  a", "b"], 2)) == "a\n"
  {
    var out := DedentAll(["  a", "b"], 2);
    assert out == ["a", ""];
    assert out[1..] == [""];
  }
}
