/**
 * Block strings (atgql/language/block_string.py): the value of a `"""`
 * string literal computed from its raw text, and the printing of a value
 * back as a block string literal.
 */
module BlockString {
  import opened Wrappers
  import opened Text

  // ---------------------------------------------------------------------
  // is_blank
  // ---------------------------------------------------------------------

  predicate IsWhite(c: char) {
    c == ' ' || c == '\t'
  }

  /** A line made only of spaces and tabs (the empty line included). */
  predicate Blank(s: string) {
    forall k :: 0 <= k < |s| ==> IsWhite(s[k])
  }

  /** `is_blank`: scans for a character other than a space or a tab. */
  method IsBlank(s: string) returns (b: bool)
    ensures b <==> Blank(s)
  {
    for k := 0 to |s|
      invariant forall m :: 0 <= m < k ==> IsWhite(s[m])
    {
      if !IsWhite(s[k]) {
        return false;
      }
    }
    return true;
  }

  // ---------------------------------------------------------------------
  // Splitting into lines: re.split('\r\n|[\n\r]', s)
  // ---------------------------------------------------------------------

  predicate IsNewline(c: char) {
    c == '\n' || c == '\r'
  }

  predicate NoNewline(s: string) {
    forall k :: 0 <= k < |s| ==> !IsNewline(s[k])
  }

  /** The lines of `s`, split at '\r\n', '\n' or '\r', left to right. */
  function SplitLines(s: string): (lines: seq<string>)
    ensures |lines| >= 1
    ensures forall k :: 0 <= k < |lines| ==> NoNewline(lines[k])
    decreases |s|
  {
    if s == [] then [""]
    else if s[0] == '\r' && |s| >= 2 && s[1] == '\n' then [""] + SplitLines(s[2..])
    else if IsNewline(s[0]) then [""] + SplitLines(s[1..])
    else
      var rest := SplitLines(s[1..]);
      [[s[0]] + rest[0]] + rest[1..]
  }

  /** `s` with every '\r\n' and every lone '\r' written as '\n'. */
  function NormalizeNewlines(s: string): (r: string)
    ensures '\r' !in r
    decreases |s|
  {
    if s == [] then ""
    else if s[0] == '\r' && |s| >= 2 && s[1] == '\n' then "\n" + NormalizeNewlines(s[2..])
    else if s[0] == '\r' then "\n" + NormalizeNewlines(s[1..])
    else [s[0]] + NormalizeNewlines(s[1..])
  }

  /** Joining the split lines with '\n' gives the text with normalized line ends. */
  lemma {:induction false} SplitLinesJoin(s: string)
    ensures Join(SplitLines(s), "\n") == NormalizeNewlines(s)
    decreases |s|
  {
    if s == [] {
    } else if s[0] == '\r' && |s| >= 2 && s[1] == '\n' {
      SplitLinesJoin(s[2..]);
    } else if IsNewline(s[0]) {
      SplitLinesJoin(s[1..]);
    } else {
      var rest := SplitLines(s[1..]);
      SplitLinesJoin(s[1..]);
      if |rest| > 1 {
        assert ([[s[0]] + rest[0]] + rest[1..])[1..] == rest[1..];
      }
    }
  }

  /** A line without line ends splits to itself. */
  lemma {:induction false} SplitLinesOfLine(l: string)
    requires NoNewline(l)
    ensures SplitLines(l) == [l]
    decreases |l|
  {
    if l != [] {
      SplitLinesOfLine(l[1..]);
      assert [l[0]] + l[1..] == l;
    }
  }

  /** Splitting a line followed by '\n' separates that line from the rest. */
  lemma {:induction false} SplitLinesAfterLine(l: string, x: string)
    requires NoNewline(l)
    ensures SplitLines(l + "\n" + x) == [l] + SplitLines(x)
    decreases |l|
  {
    if l == [] {
      assert l + "\n" + x == "\n" + x;
      assert ("\n" + x)[1..] == x;
    } else {
      SplitLinesAfterLine(l[1..], x);
      assert (l + "\n" + x)[1..] == l[1..] + "\n" + x;
      assert [l[0]] + l[1..] == l;
    }
  }

  /** Lines without line ends, joined with '\n', split back into the same lines. */
  lemma {:induction false} SplitJoinedLines(lines: seq<string>)
    requires |lines| >= 1 && forall k :: 0 <= k < |lines| ==> NoNewline(lines[k])
    ensures SplitLines(Join(lines, "\n")) == lines
  {
    if |lines| == 1 {
      SplitLinesOfLine(lines[0]);
    } else {
      SplitJoinedLines(lines[1..]);
      SplitLinesAfterLine(lines[0], Join(lines[1..], "\n"));
      assert [lines[0]] + lines[1..] == lines;
    }
  }

  // ---------------------------------------------------------------------
  // get_block_string_indentation
  // ---------------------------------------------------------------------

  /** The unguarded `value[i + 1]` after a '\r' needs the text not to end in '\r'. */
  predicate NoTrailingCr(s: string) {
    |s| == 0 || s[|s| - 1] != '\r'
  }

  /**
   * The lines the indentation scan sees: only '\r' (or '\r\n', read as one
   * symbol) ends a line; a lone '\n' is an ordinary character of its line.
   */
  function CrLines(s: string): (lines: seq<string>)
    ensures |lines| >= 1
    ensures forall k :: 0 <= k < |lines| ==> '\r' !in lines[k]
    decreases |s|
  {
    if s == [] then [""]
    else if s[0] == '\r' then [""] + CrLines(if |s| >= 2 && s[1] == '\n' then s[2..] else s[1..])
    else
      var rest := CrLines(s[1..]);
      [[s[0]] + rest[0]] + rest[1..]
  }

  /** The number of spaces and tabs a line starts with. */
  function LeadingWhite(s: string): (n: nat)
    ensures n <= |s| && Blank(s[..n]) && (n < |s| ==> !IsWhite(s[n]))
  {
    if s != [] && IsWhite(s[0]) then
      var n := 1 + LeadingWhite(s[1..]);
      assert s[..n] == [s[0]] + s[1..][..n - 1];
      n
    else 0
  }

  /** A line counts for the indentation when it has a character other than a space or a tab. */
  predicate HasContent(s: string) {
    exists k :: 0 <= k < |s| && !IsWhite(s[k])
  }

  function MinIndent(c: Option<nat>, n: nat): Option<nat> {
    if c.None? || n < c.value then Some(n) else c
  }

  /** The smallest indentation among the lines with content, starting from `c`. */
  function IndentOfLines(lines: seq<string>, c: Option<nat>): Option<nat>
  {
    if lines == [] then c
    else IndentOfLines(lines[1..], if HasContent(lines[0]) then MinIndent(c, LeadingWhite(lines[0])) else c)
  }

  /**
   * What `get_block_string_indentation` returns: the least leading
   * whitespace over the lines with content after the first, or 0 when
   * there is none (the `or 0` of the source).
   */
  function BlockStringIndentation(value: string): nat {
    match IndentOfLines(CrLines(value)[1..], None)
    case None => 0
    case Some(n) => n
  }

  /** The variables of the scan: `is_first_line`, `is_empty_line`, `indent` and `common_indent`. */
  datatype ScanState = ScanState(isFirstLine: bool, isEmptyLine: bool, indent: nat, commonIndent: Option<nat>)

  /** The scan of `get_block_string_indentation`, one character at a time. */
  function Scan(t: string, st: ScanState): Option<nat>
    requires NoTrailingCr(t)
    decreases |t|
  {
    if t == [] then st.commonIndent
    else if t[0] == '\r' then
      Scan(if t[1] == '\n' then t[2..] else t[1..], ScanState(false, true, 0, st.commonIndent))
    else if IsWhite(t[0]) then
      Scan(t[1..], st.(indent := st.indent + 1))
    else
      var common :=
        if st.isEmptyLine && !st.isFirstLine && (st.commonIndent.None? || st.indent < st.commonIndent.value)
        then Some(st.indent) else st.commonIndent;
      Scan(t[1..], st.(isEmptyLine := false, commonIndent := common))
  }

  lemma CrLinesWhiteHead(c: char, t: string)
    requires c != '\r'
    ensures CrLines([c] + t)[0] == [c] + CrLines(t)[0]
    ensures CrLines([c] + t)[1..] == CrLines(t)[1..]
  {
    assert ([c] + t)[1..] == t;
  }

  /** A line has content exactly when its first character or the rest of it does. */
  lemma ContentCons(c: char, s: string)
    ensures HasContent([c] + s) <==> !IsWhite(c) || HasContent(s)
  {
    var line := [c] + s;
    if !IsWhite(c) {
      assert line[0] == c;
    }
    if HasContent(s) {
      var k :| 0 <= k < |s| && !IsWhite(s[k]);
      assert line[k + 1] == s[k];
    }
    if HasContent(line) && IsWhite(c) {
      var k :| 0 <= k < |line| && !IsWhite(line[k]);
      assert s[k - 1] == line[k];
    }
  }

  /**
   * The scan in terms of lines: the line being read (when nothing but
   * whitespace has been seen on it, `indent` of it) and the lines after it.
   */
  function ScanOfLines(t: string, st: ScanState): Option<nat> {
    var lines := CrLines(t);
    var head :=
      if st.isEmptyLine && !st.isFirstLine && HasContent(lines[0])
      then MinIndent(st.commonIndent, st.indent + LeadingWhite(lines[0]))
      else st.commonIndent;
    IndentOfLines(lines[1..], head)
  }

  /** The character scan and the fold over lines agree. */
  lemma {:induction false} ScanLines(t: string, st: ScanState)
    requires NoTrailingCr(t)
    ensures Scan(t, st) == ScanOfLines(t, st)
    decreases |t|
  {
    if t == [] {
      assert !HasContent("");
    } else if t[0] == '\r' {
      var rest := if t[1] == '\n' then t[2..] else t[1..];
      ScanLines(rest, ScanState(false, true, 0, st.commonIndent));
      LineEndStep(t, st);
    } else if IsWhite(t[0]) {
      ScanLines(t[1..], st.(indent := st.indent + 1));
      WhiteStep(t, st);
    } else {
      var common :=
        if st.isEmptyLine && !st.isFirstLine && (st.commonIndent.None? || st.indent < st.commonIndent.value)
        then Some(st.indent) else st.commonIndent;
      ScanLines(t[1..], st.(isEmptyLine := false, commonIndent := common));
      ContentStep(t, st);
    }
  }

  /** A line end closes the current line and starts an empty one. */
  lemma LineEndStep(t: string, st: ScanState)
    requires NoTrailingCr(t) && t != [] && t[0] == '\r'
    ensures var rest := if t[1] == '\n' then t[2..] else t[1..];
      ScanOfLines(t, st) == ScanOfLines(rest, ScanState(false, true, 0, st.commonIndent))
  {
    var rest := if t[1] == '\n' then t[2..] else t[1..];
    assert !HasContent("");
    assert CrLines(t)[1..] == CrLines(rest);
  }

  /** A space or a tab adds one to the indentation of the line being read. */
  lemma WhiteStep(t: string, st: ScanState)
    requires t != [] && IsWhite(t[0])
    ensures ScanOfLines(t, st) == ScanOfLines(t[1..], st.(indent := st.indent + 1))
  {
    var lines, restLines := CrLines(t), CrLines(t[1..]);
    CrLinesWhiteHead(t[0], t[1..]);
    assert [t[0]] + t[1..] == t;
    ContentCons(t[0], restLines[0]);
    assert lines[0][1..] == restLines[0];
  }

  /** Any other character ends the indentation of the line being read. */
  lemma ContentStep(t: string, st: ScanState)
    requires t != [] && t[0] != '\r' && !IsWhite(t[0])
    ensures var common :=
        if st.isEmptyLine && !st.isFirstLine && (st.commonIndent.None? || st.indent < st.commonIndent.value)
        then Some(st.indent) else st.commonIndent;
      ScanOfLines(t, st) == ScanOfLines(t[1..], st.(isEmptyLine := false, commonIndent := common))
  {
    var lines, restLines := CrLines(t), CrLines(t[1..]);
    CrLinesWhiteHead(t[0], t[1..]);
    assert [t[0]] + t[1..] == t;
    ContentCons(t[0], restLines[0]);
  }

  /**
   * `get_block_string_indentation`. The source tests `value[i] == '\r'`
   * twice; the second branch can never be taken and is not repeated here.
   */
  method GetBlockStringIndentation(value: string) returns (r: nat)
    requires NoTrailingCr(value)
    ensures r == BlockStringIndentation(value)
  {
    var isFirstLine, isEmptyLine, indent, commonIndent := true, true, 0, None;
    var i := 0;
    while i < |value|
      invariant i <= |value|
      invariant Scan(value[i..], ScanState(isFirstLine, isEmptyLine, indent, commonIndent))
        == Scan(value, ScanState(true, true, 0, None))
    {
      assert value[i..][0] == value[i];
      if value[i] == '\r' {
        if value[i + 1] == '\n' {
          assert value[i..][2..] == value[i + 2..];
          i := i + 1;  // skip '\r\n' as one symbol
        } else {
          assert value[i..][1..] == value[i + 1..];
        }
        isFirstLine, isEmptyLine, indent := false, true, 0;
      } else if IsWhite(value[i]) {
        assert value[i..][1..] == value[i + 1..];
        indent := indent + 1;
      } else {
        assert value[i..][1..] == value[i + 1..];
        if isEmptyLine && !isFirstLine && (commonIndent.None? || indent < commonIndent.value) {
          commonIndent := Some(indent);
        }
        isEmptyLine := false;
      }
      i := i + 1;
    }
    ScanLines(value, ScanState(true, true, 0, None));
    r := if commonIndent.Some? then commonIndent.value else 0;
  }

  /** The fold over lines finds the least indentation among lines with content, if any. */
  lemma {:induction false} IndentOfLinesIsMin(lines: seq<string>, c: Option<nat>)
    ensures var r := IndentOfLines(lines, c);
      && (r.None? <==> c.None? && forall k :: 0 <= k < |lines| ==> !HasContent(lines[k]))
      && (r.Some? ==> (c.Some? && r.value <= c.value) || c.None?)
      && (r.Some? ==> forall k :: 0 <= k < |lines| && HasContent(lines[k]) ==> r.value <= LeadingWhite(lines[k]))
      && (r.Some? ==> r == c || exists k :: 0 <= k < |lines| && HasContent(lines[k]) && r.value == LeadingWhite(lines[k]))
  {
    if lines != [] {
      var next := if HasContent(lines[0]) then MinIndent(c, LeadingWhite(lines[0])) else c;
      IndentOfLinesIsMin(lines[1..], next);
      var r := IndentOfLines(lines, c);
      if r.Some? && r != c && r != next {
        var k :| 0 <= k < |lines[1..]| && HasContent(lines[1..][k]) && r.value == LeadingWhite(lines[1..][k]);
        assert lines[k + 1] == lines[1..][k];
      }
      forall k | 0 <= k < |lines| && HasContent(lines[k]) && r.Some?
        ensures r.value <= LeadingWhite(lines[k])
      {
        if k > 0 {
          assert lines[k] == lines[1..][k - 1];
        }
      }
      if r.None? {
        forall k | 0 <= k < |lines|
          ensures !HasContent(lines[k])
        {
          if k > 0 {
            assert lines[k] == lines[1..][k - 1];
          }
        }
      }
    }
  }

  /**
   * The indentation is that of some line with content after the first
   * '\r'-delimited line, and no such line is indented less; with no such
   * line it is 0.
   */
  lemma IndentationIsLeastIndent(value: string)
    ensures var lines := CrLines(value)[1..];
      && (forall k :: 0 <= k < |lines| && HasContent(lines[k]) ==> BlockStringIndentation(value) <= LeadingWhite(lines[k]))
      && ((exists k :: 0 <= k < |lines| && HasContent(lines[k])) ==>
            exists k :: 0 <= k < |lines| && HasContent(lines[k]) && BlockStringIndentation(value) == LeadingWhite(lines[k]))
      && ((forall k :: 0 <= k < |lines| ==> !HasContent(lines[k])) ==> BlockStringIndentation(value) == 0)
  {
    IndentOfLinesIsMin(CrLines(value)[1..], None);
  }

  /** Without a '\r' there is only the first line, whose indentation never counts. */
  lemma {:induction false} NoCrNoIndentation(value: string)
    requires '\r' !in value
    ensures BlockStringIndentation(value) == 0
  {
    CrLinesWithoutCr(value);
  }

  lemma {:induction false} CrLinesWithoutCr(s: string)
    requires '\r' !in s
    ensures CrLines(s) == [s]
    decreases |s|
  {
    if s != [] {
      CrLinesWithoutCr(s[1..]);
      assert [s[0]] + s[1..] == s;
    }
  }

  // ---------------------------------------------------------------------
  // dedent_block_string_value
  // ---------------------------------------------------------------------

  /** `s[n:]` for `n >= 0`. */
  function Drop(s: string, n: nat): (r: string)
    ensures |r| == if n <= |s| then |s| - n else 0
    ensures r == s[|s| - |r|..]
  {
    if n <= |s| then s[n..] else ""
  }

  /** Every line, the first included, loses its first `indent` characters. */
  function DropIndent(lines: seq<string>, indent: nat): (r: seq<string>)
    ensures |r| == |lines|
    ensures forall k :: 0 <= k < |lines| ==> r[k] == Drop(lines[k], indent)
  {
    seq(|lines|, k requires 0 <= k < |lines| => Drop(lines[k], indent))
  }

  /** The index of the first non-blank line at or after `from`. */
  function FirstNonBlank(lines: seq<string>, from: nat): (s: nat)
    requires from <= |lines|
    ensures from <= s <= |lines|
    ensures forall k :: from <= k < s ==> Blank(lines[k])
    ensures s < |lines| ==> !Blank(lines[s])
    decreases |lines| - from
  {
    if from < |lines| && Blank(lines[from]) then FirstNonBlank(lines, from + 1) else from
  }

  /** One past the last non-blank line before `upTo`, not going below `start`. */
  function LastNonBlank(lines: seq<string>, start: nat, upTo: nat): (e: nat)
    requires start <= upTo <= |lines|
    ensures start <= e <= upTo
    ensures forall k :: e <= k < upTo ==> Blank(lines[k])
    ensures e > start ==> !Blank(lines[e - 1])
    decreases upTo
  {
    if upTo > start && Blank(lines[upTo - 1]) then LastNonBlank(lines, start, upTo - 1) else upTo
  }

  /** The lines without the blank lines at either end. */
  function TrimBlankLines(lines: seq<string>): seq<string> {
    var start := FirstNonBlank(lines, 0);
    lines[start..LastNonBlank(lines, start, |lines|)]
  }

  /** The value `dedent_block_string_value` computes. */
  function Dedent(raw: string): string
    requires NoTrailingCr(raw)
  {
    Join(TrimBlankLines(DropIndent(SplitLines(raw), BlockStringIndentation(raw))), "\n")
  }

  lemma DropNoIndent(lines: seq<string>)
    ensures DropIndent(lines, 0) == lines
  {
    assert forall k :: 0 <= k < |lines| ==> DropIndent(lines, 0)[k] == lines[k];
  }

  /** The loop of `dedent_block_string_value` that skips leading blank lines. */
  method FirstNonBlankLine(lines: seq<string>) returns (startLine: nat)
    ensures startLine == FirstNonBlank(lines, 0)
  {
    startLine := 0;
    while startLine < |lines|
      invariant startLine <= |lines|
      invariant forall k :: 0 <= k < startLine ==> Blank(lines[k])
    {
      var blank := IsBlank(lines[startLine]);
      if !blank {
        break;
      }
      startLine := startLine + 1;
    }
    FirstNonBlankUnique(lines, 0, startLine);
  }

  /** The loop of `dedent_block_string_value` that skips trailing blank lines. */
  method LastNonBlankLine(lines: seq<string>, startLine: nat) returns (endLine: nat)
    requires startLine <= |lines|
    ensures endLine == LastNonBlank(lines, startLine, |lines|)
  {
    endLine := |lines|;
    while endLine > startLine
      invariant startLine <= endLine <= |lines|
      invariant forall k :: endLine <= k < |lines| ==> Blank(lines[k])
    {
      var blank := IsBlank(lines[endLine - 1]);
      if !blank {
        break;
      }
      endLine := endLine - 1;
    }
    LastNonBlankUnique(lines, startLine, |lines|, endLine);
  }

  /** The loop of `dedent_block_string_value` that slices the common indentation off each line. */
  method RemoveIndent(lines: seq<string>, commonIndent: nat) returns (result: seq<string>)
    ensures result == DropIndent(lines, commonIndent)
  {
    result := lines;
    for i := 0 to |result|
      invariant |result| == |lines|
      invariant forall k :: 0 <= k < i ==> result[k] == Drop(lines[k], commonIndent)
      invariant forall k :: i <= k < |result| ==> result[k] == lines[k]
    {
      result := result[i := Drop(result[i], commonIndent)];
    }
  }

  /**
   * `dedent_block_string_value`: split the raw text into lines, cut the
   * common indentation off each, skip blank lines at both ends, join with '\n'.
   */
  method DedentBlockStringValue(rawString: string) returns (r: string)
    requires NoTrailingCr(rawString)
    ensures r == Dedent(rawString)
  {
    var lines := SplitLines(rawString);
    var commonIndent := GetBlockStringIndentation(rawString);
    if commonIndent != 0 {
      lines := RemoveIndent(lines, commonIndent);
    } else {
      DropNoIndent(lines);
    }
    assert lines == DropIndent(SplitLines(rawString), BlockStringIndentation(rawString));

    var startLine := FirstNonBlankLine(lines);
    var endLine := LastNonBlankLine(lines, startLine);
    r := Join(lines[startLine..endLine], "\n");
  }

  /** The first non-blank line is the only index with blank lines before it and a non-blank one at it. */
  lemma {:induction false} FirstNonBlankUnique(lines: seq<string>, from: nat, s: nat)
    requires from <= s <= |lines|
    requires forall k :: from <= k < s ==> Blank(lines[k])
    requires s < |lines| ==> !Blank(lines[s])
    ensures s == FirstNonBlank(lines, from)
    decreases |lines| - from
  {
    if from < s {
      FirstNonBlankUnique(lines, from + 1, s);
    }
  }

  lemma {:induction false} LastNonBlankUnique(lines: seq<string>, start: nat, upTo: nat, e: nat)
    requires start <= e <= upTo <= |lines|
    requires forall k :: e <= k < upTo ==> Blank(lines[k])
    requires e > start ==> !Blank(lines[e - 1])
    ensures e == LastNonBlank(lines, start, upTo)
    decreases upTo
  {
    if e < upTo {
      LastNonBlankUnique(lines, start, upTo - 1, e);
    }
  }

  /** The trimmed lines are a run of the lines, starting at the first non-blank one. */
  lemma TrimmedRun(lines: seq<string>)
    ensures var start := FirstNonBlank(lines, 0);
      var t := TrimBlankLines(lines);
      start + |t| <= |lines| && forall k :: 0 <= k < |t| ==> t[k] == lines[start + k]
  {
  }

  /**
   * Each kept line is a line of the input, in order from the first one that is
   * not blank once dedented, with the common indent cut off.
   */
  lemma TrimmedDroppedLines(lines: seq<string>, indent: nat)
    ensures var start := FirstNonBlank(DropIndent(lines, indent), 0);
      var t := TrimBlankLines(DropIndent(lines, indent));
      start + |t| <= |lines| && forall k :: 0 <= k < |t| ==> t[k] == Drop(lines[start + k], indent)
  {
    TrimmedRun(DropIndent(lines, indent));
  }

  /**
   * Splitting the value at its line ends gives back exactly the dedented lines that
   * remain after trimming (`TrimmedDroppedLines` says where each comes from); the
   * value is empty when none remain.
   */
  lemma DedentLines(raw: string)
    requires NoTrailingCr(raw)
    ensures var t := TrimBlankLines(DropIndent(SplitLines(raw), BlockStringIndentation(raw)));
      && (t == [] ==> Dedent(raw) == "")
      && (t != [] ==> SplitLines(Dedent(raw)) == t)
  {
    var lines := SplitLines(raw);
    var indent := BlockStringIndentation(raw);
    var dropped := DropIndent(lines, indent);
    var t := TrimBlankLines(dropped);
    if t != [] {
      DropIndentNoNewline(lines, indent);
      TrimNoNewline(dropped);
      SplitJoinedLines(t);
    }
  }

  /** The value has no '\r': every line end became '\n'. */
  lemma DedentHasNoCr(raw: string)
    requires NoTrailingCr(raw)
    ensures '\r' !in Dedent(raw)
  {
    var lines := SplitLines(raw);
    var dropped := DropIndent(lines, BlockStringIndentation(raw));
    DropIndentNoNewline(lines, BlockStringIndentation(raw));
    var trimmed := TrimBlankLines(dropped);
    TrimNoNewline(dropped);
    forall k | 0 <= k < |trimmed|
      ensures '\r' !in trimmed[k]
    {
      assert NoNewline(trimmed[k]);
    }
    JoinAvoids(trimmed, "\n", '\r');
  }

  /** Skipping blank lines at both ends keeps lines without line ends. */
  lemma TrimNoNewline(lines: seq<string>)
    requires forall k :: 0 <= k < |lines| ==> NoNewline(lines[k])
    ensures forall k :: 0 <= k < |TrimBlankLines(lines)| ==> NoNewline(TrimBlankLines(lines)[k])
  {
    var trimmed := TrimBlankLines(lines);
    var start := FirstNonBlank(lines, 0);
    forall k | 0 <= k < |trimmed|
      ensures NoNewline(trimmed[k])
    {
      assert trimmed[k] == lines[start + k];
    }
  }

  /** Cutting indentation off lines without line ends leaves lines without line ends. */
  lemma DropIndentNoNewline(lines: seq<string>, n: nat)
    requires forall k :: 0 <= k < |lines| ==> NoNewline(lines[k])
    ensures forall k :: 0 <= k < |lines| ==> NoNewline(DropIndent(lines, n)[k])
  {
    forall k | 0 <= k < |lines|
      ensures NoNewline(DropIndent(lines, n)[k])
    {
      var l := lines[k];
      assert DropIndent(lines, n)[k] == l[|l| - |Drop(l, n)|..];
    }
  }

  /** Trimmed lines without line ends, joined, split back with a non-blank line at each end. */
  lemma JoinedTrimmedEnds(lines: seq<string>)
    requires forall k :: 0 <= k < |lines| ==> NoNewline(lines[k])
    ensures var joined := Join(TrimBlankLines(lines), "\n");
      joined != "" ==> !Blank(SplitLines(joined)[0]) && !Blank(SplitLines(joined)[|SplitLines(joined)| - 1])
  {
    var trimmed := TrimBlankLines(lines);
    if trimmed != [] {
      TrimNoNewline(lines);
      SplitJoinedLines(trimmed);
    }
  }

  /** A non-empty value neither starts nor ends with a blank line. */
  lemma DedentHasNoBlankEnds(raw: string)
    requires NoTrailingCr(raw)
    ensures var lines := SplitLines(Dedent(raw));
      Dedent(raw) != "" ==> !Blank(lines[0]) && !Blank(lines[|lines| - 1])
  {
    var indent := BlockStringIndentation(raw);
    DropIndentNoNewline(SplitLines(raw), indent);
    JoinedTrimmedEnds(DropIndent(SplitLines(raw), indent));
  }

  // ---------------------------------------------------------------------
  // print_block_string
  // ---------------------------------------------------------------------

  const TripleQuote: string := "\"\"\""

  /** `"""` starts at index `i` of `t`. */
  predicate QuotesAt(t: string, i: nat) {
    i + 3 <= |t| && t[i] == '"' && t[i + 1] == '"' && t[i + 2] == '"'
  }

  /** `s.replace('"""', '\\"""')`: left to right, without overlaps. */
  function EscapeTripleQuotes(s: string): string
    decreases |s|
  {
    if QuotesAt(s, 0) then "\\" + TripleQuote + EscapeTripleQuotes(s[3..])
    else if s == [] then ""
    else [s[0]] + EscapeTripleQuotes(s[1..])
  }

  /** The text between the quotes before escaping (lines 83-97 of the source). */
  function BlockBody(value: string, preferMultipleLines: bool): (body: string)
    requires |value| > 0
    ensures var isSingleLine := '\n' !in value;
      var multiple := !isSingleLine || value[|value| - 1] == '"' || value[|value| - 1] == '\\' || preferMultipleLines;
      && (!multiple ==> body == value)
      && (multiple && isSingleLine && IsWhite(value[0]) ==> body == value + "\n")
      && (multiple && !(isSingleLine && IsWhite(value[0])) ==> body == "\n" + value + "\n")
  {
    var isSingleLine := '\n' !in value;
    var hasLeadingSpace := value[0] == ' ' || value[0] == '\t';
    var hasTrailingQuote := value[|value| - 1] == '"';
    var hasTrailingSlash := value[|value| - 1] == '\\';
    var printAsMultipleLines := !isSingleLine || hasTrailingQuote || hasTrailingSlash || preferMultipleLines;
    var lead := if printAsMultipleLines && !(isSingleLine && hasLeadingSpace) then "\n" else "";
    var trail := if printAsMultipleLines then "\n" else "";
    lead + value + trail
  }

  /** `print_block_string`: the value as a `"""` literal. */
  function PrintBlockString(value: string, preferMultipleLines: bool := false): string
    requires |value| > 0
  {
    TripleQuote + EscapeTripleQuotes(BlockBody(value, preferMultipleLines)) + TripleQuote
  }

  /**
   * How a GraphQL lexer reads a block string's raw text after the opening
   * `"""`: up to the first unescaped `"""`, with `\"""` standing for `"""`
   * (BlockStringCharacter, section 2.9.4 of the GraphQL specification).
   * Returns the raw text and what follows the closing quotes.
   */
  function ReadBlockBody(t: string): Option<(string, string)>
    decreases |t|
  {
    if QuotesAt(t, 0) then Some(("", t[3..]))
    else if |t| >= 1 && t[0] == '\\' && QuotesAt(t, 1) then
      match ReadBlockBody(t[4..])
      case None => None
      case Some(p) => Some((TripleQuote + p.0, p.1))
    else if t == [] then None
    else
      match ReadBlockBody(t[1..])
      case None => None
      case Some(p) => Some(([t[0]] + p.0, p.1))
  }

  /** The first character of escaped text followed by closing quotes. */
  lemma EscapedFirst(y: string, rest: string)
    ensures var u := EscapeTripleQuotes(y) + TripleQuote + rest;
      && |u| >= 3
      && u[0] == (if y == [] then '"' else if QuotesAt(y, 0) then '\\' else y[0])
      && (y != [] && !QuotesAt(y, 0) ==> u[1..] == EscapeTripleQuotes(y[1..]) + TripleQuote + rest)
  {
  }

  /** The escaped text cannot end early: its closing quotes are the first unescaped ones. */
  lemma {:induction false} EscapeRoundTrip(x: string, rest: string)
    requires x == [] || (x[|x| - 1] != '"' && x[|x| - 1] != '\\')
    ensures ReadBlockBody(EscapeTripleQuotes(x) + TripleQuote + rest) == Some((x, rest))
    decreases |x|
  {
    if x == [] {
      var t := TripleQuote + rest;
      assert t[3..] == rest;
    } else if QuotesAt(x, 0) {
      EscapeRoundTrip(x[3..], rest);
      EscapedQuotesStep(x, rest);
    } else {
      EscapeRoundTrip(x[1..], rest);
      EscapedCharStep(x, rest);
    }
  }

  /** Reading back an escaped '"""' at the front of the body. */
  lemma EscapedQuotesStep(x: string, rest: string)
    requires QuotesAt(x, 0)
    requires ReadBlockBody(EscapeTripleQuotes(x[3..]) + TripleQuote + rest) == Some((x[3..], rest))
    ensures ReadBlockBody(EscapeTripleQuotes(x) + TripleQuote + rest) == Some((x, rest))
  {
    var t := EscapeTripleQuotes(x) + TripleQuote + rest;
    var u := EscapeTripleQuotes(x[3..]) + TripleQuote + rest;
    assert t == "\\" + TripleQuote + u;
    assert t[4..] == u;
    assert TripleQuote + x[3..] == x;
  }

  /** Reading back one unescaped character at the front of the body. */
  lemma EscapedCharStep(x: string, rest: string)
    requires |x| >= 1 && x[|x| - 1] != '"' && x[|x| - 1] != '\\' && !QuotesAt(x, 0)
    requires ReadBlockBody(EscapeTripleQuotes(x[1..]) + TripleQuote + rest) == Some((x[1..], rest))
    ensures ReadBlockBody(EscapeTripleQuotes(x) + TripleQuote + rest) == Some((x, rest))
  {
    var t := EscapeTripleQuotes(x) + TripleQuote + rest;
    var u := EscapeTripleQuotes(x[1..]) + TripleQuote + rest;
    assert t == [x[0]] + u;
    EscapedHead(x, rest);
    assert t[1..] == u;
    assert [x[0]] + x[1..] == x;
  }


  /**
   * After a character of `x` that does not start `"""`, the escaped text
   * does not continue into `"""` (or `\"""` after a backslash).
   */
  lemma EscapedHead(x: string, rest: string)
    requires |x| >= 1 && (x[|x| - 1] != '"' && x[|x| - 1] != '\\')
    requires !QuotesAt(x, 0)
    ensures var t := [x[0]] + EscapeTripleQuotes(x[1..]) + TripleQuote + rest;
      !QuotesAt(t, 0) && !(t[0] == '\\' && QuotesAt(t, 1))
  {
    var y := x[1..];
    var u := EscapeTripleQuotes(y) + TripleQuote + rest;
    var t := [x[0]] + u;
    assert t == [x[0]] + EscapeTripleQuotes(x[1..]) + TripleQuote + rest;
    EscapedFirst(y, rest);
    if (x[0] == '"' || x[0] == '\\') && y != [] && !QuotesAt(y, 0) && y[0] == '"' {
      var z := y[1..];
      EscapedFirst(z, rest);
      assert z != [];
      if x[0] == '"' {
        assert !QuotesAt(z, 0) && z[0] != '"';
      } else if !QuotesAt(z, 0) && z[0] == '"' {
        var w := z[1..];
        EscapedFirst(w, rest);
        assert w != [];
        assert !QuotesAt(w, 0) && w[0] != '"';
      }
    }
  }

  lemma Enclosed(e: string)
    ensures var t := TripleQuote + e + TripleQuote;
      t[..3] == TripleQuote && t[3..] == e + TripleQuote
  {
  }

  /** The printed body never ends in '"' or '\\', so the closing quotes cannot be taken as escaped. */
  lemma BodyEnd(value: string, preferMultipleLines: bool)
    requires |value| > 0
    ensures var body := BlockBody(value, preferMultipleLines);
      body != [] && body[|body| - 1] != '"' && body[|body| - 1] != '\\'
  {
    var body := BlockBody(value, preferMultipleLines);
    var isSingleLine := '\n' !in value;
    if !isSingleLine || value[|value| - 1] == '"' || value[|value| - 1] == '\\' || preferMultipleLines {
      assert body[|body| - 1] == '\n';
    } else {
      assert body == value;
    }
  }

  /**
   * Reading the printed literal back gives the text between the quotes:
   * every `"""` inside it was escaped, and it never ends in a quote or a
   * backslash that would run into the closing quotes.
   */
  lemma PrintBlockStringRoundTrip(value: string, preferMultipleLines: bool)
    requires |value| > 0
    ensures var printed := PrintBlockString(value, preferMultipleLines);
      printed[..3] == TripleQuote && ReadBlockBody(printed[3..]) == Some((BlockBody(value, preferMultipleLines), ""))
  {
    var body := BlockBody(value, preferMultipleLines);
    BodyEnd(value, preferMultipleLines);
    EscapeRoundTrip(body, "");
    var escaped := EscapeTripleQuotes(body);
    assert escaped + TripleQuote + "" == escaped + TripleQuote;
    Enclosed(escaped);
  }

  /** The value 'a"""b' prints with the inner quotes escaped. */
  lemma PrintExample()
    ensures PrintBlockString("a\"\"\"b") == "\"\"\"a\\\"\"\"b\"\"\""
  {
    assert EscapeTripleQuotes("b") == "b";
    assert EscapeTripleQuotes("\"\"\"b") == "\\\"\"\"b";
    assert EscapeTripleQuotes("a\"\"\"b") == "a\\\"\"\"b";
  }
}
