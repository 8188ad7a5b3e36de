/**
 * The code editor's syntax-highlighting segmenter, its line numbering and the
 * splice the Tab key performs.
 *
 * `parseCodeWithComments` splits the text at line feeds and cuts each line into
 * `comment`, `string` and `code` segments, carrying one bit of state from line
 * to line: whether a block comment is still open. The functions below are the
 * specification, one segment (`Step`), one line (`LineScan`) and the whole
 * text (`Highlight`) at a time; the method `ParseCodeWithComments` is the
 * nested loop, proved to produce the same segments.
 */
module Editor {
  import opened JsText

  /** The `type` of a segment. */
  datatype SegmentKind = Comment | Str | Code

  datatype Segment = Segment(kind: SegmentKind, content: string)

  /** The texts of a line's segments, concatenated. */
  function Contents(segments: seq<Segment>): string {
    if segments == [] then "" else segments[0].content + Contents(segments[1..])
  }

  // The two inner scans

  /**
   * The string scan from `p`, with `escaped` telling whether the previous
   * character was an escaping backslash: the position of the closing quote,
   * or the end of the line.
   */
  function StringEnd(line: string, quote: char, p: nat, escaped: bool): (r: nat)
    requires p <= |line|
    ensures p <= r <= |line|
    decreases |line| - p
  {
    if p >= |line| then |line|
    else if line[p] == '\\' && !escaped then StringEnd(line, quote, p + 1, true)
    else if line[p] == quote && !escaped then p
    else StringEnd(line, quote, p + 1, false)
  }

  /** The characters that end a run of ordinary code. */
  predicate IsSpecial(c: char) {
    c == '"' || c == '\'' || c == '/' || c == '*'
  }

  /** The code scan from `j`: the first special character at or after `j`, or the end of the line. */
  function CodeEnd(line: string, j: nat): (r: nat)
    requires j <= |line|
    ensures j <= r <= |line|
    ensures forall k :: j <= k < r ==> !IsSpecial(line[k])
    ensures r < |line| ==> IsSpecial(line[r])
    decreases |line| - j
  {
    if j >= |line| then |line| else if IsSpecial(line[j]) then j else CodeEnd(line, j + 1)
  }

  // One segment, one line, the whole text

  /** One turn of the inner loop: the segment cut at `pos`, where the scan goes on, and the comment state after it. */
  datatype Scan = Scan(segment: Segment, next: nat, inComment: bool)

  function Step(line: string, pos: nat, inComment: bool): (r: Scan)
    requires pos < |line|
    ensures pos < r.next <= |line|
    ensures r.segment.content == line[pos..r.next]
  {
    if !inComment && StartsWithAt(line, pos, "/*") then
      var endPos := IndexOf(line, "*/", pos + 2);
      if endPos != -1 then Scan(Segment(Comment, Substring(line, pos, endPos + 2)), endPos + 2, false)
      else Scan(Segment(Comment, Substring(line, pos, |line|)), |line|, true)
    else if inComment then
      var endPos := IndexOf(line, "*/", pos);
      if endPos != -1 then Scan(Segment(Comment, Substring(line, pos, endPos + 2)), endPos + 2, false)
      else Scan(Segment(Comment, Substring(line, pos, |line|)), |line|, true)
    else if StartsWithAt(line, pos, "//") then
      Scan(Segment(Comment, Substring(line, pos, |line|)), |line|, false)
    else if line[pos] == '"' || line[pos] == '\'' then StringSegment(line, pos)
    else
      var nextSpecial := CodeEnd(line, pos + 1);
      Scan(Segment(Code, Substring(line, pos, nextSpecial)), nextSpecial, false)
  }

  /** The string branch of `Step`: through the closing quote, or to the end of the line. */
  function StringSegment(line: string, pos: nat): (r: Scan)
    requires pos < |line|
    ensures pos < r.next <= |line|
    ensures r.segment.content == line[pos..r.next]
  {
    var endPos := StringEnd(line, line[pos], pos + 1, false);
    if endPos < |line| then Scan(Segment(Str, Substring(line, pos, endPos + 1)), endPos + 1, false)
    else Scan(Segment(Str, Substring(line, pos, |line|)), |line|, false)
  }

  /** The segments of a line from `pos` on, and the comment state at its end. */
  datatype LineResult = LineResult(segments: seq<Segment>, inComment: bool)

  /** The inner `while` loop from `pos`: the segments put back together give the rest of the line. */
  function LineScan(line: string, pos: nat, inComment: bool): (r: LineResult)
    requires pos <= |line|
    ensures Contents(r.segments) == line[pos..]
    decreases |line| - pos
  {
    if pos >= |line| then LineResult([], inComment)
    else
      var s := Step(line, pos, inComment);
      var rest := LineScan(line, s.next, s.inComment);
      LineResult([s.segment] + rest.segments, rest.inComment)
  }

  /** The outer `for` loop over the lines, entered with the comment state `inComment`. */
  function HighlightLines(lines: seq<string>, inComment: bool): (r: seq<seq<Segment>>)
    ensures |r| == |lines|
    ensures forall k :: 0 <= k < |lines| ==> Contents(r[k]) == lines[k]
  {
    if lines == [] then []
    else
      var first := LineScan(lines[0], 0, inComment);
      [first.segments] + HighlightLines(lines[1..], first.inComment)
  }

  /** `parseCodeWithComments(code)`: one segment list per line, starting outside any comment. */
  function Highlight(code: string): seq<seq<Segment>> {
    HighlightLines(Split(code, '\n'), false)
  }

  /** The text of each line of a highlighting. */
  function Texts(lines: seq<seq<Segment>>): (r: seq<string>)
    ensures |r| == |lines|
    ensures forall k :: 0 <= k < |lines| ==> r[k] == Contents(lines[k])
  {
    if lines == [] then [] else [Contents(lines[0])] + Texts(lines[1..])
  }

  // Properties of the segmenter

  /** The highlighter loses and adds nothing: one segment list per line, and its lines joined again are the text. */
  lemma HighlightRoundTrip(code: string)
    ensures |Highlight(code)| == Count(code, '\n') + 1
    ensures Join(Texts(Highlight(code)), "\n") == code
  {
    var lines := Split(code, '\n');
    assert Texts(Highlight(code)) == lines;
    JoinSplit(code, '\n');
  }

  /** The scan of a line from `pos` is the segment `Step` cuts there, then the scan from where it stops. */
  lemma LineScanStep(line: string, pos: nat, inComment: bool)
    requires pos < |line|
    ensures var s := Step(line, pos, inComment);
      var r := LineScan(line, pos, inComment);
      |r.segments| > 0 && r.segments[0] == s.segment &&
      r.segments[1..] == LineScan(line, s.next, s.inComment).segments &&
      r.inComment == LineScan(line, s.next, s.inComment).inComment
  {
    var s := Step(line, pos, inComment);
    var rest := LineScan(line, s.next, s.inComment);
    assert ([s.segment] + rest.segments)[1..] == rest.segments;
  }

  /** The highlighting of the lines from `i` on is line `i`'s scan, then the lines after it in the state it ends in. */
  lemma HighlightLinesStep(lines: seq<string>, i: nat, inComment: bool)
    requires i < |lines|
    ensures var first := LineScan(lines[i], 0, inComment);
      HighlightLines(lines[i..], inComment) == [first.segments] + HighlightLines(lines[i + 1..], first.inComment)
  {
    assert lines[i..][1..] == lines[i + 1..];
  }

  /** Outside a comment, `//` makes the rest of the line one comment segment. */
  lemma LineCommentRule(line: string, pos: nat)
    requires pos < |line| && StartsWithAt(line, pos, "//")
    ensures LineScan(line, pos, false) == LineResult([Segment(Comment, line[pos..])], false)
  {
    assert !StartsWithAt(line, pos, "/*") by {
      assert line[pos + 1] == "//"[1];
    }
    assert Step(line, pos, false) == Scan(Segment(Comment, line[pos..]), |line|, false);
    assert LineScan(line, |line|, false) == LineResult([], false);
  }

  // Outside a comment, `/*` opens a comment segment that runs to the first
  // `*/` after it, inclusive, and the line goes on outside a comment just past
  // it; without one the comment takes the rest of the line and stays open.
  lemma BlockCommentRule(line: string, pos: nat)
    requires pos < |line| && StartsWithAt(line, pos, "/*")
    ensures var endPos := IndexOf(line, "*/", pos + 2);
      if endPos == -1 then LineScan(line, pos, false) == LineResult([Segment(Comment, line[pos..])], true)
      else endPos + 2 <= |line| && Step(line, pos, false) == Scan(Segment(Comment, line[pos..endPos + 2]), endPos + 2, false)
  {
    if IndexOf(line, "*/", pos + 2) == -1 {
      UnclosedBlockComment(line, pos);
    } else {
      ClosedBlockComment(line, pos);
    }
  }

  lemma UnclosedBlockComment(line: string, pos: nat)
    requires pos < |line| && StartsWithAt(line, pos, "/*") && IndexOf(line, "*/", pos + 2) == -1
    ensures LineScan(line, pos, false) == LineResult([Segment(Comment, line[pos..])], true)
  {
    var seg := Segment(Comment, line[pos..]);
    assert Step(line, pos, false) == Scan(seg, |line|, true) by {
      SubstringInside(line, pos, |line|);
      assert line[pos..|line|] == line[pos..];
    }
    assert LineScan(line, |line|, true) == LineResult([], true);
    assert [seg] + [] == [seg];
  }

  lemma ClosedBlockComment(line: string, pos: nat)
    requires pos < |line| && StartsWithAt(line, pos, "/*") && IndexOf(line, "*/", pos + 2) != -1
    ensures var endPos := IndexOf(line, "*/", pos + 2);
      endPos + 2 <= |line| && Step(line, pos, false) == Scan(Segment(Comment, line[pos..endPos + 2]), endPos + 2, false)
  {
    var endPos := IndexOf(line, "*/", pos + 2);
    assert StartsWithAt(line, endPos, "*/");
    SubstringInside(line, pos, endPos + 2);
  }

  // A line scanned inside an open comment with no `*/` in it is all comment, and the comment stays open.
  lemma OpenCommentLine(line: string)
    requires IndexOf(line, "*/", 0) == -1
    ensures LineScan(line, 0, true) == LineResult(if line == [] then [] else [Segment(Comment, line)], true)
  {
    if line != [] {
      assert line[0..] == line;
      assert Step(line, 0, true) == Scan(Segment(Comment, line), |line|, true);
      assert LineScan(line, |line|, true) == LineResult([], true);
    }
  }

  // An open comment carries across every following line until one holds `*/`.
  lemma {:induction false} OpenCommentCarries(lines: seq<string>)
    requires forall k :: 0 <= k < |lines| ==> IndexOf(lines[k], "*/", 0) == -1
    ensures forall k :: 0 <= k < |lines| ==>
      HighlightLines(lines, true)[k] == if lines[k] == [] then [] else [Segment(Comment, lines[k])]
  {
    if lines != [] {
      OpenCommentLine(lines[0]);
      OpenCommentCarries(lines[1..]);
      var r := HighlightLines(lines, true);
      forall k | 0 <= k < |lines|
        ensures r[k] == if lines[k] == [] then [] else [Segment(Comment, lines[k])]
      {
        if k > 0 {
          assert r[k] == HighlightLines(lines[1..], true)[k - 1];
          assert lines[1..][k - 1] == lines[k];
        }
      }
    }
  }

  /** The string scan stops at the first quote, from `p` on, that is not escaped, or at the end of the line. */
  lemma {:induction false} StringEndFirst(line: string, quote: char, start: nat, p: nat)
    requires start <= p <= |line| && quote != '\\'
    ensures var e := StringEnd(line, quote, p, EscapedAt(line, start, p));
      (e < |line| ==> line[e] == quote && !EscapedAt(line, start, e)) &&
      forall j :: p <= j < e ==> !(line[j] == quote && !EscapedAt(line, start, j))
    decreases |line| - p
  {
    if p < |line| {
      var escaped := EscapedAt(line, start, p);
      assert EscapedAt(line, start, p + 1) == (line[p] == '\\' && !escaped);
      if !(line[p] == quote && !escaped) {
        StringEndFirst(line, quote, start, p + 1);
      }
    }
  }

  /**
   * Outside a comment, a quote opens a string segment that runs to the next
   * same quote not escaped by a backslash, inclusive, or to the end of the line
   * when there is none; the line goes on outside a comment, so a string never
   * spans lines.
   */
  lemma StringRule(line: string, pos: nat)
    requires pos < |line| && (line[pos] == '"' || line[pos] == '\'')
    ensures var e := StringEnd(line, line[pos], pos + 1, false);
      var next := if e < |line| then e + 1 else |line|;
      Step(line, pos, false) == Scan(Segment(Str, line[pos..next]), next, false) &&
      (e < |line| ==> line[e] == line[pos] && !EscapedAt(line, pos + 1, e)) &&
      forall j :: pos + 1 <= j < e ==> !(line[j] == line[pos] && !EscapedAt(line, pos + 1, j))
  {
    StringStep(line, pos);
    assert !EscapedAt(line, pos + 1, pos + 1);
    StringEndFirst(line, line[pos], pos + 1, pos + 1);
  }

  lemma StringStep(line: string, pos: nat)
    requires pos < |line| && (line[pos] == '"' || line[pos] == '\'')
    ensures var e := StringEnd(line, line[pos], pos + 1, false);
      var next := if e < |line| then e + 1 else |line|;
      Step(line, pos, false) == Scan(Segment(Str, line[pos..next]), next, false)
  {
    var e := StringEnd(line, line[pos], pos + 1, false);
    var next := if e < |line| then e + 1 else |line|;
    QuoteDispatch(line, pos);
    SubstringInside(line, pos, next);
  }

  /** At a quote outside a comment, the step takes the string branch. */
  lemma QuoteDispatch(line: string, pos: nat)
    requires pos < |line| && (line[pos] == '"' || line[pos] == '\'')
    ensures Step(line, pos, false) == StringSegment(line, pos)
  {
    NotStartingAt(line, pos, "/*");
    NotStartingAt(line, pos, "//");
  }

  /** A code segment holds no special character after its first. */
  lemma CodeRule(line: string, pos: nat)
    requires pos < |line| && !IsSpecial(line[pos])
    ensures var s := Step(line, pos, false);
      s.segment.kind == Code && s.inComment == false &&
      forall k :: pos < k < s.next ==> !IsSpecial(line[k])
    ensures Step(line, pos, false).next < |line| ==> IsSpecial(line[Step(line, pos, false).next])
  {
  }

  // The loops

  /** The string loop that looks for the closing quote. */
  method ScanString(line: string, quote: char, start: nat) returns (endPos: nat)
    requires start <= |line|
    ensures endPos == StringEnd(line, quote, start, false)
  {
    endPos := start;
    var escaped := false;
    while endPos < |line|
      invariant start <= endPos <= |line|
      invariant StringEnd(line, quote, start, false) == StringEnd(line, quote, endPos, escaped)
      decreases |line| - endPos
    {
      if line[endPos] == '\\' && !escaped {
        escaped := true;
      } else if line[endPos] == quote && !escaped {
        break;
      } else {
        escaped := false;
      }
      endPos := endPos + 1;
    }
  }

  /** The `for` loop that looks for the next special character. */
  method ScanCode(line: string, start: nat) returns (nextSpecial: nat)
    requires start <= |line|
    ensures nextSpecial == CodeEnd(line, start)
  {
    nextSpecial := |line|;
    var j := start;
    while j < |line|
      invariant start <= j <= |line|
      invariant CodeEnd(line, start) == CodeEnd(line, j)
      decreases |line| - j
    {
      var c := line[j];
      var opensComment := c == '/' && j + 1 < |line| && (line[j + 1] == '/' || line[j + 1] == '*');
      var closesComment := c == '*' && j + 1 < |line| && line[j + 1] == '/';
      if c == '"' || c == '\'' || c == '/' || c == '*' || opensComment || closesComment {
        nextSpecial := j;
        break;
      }
      j := j + 1;
    }
  }

  /** One turn of the inner `while` loop: the segment at `currentPos`. */
  method NextSegment(line: string, currentPos: nat, inMultiLineComment: bool) returns (r: Scan)
    requires currentPos < |line|
    ensures r == Step(line, currentPos, inMultiLineComment)
  {
    if !inMultiLineComment && StartsWithAt(line, currentPos, "/*") {
      var endPos := IndexOf(line, "*/", currentPos + 2);
      if endPos != -1 {
        r := Scan(Segment(Comment, Substring(line, currentPos, endPos + 2)), endPos + 2, false);
      } else {
        r := Scan(Segment(Comment, Substring(line, currentPos, |line|)), |line|, true);
      }
    } else if inMultiLineComment {
      var endPos := IndexOf(line, "*/", currentPos);
      if endPos != -1 {
        r := Scan(Segment(Comment, Substring(line, currentPos, endPos + 2)), endPos + 2, false);
      } else {
        r := Scan(Segment(Comment, Substring(line, currentPos, |line|)), |line|, true);
      }
    } else if StartsWithAt(line, currentPos, "//") {
      r := Scan(Segment(Comment, Substring(line, currentPos, |line|)), |line|, false);
    } else {
      var c := line[currentPos];
      if c == '"' || c == '\'' {
        var endPos := ScanString(line, c, currentPos + 1);
        if endPos < |line| {
          r := Scan(Segment(Str, Substring(line, currentPos, endPos + 1)), endPos + 1, false);
        } else {
          r := Scan(Segment(Str, Substring(line, currentPos, |line|)), |line|, false);
        }
      } else {
        var nextSpecial := ScanCode(line, currentPos + 1);
        r := Scan(Segment(Code, Substring(line, currentPos, nextSpecial)), nextSpecial, false);
      }
    }
  }

  /** Regrouping the segments of a line. */
  lemma SegmentsAssoc(a: seq<Segment>, b: seq<Segment>, c: seq<Segment>)
    ensures a + (b + c) == (a + b) + c
  {
  }

  /** The inner `while` loop of `parseCodeWithComments` over one line, entered with the comment state. */
  method ParseLine(line: string, inMultiLineComment: bool) returns (r: LineResult)
    ensures r == LineScan(line, 0, inMultiLineComment)
  {
    var processedLine := [];
    var currentPos := 0;
    var inComment := inMultiLineComment;
    while currentPos < |line|
      invariant currentPos <= |line|
      invariant LineScan(line, 0, inMultiLineComment) == LineResult(processedLine + LineScan(line, currentPos, inComment).segments, LineScan(line, currentPos, inComment).inComment)
      decreases |line| - currentPos
    {
      var s := NextSegment(line, currentPos, inComment);
      ghost var rest := LineScan(line, s.next, s.inComment);
      assert LineScan(line, currentPos, inComment) == LineResult([s.segment] + rest.segments, rest.inComment);
      SegmentsAssoc(processedLine, [s.segment], rest.segments);
      processedLine := processedLine + [s.segment];
      currentPos, inComment := s.next, s.inComment;
    }
    r := LineResult(processedLine, inComment);
  }

  /** Regrouping a list of highlighted lines. */
  lemma LinesAssoc(a: seq<seq<Segment>>, b: seq<seq<Segment>>, c: seq<seq<Segment>>)
    ensures a + (b + c) == (a + b) + c
  {
  }

  /** `parseCodeWithComments(code)`: the loop over the lines, each entered in the state the previous one left. */
  method ParseCodeWithComments(code: string) returns (result: seq<seq<Segment>>)
    ensures result == Highlight(code)
  {
    result := [];
    var lines := Split(code, '\n');
    var inMultiLineComment := false;
    ghost var all := HighlightLines(lines, false);
    assert lines[0..] == lines;
    for i := 0 to |lines|
      invariant all == result + HighlightLines(lines[i..], inMultiLineComment)
    {
      var processed := ParseLine(lines[i], inMultiLineComment);
      HighlightLinesStep(lines, i, inMultiLineComment);
      LinesAssoc(result, [processed.segments], HighlightLines(lines[i + 1..], processed.inComment));
      result := result + [processed.segments];
      inMultiLineComment := processed.inComment;
    }
    assert lines[|lines|..] == [];
    assert result + [] == result;
  }

  // Line numbers and the Tab key

  /** `getLineNumbers()`: the numbers `1 … n` of the `\n`-separated lines. */
  function LineNumbers(code: string): (r: seq<int>)
    ensures |r| == Count(code, '\n') + 1
    ensures forall k :: 0 <= k < |r| ==> r[k] == k + 1
  {
    seq(|Split(code, '\n')|, k => k + 1)
  }

  /** The text after the Tab key and where the caret goes. */
  datatype TabEdit = TabEdit(code: string, caret: nat)

  /** `handleKeyDown` for Tab: the selection `[start, end)` becomes two spaces, and the caret moves past them. */
  function InsertTab(code: string, start: nat, end: nat): TabEdit {
    TabEdit(Substring(code, 0, start) + "  " + Substring(code, end, |code|), start + 2)
  }

  /**
   * For a selection inside the text, the two spaces replace exactly the
   * selected characters, sit just before the caret, and taking them out again
   * leaves the text with the selection deleted.
   */
  lemma TabSplice(code: string, start: nat, end: nat)
    requires start <= end <= |code|
    ensures var edit := InsertTab(code, start, end);
      edit.code == code[..start] + "  " + code[end..] &&
      |edit.code| == |code| - (end - start) + 2 &&
      edit.caret == start + 2 && edit.code[start..edit.caret] == "  " &&
      edit.code[..start] + edit.code[edit.caret..] == code[..start] + code[end..]
  {
    var edit := InsertTab(code, start, end);
    assert edit.code[..start] == code[..start];
    assert edit.code[start + 2..] == code[end..];
  }
}
