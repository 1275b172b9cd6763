/**
 * middleware/profiling/surround_code.py: `SurroundingCodeSpanProcessor.on_start`,
 * which finds the application frame that started a span, reads a window of
 * source lines around its line and stores them, numbered, as the span attribute
 * `code.surrounding`.
 *
 * The call stack, the interpreter version and the readable source files are
 * inputs: a file that `open` can read is a key of `files`, mapped to what
 * `readlines()` returns for it.
 */
module SurroundCode {
  import opened Wrappers
  import opened Strings
  import opened Tracing

  /** The two fields of an `inspect.FrameInfo` the processor reads. */
  datatype FrameInfo = FrameInfo(filename: string, lineno: nat)

  /** What `on_start` raises: `stack[0]` of an empty stack, or the unbound `start_line`. */
  datatype CaptureError = IndexError | NameError

  const CODE_SURROUNDING := "code.surrounding"

  /** `f"python{major}.{minor}"`, the fragment of the standard library's install path. */
  function VersionTag(major: nat, minor: nat): string {
    "python" + NatToString(major) + "." + NatToString(minor)
  }

  /** A frame of the application rather than of the interpreter or an installed package. */
  predicate IsApplicationFile(filename: string, tag: string) {
    !Contains(filename, tag) && !Contains(filename, "site-packages") && !Contains(filename, "dist-packages")
  }

  /** The index of the last application frame of the stack, the first one `reversed(stack)` meets. */
  function OutermostApplication(stack: seq<FrameInfo>, tag: string): (r: Option<nat>)
    ensures r.Some? ==> r.value < |stack|
    decreases |stack|
  {
    if stack == [] then None
    else if IsApplicationFile(stack[|stack| - 1].filename, tag) then Some(|stack| - 1)
    else OutermostApplication(stack[..|stack| - 1], tag)
  }

  /** The found frame is an application frame and every frame after it is not; none is found only when no frame qualifies. */
  lemma {:induction false} OutermostApplicationSpec(stack: seq<FrameInfo>, tag: string)
    ensures var r := OutermostApplication(stack, tag);
      r.Some? ==>
        && IsApplicationFile(stack[r.value].filename, tag)
        && forall j :: r.value < j < |stack| ==> !IsApplicationFile(stack[j].filename, tag)
    ensures OutermostApplication(stack, tag).None? <==>
      forall j :: 0 <= j < |stack| ==> !IsApplicationFile(stack[j].filename, tag)
    decreases |stack|
  {
    if stack != [] && !IsApplicationFile(stack[|stack| - 1].filename, tag) {
      var init := stack[..|stack| - 1];
      OutermostApplicationSpec(init, tag);
      assert forall j :: 0 <= j < |init| ==> init[j] == stack[j];
    }
  }

  /** `calling_frame` after the for/else loop, or the IndexError of `stack[0]` on an empty stack. */
  function CallingFrame(stack: seq<FrameInfo>, tag: string): (r: Result<FrameInfo, CaptureError>)
    ensures r.Err? <==> stack == []
    ensures r.Err? ==> r.error == IndexError
    ensures r.Ok? ==> r.value in stack
  {
    match OutermostApplication(stack, tag)
    case Some(k) => Ok(stack[k])
    case None => if stack == [] then Err(IndexError) else Ok(stack[0])
  }

  /** The loop of lines 25-35: scan outermost-first, stop at the first application frame. */
  method SelectCallingFrame(stack: seq<FrameInfo>, tag: string) returns (calling: Result<FrameInfo, CaptureError>)
    ensures calling == CallingFrame(stack, tag)
  {
    var i := |stack|;
    assert stack[..i] == stack;
    while i > 0
      invariant 0 <= i <= |stack|
      invariant OutermostApplication(stack[..i], tag) == OutermostApplication(stack, tag)
      decreases i
    {
      var frameInfo := stack[i - 1];
      if IsApplicationFile(frameInfo.filename, tag) {
        return Ok(frameInfo);
      }
      assert stack[..i][..i - 1] == stack[..i - 1];
      i := i - 1;
    }
    if stack == [] {
      return Err(IndexError);
    }
    calling := Ok(stack[0]);
  }

  /** The selected frame is the outermost application frame or, with none, the innermost frame. */
  lemma CallingFrameChoice(stack: seq<FrameInfo>, tag: string)
    ensures CallingFrame(stack, tag).Err? <==> stack == []
    ensures forall k :: 0 <= k < |stack| ==>
      ((IsApplicationFile(stack[k].filename, tag)
        && forall j :: k < j < |stack| ==> !IsApplicationFile(stack[j].filename, tag))
       ==> CallingFrame(stack, tag) == Ok(stack[k]))
    ensures stack != [] && (forall j :: 0 <= j < |stack| ==> !IsApplicationFile(stack[j].filename, tag))
      ==> CallingFrame(stack, tag) == Ok(stack[0])
  {
    OutermostApplicationSpec(stack, tag);
  }

  function StartLine(lineno: nat): nat {
    if lineno >= 6 then lineno - 6 else 0
  }

  function EndLine(lineno: nat): nat {
    lineno + 4
  }

  function Min(a: nat, b: nat): nat {
    if a <= b then a else b
  }

  /** `lines[start_line:end_line]`, with Python's clipping of slice bounds past the end. */
  function Window(lines: seq<string>, lineno: nat): (w: seq<string>)
    ensures |w| <= 10
    ensures |w| == Min(EndLine(lineno), |lines|) - Min(StartLine(lineno), |lines|)
    ensures forall i :: 0 <= i < |w| ==> StartLine(lineno) + i < |lines| && w[i] == lines[StartLine(lineno) + i]
  {
    lines[Min(StartLine(lineno), |lines|)..Min(EndLine(lineno), |lines|)]
  }

  /** A call line inside the file appears in the window, at its offset from the window's first line. */
  lemma WindowHoldsCallLine(lines: seq<string>, lineno: nat)
    requires 1 <= lineno <= |lines|
    ensures lineno - 1 - StartLine(lineno) < |Window(lines, lineno)|
    ensures Window(lines, lineno)[lineno - 1 - StartLine(lineno)] == lines[lineno - 1]
  {
  }

  /** `f"{n}: {line.strip()}"`. */
  function FormatLine(n: nat, line: string): string {
    NatToString(n) + ": " + Strip(line)
  }

  /** The comprehension of line 56 over the window that starts at file index `start`. */
  function CodeLines(window: seq<string>, start: nat): seq<string> {
    seq(|window|, i requires 0 <= i < |window| => FormatLine(i + start + 1, window[i]))
  }

  /** The codeblock for a call at `lineno` in a file holding `lines`. */
  function Codeblock(lines: seq<string>, lineno: nat): string {
    Join(CodeLines(Window(lines, lineno), StartLine(lineno)), '\n')
  }

  /** The attribute value of line 59. */
  function SurroundingText(filename: string, lineno: nat, lines: seq<string>): string {
    "path = " + filename + " at line " + NatToString(lineno) + "\ncodeblock = " + Codeblock(lines, lineno)
  }

  /** The attribute value starts with the path and ends with the codeblock, after a newline. */
  lemma SurroundingTextParts(filename: string, lineno: nat, lines: seq<string>)
    ensures var text := SurroundingText(filename, lineno, lines);
      var tail := "\ncodeblock = " + Codeblock(lines, lineno);
      && |"path = " + filename| + |tail| <= |text|
      && text[..|"path = " + filename|] == "path = " + filename
      && text[|text| - |tail|..] == tail
  {
    var text := SurroundingText(filename, lineno, lines);
    var head := "path = " + filename;
    var middle := " at line " + NatToString(lineno);
    var tail := "\ncodeblock = " + Codeblock(lines, lineno);
    assert text == head + middle + tail;
  }

  /** A line as `readlines()` returns it: a newline, if any, only as its last character. */
  predicate ReadLine(line: string) {
    forall i :: 0 <= i < |line| - 1 ==> line[i] != '\n'
  }

  /** Stripping a read line removes its newline. */
  lemma StripReadLine(line: string)
    requires ReadLine(line)
    ensures '\n' !in Strip(line)
  {
    var l := StripLeft(line);
    var r := StripRight(l);
    assert Strip(line) == r;
    var off := |line| - |l|;
    assert l == line[off..];
    assert r == l[..|r|];
    forall p | 0 <= p < |r| ensures r[p] != '\n' {
      if p < |r| - 1 {
        assert r[p] == l[p] == line[off + p];
        assert off + p < |line| - 1;
      } else {
        assert !IsSpace(r[p]);
      }
    }
  }

  /** A decimal numeral holds no newline. */
  lemma NumeralNoNewline(n: nat)
    ensures '\n' !in NatToString(n)
  {
    var digits := NatToString(n);
    forall p | 0 <= p < |digits| ensures digits[p] != '\n' {
      assert IsDigit(digits[p]);
    }
  }

  /** No formatted line of a window of read lines holds a newline. */
  lemma CodeLinesNoNewline(window: seq<string>, start: nat)
    requires forall j :: 0 <= j < |window| ==> ReadLine(window[j])
    ensures forall k :: 0 <= k < |CodeLines(window, start)| ==> '\n' !in CodeLines(window, start)[k]
  {
    var parts := CodeLines(window, start);
    forall k | 0 <= k < |parts| ensures '\n' !in parts[k] {
      StripReadLine(window[k]);
      NumeralNoNewline(k + start + 1);
      assert parts[k] == NatToString(k + start + 1) + ": " + Strip(window[k]);
    }
  }

  /**
   * Line `i` of a codeblock, split at its newlines, is window line `i` numbered
   * with its 1-based file line number `start + i + 1`; there are as many lines
   * as the window has.
   */
  lemma CodeblockNumbering(window: seq<string>, start: nat, i: nat)
    requires forall j :: 0 <= j < |window| ==> ReadLine(window[j])
    requires i < |window|
    ensures |Split(Join(CodeLines(window, start), '\n'), '\n')| == |window|
    ensures Split(Join(CodeLines(window, start), '\n'), '\n')[i] == FormatLine(start + i + 1, window[i])
  {
    var parts := CodeLines(window, start);
    CodeLinesSplit(window, start);
    assert parts[i] == FormatLine(i + start + 1, window[i]);
  }

  /**
   * The codeblock of a file of read lines has one line per window line, and
   * line `i` is file line `start_line + i` numbered with its 1-based number.
   */
  lemma CodeblockLines(lines: seq<string>, lineno: nat, i: nat)
    requires forall j :: 0 <= j < |lines| ==> ReadLine(lines[j])
    requires i < |Window(lines, lineno)|
    ensures |Split(Codeblock(lines, lineno), '\n')| == |Window(lines, lineno)|
    ensures Split(Codeblock(lines, lineno), '\n')[i]
      == FormatLine(StartLine(lineno) + i + 1, lines[StartLine(lineno) + i])
  {
    WindowReadLines(lines, lineno);
    CodeblockNumbering(Window(lines, lineno), StartLine(lineno), i);
  }

  /** The lines of a window of read lines are read lines. */
  lemma WindowReadLines(lines: seq<string>, lineno: nat)
    requires forall j :: 0 <= j < |lines| ==> ReadLine(lines[j])
    ensures forall j :: 0 <= j < |Window(lines, lineno)| ==> ReadLine(Window(lines, lineno)[j])
  {
    var w := Window(lines, lineno);
    forall j | 0 <= j < |w| ensures ReadLine(w[j]) {
      assert w[j] == lines[StartLine(lineno) + j];
    }
  }

  /** Splitting the joined formatted lines of a non-empty window gives them back. */
  lemma CodeLinesSplit(window: seq<string>, start: nat)
    requires |window| > 0
    requires forall j :: 0 <= j < |window| ==> ReadLine(window[j])
    ensures Split(Join(CodeLines(window, start), '\n'), '\n') == CodeLines(window, start)
  {
    CodeLinesNoNewline(window, start);
    SplitJoin(CodeLines(window, start), '\n');
  }

  /**
   * `on_start`: select the calling frame, read its file and set `code.surrounding`;
   * an empty stack or an unreadable file makes it raise, and the span is left as it was.
   */
  method OnStart(span: Span, stack: seq<FrameInfo>, major: nat, minor: nat, files: map<string, seq<string>>)
    returns (raised: Option<CaptureError>)
    modifies span`attributes
    ensures CallingFrame(stack, VersionTag(major, minor)).Err? ==>
      raised == Some(CallingFrame(stack, VersionTag(major, minor)).error) && span.attributes == old(span.attributes)
    ensures CallingFrame(stack, VersionTag(major, minor)).Ok? ==>
      var frame := CallingFrame(stack, VersionTag(major, minor)).value;
      && (frame.filename !in files ==> raised == Some(NameError) && span.attributes == old(span.attributes))
      && (frame.filename in files ==>
            && raised == None
            && span.attributes == if span.recording
                 then old(span.attributes)[CODE_SURROUNDING := SurroundingText(frame.filename, frame.lineno, files[frame.filename])]
                 else old(span.attributes))
  {
    var tag := VersionTag(major, minor);
    var calling := SelectCallingFrame(stack, tag);
    if calling.Err? {
      return Some(calling.error);
    }
    var fileName := calling.value.filename;
    var lineNumber := calling.value.lineno;
    if fileName !in files {
      // The except branch leaves `start_line` unassigned; line 56 then raises.
      return Some(NameError);
    }
    var lines := files[fileName];
    var startLine := StartLine(lineNumber);
    var surroundingCode := Window(lines, lineNumber);
    var codeblock := Join(CodeLines(surroundingCode, startLine), '\n');
    span.SetAttribute(CODE_SURROUNDING, "path = " + fileName + " at line " + NatToString(lineNumber) + "\ncodeblock = " + codeblock);
    raised := None;
  }
}
