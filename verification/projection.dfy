/** How one compilation outcome becomes the pane's list of display entries.
    The ANSI-to-HTML converters are opaque: an entry records which of the
    two converters (neutral or red palette) produced its markup, and the
    raw text it was given. */
module Projection {
  import opened Optional
  import opened Decimal
  import opened Results

  /** The two converter instances: default foreground, and red foreground. */
  datatype Palette = Neutral | Red

  /** Markup placed in an entry: a literal string, or the output of one of the
      converters applied to raw text. */
  datatype Markup = Literal(s: string) | Ansi(palette: Palette, source: string)

  /** A paragraph of the pane: a clickable line linked to a source line, a
      plain line, or a line of the child process's output with an optional
      CSS colour. */
  datatype Entry =
    | Linked(text: Markup, line: int)
    | Plain(text: Markup)
    | ProgramOutput(text: Markup, color: Option<string>)

  /** The `add(msg, lineNum)` helper: a link exactly when the line number is
      truthy, otherwise plain text. */
  function Add(msg: Markup, lineNum: Option<int>): (e: Entry)
    ensures e.Linked? <==> Linkable(lineNum)
    ensures e.Linked? ==> e.line == lineNum.value && e.line != 0
    ensures !e.ProgramOutput? && e.text == msg
  {
    if Linkable(lineNum) then Linked(msg, lineNum.value) else Plain(msg)
  }

  /** The `programOutput(msg, color)` helper: never linked. */
  function ProgramOutputEntry(msg: Markup, color: Option<string>): (e: Entry)
    ensures !e.Linked? && e.text == msg
    ensures e.ProgramOutput? && e.color == color
  {
    ProgramOutput(msg, color)
  }

  function CompilerReturned(code: int): string {
    "Compiler returned: " + IntToString(code)
  }

  function ProgramReturned(code: int): string {
    "Program returned: " + IntToString(code)
  }

  /** One compiler line, through the neutral converter, at its resolved line. */
  function CompilerEntry(l: OutputLine): Entry {
    Add(Ansi(Neutral, l.text), ResolveLine(l))
  }

  function CompilerEntries(ls: seq<OutputLine>): (es: seq<Entry>)
    ensures |es| == |ls|
    ensures forall i {:trigger es[i]} :: 0 <= i < |ls| ==> es[i] == CompilerEntry(ls[i])
  {
    if ls == [] then [] else [CompilerEntry(ls[0])] + CompilerEntries(ls[1..])
  }

  /** Child-process lines through one converter with one colour, in order. */
  function ProgramEntries(ls: seq<OutputLine>, palette: Palette, color: Option<string>): (es: seq<Entry>)
    ensures |es| == |ls|
    ensures forall i {:trigger es[i]} :: 0 <= i < |ls| ==> es[i] == ProgramOutput(Ansi(palette, ls[i].text), color)
  {
    if ls == [] then [] else [ProgramOutputEntry(Ansi(palette, ls[0].text), color)] + ProgramEntries(ls[1..], palette, color)
  }

  /** Child stderr through the neutral converter coloured red, then child
      stdout through the red converter uncoloured. */
  function ChildOutput(e: ExecResult): seq<Entry> {
    ProgramEntries(e.stderr, Neutral, Some("red")) + ProgramEntries(e.stdout, Red, None)
  }

  /** The entries for a child process: its exit code, then its output when
      either stream is non-empty. */
  function ExecEntries(e: ExecResult): seq<Entry> {
    [Add(Literal(ProgramReturned(e.code)), None)]
      + (if |e.stderr| > 0 || |e.stdout| > 0 then ChildOutput(e) else [])
  }

  /** Number of entries a child process contributes. */
  function ExecLength(x: Option<ExecResult>): nat {
    match x
    case None => 0
    case Some(e) => 1 + |e.stderr| + |e.stdout|
  }

  /** Indexing past the first part of a concatenation. */
  lemma AppendIndex<T>(a: seq<T>, b: seq<T>, j: int)
    requires 0 <= j < |b|
    ensures (a + b)[|a| + j] == b[j]
  {
  }

  /** The compiler's lines followed by its `"Compiler returned: "` summary. */
  function CompilerBlock(r: CompileResult): seq<Entry> {
    CompilerEntries(CompilerLines(r)) + [Add(Literal(CompilerReturned(r.code)), None)]
  }

  /** The child-process block, empty when there is no child process. */
  function ExecBlock(x: Option<ExecResult>): seq<Entry> {
    match x
    case None => []
    case Some(e) => ExecEntries(e)
  }

  /** The whole content of the pane after a result. */
  function Project(r: CompileResult): (out: seq<Entry>)
    ensures |out| == |CompilerLines(r)| + 1 + ExecLength(r.execResult)
    ensures out[|CompilerLines(r)|] == Plain(Literal(CompilerReturned(r.code)))
  {
    CompilerBlock(r) + ExecBlock(r.execResult)
  }

  /** A child stderr line sits right after the child's summary. */
  lemma ExecStderrAt(e: ExecResult, i: int)
    requires 0 <= i < |e.stderr|
    ensures ExecEntries(e)[1 + i] == ProgramOutput(Ansi(Neutral, e.stderr[i].text), Some("red"))
  {
    GatingIsRedundant(e);
    AppendIndex([Plain(Literal(ProgramReturned(e.code)))], ChildOutput(e), i);
  }

  /** A child stdout line sits after the summary and every stderr line. */
  lemma ExecStdoutAt(e: ExecResult, i: int)
    requires 0 <= i < |e.stdout|
    ensures ExecEntries(e)[1 + |e.stderr| + i] == ProgramOutput(Ansi(Red, e.stdout[i].text), None)
  {
    GatingIsRedundant(e);
    AppendIndex([Plain(Literal(ProgramReturned(e.code)))], ChildOutput(e), |e.stderr| + i);
    AppendIndex(ProgramEntries(e.stderr, Neutral, Some("red")), ProgramEntries(e.stdout, Red, None), i);
  }

  /** The child block's summary, then its stderr lines, then its stdout lines. */
  lemma ExecEntriesLayout(e: ExecResult)
    ensures |ExecEntries(e)| == 1 + |e.stderr| + |e.stdout|
    ensures ExecEntries(e)[0] == Plain(Literal(ProgramReturned(e.code)))
    ensures forall i :: 0 <= i < |e.stderr| ==>
      ExecEntries(e)[1 + i] == ProgramOutput(Ansi(Neutral, e.stderr[i].text), Some("red"))
    ensures forall i :: 0 <= i < |e.stdout| ==>
      ExecEntries(e)[1 + |e.stderr| + i] == ProgramOutput(Ansi(Red, e.stdout[i].text), None)
  {
    forall i | 0 <= i < |e.stderr|
      ensures ExecEntries(e)[1 + i] == ProgramOutput(Ansi(Neutral, e.stderr[i].text), Some("red"))
    {
      ExecStderrAt(e, i);
    }
    forall i | 0 <= i < |e.stdout|
      ensures ExecEntries(e)[1 + |e.stderr| + i] == ProgramOutput(Ansi(Red, e.stdout[i].text), None)
    {
      ExecStdoutAt(e, i);
    }
  }

  /** The compiler block's entries sit at the front of the content. */
  lemma ProjectCompilerPart(r: CompileResult)
    ensures forall i :: 0 <= i < |CompilerLines(r)| ==> Project(r)[i] == CompilerEntry(CompilerLines(r)[i])
  {
    var head := CompilerBlock(r);
    forall i | 0 <= i < |CompilerLines(r)|
      ensures Project(r)[i] == CompilerEntry(CompilerLines(r)[i])
    {
      assert Project(r)[i] == head[i];
    }
  }

  /** The child block's summary follows the compiler summary. */
  lemma ProjectExecSummary(r: CompileResult)
    requires r.execResult.Some?
    ensures Project(r)[|CompilerLines(r)| + 1] == Plain(Literal(ProgramReturned(r.execResult.value.code)))
  {
    ProjectExecAt(r, 0);
  }

  /** Where a child block's entry lands in the content. */
  lemma ProjectExecAt(r: CompileResult, j: int)
    requires r.execResult.Some?
    requires 0 <= j <= |r.execResult.value.stderr| + |r.execResult.value.stdout|
    ensures Project(r)[|CompilerLines(r)| + 1 + j] == ExecEntries(r.execResult.value)[j]
  {
    var head, tail := CompilerBlock(r), ExecBlock(r.execResult);
    assert |tail| == 1 + |r.execResult.value.stderr| + |r.execResult.value.stdout|;
    assert |head| == |CompilerLines(r)| + 1;
    AppendIndex(head, tail, j);
  }

  /** One child stderr line's place in the content. */
  lemma ProjectStderrAt(r: CompileResult, i: int)
    requires r.execResult.Some? && 0 <= i < |r.execResult.value.stderr|
    ensures Project(r)[|CompilerLines(r)| + 2 + i]
      == ProgramOutput(Ansi(Neutral, r.execResult.value.stderr[i].text), Some("red"))
  {
    var e, n, j := r.execResult.value, |CompilerLines(r)|, 1 + i;
    assert n + 2 + i == n + 1 + j;
    ProjectExecAt(r, j);
    ExecStderrAt(e, i);
  }

  /** One child stdout line's place in the content. */
  lemma ProjectStdoutAt(r: CompileResult, i: int)
    requires r.execResult.Some? && 0 <= i < |r.execResult.value.stdout|
    ensures var e, k := r.execResult.value, |CompilerLines(r)| + 2;
      Project(r)[k + |e.stderr| + i] == ProgramOutput(Ansi(Red, e.stdout[i].text), None)
  {
    var e, k := r.execResult.value, |CompilerLines(r)| + 2;
    var j := 1 + |e.stderr| + i;
    assert k + |e.stderr| + i == |CompilerLines(r)| + 1 + j;
    ProjectExecAt(r, j);
    ExecStdoutAt(e, i);
  }

  /** The child's stderr lines follow its summary. */
  lemma ProjectStderr(r: CompileResult)
    requires r.execResult.Some?
    ensures var e, k := r.execResult.value, |CompilerLines(r)| + 2;
      forall i :: 0 <= i < |e.stderr| ==>
        Project(r)[k + i] == ProgramOutput(Ansi(Neutral, e.stderr[i].text), Some("red"))
  {
    var e, k := r.execResult.value, |CompilerLines(r)| + 2;
    forall i | 0 <= i < |e.stderr|
      ensures Project(r)[k + i] == ProgramOutput(Ansi(Neutral, e.stderr[i].text), Some("red"))
    {
      ProjectStderrAt(r, i);
      assert Project(r)[k + i] == Project(r)[|CompilerLines(r)| + 2 + i];
    }
  }

  /** The child's stdout lines follow its stderr lines. */
  lemma ProjectStdout(r: CompileResult)
    requires r.execResult.Some?
    ensures var e, k := r.execResult.value, |CompilerLines(r)| + 2;
      forall i :: 0 <= i < |e.stdout| ==>
        Project(r)[k + |e.stderr| + i] == ProgramOutput(Ansi(Red, e.stdout[i].text), None)
  {
    var e, k := r.execResult.value, |CompilerLines(r)| + 2;
    forall i | 0 <= i < |e.stdout|
      ensures Project(r)[k + |e.stderr| + i] == ProgramOutput(Ansi(Red, e.stdout[i].text), None)
    {
      ProjectStdoutAt(r, i);
    }
  }

  /** Every index of the content is pinned down: the compiler lines in order,
      the compiler summary, then the child's summary, its stderr lines and its
      stdout lines. */
  lemma ProjectLayout(r: CompileResult)
    ensures |Project(r)| == |CompilerLines(r)| + 1 + ExecLength(r.execResult)
    ensures forall i :: 0 <= i < |CompilerLines(r)| ==> Project(r)[i] == CompilerEntry(CompilerLines(r)[i])
    ensures Project(r)[|CompilerLines(r)|] == Plain(Literal(CompilerReturned(r.code)))
    ensures r.execResult.Some? ==>
      var e, k := r.execResult.value, |CompilerLines(r)| + 2;
      && Project(r)[k - 1] == Plain(Literal(ProgramReturned(e.code)))
      && (forall i :: 0 <= i < |e.stderr| ==>
            Project(r)[k + i] == ProgramOutput(Ansi(Neutral, e.stderr[i].text), Some("red")))
      && (forall i :: 0 <= i < |e.stdout| ==>
            Project(r)[k + |e.stderr| + i] == ProgramOutput(Ansi(Red, e.stdout[i].text), None))
  {
    ProjectCompilerPart(r);
    if r.execResult.Some? {
      ProjectExecSummary(r);
      ProjectStderr(r);
      ProjectStdout(r);
    }
  }

  /** The `_.each` over the compiler lines, one `add` per line. */
  method RenderCompilerLines(lines: seq<OutputLine>) returns (es: seq<Entry>)
    ensures es == CompilerEntries(lines)
  {
    es := [];
    for i := 0 to |lines|
      invariant |es| == i
      invariant forall j :: 0 <= j < i ==> es[j] == CompilerEntry(lines[j])
    {
      es := es + [Add(Ansi(Neutral, lines[i].text), ResolveLine(lines[i]))];
    }
  }

  /** The `_.each` over one child stream, one `programOutput` per line. */
  method RenderProgramLines(ls: seq<OutputLine>, palette: Palette, color: Option<string>) returns (es: seq<Entry>)
    ensures es == ProgramEntries(ls, palette, color)
  {
    es := [];
    for i := 0 to |ls|
      invariant |es| == i
      invariant forall j :: 0 <= j < i ==> es[j] == ProgramOutput(Ansi(palette, ls[j].text), color)
    {
      es := es + [ProgramOutputEntry(Ansi(palette, ls[i].text), color)];
    }
  }

  /** The child-process block: its summary, then its output only when
      either stream is non-empty. */
  method RenderExec(e: ExecResult) returns (es: seq<Entry>)
    ensures es == ExecEntries(e)
  {
    es := [Add(Literal(ProgramReturned(e.code)), None)];
    if |e.stderr| > 0 || |e.stdout| > 0 {
      var errs := RenderProgramLines(e.stderr, Neutral, Some("red"));
      var outs := RenderProgramLines(e.stdout, Red, None);
      es := es + (errs + outs);
    }
  }

  /** The compiler lines, one `add` each, then the compiler summary. */
  method RenderCompilerBlock(r: CompileResult) returns (es: seq<Entry>)
    ensures es == CompilerBlock(r)
  {
    var compiled := RenderCompilerLines(Stream(r.stdout) + Stream(r.stderr));
    es := compiled + [Add(Literal(CompilerReturned(r.code)), None)];
  }

  /** The handler's rendering steps as the source performs them, starting
      from whatever the pane showed before. The content is emptied first, so
      it ends up as exactly the compiler block followed by the child block. */
  method Render(before: seq<Entry>, r: CompileResult) returns (content: seq<Entry>)
    ensures content == Project(r)
  {
    content := before;
    content := [];
    var compiled := RenderCompilerBlock(r);
    var child := [];
    if r.execResult.Some? {
      child := RenderExec(r.execResult.value);
    }
    content := content + (compiled + child);
    assert content == compiled + child;
  }

  /** Compiler stdout entries come first, then compiler stderr entries, each
      stream in its original order. */
  lemma ProjectOrder(r: CompileResult)
    ensures forall i :: 0 <= i < |Stream(r.stdout)| ==>
      Project(r)[i] == CompilerEntry(Stream(r.stdout)[i])
    ensures forall j :: 0 <= j < |Stream(r.stderr)| ==>
      Project(r)[|Stream(r.stdout)| + j] == CompilerEntry(Stream(r.stderr)[j])
  {
  }

  /** A missing compiler stream renders exactly as an empty one. */
  lemma MissingStreamIsEmpty(r: CompileResult)
    ensures Project(r.(stdout := None)) == Project(r.(stdout := Some([])))
    ensures Project(r.(stderr := None)) == Project(r.(stderr := Some([])))
  {
  }

  /** Without a child process the content is the compiler lines and exactly
      one summary line, last. */
  lemma ProjectWithoutExec(r: CompileResult)
    requires r.execResult.None?
    ensures |Project(r)| == |Stream(r.stdout)| + |Stream(r.stderr)| + 1
    ensures Project(r)[|Project(r)| - 1] == Plain(Literal(CompilerReturned(r.code)))
    ensures forall i :: 0 <= i < |Project(r)| - 1 ==> Project(r)[i] != Plain(Literal(CompilerReturned(r.code)))
  {
  }

  /** An outcome with no streams and no child process renders one line,
      `"Compiler returned: " + code`; a zero code is still printed. */
  lemma ProjectDefaults(code: int)
    ensures Project(CompileResult(code, None, None, None)) == [Plain(Literal("Compiler returned: " + IntToString(code)))]
    ensures CompilerReturned(0) == "Compiler returned: 0"
  {
  }

  /** How a compiler line's source line is chosen and when it is linked: a
      tag wins even when its line is missing, the bare line is used only
      without a tag, and a zero or missing line gives plain text. */
  lemma LineNumberPrecedence(l: OutputLine)
    ensures l.tag.Some? && l.tag.value.line.Some? && l.tag.value.line.value != 0 ==>
      CompilerEntry(l) == Linked(Ansi(Neutral, l.text), l.tag.value.line.value)
    ensures l.tag.Some? && (l.tag.value.line.None? || l.tag.value.line.value == 0) ==>
      CompilerEntry(l) == Plain(Ansi(Neutral, l.text))
    ensures l.tag.None? && l.line.Some? && l.line.value != 0 ==>
      CompilerEntry(l) == Linked(Ansi(Neutral, l.text), l.line.value)
    ensures l.tag.None? && (l.line.None? || l.line.value == 0) ==>
      CompilerEntry(l) == Plain(Ansi(Neutral, l.text))
  {
  }

  /** A line tagged 5 with a bare line 9 links to 5. */
  lemma TagBeatsBareLine(text: string)
    ensures CompilerEntry(OutputLine(text, Some(Tag(Some(5))), Some(9))) == Linked(Ansi(Neutral, text), 5)
  {
  }

  /** Past the compiler lines come two plain summaries and then program
      output only. */
  lemma ExecEntriesUnlinked(r: CompileResult)
    ensures forall i :: 0 <= i < |CompilerLines(r)| && Project(r)[i].Linked? ==> Project(r)[i].line != 0
    ensures !Project(r)[|CompilerLines(r)|].Linked?
    ensures r.execResult.Some? ==> !Project(r)[|CompilerLines(r)| + 1].Linked?
    ensures forall i :: |CompilerLines(r)| + 1 < i < |Project(r)| ==> Project(r)[i].ProgramOutput?
  {
    ProjectLayout(r);
    var k := |CompilerLines(r)|;
    if r.execResult.Some? {
      var e := r.execResult.value;
      forall i | k + 1 < i < |Project(r)|
        ensures Project(r)[i].ProgramOutput?
      {
        if i < k + 2 + |e.stderr| {
          assert Project(r)[k + 2 + (i - k - 2)].ProgramOutput?;
        } else {
          assert Project(r)[k + 2 + |e.stderr| + (i - k - 2 - |e.stderr|)].ProgramOutput?;
        }
      }
    }
  }

  /** Only compiler lines are ever links, and never to line 0; the summaries
      and every child-process entry are not. */
  lemma OnlyCompilerLinesLinked(r: CompileResult)
    ensures forall i :: 0 <= i < |Project(r)| && Project(r)[i].Linked? ==>
      i < |CompilerLines(r)| && Project(r)[i].line != 0
    ensures forall i :: |CompilerLines(r)| + 1 < i < |Project(r)| ==> Project(r)[i].ProgramOutput?
  {
    ExecEntriesUnlinked(r);
  }

  /** A child process with empty stdout and stderr adds its exit-code line
      and nothing else. */
  lemma ChildOutputGating(r: CompileResult)
    requires r.execResult.Some? && r.execResult.value.stdout == [] && r.execResult.value.stderr == []
    ensures |Project(r)| == |CompilerLines(r)| + 2
    ensures Project(r)[|CompilerLines(r)| + 1] == Plain(Literal("Program returned: " + IntToString(r.execResult.value.code)))
  {
  }

  /** The emptiness test guarding the child output never changes the
      content: with both streams empty the loops it skips add nothing. */
  lemma GatingIsRedundant(e: ExecResult)
    ensures ExecEntries(e) == [Plain(Literal(ProgramReturned(e.code)))] + ChildOutput(e)
  {
  }

  /** The worked scenario: exit code 1 and one stderr line at source line 3
      give a link to line 3 followed by `"Compiler returned: 1"`. */
  lemma ScenarioProjection()
    ensures Project(CompileResult(1, None, Some([OutputLine("error: x", None, Some(3))]), None))
      == [Linked(Ansi(Neutral, "error: x"), 3), Plain(Literal("Compiler returned: 1"))]
  {
    assert IntToString(1) == "1";
    var r := CompileResult(1, None, Some([OutputLine("error: x", None, Some(3))]), None);
    assert CompilerLines(r) == [OutputLine("error: x", None, Some(3))];
    assert CompilerReturned(1) == "Compiler returned: 1";
    assert CompilerEntries(CompilerLines(r)) == [Linked(Ansi(Neutral, "error: x"), 3)];
    assert CompilerBlock(r) == [Linked(Ansi(Neutral, "error: x"), 3), Plain(Literal("Compiler returned: 1"))];
    assert Project(r) == CompilerBlock(r) + [];
  }
}
