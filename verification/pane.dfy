/** The output pane as a state machine: its identity, the compiler name it
    remembers, its content and title, whether its hub handle still holds its
    subscriptions, whether a container close has been scheduled, and the log
    of events it has emitted on the hub. */
module OutputPane {
  import opened Optional
  import opened Decimal
  import opened Results
  import opened Projection

  /** Events the pane emits on the hub. */
  datatype Event =
    | OutputOpened(compilerId: int)
    | OutputClosed(compilerId: int)
    | EditorSetDecoration(editorId: int, line: int, scrollTo: bool)

  /** The persisted state `{compiler, editor, wrap}`; font-scale fields are
      not modelled. */
  datatype ViewState = ViewState(compiler: int, editor: int, wrap: bool)

  /** What the options toolbar currently reports. */
  datatype Options = Options(wrap: bool)

  datatype Pane = Pane(
    compilerId: int,
    editorId: int,
    compilerName: string,
    title: string,
    content: seq<Entry>,
    subscribed: bool,
    closePending: bool,
    log: seq<Event>)

  /** ` with <name>` when a name is known, else nothing. */
  function NameSuffix(compilerName: string): string {
    if compilerName != "" then " with " + compilerName else ""
  }

  /** The container title: `#<id>`, plus ` with <name>` when a name is known. */
  function Title(compilerId: int, compilerName: string): (t: string)
    ensures var k := 1 + |IntToString(compilerId)|;
      && k <= |t| && t[..k] == "#" + IntToString(compilerId)
      && (compilerName == "" <==> |t| == k)
      && (compilerName != "" ==> t[k..] == " with " + compilerName)
  {
    var t := "#" + IntToString(compilerId) + NameSuffix(compilerName);
    assert t[..1 + |IntToString(compilerId)|] == "#" + IntToString(compilerId);
    t
  }

  /** Two titles are equal only for the same compiler id and the same name:
      the title alone tells which compiler, and which compiler name, a pane
      shows. */
  lemma TitleInjective(a: int, n: string, b: int, m: string)
    ensures Title(a, n) == Title(b, m) <==> a == b && n == m
  {
    if Title(a, n) == Title(b, m) {
      TitleTail(a, n);
      TitleTail(b, m);
      IntToStringHasNoSpace(a);
      IntToStringHasNoSpace(b);
      SplitBeforeSpace(IntToString(a), NameSuffix(n), IntToString(b), NameSuffix(m));
      IntToStringInjective(a, b);
      NameSuffixInjective(n, m);
    }
  }

  /** After the `#`, a title is the printed id followed by the name suffix. */
  lemma TitleTail(a: int, n: string)
    ensures Title(a, n)[1..] == IntToString(a) + NameSuffix(n)
  {
    assert Title(a, n) == "#" + (IntToString(a) + NameSuffix(n));
  }

  /** The name suffix determines the name. */
  lemma NameSuffixInjective(n: string, m: string)
    requires NameSuffix(n) == NameSuffix(m)
    ensures n == m
  {
    if n != "" && m != "" {
      assert n == NameSuffix(n)[6..] && m == NameSuffix(m)[6..];
    }
  }

  /** Index of the first space of `s`, or `|s|` when there is none. */
  function FirstSpace(s: string): (k: nat)
    ensures k <= |s|
  {
    if s == [] || s[0] == ' ' then 0 else 1 + FirstSpace(s[1..])
  }

  /** A space-free prefix followed by nothing or by a space ends exactly
      where the first space is. */
  lemma {:induction false} FirstSpaceAfterPrefix(a: string, x: string)
    requires forall k :: 0 <= k < |a| ==> a[k] != ' '
    requires x == [] || x[0] == ' '
    ensures FirstSpace(a + x) == |a|
  {
    if a != [] {
      assert (a + x)[1..] == a[1..] + x;
      FirstSpaceAfterPrefix(a[1..], x);
    }
  }

  /** A space-free prefix followed by nothing or by a space-led suffix is
      recovered unambiguously from the concatenation. */
  lemma SplitBeforeSpace(a: string, x: string, b: string, y: string)
    requires forall k :: 0 <= k < |a| ==> a[k] != ' '
    requires forall k :: 0 <= k < |b| ==> b[k] != ' '
    requires x == [] || x[0] == ' '
    requires y == [] || y[0] == ' '
    requires a + x == b + y
    ensures a == b && x == y
  {
    FirstSpaceAfterPrefix(a, x);
    FirstSpaceAfterPrefix(b, y);
    assert a == (a + x)[..|a|] == (b + y)[..|b|] == b;
  }

  /** The construction: identity from the restored state, no content, no
      compiler name, subscribed, and `outputOpened` announced. */
  function Open(state: ViewState): (p: Pane)
    ensures p.compilerId == state.compiler && p.editorId == state.editor
    ensures p.subscribed && !p.closePending && p.content == [] && p.compilerName == ""
    ensures p.log == [OutputOpened(state.compiler)]
    ensures p.title == "#" + IntToString(state.compiler)
  {
    Pane(state.compiler, state.editor, "", Title(state.compiler, ""), [], true, false,
         [OutputOpened(state.compiler)])
  }

  /** `currentState`: the snapshot saved to the container. */
  function CurrentState(p: Pane, options: Options): (s: ViewState)
    ensures Open(s).compilerId == p.compilerId && Open(s).editorId == p.editorId
    ensures s.wrap == options.wrap
  {
    ViewState(p.compilerId, p.editorId, options.wrap)
  }

  /** The `compileResult` handler. A result for another compiler changes
      nothing; otherwise the name is replaced only when metadata comes
      along, the content is replaced by the result's projection, and the
      title is refreshed. Nothing is emitted. */
  function OnCompileResult(p: Pane, id: int, meta: Option<CompilerMeta>, result: CompileResult): (q: Pane)
    ensures id != p.compilerId ==> q == p
    ensures id == p.compilerId ==>
      && q.content == Project(result)
      && q.compilerName == (if meta.Some? then meta.value.name else p.compilerName)
      && q.title == Title(p.compilerId, q.compilerName)
    ensures q.compilerId == p.compilerId && q.editorId == p.editorId
    ensures q.subscribed == p.subscribed && q.closePending == p.closePending && q.log == p.log
  {
    if id != p.compilerId then p
    else
      var name := if meta.Some? then meta.value.name else p.compilerName;
      p.(compilerName := name, content := Project(result), title := Title(p.compilerId, name))
  }

  /** `close`: announce `outputClosed` for this compiler, then drop every
      subscription of the pane's hub handle. Not idempotent: each call
      announces again. */
  function Close(p: Pane): (q: Pane)
    ensures q.log == p.log + [OutputClosed(p.compilerId)]
    ensures !q.subscribed
    ensures q == p.(log := q.log, subscribed := false)
  {
    p.(log := p.log + [OutputClosed(p.compilerId)], subscribed := false)
  }

  /** The `compilerClose` handler: for this pane's compiler, close now and
      schedule the container's close; for any other compiler, nothing. */
  function OnCompilerClose(p: Pane, id: int): (q: Pane)
    ensures id != p.compilerId ==> q == p
    ensures id == p.compilerId ==>
      q == p.(log := p.log + [OutputClosed(p.compilerId)], subscribed := false, closePending := true)
  {
    if id == p.compilerId then Close(p).(closePending := true) else p
  }

  /** The decoration a linked entry requests, addressed to this pane's editor. */
  function Decorate(p: Pane, index: nat, scrollTo: bool): (q: Pane)
    ensures index < |p.content| && p.content[index].Linked? ==>
      q.log == p.log + [EditorSetDecoration(p.editorId, p.content[index].line, scrollTo)]
    ensures !(index < |p.content| && p.content[index].Linked?) ==> q == p
    ensures q == p.(log := q.log)
  {
    if index < |p.content| && p.content[index].Linked? then
      p.(log := p.log + [EditorSetDecoration(p.editorId, p.content[index].line, scrollTo)])
    else p
  }

  /** Clicking an entry: a link asks its editor to reveal the line. */
  function OnClick(p: Pane, index: nat): (q: Pane)
    ensures index < |p.content| && p.content[index].Linked? ==>
      q.log == p.log + [EditorSetDecoration(p.editorId, p.content[index].line, true)]
    ensures !(index < |p.content| && p.content[index].Linked?) ==> q == p
    ensures q == p.(log := q.log)
  {
    Decorate(p, index, true)
  }

  /** Hovering over an entry: a link asks its editor to highlight the line
      without scrolling. */
  function OnMouseOver(p: Pane, index: nat): (q: Pane)
    ensures index < |p.content| && p.content[index].Linked? ==>
      q.log == p.log + [EditorSetDecoration(p.editorId, p.content[index].line, false)]
    ensures !(index < |p.content| && p.content[index].Linked?) ==> q == p
    ensures q == p.(log := q.log)
  {
    Decorate(p, index, false)
  }

  /** What can happen to a pane: hub broadcasts, user gestures on an entry,
      and the container's `destroy` notification. */
  datatype Input =
    | CompileResultEvent(id: int, meta: Option<CompilerMeta>, result: CompileResult)
    | CompilerCloseEvent(id: int)
    | Click(index: nat)
    | MouseOver(index: nat)
    | ContainerDestroy

  /** One input. Hub events reach the handlers only while the pane is
      subscribed; gestures and `destroy` are wired outside the hub. */
  function Step(p: Pane, input: Input): (q: Pane)
    ensures !p.subscribed && (input.CompileResultEvent? || input.CompilerCloseEvent?) ==> q == p
    ensures q.compilerId == p.compilerId && q.editorId == p.editorId
    ensures input.Click? || input.MouseOver? ==> q == p.(log := q.log)
    ensures input.ContainerDestroy? ==> !q.subscribed && q.log == p.log + [OutputClosed(p.compilerId)]
  {
    match input
    case CompileResultEvent(id, meta, result) =>
      if p.subscribed then OnCompileResult(p, id, meta, result) else p
    case CompilerCloseEvent(id) =>
      if p.subscribed then OnCompilerClose(p, id) else p
    case Click(index) => OnClick(p, index)
    case MouseOver(index) => OnMouseOver(p, index)
    case ContainerDestroy => Close(p)
  }

  function Run(p: Pane, inputs: seq<Input>): Pane
    decreases |inputs|
  {
    if inputs == [] then p else Run(Step(p, inputs[0]), inputs[1..])
  }

  /** An event the pane may emit: about its own compiler, or a decoration
      for its own editor at a non-zero line. */
  predicate Addressed(ev: Event, compilerId: int, editorId: int) {
    match ev
    case OutputOpened(c) => c == compilerId
    case OutputClosed(c) => c == compilerId
    case EditorSetDecoration(e, line, _) => e == editorId && line != 0
  }

  /** Every event of the log is addressed with the pane's own ids. */
  predicate AllAddressed(log: seq<Event>, compilerId: int, editorId: int) {
    forall i :: 0 <= i < |log| ==> Addressed(log[i], compilerId, editorId)
  }

  /** No entry links to line 0. */
  predicate LinksNonZero(content: seq<Entry>) {
    forall i :: 0 <= i < |content| && content[i].Linked? ==> content[i].line != 0
  }

  /** What holds of every pane reachable from construction. */
  predicate Valid(p: Pane) {
    && p.title == Title(p.compilerId, p.compilerName)
    && 0 < |p.log| && p.log[0] == OutputOpened(p.compilerId)
    && AllAddressed(p.log, p.compilerId, p.editorId)
    && LinksNonZero(p.content)
    && (p.closePending ==> !p.subscribed)
    && (!p.subscribed ==> OutputClosed(p.compilerId) in p.log)
  }

  lemma AppendAddressed(log: seq<Event>, ev: Event, compilerId: int, editorId: int)
    requires AllAddressed(log, compilerId, editorId) && Addressed(ev, compilerId, editorId)
    ensures AllAddressed(log + [ev], compilerId, editorId)
  {
  }

  /** Closing keeps the pane valid. */
  lemma CloseValid(p: Pane)
    requires Valid(p)
    ensures Valid(Close(p)) && Valid(Close(p).(closePending := true))
  {
    AppendAddressed(p.log, OutputClosed(p.compilerId), p.compilerId, p.editorId);
    assert Close(p).log[|p.log|] == OutputClosed(p.compilerId);
  }

  /** A decoration keeps the pane valid. */
  lemma DecorateValid(p: Pane, index: nat, scrollTo: bool)
    requires Valid(p)
    ensures Valid(Decorate(p, index, scrollTo))
  {
    if index < |p.content| && p.content[index].Linked? {
      AppendAddressed(p.log, EditorSetDecoration(p.editorId, p.content[index].line, scrollTo), p.compilerId, p.editorId);
    }
  }

  /** Delivering a result keeps the pane valid. */
  lemma CompileResultValid(p: Pane, id: int, meta: Option<CompilerMeta>, result: CompileResult)
    requires Valid(p)
    ensures Valid(OnCompileResult(p, id, meta, result))
  {
    OnlyCompilerLinesLinked(result);
  }

  lemma OpenValid(state: ViewState)
    ensures Valid(Open(state))
  {
  }

  /** Each input keeps the pane valid, keeps its identity, and only appends
      to the event log. */
  lemma StepValid(p: Pane, input: Input)
    requires Valid(p)
    ensures Valid(Step(p, input))
    ensures Step(p, input).compilerId == p.compilerId && Step(p, input).editorId == p.editorId
    ensures |p.log| <= |Step(p, input).log| && Step(p, input).log[..|p.log|] == p.log
  {
    var q := Step(p, input);
    match input
    case CompileResultEvent(id, meta, result) =>
      CompileResultValid(p, id, meta, result);
    case CompilerCloseEvent(id) =>
      CloseValid(p);
    case Click(index) =>
      DecorateValid(p, index, true);
    case MouseOver(index) =>
      DecorateValid(p, index, false);
    case ContainerDestroy =>
      CloseValid(p);
  }

  /** Any sequence of inputs keeps the pane valid, keeps the identity fixed
      at construction, and only appends to the event log. */
  lemma {:induction false} RunValid(p: Pane, inputs: seq<Input>)
    requires Valid(p)
    ensures Valid(Run(p, inputs))
    ensures Run(p, inputs).compilerId == p.compilerId && Run(p, inputs).editorId == p.editorId
    ensures |p.log| <= |Run(p, inputs).log| && Run(p, inputs).log[..|p.log|] == p.log
    decreases |inputs|
  {
    if inputs != [] {
      var q := Step(p, inputs[0]);
      StepValid(p, inputs[0]);
      RunValid(q, inputs[1..]);
      var z := Run(q, inputs[1..]);
      assert z.log[..|p.log|] == z.log[..|q.log|][..|p.log|];
    }
  }

  /** Once the pane has released its subscriptions, no input changes its
      content, compiler name or title, and it never subscribes again. */
  lemma {:induction false} NoEffectAfterTeardown(p: Pane, inputs: seq<Input>)
    requires !p.subscribed
    ensures !Run(p, inputs).subscribed
    ensures Run(p, inputs).content == p.content
    ensures Run(p, inputs).compilerName == p.compilerName
    ensures Run(p, inputs).title == p.title
    decreases |inputs|
  {
    if inputs != [] {
      NoEffectAfterTeardown(Step(p, inputs[0]), inputs[1..]);
    }
  }

  /** After `compilerClose` for its own compiler, a pane has released its
      subscriptions, announced `outputClosed` last and scheduled its container
      close; a later result for that compiler has no effect. */
  lemma CompilerCloseTearsDown(p: Pane, meta: Option<CompilerMeta>, result: CompileResult)
    requires p.subscribed
    ensures var q := Step(p, CompilerCloseEvent(p.compilerId));
      && !q.subscribed && q.closePending
      && q.log == p.log + [OutputClosed(p.compilerId)]
      && Step(q, CompileResultEvent(p.compilerId, meta, result)) == q
  {
  }

  /** Delivering a result replaces the content instead of appending to it:
      the content depends only on the result, and delivering the same
      result again changes nothing. */
  lemma ReplaceNotAppend(p: Pane, meta: Option<CompilerMeta>, result: CompileResult)
    requires p.subscribed
    ensures var q := Step(p, CompileResultEvent(p.compilerId, meta, result));
      && q.content == Project(result)
      && Step(q, CompileResultEvent(p.compilerId, meta, result)) == q
  {
  }

  /** A name supplied once survives later results that carry no metadata,
      and the title keeps showing it. */
  lemma NamePersists(p: Pane, meta: CompilerMeta, first: CompileResult, second: CompileResult)
    requires p.subscribed
    ensures var q := Run(p, [CompileResultEvent(p.compilerId, Some(meta), first),
                             CompileResultEvent(p.compilerId, None, second)]);
      && q.compilerName == meta.name
      && q.title == Title(p.compilerId, meta.name)
      && q.content == Project(second)
  {
    var q1 := Step(p, CompileResultEvent(p.compilerId, Some(meta), first));
    var q2 := Step(q1, CompileResultEvent(p.compilerId, None, second));
    var ins := [CompileResultEvent(p.compilerId, Some(meta), first), CompileResultEvent(p.compilerId, None, second)];
    assert ins[1..] == [CompileResultEvent(p.compilerId, None, second)];
    assert Run(p, ins) == Run(q1, ins[1..]) == Run(q2, []);
  }

  /** Compiler 1 named "gcc 12" is titled "#1 with gcc 12"; before any name it
      is titled "#1". */
  lemma TitleExample()
    ensures Title(1, "gcc 12") == "#1 with gcc 12"
    ensures Title(1, "") == "#1"
  {
    assert IntToString(1) == "1";
    assert NameSuffix("gcc 12") == " with gcc 12";
    assert Title(1, "gcc 12") == "#" + "1" + " with gcc 12";
  }

  /** The state a pane saves restores a pane with the same identity and the
      current wrap option, whatever happened since construction. */
  lemma SavedStateRestores(state: ViewState, inputs: seq<Input>, options: Options)
    ensures var saved := CurrentState(Run(Open(state), inputs), options);
      && saved.compiler == state.compiler && saved.editor == state.editor && saved.wrap == options.wrap
      && Open(saved) == Open(state)
  {
    OpenValid(state);
    RunValid(Open(state), inputs);
  }

  /** The worked scenario: compiler 1 reports exit code 1 with one stderr line
      at source line 3; the pane shows a link to line 3 then the summary, and
      clicking the link asks the pane's editor to reveal line 3. */
  lemma ScenarioClick(editor: int)
    ensures var p := Open(ViewState(1, editor, false));
      var result := CompileResult(1, None, Some([OutputLine("error: x", None, Some(3))]), None);
      var q := Run(p, [CompileResultEvent(1, None, result), Click(0)]);
      && q.content == [Linked(Ansi(Neutral, "error: x"), 3), Plain(Literal("Compiler returned: 1"))]
      && q.log == [OutputOpened(1), EditorSetDecoration(editor, 3, true)]
  {
    var p := Open(ViewState(1, editor, false));
    var result := CompileResult(1, None, Some([OutputLine("error: x", None, Some(3))]), None);
    ScenarioProjection();
    var q1 := Step(p, CompileResultEvent(1, None, result));
    var q2 := Step(q1, Click(0));
    var ins := [CompileResultEvent(1, None, result), Click(0)];
    assert ins[1..] == [Click(0)];
    assert Run(p, ins) == Run(q1, [Click(0)]) == Run(q2, []);
  }
}
