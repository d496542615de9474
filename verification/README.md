# Output pane of Compiler Explorer, modelled in Dafny

This project models the deterministic core of Compiler Explorer's output
pane (`static/panes/output.js`). The pane shows what a compilation printed:
the compiler's stdout and stderr, its exit code, and optionally a child
process's exit code and output. A user can click or hover over a line of
compiler output to highlight the matching source line in an editor.

The model has three parts:

- **Results** (`result.dfy`): the result record that a compiler view
  broadcasts with `compileResult`. Every optional JavaScript field is an
  explicit `Option`. A compiler line's source line resolves as
  `tag ? tag.line : line`, and a line number is *linkable* when it is
  JavaScript-truthy, that is present and non-zero.
- **Projection** (`projection.dfy`): `Project`, a pure function from a
  result to the ordered list of display entries. `Render` starts from
  the pane's previous content and follows the handler's steps in order
  (empty the content, `add` each line, `add` the
  summaries, `programOutput` the child's lines) and is proved equal to
  `Project`. The two ANSI-to-HTML converters are opaque. Each entry records
  which converter (`Neutral` or `Red`) produced its markup and from which
  raw text.
- **OutputPane** (`pane.dfy`): the pane as a state machine. The pane
  record holds its compiler id, its editor id, the remembered compiler
  name, the title, the content, whether the hub handle still holds its
  subscriptions, whether a container close has been scheduled, and the log
  of events it emitted. Its transitions are result delivery, compiler
  close, click, hover and container `destroy`. `Run` folds a sequence of
  inputs. `Valid` is an invariant of every reachable pane.

`decimal.dfy` prints integers the way `"text" + n` prints an integral
JavaScript number of magnitude at most 2^53. Its inverse `ParseInt` shows that the printed exit codes
and the `#<id>` title lose nothing.

Three behaviours of `output.js` are easy to misread, so they are stated here
as the code has them:

- `close` (output.js:198) emits `outputClosed` on every call, so closing
  twice announces twice.
- `onCompileResult` (output.js:122) overwrites the remembered name whenever
  a result carries compiler metadata, even when that name is `""`. Only a
  result without metadata keeps the previous name.
- Child stderr goes through the neutral converter with CSS colour red, and
  child stdout goes through the red-palette converter with no colour
  (output.js:135-141).

## Model

| member | source | states |
|---|---|---|
| Decimal.IntToStringRoundTrip | static/panes/output.js:130 | The printed exit code reads back as the same integer, so the summary line carries the code exactly, including 0 and negative codes. |
| Decimal.IntToStringInjective | static/panes/output.js:133 | Distinct exit codes print as distinct numerals. |
| Decimal.IntToString | static/panes/output.js:130 | The printed code is non-empty, starts with `-` exactly for a negative code, and is otherwise all digits. Its first digit is `0` only for the code 0, so the numeral has no leading zeros. |
| Results.ResolveLine | static/panes/output.js:127 | With a tag the tag's line is used, even when that line is missing. Only without a tag is the bare line used. |
| Results.Linkable | static/panes/output.js:159 | A line number is truthy exactly when it is present and not 0. |
| Projection.Add | static/panes/output.js:157-178 | An entry is a link exactly when the line number is present and non-zero, and it links to that number. Otherwise the entry is plain. The markup is kept unchanged either way. |
| Projection.ProgramOutputEntry | static/panes/output.js:148-155 | A program-output entry keeps its markup and its optional colour, and is never a link. |
| Projection.Project | static/panes/output.js:124-143 | The content has one entry per compiler line plus the compiler summary, plus 1+\|child stderr\|+\|child stdout\| with a child process. The entry right after the compiler lines is the literal `"Compiler returned: " + code`. |
| Projection.ExecEntriesLayout | static/panes/output.js:133-141 | The child block is its literal `"Program returned: "` line, then each child stderr line (neutral converter, colour red), then each child stdout line (red converter, no colour). |
| Projection.CompilerEntries | static/panes/output.js:126-128 | One entry per compiler line, in the same order. Each goes through the neutral converter at its resolved line number. |
| Projection.ProgramEntries | static/panes/output.js:135-141 | One program-output entry per child line, in order. Each uses the given converter and colour and is never linked. |
| Projection.ProjectLayout | static/panes/output.js:124-143 | The content has length \|stdout\|+\|stderr\|+1, plus 1+\|child stderr\|+\|child stdout\| with a child process. Every index is fixed: the compiler lines, then the compiler summary, then the child summary, then child stderr (neutral, red), then child stdout (red palette, no colour). |
| Projection.ProjectOrder | static/panes/output.js:126 | Compiler stdout entries come first, then compiler stderr entries, each stream in its original order. |
| Projection.MissingStreamIsEmpty | static/panes/output.js:126 | A missing compiler stream renders exactly like an empty one. |
| Projection.ProjectWithoutExec | static/panes/output.js:126-130 | Without a child process there are \|stdout\|+\|stderr\|+1 entries. The last is the literal `"Compiler returned: " + code` line, and no earlier entry equals it. Compiler lines are converter output rather than literals, so no compiler line equals it as an entry, though one with the same text would look the same on screen. |
| Projection.ProjectDefaults | static/panes/output.js:126-130 | A result with no streams and no child process renders just `"Compiler returned: " + code`. A code of 0 is printed as "0". |
| Projection.LineNumberPrecedence | static/panes/output.js:127 | A tag wins even when its line is missing, which makes the entry plain. The bare line is used only when there is no tag. A zero or missing line gives plain text. |
| Projection.TagBeatsBareLine | static/panes/output.js:127 | A line tagged 5 with a bare line 9 links to line 5. |
| Projection.OnlyCompilerLinesLinked | static/panes/output.js:130-155 | Only compiler lines can be links, and never to line 0. Every entry after the two summaries is program output. |
| Projection.ChildOutputGating | static/panes/output.js:132-143 | A child process with empty stdout and stderr adds its `"Program returned: "` line and nothing else. |
| Projection.GatingIsRedundant | static/panes/output.js:134-142 | The emptiness test before the child loops never changes the content. |
| Projection.ScenarioProjection | static/panes/output.js:126-130 | Exit code 1 with one stderr line at line 3 renders a link to line 3, then "Compiler returned: 1". |
| Projection.RenderCompilerLines | static/panes/output.js:126-128 | The loop over the compiler lines builds exactly `CompilerEntries`. |
| Projection.RenderProgramLines | static/panes/output.js:135-141 | The loop over a child stream builds exactly `ProgramEntries`. |
| Projection.RenderExec | static/panes/output.js:132-143 | The child block is built exactly as `ExecEntries` specifies. |
| Projection.RenderCompilerBlock | static/panes/output.js:126-130 | The compiler loop followed by the summary `add` builds exactly the compiler lines and then the summary. |
| Projection.Render | static/panes/output.js:124-143 | Whatever the pane showed before, emptying it and then running the handler's rendering steps leaves exactly `Project(result)`. |
| OutputPane.Title | static/panes/output.js:180-184 | The title starts with `#` and the printed id. It is exactly that when the name is empty; otherwise ` with ` and the name follow. |
| OutputPane.TitleInjective | static/panes/output.js:180-184 | Two titles are equal only for the same compiler id and the same name. The title alone identifies the compiler and the name shown. |
| OutputPane.TitleExample | static/panes/output.js:180-184 | Compiler 1 named "gcc 12" is titled "#1 with gcc 12". With no name it is titled "#1". |
| OutputPane.Open | static/panes/output.js:43-73 | A new pane takes its identity from the restored state. It starts subscribed, with no content and no name, titled `#<id>`. Its only emitted event is `outputOpened(compilerId)`. |
| OutputPane.OpenValid | static/panes/output.js:43-73 | A new pane satisfies the reachable-state invariant. |
| OutputPane.CurrentState | static/panes/output.js:105-114 | The saved state reopens a pane with the same compiler id and editor id, and records the wrap option. |
| OutputPane.OnCompileResult | static/panes/output.js:120-146 | A result for another compiler changes nothing. For its own compiler the content becomes the result's projection. The name changes only when metadata is supplied, and the title is refreshed from it. Identity, subscription and event log are untouched. |
| OutputPane.Close | static/panes/output.js:197-200 | Appends `outputClosed(compilerId)` to the log and releases the subscriptions. Nothing else changes. |
| OutputPane.OnCompilerClose | static/panes/output.js:186-195 | For its own compiler, the pane closes at once and schedules the container close. For any other id nothing changes. |
| OutputPane.Decorate | static/panes/output.js:164-173 | On a linked entry, emits `editorSetDecoration(editorId, line, flag)` with the pane's own editor id. On anything else nothing changes. Only the log ever changes. |
| OutputPane.OnClick | static/panes/output.js:164-170 | Clicking a linked entry emits `editorSetDecoration(editorId, line, true)`. Clicking anything else changes nothing. Only the outgoing event log ever changes. |
| OutputPane.OnMouseOver | static/panes/output.js:171-173 | Hovering over a linked entry emits `editorSetDecoration(editorId, line, false)`. Hovering over anything else changes nothing. Only the outgoing event log ever changes. |
| OutputPane.Step | static/panes/output.js:66-69 | Hub events have no effect once the pane has unsubscribed. Click and hover change only the log. A container `destroy` unsubscribes and appends `outputClosed`. No input changes the ids. |
| OutputPane.CloseValid | static/panes/output.js:186-200 | Closing, with or without a scheduled container close, keeps the pane valid. |
| OutputPane.DecorateValid | static/panes/output.js:164-173 | A decoration request keeps the pane valid: it is addressed to the pane's editor with a non-zero line. |
| OutputPane.CompileResultValid | static/panes/output.js:120-146 | Delivering a result keeps the pane valid. |
| OutputPane.StepValid | static/panes/output.js:120-200 | Every input keeps the pane valid, keeps its identity and only appends to its event log. |
| OutputPane.RunValid | static/panes/output.js:120-200 | Over any sequence of inputs the pane stays valid. The ids fixed at construction never change, and the event log only grows. |
| OutputPane.NoEffectAfterTeardown | static/panes/output.js:197-200 | After the subscriptions are released, no input changes the content, name or title, and the pane never subscribes again. |
| OutputPane.CompilerCloseTearsDown | static/panes/output.js:186-200 | `compilerClose` for its own id releases the subscriptions, emits `outputClosed` last and schedules the container close. A later result for that id has no effect. |
| OutputPane.ReplaceNotAppend | static/panes/output.js:124-130 | After a result the entries depend only on that result. Delivering the same result again gives the same entries: the same converter and raw text at every position. |
| OutputPane.NamePersists | static/panes/output.js:122 | A name supplied with metadata survives a later result without metadata, and the title keeps showing it. |
| OutputPane.SavedStateRestores | static/panes/output.js:105-114 | The saved state `{compiler, editor, wrap}` reopens a pane with the same identity, whatever happened since construction. Wrap comes from the current options. |
| OutputPane.ScenarioClick | static/panes/output.js:157-173 | After the exit-code-1 scenario, clicking the first entry emits `editorSetDecoration(editor, 3, true)` and nothing else. |

## Left out

- DOM and jQuery work is not modelled because it is UI rendering: element creation, `html()`, `toggleClass`, the `resize` height arithmetic and the `wrap-lines` button title.
- The ANSI-to-HTML converters are opaque. An entry records the converter and the raw text. The converters keep streaming state between calls, so the real markup can depend on earlier lines; the model does not capture this. For the same reason a re-delivered result yields the same entries in the model, while the real markup of those entries could still differ.
- Font scaling, the options toolbar and the analytics call are foreign widgets and telemetry. The options appear only as an abstract `Options(wrap)` value read by `CurrentState`. Font-scale fields are not part of `ViewState`. `saveState` pushing the state to the container is not modelled as an event.
- The event hub's internals are not modelled. Subscriptions are one `subscribed` flag, and emission is an entry in the pane's log. Another view replying synchronously to `outputOpened` is modelled as a later `CompileResultEvent` input.
- The `_.defer` scheduling is not modelled. The deferred container close is the `closePending` flag. What happens when it later runs is not modelled, but a container `destroy` is available as its own input.
- OutputPane.Close: idempotence is not claimed because the source does not provide it. Every call emits `outputClosed` again.
- Decimal.IntToString covers integral numbers only. JavaScript's exponent notation for magnitudes of 10^21 and above, and the printing of non-integral or missing codes, are not modelled. Above 2^53 JavaScript numbers are doubles, and they print as the shortest round-trip digits padded with zeros: 2^64 prints as 18446744073709552000, while the model prints the exact digits. Exit codes and pane ids stay far below 2^53.
- A compiler metadata object whose `name` is undefined is modelled as an empty name. Both are falsy, so the title is the same.
- Line numbers are integers. A `NaN` line number, which JavaScript also treats as falsy, is not modelled.
- Child `stdout` and `stderr` are required to be present. Missing streams are not modelled. The handler reads `stderr.length` at output.js:134 without a fallback, so a missing child stderr throws. The `||` there short-circuits, so `stdout.length` is read only when stderr is empty, and a missing stdout then throws too. Next to a non-empty stderr a missing stdout is never read at line 134, and `_.each` over it at line 139 does nothing.
