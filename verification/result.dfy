/** The compilation outcome a compiler view broadcasts with `compileResult`:
    the record the output pane reads, with every optional JavaScript field
    made an explicit `Option`. Text is carried raw; its ANSI escapes are
    opaque here. */
module Results {
  import opened Optional

  /** The `tag` object of an output line; its `line` may itself be missing. */
  datatype Tag = Tag(line: Option<int>)

  /** One line of a stream: `{text, tag?, line?}`. */
  datatype OutputLine = OutputLine(text: string, tag: Option<Tag>, line: Option<int>)

  /** The child process's outcome. Both streams are required: a missing child
      stderr makes output.js:134 throw, and a missing stdout is not modelled. */
  datatype ExecResult = ExecResult(code: int, stdout: seq<OutputLine>, stderr: seq<OutputLine>)

  /** `{code, stdout?, stderr?, execResult?}` */
  datatype CompileResult = CompileResult(
    code: int,
    stdout: Option<seq<OutputLine>>,
    stderr: Option<seq<OutputLine>>,
    execResult: Option<ExecResult>)

  /** The compiler metadata passed alongside a result; only its name is read. */
  datatype CompilerMeta = CompilerMeta(name: string)

  /** A compiler stream, with a missing stream read as empty (`s || []`). */
  function Stream(s: Option<seq<OutputLine>>): seq<OutputLine> {
    match s
    case Some(ls) => ls
    case None => []
  }

  /** The compiler's stdout lines followed by its stderr lines. */
  function CompilerLines(r: CompileResult): seq<OutputLine> {
    Stream(r.stdout) + Stream(r.stderr)
  }

  /** The source line a compiler line points at: the tag's line whenever a
      tag is present (even if that line is missing), else the bare line. */
  function ResolveLine(l: OutputLine): (n: Option<int>)
    ensures l.tag.Some? ==> n == l.tag.value.line
    ensures l.tag.None? ==> n == l.line
  {
    if l.tag.Some? then l.tag.value.line else l.line
  }

  /** JavaScript truthiness of a resolved line number: present and non-zero. */
  function Linkable(n: Option<int>): (b: bool)
    ensures b <==> n != None && n != Some(0)
  {
    n.Some? && n.value != 0
  }
}
