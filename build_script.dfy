// build.rs: splitting a `.combined` shader source into its vertex and
// fragment halves, and the names of the SPIR-V files written for each entry
// of the shader directory. File reads and writes and the shaderc compiler are
// not modelled: a file is its sequence of lines, and `main` is described by
// the paths it writes.

module BuildScript {
  import opened Vk

  const COMBINED_SHADER_EXT: string := "combined"
  const COMP_SHADER_EXT: string := "comp"
  const SHADER_DIRECTIVE: string := "#shader"
  const DEFAULT_SHADER_BUILD_DIR: string := "./shaderbuild"

  /** Rust's `char::is_whitespace`: the Unicode White_Space property. */
  predicate IsWhitespace(c: char)
  {
    var n := c as int;
    (9 <= n <= 13) || n == 32 || n == 0x85 || n == 0xA0 || n == 0x1680
    || (0x2000 <= n <= 0x200A) || n == 0x2028 || n == 0x2029
    || n == 0x202F || n == 0x205F || n == 0x3000
  }

  /** `str::trim_start`: the longest suffix that does not begin with whitespace. */
  function TrimStart(s: string): (r: string)
    ensures |r| <= |s|
    ensures r == [] || !IsWhitespace(r[0])
  {
    if s == [] || !IsWhitespace(s[0]) then s else TrimStart(s[1..])
  }

  /** What `TrimStart` removes is whitespace, and what it keeps is the rest of `s`. */
  lemma {:induction false} TrimStartDropsOnlyWhitespace(s: string)
    ensures TrimStart(s) == s[|s| - |TrimStart(s)|..]
    ensures forall i :: 0 <= i < |s| - |TrimStart(s)| ==> IsWhitespace(s[i])
  {
    if s != [] && IsWhitespace(s[0]) {
      TrimStartDropsOnlyWhitespace(s[1..]);
    }
  }

  predicate StartsWith(s: string, prefix: string)
  {
    |prefix| <= |s| && s[..|prefix|] == prefix
  }

  /** Length of the leading run of non-whitespace characters. */
  function TokenLength(s: string): (n: nat)
    ensures n <= |s|
    ensures s != [] && !IsWhitespace(s[0]) ==> n >= 1
    ensures forall i :: 0 <= i < n ==> !IsWhitespace(s[i])
    ensures n < |s| ==> IsWhitespace(s[n])
  {
    if s == [] || IsWhitespace(s[0]) then 0 else 1 + TokenLength(s[1..])
  }

  /** `str::split_whitespace`, collected. */
  function Tokens(s: string): seq<string>
    decreases |s|
  {
    var t := TrimStart(s);
    if t == [] then []
    else
      var n := TokenLength(t);
      [t[..n]] + Tokens(t[n..])
  }

  /** `line.split_whitespace().nth(1)`. */
  function SecondToken(line: string): Option<string>
  {
    var tokens := Tokens(line);
    if |tokens| > 1 then Some(tokens[1]) else None
  }

  /** A line is a directive iff, after leading whitespace, it starts with "#shader". */
  predicate IsDirective(line: string)
  {
    StartsWith(TrimStart(line), SHADER_DIRECTIVE)
  }

  datatype ShaderKind = Vertex | Fragment

  /** The routing a directive's type token selects: anything unknown routes nowhere. */
  function KindOf(token: string): Option<ShaderKind>
  {
    if token == "vertex" then Some(Vertex)
    else if token == "fragment" then Some(Fragment)
    else None
  }

  /** The loop's variables: the two text buffers and `shadertype`. */
  datatype ParseState = ParseState(vert: string, frag: string, kind: Option<ShaderKind>)

  const INITIAL_STATE: ParseState := ParseState("", "", None)

  function InvalidSpecifier(line: string): string
  {
    "Invalid #shader type specifier: " + line
  }

  /** One iteration of the loop over the file's lines. */
  function Step(st: ParseState, line: string): Result<ParseState>
  {
    if IsDirective(line) then
      match SecondToken(line)
      case Some(token) => Ok(st.(kind := KindOf(token)))
      case None => Err(InvalidSpecifier(line))
    else
      match st.kind
      case Some(Vertex) => Ok(st.(vert := st.vert + line + "\n"))
      case Some(Fragment) => Ok(st.(frag := st.frag + line + "\n"))
      case None => Ok(st)
  }

  /** The loop from state `st` over `lines`, stopping at the first error. */
  function Run(st: ParseState, lines: seq<string>): Result<ParseState>
    decreases |lines|
  {
    if lines == [] then Ok(st)
    else
      match Step(st, lines[0])
      case Err(msg) => Err(msg)
      case Ok(st') => Run(st', lines[1..])
  }

  /** The checks after the loop: the vertex text is checked first. */
  function Finish(st: ParseState): (r: Result<(string, string)>)
    ensures st.vert == [] <==> r == Err("No vertex #shader type specifier found")
    ensures st.vert != [] && st.frag == [] <==> r == Err("No fragment #shader type specifier found")
    ensures r.Ok? <==> st.vert != [] && st.frag != []
    ensures r.Ok? ==> r.value == (st.vert, st.frag)
  {
    if st.vert == [] then Err("No vertex #shader type specifier found")
    else if st.frag == [] then Err("No fragment #shader type specifier found")
    else Ok((st.vert, st.frag))
  }

  /** What `parse_combined_shaderfile` returns for a file with these lines. */
  function SplitCombined(lines: seq<string>): Result<(string, string)>
  {
    match Run(INITIAL_STATE, lines)
    case Err(msg) => Err(msg)
    case Ok(st) => Finish(st)
  }

  /** `parse_combined_shaderfile`, over the lines the reader yields. */
  method ParseCombinedShaderfile(lines: seq<string>) returns (r: Result<(string, string)>)
    ensures r == SplitCombined(lines)
  {
    var vertGlsl, fragGlsl := "", "";
    var shaderType: Option<ShaderKind> := None;
    var i := 0;
    while i < |lines|
      invariant 0 <= i <= |lines|
      invariant Run(INITIAL_STATE, lines) == Run(ParseState(vertGlsl, fragGlsl, shaderType), lines[i..])
    {
      var line := lines[i];
      assert lines[i..][0] == line && lines[i..][1..] == lines[i + 1..];
      if IsDirective(line) {
        var second := SecondToken(line);
        if second.Some? {
          shaderType := KindOf(second.value);
          i := i + 1;
          continue;
        }
        return Err(InvalidSpecifier(line));
      }
      if shaderType.Some? {
        match shaderType.value {
          case Vertex => vertGlsl := vertGlsl + line + "\n";
          case Fragment => fragGlsl := fragGlsl + line + "\n";
        }
      }
      i := i + 1;
    }
    if vertGlsl == [] {
      r := Err("No vertex #shader type specifier found");
    } else if fragGlsl == [] {
      r := Err("No fragment #shader type specifier found");
    } else {
      r := Ok((vertGlsl, fragGlsl));
    }
  }

  // ---------------------------------------------------------------------
  // An independent, line-by-line reading of the parser.

  /** The routing in effect after `prefix`: set by its last directive, none before any. */
  function KindAfter(prefix: seq<string>): Option<ShaderKind>
  {
    if prefix == [] then None
    else
      var last := prefix[|prefix| - 1];
      if IsDirective(last) then
        match SecondToken(last)
        case Some(token) => KindOf(token)
        case None => None
      else KindAfter(prefix[..|prefix| - 1])
  }

  /**
   * The text routed to `kind`: every non-directive line whose routing is
   * `kind`, in order, each followed by a newline.
   */
  function Routed(lines: seq<string>, kind: ShaderKind): string
  {
    if lines == [] then ""
    else
      var n := |lines| - 1;
      if !IsDirective(lines[n]) && KindAfter(lines[..n]) == Some(kind) then Routed(lines[..n], kind) + lines[n] + "\n"
      else Routed(lines[..n], kind)
  }

  /** Every directive names a shader type. */
  predicate DirectivesWellFormed(lines: seq<string>)
  {
    forall i :: 0 <= i < |lines| && IsDirective(lines[i]) ==> SecondToken(lines[i]).Some?
  }

  lemma {:induction false} RunAppend(st: ParseState, a: seq<string>, b: seq<string>)
    ensures Run(st, a + b) == match Run(st, a) case Err(msg) => Err(msg) case Ok(st') => Run(st', b)
    decreases |a|
  {
    if a == [] {
      assert a + b == b;
    } else {
      assert (a + b)[0] == a[0] && (a + b)[1..] == a[1..] + b;
      match Step(st, a[0])
      case Err(_) =>
      case Ok(st') => RunAppend(st', a[1..], b);
    }
  }

  /**
   * For a file whose directives all name a type, the loop ends with each
   * buffer holding exactly the lines routed to it, and the routing of the
   * last directive.
   */
  lemma {:induction false} RunIsRouting(lines: seq<string>)
    requires DirectivesWellFormed(lines)
    ensures Run(INITIAL_STATE, lines) == Ok(ParseState(Routed(lines, Vertex), Routed(lines, Fragment), KindAfter(lines)))
    decreases |lines|
  {
    if lines != [] {
      var n := |lines| - 1;
      var front, last := lines[..n], lines[n];
      assert lines == front + [last];
      assert DirectivesWellFormed(front) by {
        forall i | 0 <= i < |front| && IsDirective(front[i]) ensures SecondToken(front[i]).Some? {
          assert front[i] == lines[i];
        }
      }
      RunIsRouting(front);
      RunAppend(INITIAL_STATE, front, [last]);
      var st := ParseState(Routed(front, Vertex), Routed(front, Fragment), KindAfter(front));
      RunSingle(st, last);
      assert Run(INITIAL_STATE, lines) == Step(st, last);
      StepIsRouting(front, last);
    }
  }

  lemma RunSingle(st: ParseState, line: string)
    ensures Run(st, [line]) == Step(st, line)
  {
    assert [line][1..] == [];
  }

  /** One more line extends the routing of the lines before it. */
  lemma StepIsRouting(front: seq<string>, last: string)
    requires IsDirective(last) ==> SecondToken(last).Some?
    ensures Step(ParseState(Routed(front, Vertex), Routed(front, Fragment), KindAfter(front)), last)
            == Ok(ParseState(Routed(front + [last], Vertex), Routed(front + [last], Fragment), KindAfter(front + [last])))
  {
    var lines := front + [last];
    assert lines[..|lines| - 1] == front && lines[|lines| - 1] == last;
    var v, f, k := Routed(front, Vertex), Routed(front, Fragment), KindAfter(front);
    var st := ParseState(v, f, k);
    if IsDirective(last) {
      assert Step(st, last) == Ok(ParseState(v, f, KindOf(SecondToken(last).value)));
    } else if k == Some(Vertex) {
      assert Step(st, last) == Ok(ParseState(v + last + "\n", f, k));
    } else if k == Some(Fragment) {
      assert Step(st, last) == Ok(ParseState(v, f + last + "\n", k));
    } else {
      assert Step(st, last) == Ok(st);
    }
  }

  /**
   * The first directive without a type token aborts the parse with an error
   * naming that line.
   */
  lemma {:induction false} MissingTypeTokenIsError(lines: seq<string>, i: nat)
    requires i < |lines| && IsDirective(lines[i]) && SecondToken(lines[i]).None?
    requires DirectivesWellFormed(lines[..i])
    ensures SplitCombined(lines) == Err(InvalidSpecifier(lines[i]))
  {
    RunIsRouting(lines[..i]);
    assert lines == lines[..i] + lines[i..];
    RunAppend(INITIAL_STATE, lines[..i], lines[i..]);
    assert lines[i..][0] == lines[i];
  }

  /** Lines before the first directive are dropped. */
  lemma {:induction false} PreambleDiscarded(preamble: seq<string>, rest: seq<string>)
    requires forall i :: 0 <= i < |preamble| ==> !IsDirective(preamble[i])
    ensures SplitCombined(preamble + rest) == SplitCombined(rest)
  {
    assert Run(INITIAL_STATE, preamble) == Ok(INITIAL_STATE) by {
      PreambleKeepsInitialState(preamble);
    }
    RunAppend(INITIAL_STATE, preamble, rest);
  }

  lemma {:induction false} PreambleKeepsInitialState(preamble: seq<string>)
    requires forall i :: 0 <= i < |preamble| ==> !IsDirective(preamble[i])
    ensures Run(INITIAL_STATE, preamble) == Ok(INITIAL_STATE)
    decreases |preamble|
  {
    if preamble != [] {
      PreambleKeepsInitialState(preamble[1..]);
    }
  }

  /** Directive lines never reach either output. */
  lemma {:induction false} DirectivesNotRouted(lines: seq<string>, kind: ShaderKind)
    requires forall i :: 0 <= i < |lines| ==> IsDirective(lines[i])
    ensures Routed(lines, kind) == ""
    decreases |lines|
  {
    if lines != [] {
      DirectivesNotRouted(lines[..|lines| - 1], kind);
    }
  }

  // ---------------------------------------------------------------------
  // `main`: extension dispatch and output paths.

  /** `PathBuf::push` of a relative file name onto a directory path. */
  function PushPath(dir: string, name: string): (r: string)
    ensures |r| >= |name| && r[|r| - |name|..] == name
  {
    if dir == [] then name
    else if dir[|dir| - 1] == '/' then dir + name
    else dir + "/" + name
  }

  /** `SHADER_BUILD_DIR` from the environment, else "./shaderbuild". */
  function ShaderBuildDir(env: map<string, string>): string
  {
    if "SHADER_BUILD_DIR" in env then env["SHADER_BUILD_DIR"] else DEFAULT_SHADER_BUILD_DIR
  }

  /** A directory entry: whether it is a file, its stem, its extension and its lines. */
  datatype Entry = Entry(isFile: bool, stem: string, ext: Option<string>, lines: seq<string>)

  /** The paths written for one entry, or the parse error that stops the build. */
  function EntryOutputs(dir: string, e: Entry): Result<seq<string>>
  {
    if !e.isFile || e.ext.None? then Ok([])
    else if e.ext.value == COMBINED_SHADER_EXT then
      match SplitCombined(e.lines)
      case Err(msg) => Err(msg)
      case Ok(_) => Ok([dir + "/" + e.stem + "-vert.spv", dir + "/" + e.stem + "-frag.spv"])
    else if e.ext.value == COMP_SHADER_EXT then
      Ok([PushPath(dir, e.stem + "-comp.spv")])
    else Ok([])
  }

  /** The outcome of the build loop: the paths written so far and how it ended. */
  datatype BuildOutcome = BuildOutcome(written: seq<string>, result: Result<()>)

  function BuildFrom(dir: string, entries: seq<Entry>, written: seq<string>): BuildOutcome
    decreases |entries|
  {
    if entries == [] then BuildOutcome(written, Ok(()))
    else
      match EntryOutputs(dir, entries[0])
      case Err(msg) => BuildOutcome(written, Err(msg))
      case Ok(paths) => BuildFrom(dir, entries[1..], written + paths)
  }

  /** The loop of `main` over the shader directory, in directory order. */
  method BuildShaders(env: map<string, string>, entries: seq<Entry>) returns (written: seq<string>, r: Result<()>)
    ensures BuildOutcome(written, r) == BuildFrom(ShaderBuildDir(env), entries, [])
  {
    var dir := ShaderBuildDir(env);
    written := [];
    var i := 0;
    while i < |entries|
      invariant 0 <= i <= |entries|
      invariant BuildFrom(dir, entries, []) == BuildFrom(dir, entries[i..], written)
    {
      var e := entries[i];
      BuildFromStep(dir, entries, i, written);
      assert written + [] == written;
      if e.isFile {
        if e.ext.None? {
          i := i + 1;
          continue;
        }
        if e.ext.value == COMBINED_SHADER_EXT {
          var parsed := ParseCombinedShaderfile(e.lines);
          if parsed.Err? {
            return written, Err(parsed.msg);
          }
          written := written + [dir + "/" + e.stem + "-vert.spv", dir + "/" + e.stem + "-frag.spv"];
        } else if e.ext.value == COMP_SHADER_EXT {
          written := written + [PushPath(dir, e.stem + "-comp.spv")];
        }
      }
      i := i + 1;
    }
    r := Ok(());
  }

  lemma BuildFromStep(dir: string, entries: seq<Entry>, i: nat, written: seq<string>)
    requires i < |entries|
    ensures var out := EntryOutputs(dir, entries[i]);
            BuildFrom(dir, entries[i..], written)
            == if out.Err? then BuildOutcome(written, Err(out.msg)) else BuildFrom(dir, entries[i + 1..], written + out.value)
  {
    assert entries[i..][0] == entries[i] && entries[i..][1..] == entries[i + 1..];
  }

  /** Every path the build writes is a `.spv` file. */
  lemma {:induction false} AllOutputsAreSpirv(dir: string, entries: seq<Entry>, written: seq<string>)
    requires forall p :: p in written ==> EndsWithSpv(p)
    ensures forall p :: p in BuildFrom(dir, entries, written).written ==> EndsWithSpv(p)
    decreases |entries|
  {
    if entries != [] {
      EntryOutputsAreSpirv(dir, entries[0]);
      match EntryOutputs(dir, entries[0])
      case Err(_) =>
      case Ok(paths) =>
        AllOutputsAreSpirv(dir, entries[1..], written + paths);
    }
  }

  lemma EntryOutputsAreSpirv(dir: string, e: Entry)
    ensures EntryOutputs(dir, e).Ok? ==> forall p :: p in EntryOutputs(dir, e).value ==> EndsWithSpv(p)
  {
    if e.isFile && e.ext.Some? {
      if e.ext.value == COMBINED_SHADER_EXT {
        SpvSuffix(dir + "/" + e.stem + "-vert.spv", "-vert.spv");
        SpvSuffix(dir + "/" + e.stem + "-frag.spv", "-frag.spv");
      } else if e.ext.value == COMP_SHADER_EXT {
        var name := e.stem + "-comp.spv";
        SpvSuffix(name, "-comp.spv");
        SpvSuffix(PushPath(dir, name), name);
      }
    }
  }

  /** A path that ends with a name ending in ".spv" ends in ".spv" too. */
  lemma SpvSuffix(p: string, name: string)
    requires |p| >= |name| && p[|p| - |name|..] == name && EndsWithSpv(name)
    ensures EndsWithSpv(p)
  {
    assert p[|p| - 4..] == p[|p| - |name|..][|name| - 4..];
  }

  predicate EndsWithSpv(p: string)
  {
    |p| >= 4 && p[|p| - 4..] == ".spv"
  }

  /**
   * A combined file named `s.combined` that parses writes exactly
   * `<dir>/s-vert.spv` and `<dir>/s-frag.spv`; a `.comp` file writes one path,
   * and any other entry writes nothing.
   */
  lemma EntryNaming(dir: string, e: Entry)
    ensures e.isFile && e.ext == Some(COMBINED_SHADER_EXT) && SplitCombined(e.lines).Ok? ==>
              EntryOutputs(dir, e) == Ok([dir + "/" + e.stem + "-vert.spv", dir + "/" + e.stem + "-frag.spv"])
    ensures e.isFile && e.ext == Some(COMP_SHADER_EXT) ==>
              EntryOutputs(dir, e) == Ok([PushPath(dir, e.stem + "-comp.spv")])
    ensures !e.isFile || e.ext.None? || (e.ext.value != COMBINED_SHADER_EXT && e.ext.value != COMP_SHADER_EXT) ==>
              EntryOutputs(dir, e) == Ok([])
  {
  }
}
