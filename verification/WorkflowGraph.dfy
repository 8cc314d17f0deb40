/** The workflow graph's shapes and the rule that says which dataset handle a step emits. */
module WorkflowGraph {
  import opened Values
  import Text

  /** Library calls whose inside is not modelled: every theorem holds whatever they compute. */
  datatype Host = Host(
    render: Value -> string,      // str() of a value that is not a string
    normalize: string -> string,  // os.path.normcase(os.path.normpath(path))
    cleaned: string -> string,    // str(Path(path) / "cleaned")
    directory: string -> string   // the directory a path leads to, links and working directory resolved
  )

  /** Python's `str(value)`. */
  function PyStr(host: Host, v: Value): string {
    if v.Str? then v.s else host.render(v)
  }

  /** `str(value or "")`. */
  function StrOrEmpty(host: Host, v: Value): string {
    if Truthy(v) then PyStr(host, v) else ""
  }

  // ---------------------------------------------------------------- shapes

  datatype NodeKind =
    | Folder | Tag | Caption | EditCaption | Clean | Quality | Index | Tool | Train
    | Unknown(name: string)

  datatype NodeGpu = NodeGpu(required: Value, wait: Value, device: Value)

  datatype Variable = Variable(name: Value, value: Value, description: Value)

  /** Fields the parser copies without checking stay `Value`s, as they do in the source. */
  datatype Node = Node(
    id: string,
    kind: NodeKind,
    title: Value,
    source: Option<string>,
    enabled: Value,
    config: Config,
    gpu: NodeGpu
  )

  datatype Graph = Graph(
    version: Value,
    name: Value,
    description: Value,
    variables: seq<Variable>,
    nodes: seq<Node>
  )

  datatype Handle = Handle(path: string, format: string, ext: string, control: string)

  const DEFAULT_FORMAT := "sidecar"
  const DEFAULT_EXT := ".txt"

  predicate Enabled(n: Node) { Truthy(n.enabled) }

  /** The steps that read and write captions, and may convert the folder's caption layout. */
  predicate IsCaptionKind(k: NodeKind) {
    k.Tag? || k.Caption? || k.EditCaption?
  }

  predicate IsPrepKind(k: NodeKind) {
    IsCaptionKind(k) || k.Clean? || k.Quality? || k.Index?
  }

  /** Catalog flag: may the step have no source? */
  predicate SourceOptional(k: NodeKind) {
    k.Folder? || k.Tool?
  }

  /** The nodes by id; with repeated ids the last one wins, as in a dict comprehension. */
  function ById(nodes: seq<Node>): (m: map<string, Node>)
    ensures forall k :: k in m ==> m[k].id == k
  {
    if nodes == [] then map[]
    else
      var last := nodes[|nodes| - 1];
      ById(nodes[..|nodes| - 1])[last.id := last]
  }

  // ---------------------------------------------------------------- tools

  datatype ToolOutput = OutFolder | OutNothing | OutPassThrough

  /** What a tool declares; `declared` says whether its output was written down explicitly. */
  datatype ToolIo = ToolIo(output: ToolOutput, declared: bool)

  function ToolIoOf(host: Host, n: Node, tools: map<string, ToolIo>): ToolIo {
    var id := StrOrEmpty(host, Get(n.config, "tool_id"));
    if id in tools then tools[id] else ToolIo(OutPassThrough, false)
  }

  function ToolOutputOf(host: Host, n: Node, tools: map<string, ToolIo>): ToolOutput {
    if n.kind.Tool? then ToolIoOf(host, n, tools).output else OutPassThrough
  }

  // ---------------------------------------------------------------- caption layout of a step

  datatype FormatChoice = Inherit | Sidecar | Json

  /** The layout a step asks for; anything unknown reads as "keep the incoming one". */
  function ChoiceOf(host: Host, config: Config): FormatChoice {
    var value := Text.Lower(Text.Trim(StrOrEmpty(host, Get(config, "output_format"))));
    if value == "sidecar" then Sidecar else if value == "json" then Json else Inherit
  }

  function NormExt(host: Host, v: Value): string {
    var trimmed := Text.Trim(StrOrEmpty(host, v));
    var ext := if trimmed == "" then DEFAULT_EXT else trimmed;
    if ext[0] == '.' then ext else "." + ext
  }

  /** A normalised extension starts with a dot, has no space around it, and is normalised already. */
  lemma ExtensionsAreNormal(host: Host, v: Value)
    ensures var ext := NormExt(host, v);
            ext != "" && ext[0] == '.' && Text.Trim(ext) == ext && NormExt(host, Str(ext)) == ext
    ensures var given, ext := Text.Trim(StrOrEmpty(host, v)), NormExt(host, v);
            && (given == "" ==> ext == ".txt")
            && (given != "" ==> given == if given[0] == '.' then ext else ext[1..])
  {
    var trimmed := Text.Trim(StrOrEmpty(host, v));
    var ext := NormExt(host, v);
    assert |DEFAULT_EXT| == 4 && DEFAULT_EXT[0] == '.' && DEFAULT_EXT[3] == 't';
    Text.AlreadyTrimmed(ext);
  }

  /** The keys a handle may be overridden with. */
  datatype Overrides = Overrides(format: Option<Value>, ext: Option<Value>, control: Option<Value>)

  const NO_OVERRIDES := Overrides(None, None, None)

  function OverridesIn(config: Config): Overrides {
    Overrides(Lookup(config, "caption_format"), Lookup(config, "caption_ext"), Lookup(config, "control_path"))
  }

  datatype CaptionFormat = CaptionFormat(format: string, ext: string)

  /** The format and extension a caption step emits, or `None` when it keeps what it reads. */
  function CaptionOverride(host: Host, config: Config, input: Option<Handle>): Option<CaptionFormat> {
    match ChoiceOf(host, config)
    case Inherit => None
    case Json => Some(CaptionFormat("json", if input.Some? then input.value.ext else DEFAULT_EXT))
    case Sidecar => Some(CaptionFormat("sidecar", NormExt(host, Get(config, "output_ext"))))
  }

  /** A handle at `path`, with what is not overridden taken from the input handle. */
  function InheritHandle(host: Host, path: string, input: Option<Handle>, over: Overrides): Handle {
    var base := if input.Some? then input.value else Handle("", DEFAULT_FORMAT, DEFAULT_EXT, "");
    var control := if over.control.Some? then over.control.value else Str(base.control);
    Handle(
      path,
      if over.format.Some? then PyStr(host, over.format.value) else base.format,
      if over.ext.Some? then PyStr(host, over.ext.value) else base.ext,
      if Truthy(control) then Text.Trim(PyStr(host, control)) else "")
  }

  // ---------------------------------------------------------------- what a step emits

  /** `Fails` is the source's `NodeOutputError`. */
  datatype Emission = Emits(handle: Option<Handle>) | Fails

  function CleanPath(host: Host, config: Config, input: Option<Handle>, report: Value): string {
    var fromReport := if report.Obj? then Get(report.fields, "output_dir") else Null;
    var out := if Truthy(fromReport) then fromReport else Get(config, "output_dir");
    if Truthy(out) then PyStr(host, out)
    else if input.Some? then host.cleaned(input.value.path)
    else ""
  }

  function ToolEmission(host: Host, input: Option<Handle>, report: Value, output: ToolOutput): Emission {
    if output.OutNothing? then Emits(None)
    else if report.Null? then Emits(if output.OutFolder? then None else input)
    else if report.Str? then Emits(Some(InheritHandle(host, report.s, input, NO_OVERRIDES)))
    else if report.Obj? && Truthy(Get(report.fields, "path")) then
      Emits(Some(InheritHandle(host, PyStr(host, Get(report.fields, "path")), input, OverridesIn(report.fields))))
    else Fails
  }

  function CaptionEmission(host: Host, config: Config, input: Option<Handle>): Option<Handle> {
    var over := CaptionOverride(host, config, input);
    if input.Some? && over.Some? then
      Some(InheritHandle(host, input.value.path, input,
                         Overrides(Some(Str(over.value.format)), Some(Str(over.value.ext)), None)))
    else input
  }

  /** The handle a step emits. With a `Null` report this is the prediction made before a run. */
  function EffectiveOutput(
    host: Host, kind: NodeKind, config: Config, input: Option<Handle>, report: Value, output: ToolOutput
  ): Emission {
    match kind
    case Unknown(_) => Fails
    case Folder => Emits(Some(InheritHandle(host, FolderPath(host, config), None, OverridesIn(config))))
    case Clean =>
      if Truthy(Get(config, "in_place")) then Emits(input)
      else Emits(Some(InheritHandle(host, CleanPath(host, config, input, report), input, NO_OVERRIDES)))
    case Tag => Emits(CaptionEmission(host, config, input))
    case Caption => Emits(CaptionEmission(host, config, input))
    case EditCaption => Emits(CaptionEmission(host, config, input))
    case Quality => Emits(input)
    case Index => Emits(input)
    case Tool => ToolEmission(host, input, report, output)
    case Train => Emits(None)
  }

  /** `str(config.get("path", ""))`: unlike `Get`, a stored null is rendered. */
  function FolderPath(host: Host, config: Config): string {
    if "path" in config then PyStr(host, config["path"]) else ""
  }

  /**
   * What a tool makes of its report. A tool declared to output nothing emits nothing. Otherwise a text is
   * the path of a folder, and a table with a path is one too and may override layout and control
   * folder; what it does not name is inherited. Nothing reported hands the input on, unless the tool was
   * declared to return a folder. Any other report fails.
   */
  lemma ToolReportDecides(host: Host, config: Config, input: Option<Handle>, report: Value, output: ToolOutput)
    ensures var e := EffectiveOutput(host, Tool, config, input, report, output);
            var base := if input.Some? then input.value else Handle("", "sidecar", ".txt", "");
            var named := report.Obj? && "path" in report.fields && Truthy(report.fields["path"]);
            if output.OutNothing? then e == Emits(None)
            else if report.Null? then e == Emits(if output.OutFolder? then None else input)
            else if report.Str? then e == Emits(Some(Handle(report.s, base.format, base.ext, Text.Trim(base.control))))
            else if named then
              && e.Emits? && e.handle.Some? && e.handle.value.path == PyStr(host, report.fields["path"])
              && e.handle.value.format == (if "caption_format" in report.fields
                                           then PyStr(host, report.fields["caption_format"]) else base.format)
              && e.handle.value.ext == (if "caption_ext" in report.fields
                                        then PyStr(host, report.fields["caption_ext"]) else base.ext)
              && e.handle.value.control == Text.Trim(
                   if "control_path" in report.fields then StrOrEmpty(host, report.fields["control_path"])
                   else base.control)
            else e.Fails?
  {
    assert Text.Trim("") == "";
  }

  /**
   * Where a clean step that is not in place leaves its folder: at the directory it reports, else the
   * configured one, else next to its input. In place it hands its input on, whatever it reports.
   */
  lemma CleanReportDecides(host: Host, config: Config, input: Option<Handle>, report: Value, output: ToolOutput)
    ensures var e := EffectiveOutput(host, Clean, config, input, report, output);
            var base := if input.Some? then input.value else Handle("", "sidecar", ".txt", "");
            var reported := report.Obj? && "output_dir" in report.fields && Truthy(report.fields["output_dir"]);
            var configured := "output_dir" in config && Truthy(config["output_dir"]);
            if "in_place" in config && Truthy(config["in_place"]) then e == Emits(input)
            else
              e == Emits(Some(Handle(
                     if reported then PyStr(host, report.fields["output_dir"])
                     else if configured then PyStr(host, config["output_dir"])
                     else if input.Some? then host.cleaned(input.value.path) else "",
                     base.format, base.ext, Text.Trim(base.control))))
  {
    assert Text.Trim("") == "";
  }

  /** The other kinds: a folder step emits its configured folder, training nothing, the rest their input's folder. */
  lemma OtherStepsEmit(
    host: Host, kind: NodeKind, config: Config, input: Option<Handle>, report: Value, output: ToolOutput
  )
    ensures var e := EffectiveOutput(host, kind, config, input, report, output);
            && (kind.Unknown? ==> e.Fails?)
            && (kind.Train? ==> e == Emits(None))
            && (kind.Quality? || kind.Index? ==> e == Emits(input))
            && (kind.Tag? || kind.Caption? || kind.EditCaption? ==>
                  && e.Emits? && (e.handle.Some? <==> input.Some?)
                  && (input.Some? ==> e.handle.value.path == input.value.path)
                  && (input.Some? && ChoiceOf(host, config).Inherit? ==> e.handle == input))
            && (kind.Folder? ==>
                  && e.Emits? && e.handle.Some?
                  && e.handle.value.path == (if "path" in config then PyStr(host, config["path"]) else "")
                  && e.handle.value.format == (if "caption_format" in config
                                               then PyStr(host, config["caption_format"]) else "sidecar")
                  && e.handle.value.ext == (if "caption_ext" in config
                                            then PyStr(host, config["caption_ext"]) else ".txt")
                  && e.handle.value.control == (if "control_path" in config
                                                then Text.Trim(StrOrEmpty(host, config["control_path"])) else ""))
  {
    assert Text.Trim("") == "";
  }

  /** The three choices of an output format: the two names in any case and padding, and everything else. */
  lemma FormatChoices(host: Host, config: Config)
    ensures var given := if "output_format" in config then StrOrEmpty(host, config["output_format"]) else "";
            var text := Text.Lower(Text.Trim(given));
            && (ChoiceOf(host, config).Sidecar? <==> text == "sidecar")
            && (ChoiceOf(host, config).Json? <==> text == "json")
            && (ChoiceOf(host, config).Inherit? <==> text != "sidecar" && text != "json")
  {
    assert |"json"| == 4 && |"sidecar"| == 7;
  }

  // ---------------------------------------------------------------- saved handles

  /** `DatasetHandle.to_dict`: an empty control folder is left out. */
  function SaveHandle(h: Handle): Config {
    var plain := map["path" := Str(h.path), "caption_format" := Str(h.format), "caption_ext" := Str(h.ext)];
    if h.control != "" then plain["control_path" := Str(h.control)] else plain
  }

  /** A saved value as text, with the default for anything Python calls false. */
  function SavedText(host: Host, data: Config, key: string, default: string): string {
    if Truthy(Get(data, key)) then PyStr(host, Get(data, key)) else default
  }

  /** `handle_from_dict`: a dict that names no path is no handle. */
  function LoadHandle(host: Host, data: Value): Option<Handle> {
    if data.Obj? && Truthy(Get(data.fields, "path")) then
      Some(Handle(
        PyStr(host, Get(data.fields, "path")),
        SavedText(host, data.fields, "caption_format", DEFAULT_FORMAT),
        SavedText(host, data.fields, "caption_ext", DEFAULT_EXT),
        SavedText(host, data.fields, "control_path", "")))
    else None
  }

  /** What a reader of a saved handle gets: the handle written to the run state and read back. */
  function Reload(h: Option<Handle>): Option<Handle> {
    if h.None? || h.value.path == "" then None
    else
      Some(Handle(
        h.value.path,
        if h.value.format == "" then DEFAULT_FORMAT else h.value.format,
        if h.value.ext == "" then DEFAULT_EXT else h.value.ext,
        h.value.control))
  }

  /** The JSON round trip through the run state is `Reload`. */
  lemma SavedHandleReloads(host: Host, h: Handle)
    ensures LoadHandle(host, Obj(SaveHandle(h))) == Reload(Some(h))
  {
    var d := SaveHandle(h);
    var p, f, e, c := "path", "caption_format", "caption_ext", "control_path";
    assert |p| == 4 && |f| == 14 && |e| == 11 && |c| == 12;
    assert d[p] == Str(h.path) && d[f] == Str(h.format) && d[e] == Str(h.ext);
    assert Get(d, c) == if h.control != "" then Str(h.control) else Null;
  }

  /** A handle survives being saved exactly when it names a path, a format and an extension. */
  lemma SavedHandleSurvivesIff(host: Host, h: Handle)
    ensures LoadHandle(host, Obj(SaveHandle(h))) == Some(h)
        <==> h.path != "" && h.format != "" && h.ext != ""
  {
    SavedHandleReloads(host, h);
    assert |DEFAULT_FORMAT| == 7 && |DEFAULT_EXT| == 4;
  }

  /** Before a run every step of a known kind has a prediction: only a run can fail to emit. */
  lemma PredictionFailsOnlyForUnknownKinds(
    host: Host, kind: NodeKind, config: Config, input: Option<Handle>, output: ToolOutput
  )
    ensures EffectiveOutput(host, kind, config, input, Null, output).Fails? <==> kind.Unknown?
  {
  }
}
