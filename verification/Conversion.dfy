/**
 * Caption-layout conversions. A caption step with an output format of its own rewrites the whole
 * shared folder, so a step that still holds the old handle would read files that are gone. The
 * pre-flight check refuses such graphs; here the check is proved sound, and exact where a folder
 * has one converter, against a run of the steps over a disk.
 */
module Conversion {
  import opened Values
  import opened WorkflowGraph
  import opened Substitution
  import opened SourceWalks
  import opened Prediction

  // ---------------------------------------------------------------- the check

  /** Does the override leave the layout it receives? The extension means nothing for `json`. */
  predicate SameFormat(over: CaptionFormat, input: Handle) {
    over.format == input.format && (over.format == "json" || over.ext == input.ext)
  }

  /** Is `n` a step that converts the folder it reads, judged on its predicted input? */
  predicate Converts(ctx: Context, n: Node, byId: map<string, Node>, predicted: Handles) {
    && Enabled(n)
    && IsCaptionKind(n.kind)
    && n.source.Some? && n.source.value in byId
    && !ChoiceOf(ctx.host, n.config).Inherit?
    && var incoming := InputFrom(predicted, n);
       var over := CaptionOverride(ctx.host, n.config, incoming);
       !(incoming.Some? && over.Some? && SameFormat(over.value, incoming.value))
  }

  /** Is `n` a caption step that reads the folder with the given origin? */
  predicate ReadsOrigin(ctx: Context, n: Node, byId: map<string, Node>, origin: string)
    requires Keyed(byId)
  {
    && Enabled(n)
    && IsCaptionKind(n.kind)
    && n.source.Some? && n.source.value in byId
    && Origin(ctx.host, byId[n.source.value], byId, ctx.tools) == origin
  }

  /** Ids of the steps in positions `j+1 .. m` that read `nodes[j]`, directly or through one another. */
  function Downstream(nodes: seq<Node>, j: nat, m: nat): set<string>
    requires j < |nodes| && m <= |nodes|
  {
    if m <= j + 1 then {}
    else
      var before, n := Downstream(nodes, j, m - 1), nodes[m - 1];
      if n.source == Some(nodes[j].id) || (n.source.Some? && n.source.value in before)
      then before + {n.id} else before
  }

  /** Step `j` converts a folder that step `i` reads later without reading through `j`. */
  predicate Refuses(ctx: Context, byId: map<string, Node>, predicted: Handles, j: nat, i: nat)
    requires Keyed(byId) && i < |ctx.graph.nodes|
  {
    var nodes := ctx.graph.nodes;
    && j < i
    && Converts(ctx, nodes[j], byId, predicted)
    && nodes[i].id !in Downstream(nodes, j, |nodes|)
    && ReadsOrigin(ctx, nodes[i], byId, Origin(ctx.host, byId[nodes[j].source.value], byId, ctx.tools))
  }

  /** One message of the check: the converter's and the reader's position in the list. */
  datatype ConversionError = ConversionError(converter: nat, reader: nat)

  predicate Earlier(a: ConversionError, b: ConversionError) {
    a.converter < b.converter || (a.converter == b.converter && a.reader < b.reader)
  }

  /** `errors` lists exactly the refused pairs below the given bound, once each, in list order. */
  ghost predicate ListsRefusals(
    ctx: Context, byId: map<string, Node>, predicted: Handles, errors: seq<ConversionError>, bound: ConversionError
  )
    requires Keyed(byId)
  {
    && (forall e :: e in errors <==>
         (e.reader < |ctx.graph.nodes| && Earlier(e, bound) && Refuses(ctx, byId, predicted, e.converter, e.reader)))
    && (forall a, b | 0 <= a < b < |errors| :: Earlier(errors[a], errors[b]))
  }

  /** Moving the bound past one pair keeps the list complete, with the pair added when it is refused. */
  lemma BoundPasses(
    ctx: Context, byId: map<string, Node>, predicted: Handles, errors: seq<ConversionError>, j: nat, i: nat
  )
    requires Keyed(byId) && i < |ctx.graph.nodes|
    requires ListsRefusals(ctx, byId, predicted, errors, ConversionError(j, i))
    ensures ListsRefusals(
              ctx, byId, predicted,
              if Refuses(ctx, byId, predicted, j, i) then errors + [ConversionError(j, i)] else errors,
              ConversionError(j, i + 1))
  {
    hide Refuses;
    var here := ConversionError(j, i);
    assert forall e :: Earlier(e, ConversionError(j, i + 1)) <==> Earlier(e, here) || e == here;
    if Refuses(ctx, byId, predicted, j, i) {
      var longer := errors + [here];
      assert forall e :: e in longer <==> e in errors || e == here;
      forall a, b | 0 <= a < b < |longer| ensures Earlier(longer[a], longer[b]) {
        assert longer[a] in errors;
      }
    }
  }

  lemma NothingBeforeTheStart(ctx: Context, byId: map<string, Node>, predicted: Handles)
    requires Keyed(byId)
    ensures ListsRefusals(ctx, byId, predicted, [], ConversionError(0, 0))
  {
  }

  /** Every reader of converter `j` is passed, or `j` converts nothing. */
  lemma BoundLeavesConverter(
    ctx: Context, byId: map<string, Node>, predicted: Handles, errors: seq<ConversionError>, j: nat, i: nat
  )
    requires Keyed(byId) && j < |ctx.graph.nodes|
    requires ListsRefusals(ctx, byId, predicted, errors, ConversionError(j, i))
    requires i == |ctx.graph.nodes| || (i == 0 && !Converts(ctx, ctx.graph.nodes[j], byId, predicted))
    ensures ListsRefusals(ctx, byId, predicted, errors, ConversionError(j + 1, 0))
  {
    hide Converts, ReadsOrigin;
  }

  /** A reader comes after its converter. */
  lemma BoundReachesReaders(
    ctx: Context, byId: map<string, Node>, predicted: Handles, errors: seq<ConversionError>, j: nat
  )
    requires Keyed(byId)
    requires ListsRefusals(ctx, byId, predicted, errors, ConversionError(j, 0))
    ensures ListsRefusals(ctx, byId, predicted, errors, ConversionError(j, j + 1))
  {
    hide Converts, ReadsOrigin;
  }

  lemma ConverterReadsANode(ctx: Context, n: Node, byId: map<string, Node>, predicted: Handles)
    requires Converts(ctx, n, byId, predicted)
    ensures n.source.Some? && n.source.value in byId
  {
  }

  /** `_converted_folder_errors`: every refused pair, once, converters in list order. */
  method ConvertedFolderErrors(ctx: Context, byId: map<string, Node>, predicted: Handles)
    returns (errors: seq<ConversionError>)
    requires Keyed(byId)
    ensures ListsRefusals(ctx, byId, predicted, errors, ConversionError(|ctx.graph.nodes|, 0))
  {
    hide ListsRefusals, Converts, Origin;
    errors := [];
    var nodes := ctx.graph.nodes;
    NothingBeforeTheStart(ctx, byId, predicted);
    for j := 0 to |nodes|
      invariant ListsRefusals(ctx, byId, predicted, errors, ConversionError(j, 0))
    {
      if !Converts(ctx, nodes[j], byId, predicted) {
        BoundLeavesConverter(ctx, byId, predicted, errors, j, 0);
        continue;
      }
      ConverterReadsANode(ctx, nodes[j], byId, predicted);
      var origin := FolderOrigin(ctx.host, byId[nodes[j].source.value], byId, ctx.tools);
      var downstream: set<string> := {};
      for m := j + 1 to |nodes|
        invariant downstream == Downstream(nodes, j, m)
      {
        if nodes[m].source == Some(nodes[j].id) || (nodes[m].source.Some? && nodes[m].source.value in downstream) {
          downstream := downstream + {nodes[m].id};
        }
      }
      BoundReachesReaders(ctx, byId, predicted, errors, j);
      for i := j + 1 to |nodes|
        invariant ListsRefusals(ctx, byId, predicted, errors, ConversionError(j, i))
      {
        BoundPasses(ctx, byId, predicted, errors, j, i);
        if Enabled(nodes[i]) && IsCaptionKind(nodes[i].kind) && nodes[i].id !in downstream
           && nodes[i].source.Some? && nodes[i].source.value in byId
        {
          var other := FolderOrigin(ctx.host, byId[nodes[i].source.value], byId, ctx.tools);
          if other == origin {
            errors := errors + [ConversionError(j, i)];
          }
        }
      }
      BoundLeavesConverter(ctx, byId, predicted, errors, j, |nodes|);
    }
  }

  // ---------------------------------------------------------------- running the steps on a disk

  /** How the captions of a folder are stored. */
  datatype Layout = Layout(format: string, ext: string)

  function LayoutOfFormat(format: string, ext: string): Layout {
    if format == "json" then Layout("json", "") else Layout(format, ext)
  }

  function LayoutOf(h: Handle): Layout {
    LayoutOfFormat(h.format, h.ext)
  }

  function DirectoryOf(host: Host, h: Handle): string {
    host.directory(h.path)
  }

  /** The directories that really exist, with the layout their captions are in. */
  type Disk = map<string, Layout>

  datatype RunState = RunState(outputs: Handles, disk: Disk)

  /** The layout a step converts its folder to before it runs, if it converts it. */
  function ConversionTarget(ctx: Context, n: Node, input: Option<Handle>): Option<Layout> {
    var over := CaptionOverride(ctx.host, Resolved(ctx, n), input);
    if IsCaptionKind(n.kind) && input.Some? && over.Some? && !SameFormat(over.value, input.value)
    then Some(LayoutOfFormat(over.value.format, over.value.ext))
    else None
  }

  function RunNode(ctx: Context, n: Node, report: Value, st: RunState): RunState {
    if !Enabled(n) then st.(outputs := st.outputs[n.id := SavedOutput(ctx, n.id)])
    else
      var input := InputFrom(st.outputs, n);
      var target := ConversionTarget(ctx, n, input);
      var disk := if target.Some? then st.disk[DirectoryOf(ctx.host, input.value) := target.value] else st.disk;
      match EffectiveOutput(ctx.host, n.kind, Resolved(ctx, n), input, report, ToolOutputOf(ctx.host, n, ctx.tools))
      case Emits(h) => RunState(st.outputs[n.id := Reload(h)], disk)
      case Fails => RunState(st.outputs[n.id := None], disk)
  }

  function ReportOf(reports: Config, n: Node): Value {
    Get(reports, n.id)
  }

  /** The run state before step `k`: list order is the whole scheduler. */
  function Run(ctx: Context, reports: Config, disk: Disk, k: nat): RunState
    requires k <= |ctx.graph.nodes|
  {
    if k == 0 then RunState(map[], disk)
    else
      var n := ctx.graph.nodes[k - 1];
      RunNode(ctx, n, ReportOf(reports, n), Run(ctx, reports, disk, k - 1))
  }

  // ---------------------------------------------------------------- which graphs the theorem is about

  /** What the theorem asks of one enabled step. */
  predicate PlainStep(ctx: Context, n: Node) {
    && !n.kind.Unknown?
    && (n.kind.Folder? <==> n.source.None?)
    && (n.kind.Folder? ==> FolderPath(ctx.host, Resolved(ctx, n)) != "")
    && (n.kind.Clean? ==> LiteralKey(n.config, "in_place"))
    && (n.kind.Tool? ==> ToolOutputOf(ctx.host, n, ctx.tools).OutPassThrough?)
  }

  /** The step brings a folder in: a folder step, or a clean step that writes its images elsewhere. */
  predicate BringsFolder(n: Node) {
    n.kind.Folder? || (n.kind.Clean? && !Truthy(Get(n.config, "in_place")))
  }

  predicate IsStart(ctx: Context, a: nat) {
    a < |ctx.graph.nodes| && Enabled(ctx.graph.nodes[a]) && BringsFolder(ctx.graph.nodes[a])
  }

  /** The directory a step is predicted to emit. */
  ghost function DirectoryAt(ctx: Context, i: nat): string
    requires i < |ctx.graph.nodes|
  {
    if PredictedAt(ctx, i).Some? then DirectoryOf(ctx.host, PredictedAt(ctx, i).value) else ""
  }

  /** A clean step that writes its images elsewhere writes them to a directory of its own. */
  ghost predicate OwnDirectories(ctx: Context) {
    forall a: nat | IsStart(ctx, a) && ctx.graph.nodes[a].kind.Clean? ::
      && (PredictedAt(ctx, a).Some? ==> PredictedAt(ctx, a).value.path != "")
      && forall b: nat | IsStart(ctx, b) && DirectoryAt(ctx, a) == DirectoryAt(ctx, b) :: a == b
  }

  /** Plain steps, none of which reads a disabled step or a training run. Disabled steps may be anything. */
  ghost predicate PlainContents(ctx: Context) {
    var nodes := ctx.graph.nodes;
    && (forall i: nat | i < |nodes| && Enabled(nodes[i]) :: PlainStep(ctx, nodes[i]))
    && (forall i: nat, j: nat | ReadsFrom(nodes, i, j) && Enabled(nodes[i]) && !nodes[i].kind.Folder? ::
          Enabled(nodes[j]) && !nodes[j].kind.Train?)
    && OwnDirectories(ctx)
  }

  ghost predicate PlainGraph(ctx: Context) {
    WellOrdered(ctx.graph.nodes) && PlainContents(ctx)
  }

  /** A caption step, the one kind of step the check protects. */
  predicate IsCaptionStep(ctx: Context, k: nat) {
    k < |ctx.graph.nodes| && Enabled(ctx.graph.nodes[k]) && IsCaptionKind(ctx.graph.nodes[k].kind)
  }

  /** The step's output format is written out: the check, which fills no variables in, sees what the run does. */
  predicate LiteralFormat(n: Node) {
    LiteralKey(n.config, "output_format") && LiteralKey(n.config, "output_ext")
  }

  ghost predicate LiteralFormats(ctx: Context) {
    forall k: nat | IsCaptionStep(ctx, k) :: LiteralFormat(ctx.graph.nodes[k])
  }

  predicate NamesTheConfigured(ctx: Context, n: Node, input: Option<Handle>, report: Value) {
    CleanPath(ctx.host, Resolved(ctx, n), input, report) == CleanPath(ctx.host, Resolved(ctx, n), input, Null)
  }

  /** Tools return nothing, and a clean step reports the directory it was configured with. */
  ghost predicate HonestReports(ctx: Context, reports: Config) {
    forall i: nat | i < |ctx.graph.nodes| ::
      var n := ctx.graph.nodes[i];
      && (n.kind.Tool? ==> ReportOf(reports, n).Null?)
      && (n.kind.Clean? ==> NamesTheConfigured(ctx, n, InputFrom(Predict(ctx, i), n), ReportOf(reports, n)))
  }

  /**
   * Each step that brings a folder in says in which layout its directory starts. A clean step copies
   * images only: its directory starts without captions, which is any layout.
   */
  ghost predicate DeclaresDisk(ctx: Context, disk: Disk) {
    forall i: nat | IsStart(ctx, i) ::
      var declared := Reload(PredictedAt(ctx, i));
      declared.Some? ==>
        && DirectoryOf(ctx.host, declared.value) in disk
        && disk[DirectoryOf(ctx.host, declared.value)] == LayoutOf(declared.value)
  }

  /** No pair is refused: what pre-flight checks. */
  ghost predicate Accepted(ctx: Context) {
    forall i: nat, j: nat | i < |ctx.graph.nodes| ::
      !Refuses(ctx, ById(ctx.graph.nodes), Predict(ctx, |ctx.graph.nodes|), j, i)
  }

  // ---------------------------------------------------------------- directories and origins

  /** The step that a plain, non-folder step reads. */
  lemma ReaderFacts(ctx: Context, k: nat)
    requires PlainGraph(ctx) && k < |ctx.graph.nodes|
    requires Enabled(ctx.graph.nodes[k]) && !ctx.graph.nodes[k].kind.Folder?
    ensures var nodes, s := ctx.graph.nodes, SourcePos(ctx.graph.nodes, k);
            && Enabled(nodes[s]) && !nodes[s].kind.Train?
            && nodes[k].source.value in ById(nodes) && ById(nodes)[nodes[k].source.value] == nodes[s]
  {
    var s := SourcePos(ctx.graph.nodes, k);
    assert PlainStep(ctx, ctx.graph.nodes[k]);
    assert ReadsFrom(ctx.graph.nodes, k, s);
    ByIdFinds(ctx.graph.nodes, s);
  }

  /** A plain step that brings no folder in re-emits the one it reads. */
  lemma KeepsItsFolder(ctx: Context, n: Node, input: Handle)
    requires Enabled(n) && PlainStep(ctx, n) && !BringsFolder(n) && !n.kind.Train?
    ensures var out := PredictNode(ctx, n, Some(input));
            out.Some? && out.value.path == input.path
  {
    if n.kind.Clean? {
      LiteralKeyIsUnchanged(n.config, "in_place", VariableMap(ctx.host, ctx.graph.variables));
    }
  }

  lemma FolderStepPath(ctx: Context, n: Node, upstream: Option<Handle>)
    requires Enabled(n) && PlainStep(ctx, n) && n.kind.Folder?
    ensures var out := PredictNode(ctx, n, upstream);
            out.Some? && out.value.path == FolderPath(ctx.host, Resolved(ctx, n)) && out.value.path != ""
  {
  }

  /** A clean step that writes elsewhere emits its own directory. */
  lemma CleanStepPath(ctx: Context, n: Node, upstream: Option<Handle>)
    requires Enabled(n) && PlainStep(ctx, n) && n.kind.Clean? && BringsFolder(n)
    ensures PredictNode(ctx, n, upstream).Some?
  {
    LiteralKeyIsUnchanged(n.config, "in_place", VariableMap(ctx.host, ctx.graph.variables));
  }

  lemma PlainStepStarts(ctx: Context, n: Node)
    requires PlainStep(ctx, n)
    ensures StartsFolder(ctx.host, n, ctx.tools) <==> BringsFolder(n)
  {
  }

  lemma PlainKinds(ctx: Context, n: Node)
    requires PlainGraph(ctx) && n in ctx.graph.nodes && Enabled(n)
    ensures PlainStep(ctx, n) && !n.kind.Unknown? && (n.kind.Folder? <==> n.source.None?)
    ensures n.kind.Tool? ==> ToolOutputOf(ctx.host, n, ctx.tools).OutPassThrough?
  {
  }

  /** The step that brings in the folder a step's handle is on. */
  ghost function FolderOf(ctx: Context, i: nat): (r: nat)
    requires PlainGraph(ctx) && i < |ctx.graph.nodes|
    requires Enabled(ctx.graph.nodes[i]) && !ctx.graph.nodes[i].kind.Train?
    ensures IsStart(ctx, r) && r <= i
    decreases i
  {
    if BringsFolder(ctx.graph.nodes[i]) then i
    else (ReaderFacts(ctx, i); FolderOf(ctx, SourcePos(ctx.graph.nodes, i)))
  }

  ghost function OriginAt(ctx: Context, i: nat): string
    requires i < |ctx.graph.nodes|
  {
    Origin(ctx.host, ctx.graph.nodes[i], ById(ctx.graph.nodes), ctx.tools)
  }

  /** A step emits the path its folder was brought in with, and the check knows it by that step's name. */
  lemma {:induction false} FolderFacts(ctx: Context, i: nat)
    requires PlainGraph(ctx) && i < |ctx.graph.nodes|
    requires Enabled(ctx.graph.nodes[i]) && !ctx.graph.nodes[i].kind.Train?
    ensures PredictedAt(ctx, i).Some? && PredictedAt(ctx, i).value.path != ""
    ensures var r := FolderOf(ctx, i);
            && PredictedAt(ctx, r).Some? && PredictedAt(ctx, r).value.path == PredictedAt(ctx, i).value.path
            && DirectoryAt(ctx, r) == DirectoryAt(ctx, i)
            && OriginAt(ctx, i) == FolderKey(ctx.host, ctx.graph.nodes[r])
  {
    hide PredictNode, Predict, Origin, StartsFolder, FolderKey, FolderPath, PlainStep;
    var nodes := ctx.graph.nodes;
    var n := nodes[i];
    OriginSteps(ctx.host, nodes, i, ctx.tools);
    PlainStepStarts(ctx, n);
    if n.kind.Folder? {
      FolderStepPath(ctx, n, InputFrom(Predict(ctx, i), n));
    } else if BringsFolder(n) {
      CleanStepPath(ctx, n, InputFrom(Predict(ctx, i), n));
      assert IsStart(ctx, i);
    } else {
      var s := SourcePos(nodes, i);
      ReaderFacts(ctx, i);
      FolderFacts(ctx, s);
      InputIsSourcePrediction(ctx, i);
      KeepsItsFolder(ctx, n, PredictedAt(ctx, s).value);
    }
  }

  /** The name the check knows the folder by that a step brings in. */
  function NameOf(ctx: Context, a: nat): string
    requires a < |ctx.graph.nodes|
  {
    FolderKey(ctx.host, ctx.graph.nodes[a])
  }

  /** Steps that bring in one directory are known to the check by one name. */
  ghost predicate OneNamePerDirectory(ctx: Context) {
    forall a: nat, b: nat |
      IsStart(ctx, a) && IsStart(ctx, b) && DirectoryAt(ctx, a) == DirectoryAt(ctx, b) ::
      NameOf(ctx, a) == NameOf(ctx, b)
  }

  /** Handles on one directory then have one origin. */
  lemma SameDirectorySameOrigin(ctx: Context, i: nat, j: nat)
    requires PlainGraph(ctx) && OneNamePerDirectory(ctx) && i < |ctx.graph.nodes| && j < |ctx.graph.nodes|
    requires Enabled(ctx.graph.nodes[i]) && !ctx.graph.nodes[i].kind.Train?
    requires Enabled(ctx.graph.nodes[j]) && !ctx.graph.nodes[j].kind.Train?
    requires DirectoryAt(ctx, i) == DirectoryAt(ctx, j)
    ensures OriginAt(ctx, i) == OriginAt(ctx, j)
  {
    hide PlainGraph, DirectoryAt, OriginAt, PredictedAt, FolderKey;
    FolderFacts(ctx, i);
    FolderFacts(ctx, j);
    assert IsStart(ctx, FolderOf(ctx, i)) && IsStart(ctx, FolderOf(ctx, j));
  }

  // ---------------------------------------------------------------- predictions come true

  lemma CaptionUpToReload(host: Host, config: Config, input: Option<Handle>)
    ensures Reload(CaptionEmission(host, config, Reload(input))) == Reload(CaptionEmission(host, config, input))
  {
    hide ChoiceOf, NormExt, Text.Trim;
    assert |DEFAULT_FORMAT| == 7 && |DEFAULT_EXT| == 4;
  }

  lemma ReloadTwice(h: Option<Handle>)
    ensures Reload(Reload(h)) == Reload(h)
  {
  }

  /** A clean step copies under the path it was predicted to, whatever the run state keeps of its input. */
  lemma CleanEmission(ctx: Context, n: Node, predicted: Handle, report: Value)
    requires Enabled(n) && n.kind.Clean? && predicted.path != "" && NamesTheConfigured(ctx, n, Some(predicted), report)
    ensures var actual := EffectiveOutput(
              ctx.host, n.kind, Resolved(ctx, n), Reload(Some(predicted)), report,
              ToolOutputOf(ctx.host, n, ctx.tools));
            actual.Emits? && Reload(actual.handle) == Reload(PredictNode(ctx, n, Some(predicted)))
  {
    hide Resolved, Text.Trim;
    assert |DEFAULT_FORMAT| == 7 && |DEFAULT_EXT| == 4;
    ReloadTwice(Some(predicted));
    assert CleanPath(ctx.host, Resolved(ctx, n), Reload(Some(predicted)), report)
        == CleanPath(ctx.host, Resolved(ctx, n), Some(predicted), report);
  }

  /** Any other step's emission depends on its input only up to what the run state keeps of it. */
  lemma EmissionUpToReload(ctx: Context, n: Node, predicted: Option<Handle>, report: Value)
    requires Enabled(n) && !n.kind.Clean? && !n.kind.Unknown?
    requires n.kind.Tool? ==> report.Null? && ToolOutputOf(ctx.host, n, ctx.tools).OutPassThrough?
    ensures var actual := EffectiveOutput(
              ctx.host, n.kind, Resolved(ctx, n), Reload(predicted), report, ToolOutputOf(ctx.host, n, ctx.tools));
            actual.Emits? && Reload(actual.handle) == Reload(PredictNode(ctx, n, predicted))
  {
    hide CaptionEmission, Reload, InheritHandle, CaptionOverride, OverridesIn, FolderPath, Resolved;
    CaptionUpToReload(ctx.host, Resolved(ctx, n), predicted);
    ReloadTwice(predicted);
  }

  /** The enabled steps among the first `k` emitted what was predicted, as the run state keeps it. */
  ghost predicate Predicted(ctx: Context, st: RunState, k: nat)
    requires k <= |ctx.graph.nodes|
  {
    forall i: nat | i < k && Enabled(ctx.graph.nodes[i]) ::
      && ctx.graph.nodes[i].id in st.outputs
      && st.outputs[ctx.graph.nodes[i].id] == Reload(PredictedAt(ctx, i))
  }

  /** What a plain step reads during the run is its predicted input. */
  lemma RunInput(ctx: Context, st: RunState, k: nat)
    requires PlainGraph(ctx) && k < |ctx.graph.nodes| && Predicted(ctx, st, k)
    requires Enabled(ctx.graph.nodes[k]) && !ctx.graph.nodes[k].kind.Folder?
    ensures var s := SourcePos(ctx.graph.nodes, k);
            && Enabled(ctx.graph.nodes[s]) && !ctx.graph.nodes[s].kind.Train?
            && InputFrom(st.outputs, ctx.graph.nodes[k]) == st.outputs[ctx.graph.nodes[s].id]
    ensures InputFrom(st.outputs, ctx.graph.nodes[k])
         == Reload(InputFrom(Predict(ctx, k), ctx.graph.nodes[k]))
  {
    hide PredictedAt, Predict, Reload;
    assert PlainStep(ctx, ctx.graph.nodes[k]);
    var s := SourcePos(ctx.graph.nodes, k);
    InputIsSourcePrediction(ctx, k);
  }

  /** One enabled step of the run: what it emits, and what it does to the disk. */
  lemma RunStep(ctx: Context, reports: Config, st: RunState, k: nat)
    requires PlainGraph(ctx) && HonestReports(ctx, reports) && k < |ctx.graph.nodes| && Predicted(ctx, st, k)
    requires Enabled(ctx.graph.nodes[k])
    ensures var n := ctx.graph.nodes[k];
            var input := InputFrom(st.outputs, n);
            var target := ConversionTarget(ctx, n, input);
            RunNode(ctx, n, ReportOf(reports, n), st)
            == RunState(
                 st.outputs[n.id := Reload(PredictedAt(ctx, k))],
                 if target.Some? then st.disk[DirectoryOf(ctx.host, input.value) := target.value] else st.disk)
  {
    hide Reload, ConversionTarget, PredictNode, Predict, PlainStep, OwnDirectories, NamesTheConfigured;
    var n := ctx.graph.nodes[k];
    PlainKinds(ctx, n);
    var predicted := InputFrom(Predict(ctx, k), n);
    if !n.kind.Folder? {
      RunInput(ctx, st, k);
      var s := SourcePos(ctx.graph.nodes, k);
      InputIsSourcePrediction(ctx, k);
      FolderFacts(ctx, s);
    }
    if n.kind.Clean? {
      CleanEmission(ctx, n, predicted.value, ReportOf(reports, n));
    } else {
      EmissionUpToReload(ctx, n, predicted, ReportOf(reports, n));
    }
  }

  lemma RunUnfolds(ctx: Context, reports: Config, disk: Disk, k: nat)
    requires k <= |ctx.graph.nodes|
    ensures Run(ctx, reports, disk, 0) == RunState(map[], disk)
    ensures k > 0 ==>
              var n := ctx.graph.nodes[k - 1];
              Run(ctx, reports, disk, k) == RunNode(ctx, n, ReportOf(reports, n), Run(ctx, reports, disk, k - 1))
  {
  }

  lemma DisabledStepLeavesTheDisk(ctx: Context, n: Node, report: Value, st: RunState)
    requires !Enabled(n)
    ensures RunNode(ctx, n, report, st) == RunState(st.outputs[n.id := SavedOutput(ctx, n.id)], st.disk)
  {
  }

  lemma PredictedStep(ctx: Context, before: RunState, after: RunState, k: nat, output: Option<Handle>)
    requires UniqueIds(ctx.graph.nodes) && k < |ctx.graph.nodes| && Predicted(ctx, before, k)
    requires after.outputs == before.outputs[ctx.graph.nodes[k].id := output]
    requires Enabled(ctx.graph.nodes[k]) ==> output == Reload(PredictedAt(ctx, k))
    ensures Predicted(ctx, after, k + 1)
  {
    hide PredictedAt, Reload;
  }

  lemma PlainGraphIsOrdered(ctx: Context)
    requires PlainGraph(ctx)
    ensures WellOrdered(ctx.graph.nodes) && UniqueIds(ctx.graph.nodes)
  {
  }

  lemma NothingPredictedYet(ctx: Context, st: RunState)
    ensures Predicted(ctx, st, 0)
  {
  }

  /** Predictions come true: after `k` steps the run state holds what pre-flight predicted. */
  lemma {:induction false} PredictionsComeTrue(ctx: Context, reports: Config, disk: Disk, k: nat)
    requires PlainGraph(ctx) && HonestReports(ctx, reports) && k <= |ctx.graph.nodes|
    ensures Predicted(ctx, Run(ctx, reports, disk, k), k)
  {
    hide *;
    RunUnfolds(ctx, reports, disk, k);
    if k == 0 {
      NothingPredictedYet(ctx, Run(ctx, reports, disk, k));
    } else {
      PlainGraphIsOrdered(ctx);
      PredictionsComeTrue(ctx, reports, disk, k - 1);
      var n, before := ctx.graph.nodes[k - 1], Run(ctx, reports, disk, k - 1);
      if Enabled(n) {
        RunStep(ctx, reports, before, k - 1);
        PredictedStep(ctx, before, Run(ctx, reports, disk, k), k - 1, Reload(PredictedAt(ctx, k - 1)));
      } else {
        DisabledStepLeavesTheDisk(ctx, n, ReportOf(reports, n), before);
        PredictedStep(ctx, before, Run(ctx, reports, disk, k), k - 1, SavedOutput(ctx, n.id));
      }
    }
  }

  // ---------------------------------------------------------------- downstream sets

  /** Membership of a step is decided when the scan passes it. */
  lemma {:induction false} DownstreamAt(nodes: seq<Node>, j: nat, m: nat, i: nat)
    requires UniqueIds(nodes) && j < |nodes| && m <= |nodes| && i < |nodes|
    ensures nodes[i].id in Downstream(nodes, j, m)
       <==> j < i < m && (nodes[i].source == Some(nodes[j].id)
                          || (nodes[i].source.Some? && nodes[i].source.value in Downstream(nodes, j, i)))
  {
    if m > j + 1 {
      DownstreamAt(nodes, j, m - 1, i);
      if i != m - 1 {
        assert nodes[i].id != nodes[m - 1].id;
      } else {
        assert nodes[i].id !in Downstream(nodes, j, m - 1);
      }
    }
  }

  /** A later step is downstream of `j` exactly when its source is `j` or downstream of `j`. */
  lemma DownstreamFollowsSource(nodes: seq<Node>, j: nat, i: nat)
    requires WellOrdered(nodes) && j < i < |nodes| && nodes[i].source.Some?
    ensures nodes[i].id in Downstream(nodes, j, |nodes|)
       <==> SourcePos(nodes, i) == j || nodes[SourcePos(nodes, i)].id in Downstream(nodes, j, |nodes|)
  {
    var s := SourcePos(nodes, i);
    DownstreamAt(nodes, j, |nodes|, i);
    DownstreamAt(nodes, j, |nodes|, s);
    DownstreamAt(nodes, j, i, s);
    assert s != j ==> nodes[s].id != nodes[j].id;
  }

  // ---------------------------------------------------------------- layouts along the run

  /** The step at `i` emits a folder whose captions are on disk in the layout its handle says. */
  ghost predicate Settled(ctx: Context, disk: Disk, i: nat)
    requires i < |ctx.graph.nodes|
  {
    var h := Reload(PredictedAt(ctx, i));
    && h.Some?
    && DirectoryOf(ctx.host, h.value) in disk
    && disk[DirectoryOf(ctx.host, h.value)] == LayoutOf(h.value)
  }

  /** Is step `j` a converter, as the check sees it? */
  ghost predicate IsConverter(ctx: Context, j: nat) {
    && j < |ctx.graph.nodes|
    && Converts(ctx, ctx.graph.nodes[j], ById(ctx.graph.nodes), Predict(ctx, |ctx.graph.nodes|))
  }

  /** What step `j` is predicted to read, as the run state keeps it. */
  ghost function ReadAt(ctx: Context, j: nat): Option<Handle>
    requires j < |ctx.graph.nodes|
  {
    Reload(InputFrom(Predict(ctx, j), ctx.graph.nodes[j]))
  }

  /** Going by the predictions, step `j` will rewrite the captions of directory `d`. */
  ghost predicate Rewrites(ctx: Context, j: nat, d: string) {
    && j < |ctx.graph.nodes| && Enabled(ctx.graph.nodes[j])
    && ConversionTarget(ctx, ctx.graph.nodes[j], ReadAt(ctx, j)).Some?
    && DirectoryOf(ctx.host, ReadAt(ctx, j).value) == d
  }

  /** A step among the first `k` rewrote the folder step `i` emits, and not above step `i`. */
  ghost predicate OvertakenBy(ctx: Context, i: nat, j: nat, k: nat)
    requires i < |ctx.graph.nodes|
  {
    && j < k && j != i
    && Rewrites(ctx, j, DirectoryAt(ctx, i))
    && ctx.graph.nodes[i].id !in Downstream(ctx.graph.nodes, j, |ctx.graph.nodes|)
  }

  ghost predicate Overtaken(ctx: Context, i: nat, k: nat)
    requires i < |ctx.graph.nodes|
  {
    exists j: nat :: OvertakenBy(ctx, i, j, k)
  }

  /** The invariant: every emitted handle is either right about the disk or overtaken by a converter. */
  ghost predicate Coherent(ctx: Context, disk: Disk, k: nat)
    requires k <= |ctx.graph.nodes|
  {
    forall i: nat | i < k && Enabled(ctx.graph.nodes[i]) && !ctx.graph.nodes[i].kind.Train? ::
      Settled(ctx, disk, i) || Overtaken(ctx, i, k)
  }

  /** A directory still is in its first layout unless some step has rewritten it. */
  ghost predicate Untouched(ctx: Context, initial: Disk, disk: Disk, k: nat) {
    forall d :: d in initial ==>
      d in disk && (disk[d] == initial[d] || exists j: nat :: j < k && Rewrites(ctx, j, d))
  }

  /** A step that rewrites its folder is a caption step, and names the folder its source emits. */
  lemma RewritingStep(ctx: Context, j: nat, d: string)
    requires PlainGraph(ctx) && Rewrites(ctx, j, d)
    ensures IsCaptionStep(ctx, j)
    ensures var s := SourcePos(ctx.graph.nodes, j);
            && !ctx.graph.nodes[j].kind.Folder? && !ctx.graph.nodes[j].kind.Train?
            && Enabled(ctx.graph.nodes[s]) && !ctx.graph.nodes[s].kind.Train? && DirectoryAt(ctx, s) == d
            && ReadAt(ctx, j) == Reload(PredictedAt(ctx, s))
  {
    hide Predict, PredictNode, ConversionTarget;
    var n := ctx.graph.nodes[j];
    assert PlainStep(ctx, n);
    OnlyCaptionStepsConvert(ctx, n, ReadAt(ctx, j));
    ReaderFacts(ctx, j);
    InputIsSourcePrediction(ctx, j);
  }

  /** With its format written out, a step that rewrites its folder is one the check counts as a converter. */
  lemma RewriteIsCounted(ctx: Context, j: nat, d: string)
    requires PlainGraph(ctx) && Rewrites(ctx, j, d) && LiteralFormat(ctx.graph.nodes[j])
    ensures IsConverter(ctx, j)
  {
    hide Predict, PredictNode, ConversionTarget, LiteralFormat;
    var nodes, n := ctx.graph.nodes, ctx.graph.nodes[j];
    assert PlainStep(ctx, n);
    OnlyCaptionStepsConvert(ctx, n, ReadAt(ctx, j));
    var s := SourcePos(nodes, j);
    ReaderFacts(ctx, j);
    InputIsSourcePrediction(ctx, j);
    PredictionIsStable(ctx, s, |nodes|);
    assert InputFrom(Predict(ctx, |nodes|), n) == InputFrom(Predict(ctx, j), n);
    ConversionSurvivesReload(ctx, n, InputFrom(Predict(ctx, j), n));
  }

  lemma OnlyCaptionStepsConvert(ctx: Context, n: Node, input: Option<Handle>)
    ensures ConversionTarget(ctx, n, input).Some? ==>
              IsCaptionKind(n.kind) && !n.kind.Folder? && !BringsFolder(n) && !n.kind.Train? && input.Some?
  {
  }

  /** A reader that is not downstream of a counted converter is refused, if the check knows their folder by one name. */
  lemma UnrelatedReaderIsRefused(ctx: Context, j: nat, k: nat, d: string)
    requires PlainGraph(ctx) && j < k && Rewrites(ctx, j, d) && IsConverter(ctx, j) && IsCaptionStep(ctx, k)
    requires ctx.graph.nodes[j].source.Some? && ctx.graph.nodes[k].source.Some?
    requires OriginAt(ctx, SourcePos(ctx.graph.nodes, k)) == OriginAt(ctx, SourcePos(ctx.graph.nodes, j))
    requires ctx.graph.nodes[k].id !in Downstream(ctx.graph.nodes, j, |ctx.graph.nodes|)
    ensures Refuses(ctx, ById(ctx.graph.nodes), Predict(ctx, |ctx.graph.nodes|), j, k)
  {
    hide Origin, Predict, Converts, Downstream, Rewrites;
    assert PlainStep(ctx, ctx.graph.nodes[k]);
    ReaderFacts(ctx, k);
    RewritingStep(ctx, j, d);
    ReaderFacts(ctx, j);
  }

  /** The heart of the check: in an accepted graph no caption step reads an overtaken handle. */
  lemma CaptionStepReadsASettledHandle(ctx: Context, disk: Disk, k: nat)
    requires PlainGraph(ctx) && OneNamePerDirectory(ctx) && LiteralFormats(ctx) && Accepted(ctx)
    requires IsCaptionStep(ctx, k) && Coherent(ctx, disk, k)
    ensures Settled(ctx, disk, SourcePos(ctx.graph.nodes, k))
  {
    hide Settled, Downstream, Predict, Refuses, OneNamePerDirectory, DirectoryAt, OriginAt, Rewrites, IsConverter,
      LiteralFormat;
    assert PlainStep(ctx, ctx.graph.nodes[k]);
    var nodes, s := ctx.graph.nodes, SourcePos(ctx.graph.nodes, k);
    ReaderFacts(ctx, k);
    if !Settled(ctx, disk, s) {
      assert Overtaken(ctx, s, k);
      var j: nat :| OvertakenBy(ctx, s, j, k);
      DownstreamFollowsSource(nodes, j, k);
      RewritingStep(ctx, j, DirectoryAt(ctx, s));
      RewriteIsCounted(ctx, j, DirectoryAt(ctx, s));
      SameDirectorySameOrigin(ctx, s, SourcePos(nodes, j));
      UnrelatedReaderIsRefused(ctx, j, k, DirectoryAt(ctx, s));
      assert false;
    }
  }

  lemma ConversionSurvivesReload(ctx: Context, n: Node, predicted: Option<Handle>)
    requires LiteralFormat(n)
    requires ConversionTarget(ctx, n, Reload(predicted)).Some?
    ensures var over := CaptionOverride(ctx.host, n.config, predicted);
            !ChoiceOf(ctx.host, n.config).Inherit?
            && !(predicted.Some? && over.Some? && SameFormat(over.value, predicted.value))
  {
    assert |DEFAULT_FORMAT| == 7 && |DEFAULT_EXT| == 4 && |"json"| == 4;
    var vars := VariableMap(ctx.host, ctx.graph.variables);
    LiteralKeyIsUnchanged(n.config, "output_format", vars);
    LiteralKeyIsUnchanged(n.config, "output_ext", vars);
  }

  lemma CaptionLayout(host: Host, config: Config, predicted: Handle)
    requires predicted.path != ""
    ensures var input := Reload(Some(predicted));
            var over := CaptionOverride(host, config, input);
            var out := Reload(CaptionEmission(host, config, Some(predicted)));
            && input.Some? && out.Some?
            && out.value.path == predicted.path && input.value.path == predicted.path
            && LayoutOf(out.value)
               == if over.Some? && !SameFormat(over.value, input.value)
                  then LayoutOfFormat(over.value.format, over.value.ext)
                  else LayoutOf(input.value)
  {
    assert |DEFAULT_FORMAT| == 7 && |DEFAULT_EXT| == 4 && |"json"| == 4;
    hide Text.Trim, Text.Lower;
  }

  lemma NonCaptionEmission(ctx: Context, n: Node, predicted: Handle)
    requires Enabled(n) && PlainStep(ctx, n) && !BringsFolder(n) && !n.kind.Train? && !IsCaptionKind(n.kind)
    ensures PredictNode(ctx, n, Some(predicted)) == Some(predicted)
  {
    if n.kind.Clean? {
      LiteralKeyIsUnchanged(n.config, "in_place", VariableMap(ctx.host, ctx.graph.variables));
    }
    hide Resolved;
  }

  lemma CaptionEmissionIsPredicted(ctx: Context, n: Node, input: Option<Handle>)
    requires Enabled(n) && IsCaptionKind(n.kind)
    ensures PredictNode(ctx, n, input) == CaptionEmission(ctx.host, Resolved(ctx, n), input)
  {
    hide CaptionEmission, Resolved;
  }

  /** What a plain step's emission says of the layout, against the conversion it makes. */
  lemma EmittedLayout(ctx: Context, n: Node, predicted: Handle)
    requires Enabled(n) && PlainStep(ctx, n) && !BringsFolder(n) && !n.kind.Train?
    requires predicted.path != ""
    ensures var input := Reload(Some(predicted));
            var out := Reload(PredictNode(ctx, n, Some(predicted)));
            var target := ConversionTarget(ctx, n, input);
            && input.Some? && out.Some?
            && DirectoryOf(ctx.host, out.value) == DirectoryOf(ctx.host, input.value)
            && DirectoryOf(ctx.host, input.value) == DirectoryOf(ctx.host, predicted)
            && LayoutOf(out.value) == if target.Some? then target.value else LayoutOf(input.value)
  {
    hide PredictNode, CaptionOverride, CaptionEmission, LayoutOf, LayoutOfFormat, SameFormat, Resolved;
    if IsCaptionKind(n.kind) {
      CaptionLayout(ctx.host, Resolved(ctx, n), predicted);
      CaptionEmissionIsPredicted(ctx, n, Some(predicted));
    } else {
      NonCaptionEmission(ctx, n, predicted);
    }
  }

  lemma ReloadKeepsDirectory(ctx: Context, i: nat)
    requires i < |ctx.graph.nodes| && PredictedAt(ctx, i).Some? && PredictedAt(ctx, i).value.path != ""
    ensures Reload(PredictedAt(ctx, i)).Some?
    ensures DirectoryOf(ctx.host, Reload(PredictedAt(ctx, i)).value) == DirectoryAt(ctx, i)
  {
    hide PredictNode;
  }

  lemma StaysOvertaken(ctx: Context, i: nat, k: nat)
    requires i < |ctx.graph.nodes| && Overtaken(ctx, i, k)
    ensures Overtaken(ctx, i, k + 1)
  {
    hide Rewrites, Downstream, DirectoryAt;
    var j: nat :| OvertakenBy(ctx, i, j, k);
    assert OvertakenBy(ctx, i, j, k + 1);
  }

  /** A step that leaves the disk alone: its own handle is as good as the one it reads. */
  lemma QuietStep(ctx: Context, initial: Disk, disk: Disk, k: nat)
    requires PlainGraph(ctx) && DeclaresDisk(ctx, initial) && k < |ctx.graph.nodes|
    requires Coherent(ctx, disk, k) && Untouched(ctx, initial, disk, k)
    requires var n := ctx.graph.nodes[k];
             Enabled(n) ==> ConversionTarget(ctx, n, ReadAt(ctx, k)).None?
    ensures Coherent(ctx, disk, k + 1) && Untouched(ctx, initial, disk, k + 1)
  {
    hide PlainGraph, DeclaresDisk, Settled, Overtaken, Reload, Predict, ConversionTarget, Rewrites;
    var nodes, n := ctx.graph.nodes, ctx.graph.nodes[k];
    forall i: nat | i < k + 1 && Enabled(nodes[i]) && !nodes[i].kind.Train?
      ensures Settled(ctx, disk, i) || Overtaken(ctx, i, k + 1)
    {
      if i == k {
        if BringsFolder(n) {
          FolderIsFreshOrOvertaken(ctx, initial, disk, k);
        } else {
          ReaderFollowsItsSource(ctx, disk, k);
        }
      } else if !Settled(ctx, disk, i) {
        StaysOvertaken(ctx, i, k);
      }
    }
  }

  /** Only steps below a clean step rewrite the directory it writes. */
  lemma OwnDirectoryIsRewrittenLater(ctx: Context, a: nat, j: nat)
    requires PlainGraph(ctx) && IsStart(ctx, a) && Rewrites(ctx, j, DirectoryAt(ctx, a))
    ensures ctx.graph.nodes[a].kind.Clean? ==> a < j
  {
    hide Rewrites, DirectoryAt, PredictedAt, PlainStep, OriginAt, FolderKey;
    RewritingStep(ctx, j, DirectoryAt(ctx, a));
    FolderFacts(ctx, SourcePos(ctx.graph.nodes, j));
  }

  lemma FolderIsFreshOrOvertaken(ctx: Context, initial: Disk, disk: Disk, k: nat)
    requires PlainGraph(ctx) && DeclaresDisk(ctx, initial) && k < |ctx.graph.nodes|
    requires Untouched(ctx, initial, disk, k)
    requires IsStart(ctx, k)
    ensures Settled(ctx, disk, k) || Overtaken(ctx, k, k + 1)
  {
    hide PredictedAt, Reload, Origin, Downstream, Predict, Rewrites, DirectoryOf, DirectoryAt;
    FolderFacts(ctx, k);
    ReloadKeepsDirectory(ctx, k);
    assert PlainStep(ctx, ctx.graph.nodes[k]);
    if !Settled(ctx, disk, k) {
      assert DirectoryAt(ctx, k) in initial;
      var j: nat :| j < k && Rewrites(ctx, j, DirectoryAt(ctx, k));
      OwnDirectoryIsRewrittenLater(ctx, k, j);
      DownstreamAt(ctx.graph.nodes, j, |ctx.graph.nodes|, k);
      assert OvertakenBy(ctx, k, j, k + 1);
    }
  }

  /** A plain step that brings no folder in emits a handle on the directory it reads. */
  lemma StepFacts(ctx: Context, k: nat)
    requires PlainGraph(ctx) && k < |ctx.graph.nodes|
    requires Enabled(ctx.graph.nodes[k]) && !ctx.graph.nodes[k].kind.Train? && !BringsFolder(ctx.graph.nodes[k])
    ensures var s, n := SourcePos(ctx.graph.nodes, k), ctx.graph.nodes[k];
            var target := ConversionTarget(ctx, n, ReadAt(ctx, k));
            var out, read := Reload(PredictedAt(ctx, k)), Reload(PredictedAt(ctx, s));
            && Enabled(ctx.graph.nodes[s]) && !ctx.graph.nodes[s].kind.Train?
            && ReadAt(ctx, k) == read && out.Some? && read.Some?
            && DirectoryAt(ctx, k) == DirectoryAt(ctx, s)
            && DirectoryOf(ctx.host, out.value) == DirectoryAt(ctx, s)
            && DirectoryOf(ctx.host, read.value) == DirectoryAt(ctx, s)
            && LayoutOf(out.value) == if target.Some? then target.value else LayoutOf(read.value)
  {
    hide PredictNode, Reload, Origin, Predict, DirectoryOf, LayoutOf, ConversionTarget;
    var n, s := ctx.graph.nodes[k], SourcePos(ctx.graph.nodes, k);
    assert PlainStep(ctx, n);
    ReaderFacts(ctx, k);
    InputIsSourcePrediction(ctx, k);
    FolderFacts(ctx, s);
    FolderFacts(ctx, k);
    ReloadKeepsDirectory(ctx, k);
    EmittedLayout(ctx, n, PredictedAt(ctx, s).value);
  }

  lemma ReaderFollowsItsSource(ctx: Context, disk: Disk, k: nat)
    requires PlainGraph(ctx) && k < |ctx.graph.nodes| && Coherent(ctx, disk, k)
    requires var n := ctx.graph.nodes[k];
             && Enabled(n) && !n.kind.Train? && !BringsFolder(n)
             && ConversionTarget(ctx, n, ReadAt(ctx, k)).None?
    ensures Settled(ctx, disk, k) || Overtaken(ctx, k, k + 1)
  {
    hide PredictedAt, Reload, Downstream, Predict, Rewrites, DirectoryOf, DirectoryAt, LayoutOf, ConversionTarget;
    var nodes, s := ctx.graph.nodes, SourcePos(ctx.graph.nodes, k);
    StepFacts(ctx, k);
    if !Settled(ctx, disk, s) {
      var j: nat :| OvertakenBy(ctx, s, j, k);
      DownstreamFollowsSource(nodes, j, k);
      assert OvertakenBy(ctx, k, j, k + 1);
    }
  }

  /** A handle the rewriting step leaves behind is on another directory, or overtaken. */
  lemma OtherHandleAfterConversion(ctx: Context, disk: Disk, k: nat, i: nat, d: string, layout: Layout)
    requires PlainGraph(ctx) && k < |ctx.graph.nodes| && i < k
    requires Enabled(ctx.graph.nodes[i]) && !ctx.graph.nodes[i].kind.Train?
    requires Rewrites(ctx, k, d)
    requires Settled(ctx, disk, i) || Overtaken(ctx, i, k)
    ensures Settled(ctx, disk[d := layout], i) || Overtaken(ctx, i, k + 1)
  {
    hide PredictedAt, Reload, Downstream, Predict, Rewrites, DirectoryOf, DirectoryAt, LayoutOf;
    FolderFacts(ctx, i);
    ReloadKeepsDirectory(ctx, i);
    if DirectoryAt(ctx, i) == d {
      DownstreamAt(ctx.graph.nodes, k, |ctx.graph.nodes|, i);
      assert OvertakenBy(ctx, i, k, k + 1);
    } else if !Settled(ctx, disk, i) {
      StaysOvertaken(ctx, i, k);
    }
  }

  /** A rewriting step: it is right about the disk, and every earlier handle on the folder is overtaken. */
  lemma ConvertingStep(ctx: Context, initial: Disk, disk: Disk, k: nat)
    requires PlainGraph(ctx) && k < |ctx.graph.nodes|
    requires Coherent(ctx, disk, k) && Untouched(ctx, initial, disk, k)
    requires Enabled(ctx.graph.nodes[k]) && !BringsFolder(ctx.graph.nodes[k]) && !ctx.graph.nodes[k].kind.Train?
    requires ConversionTarget(ctx, ctx.graph.nodes[k], ReadAt(ctx, k)).Some?
    ensures var n, input := ctx.graph.nodes[k], ReadAt(ctx, k);
            && input.Some?
            && var after := disk[DirectoryOf(ctx.host, input.value) := ConversionTarget(ctx, n, input).value];
               Coherent(ctx, after, k + 1) && Untouched(ctx, initial, after, k + 1)
  {
    hide PlainGraph, Overtaken, Reload, Predict, PredictedAt, ConversionTarget, DirectoryOf, DirectoryAt, LayoutOf;
    var nodes, n := ctx.graph.nodes, ctx.graph.nodes[k];
    StepFacts(ctx, k);
    var d := DirectoryOf(ctx.host, ReadAt(ctx, k).value);
    var target := ConversionTarget(ctx, n, ReadAt(ctx, k)).value;
    assert Rewrites(ctx, k, d);
    forall i: nat | i < k + 1 && Enabled(nodes[i]) && !nodes[i].kind.Train?
      ensures Settled(ctx, disk[d := target], i) || Overtaken(ctx, i, k + 1)
    {
      if i < k {
        OtherHandleAfterConversion(ctx, disk, k, i, d, target);
      }
    }
  }

  lemma {:induction false} RunStaysCoherent(ctx: Context, reports: Config, initial: Disk, k: nat)
    requires PlainGraph(ctx) && HonestReports(ctx, reports) && DeclaresDisk(ctx, initial) && k <= |ctx.graph.nodes|
    ensures Coherent(ctx, Run(ctx, reports, initial, k).disk, k)
    ensures Untouched(ctx, initial, Run(ctx, reports, initial, k).disk, k)
  {
    hide *;
    RunUnfolds(ctx, reports, initial, k);
    if k == 0 {
      NothingRunYet(ctx, initial);
    } else {
      RunStaysCoherent(ctx, reports, initial, k - 1);
      var n, st := ctx.graph.nodes[k - 1], Run(ctx, reports, initial, k - 1);
      StepOnDisk(ctx, reports, initial, k - 1);
      if Enabled(n) && ConversionTarget(ctx, n, ReadAt(ctx, k - 1)).Some? {
        OnlyCaptionStepsConvert(ctx, n, ReadAt(ctx, k - 1));
        ConvertingStep(ctx, initial, st.disk, k - 1);
      } else {
        QuietStep(ctx, initial, st.disk, k - 1);
      }
    }
  }

  lemma NothingRunYet(ctx: Context, initial: Disk)
    ensures Coherent(ctx, initial, 0) && Untouched(ctx, initial, initial, 0)
  {
  }

  /** What one step of the run does to the disk, going by the predictions alone. */
  lemma StepOnDisk(ctx: Context, reports: Config, initial: Disk, k: nat)
    requires PlainGraph(ctx) && HonestReports(ctx, reports) && k < |ctx.graph.nodes|
    ensures var n, disk := ctx.graph.nodes[k], Run(ctx, reports, initial, k).disk;
            var target := ConversionTarget(ctx, n, ReadAt(ctx, k));
            Run(ctx, reports, initial, k + 1).disk
            == if Enabled(n) && target.Some?
               then disk[DirectoryOf(ctx.host, ReadAt(ctx, k).value) := target.value]
               else disk
  {
    var n, st := ctx.graph.nodes[k], Run(ctx, reports, initial, k);
    hide Run, RunNode, Predict, Reload, ConversionTarget, DirectoryOf, PlainGraph, HonestReports, InputFrom, Predicted;
    RunUnfolds(ctx, reports, initial, k + 1);
    if Enabled(n) {
      PredictionsComeTrue(ctx, reports, initial, k);
      RunStep(ctx, reports, st, k);
      OnlyCaptionStepsConvert(ctx, n, InputFrom(st.outputs, n));
      OnlyCaptionStepsConvert(ctx, n, ReadAt(ctx, k));
      if !n.kind.Folder? {
        RunInput(ctx, st, k);
      }
    } else {
      DisabledStepLeavesTheDisk(ctx, n, ReportOf(reports, n), st);
    }
  }

  /** At its turn in the run, step `k` reads a handle whose layout its directory has on disk. */
  ghost predicate ReadsTheLayoutOnDisk(ctx: Context, reports: Config, initial: Disk, k: nat)
    requires k < |ctx.graph.nodes|
  {
    var st := Run(ctx, reports, initial, k);
    var input := InputFrom(st.outputs, ctx.graph.nodes[k]);
    && input.Some?
    && DirectoryOf(ctx.host, input.value) in st.disk
    && st.disk[DirectoryOf(ctx.host, input.value)] == LayoutOf(input.value)
  }

  /** That is: the handle its source left behind still is right about the disk. */
  lemma ReadsASettledHandle(ctx: Context, reports: Config, initial: Disk, k: nat)
    requires PlainGraph(ctx) && HonestReports(ctx, reports) && k < |ctx.graph.nodes|
    requires Enabled(ctx.graph.nodes[k]) && !ctx.graph.nodes[k].kind.Folder?
    ensures var s := SourcePos(ctx.graph.nodes, k);
            && Enabled(ctx.graph.nodes[s]) && !ctx.graph.nodes[s].kind.Train?
            && (ReadsTheLayoutOnDisk(ctx, reports, initial, k)
                <==> Settled(ctx, Run(ctx, reports, initial, k).disk, s))
  {
    hide PredictedAt, Predict, Reload, Run, LayoutOf, DirectoryOf;
    PredictionsComeTrue(ctx, reports, initial, k);
    RunInput(ctx, Run(ctx, reports, initial, k), k);
  }

  /**
   * Soundness of the check. In an accepted plain graph whose directories have one name each and whose
   * output formats are written out, every caption step reads a handle whose layout is the layout its
   * directory has on disk at that moment, although any number of steps before it converted shared folders.
   */
  lemma CaptionStepsReadTheLayoutOnDisk(ctx: Context, reports: Config, initial: Disk, k: nat)
    requires PlainGraph(ctx) && OneNamePerDirectory(ctx) && LiteralFormats(ctx) && Accepted(ctx)
    requires HonestReports(ctx, reports) && DeclaresDisk(ctx, initial) && IsCaptionStep(ctx, k)
    ensures ReadsTheLayoutOnDisk(ctx, reports, initial, k)
  {
    hide Coherent, Untouched, Accepted, DeclaresDisk, Run, ReadsTheLayoutOnDisk, OneNamePerDirectory, Settled,
      LiteralFormats;
    assert PlainStep(ctx, ctx.graph.nodes[k]);
    RunStaysCoherent(ctx, reports, initial, k);
    ReadsASettledHandle(ctx, reports, initial, k);
    CaptionStepReadsASettledHandle(ctx, Run(ctx, reports, initial, k).disk, k);
  }
}
