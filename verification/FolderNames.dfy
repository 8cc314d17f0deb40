/**
 * The check's names for folders against the directories they lead to: when they agree, and the graphs
 * in which one directory has two names.
 */
module FolderNames {
  import opened Values
  import Text
  import opened WorkflowGraph
  import opened Substitution
  import opened SourceWalks
  import opened Prediction
  import opened Conversion
  import opened ConversionLimits

  // ---------------------------------------------------------------- names that are directories

  /** A folder step whose path is written literally and names a directory other than the current one. */
  predicate NamesDirectory(host: Host, config: Config) {
    && LiteralKey(config, "path")
    && Get(config, "path").Str? && Get(config, "path").s != ""
    && host.normalize(Get(config, "path").s) != "."
    && host.normalize(Get(config, "path").s) != ""
  }

  predicate IsFolderStep(ctx: Context, a: nat) {
    IsStart(ctx, a) && ctx.graph.nodes[a].kind.Folder?
  }

  /**
   * Normalisation tells the folder steps' directories apart: no links, no second spelling. A clean
   * step goes by its id, which is not the text of a folder's name.
   */
  ghost predicate NormalPathsAreDirectories(ctx: Context) {
    && (forall a: nat | IsFolderStep(ctx, a) :: NamesDirectory(ctx.host, ctx.graph.nodes[a].config))
    && (forall a: nat, b: nat | IsFolderStep(ctx, a) && IsFolderStep(ctx, b) ::
          var p, q := Get(ctx.graph.nodes[a].config, "path").s, Get(ctx.graph.nodes[b].config, "path").s;
          ctx.host.normalize(p) == ctx.host.normalize(q) <==> ctx.host.directory(p) == ctx.host.directory(q))
    && (forall a: nat | IsStart(ctx, a) && !ctx.graph.nodes[a].kind.Folder? :: !("folder:" <= ctx.graph.nodes[a].id))
  }

  lemma LiteralFolderStep(ctx: Context, a: nat) returns (path: string)
    requires PlainGraph(ctx) && IsFolderStep(ctx, a) && NamesDirectory(ctx.host, ctx.graph.nodes[a].config)
    ensures Get(ctx.graph.nodes[a].config, "path") == Str(path)
    ensures DirectoryAt(ctx, a) == ctx.host.directory(path)
    ensures NameOf(ctx, a) == DirectoryKey(ctx.host.normalize(path))
  {
    hide PredictNode, Predict, Resolved;
    var n := ctx.graph.nodes[a];
    path := Get(n.config, "path").s;
    assert PlainStep(ctx, n);
    FolderStepPath(ctx, n, InputFrom(Predict(ctx, a), n));
    LiteralPath(ctx, n);
    LiteralName(ctx.host, n);
  }

  lemma LiteralPath(ctx: Context, n: Node)
    requires NamesDirectory(ctx.host, n.config)
    ensures FolderPath(ctx.host, Resolved(ctx, n)) == Get(n.config, "path").s
  {
    LiteralKeyIsUnchanged(n.config, "path", VariableMap(ctx.host, ctx.graph.variables));
    assert "path" in n.config;
  }

  lemma LiteralName(host: Host, n: Node)
    requires NamesDirectory(host, n.config) && n.kind.Folder?
    ensures FolderKey(host, n) == DirectoryKey(host.normalize(Get(n.config, "path").s))
  {
  }

  /** Literal folder paths that normalisation tells apart as the file system does make the check exact. */
  lemma NormalPathsName(ctx: Context)
    requires PlainGraph(ctx) && NormalPathsAreDirectories(ctx)
    ensures NamesAreDirectories(ctx)
  {
    hide PlainGraph, NamesDirectory, DirectoryAt, NameOf, DirectoryKey;
    forall a: nat, b: nat | IsStart(ctx, a) && IsStart(ctx, b)
      ensures NameOf(ctx, a) == NameOf(ctx, b) <==> DirectoryAt(ctx, a) == DirectoryAt(ctx, b)
    {
      if IsFolderStep(ctx, a) && IsFolderStep(ctx, b) {
        var p := LiteralFolderStep(ctx, a);
        var q := LiteralFolderStep(ctx, b);
        KeysDiffer(ctx.host.normalize(p), ctx.host.normalize(q));
      } else if !IsFolderStep(ctx, a) {
        CleanStepsGoByTheirIds(ctx, a, b);
      } else {
        CleanStepsGoByTheirIds(ctx, b, a);
      }
    }
  }

  /** A clean step that writes elsewhere shares neither its name nor its directory. */
  lemma CleanStepsGoByTheirIds(ctx: Context, a: nat, b: nat)
    requires PlainGraph(ctx) && NormalPathsAreDirectories(ctx)
    requires IsStart(ctx, a) && !IsFolderStep(ctx, a) && IsStart(ctx, b)
    ensures NameOf(ctx, a) == NameOf(ctx, b) <==> a == b
    ensures DirectoryAt(ctx, a) == DirectoryAt(ctx, b) <==> a == b
  {
    hide PredictedAt, NamesDirectory, PlainStep;
    assert OwnDirectories(ctx);
    var nodes := ctx.graph.nodes;
    assert a != b ==> nodes[a].id != nodes[b].id;
    if IsFolderStep(ctx, b) {
      var q := LiteralFolderStep(ctx, b);
      assert "folder:" <= DirectoryKey(ctx.host.normalize(q));
    }
  }

  lemma KeysDiffer(p: string, q: string)
    ensures DirectoryKey(p) == DirectoryKey(q) <==> p == q
  {
    assert DirectoryKey(p)[7..] == p && DirectoryKey(q)[7..] == q;
  }

  // ---------------------------------------------------------------- directories with two names

  function Step(id: string, kind: NodeKind, source: Option<string>, config: Config): Node {
    Node(id, kind, Str(""), source, Bool(true), config, NodeGpu(Bool(false), Bool(true), Null))
  }

  function ContextOf(host: Host, variables: seq<Variable>, nodes: seq<Node>): Context {
    Context(host, Graph(Null, Null, Null, variables, nodes), map[], map[])
  }

  function FolderOn(path: string): Config {
    map["path" := Str(path)]
  }

  const TO_JSON: Config := map["output_format" := Str("json")]

  lemma JsonChoice(host: Host)
    ensures ChoiceOf(host, TO_JSON) == Json
    ensures ChoiceOf(host, map[]) == Inherit
    ensures forall path :: ChoiceOf(host, FolderOn(path)) == Inherit
  {
    assert Get(TO_JSON, "output_format") == Str("json");
    assert Text.TrimLeft("json") == "json" && Text.TrimRight("json") == "json";
    assert Text.Lower("json") == "json";
    assert "json" != "sidecar" by { assert |"json"| == 4 && |"sidecar"| == 7; }
    assert Text.Trim("") == "" && Text.Lower("") == "";
    assert |"output_format"| == 13 && |"path"| == 4;
    forall path ensures ChoiceOf(host, FolderOn(path)) == Inherit {
      assert "output_format" !in FolderOn(path);
    }
  }

  /** The handle a folder step on `path` emits when nothing else is configured. */
  function PlainFolderHandle(path: string): Handle {
    Handle(path, DEFAULT_FORMAT, DEFAULT_EXT, "")
  }

  /** A path as written, with the variables filled in. */
  function Spelled(host: Host, variables: seq<Variable>, path: string): string {
    ResolveText(path, VariableMap(host, variables))
  }

  /**
   * A folder step on `p`, one on `q`, a step that converts the first and a reader of the second. The
   * two paths lead to one directory, and the check has two names for it.
   */
  ghost predicate TwoNames(host: Host, variables: seq<Variable>, nodes: seq<Node>, p: string, q: string) {
    && |nodes| == 4 && WellOrdered(nodes)
    && (forall i | 0 <= i < 4 :: nodes[i].enabled == Bool(true))
    && nodes[0].kind.Folder? && nodes[0].config == FolderOn(p) && nodes[0].source.None?
    && nodes[1].kind.Folder? && nodes[1].config == FolderOn(q) && nodes[1].source.None?
    && nodes[2].kind.Tag? && nodes[2].config == TO_JSON && nodes[2].source == Some(nodes[0].id)
    && nodes[3].kind.Caption? && nodes[3].config == map[] && nodes[3].source == Some(nodes[1].id)
    && Spelled(host, variables, p) != "" && Spelled(host, variables, q) != ""
    && host.directory(Spelled(host, variables, p)) == host.directory(Spelled(host, variables, q))
    && FolderKey(host, nodes[0]) != FolderKey(host, nodes[1])
  }

  lemma ResolvedFolder(host: Host, variables: seq<Variable>, nodes: seq<Node>, n: Node, path: string)
    requires n.config == FolderOn(path)
    ensures Resolved(ContextOf(host, variables, nodes), n) == FolderOn(Spelled(host, variables, path))
  {
  }

  lemma PlainFolderPrediction(host: Host, variables: seq<Variable>, nodes: seq<Node>, i: nat, path: string)
    requires i < |nodes| && nodes[i].kind.Folder? && nodes[i].config == FolderOn(path) && nodes[i].enabled == Bool(true)
    requires Spelled(host, variables, path) != ""
    ensures var ctx := ContextOf(host, variables, nodes);
            && PredictedAt(ctx, i) == Some(PlainFolderHandle(Spelled(host, variables, path)))
            && Reload(PredictedAt(ctx, i)) == PredictedAt(ctx, i)
            && FolderPath(host, Resolved(ctx, nodes[i])) != ""
  {
    ResolvedFolder(host, variables, nodes, nodes[i], path);
    hide Resolved, Predict, Spelled;
    assert |"path"| == 4 && |"caption_format"| == 14 && |"caption_ext"| == 11 && |"control_path"| == 12;
    assert |DEFAULT_FORMAT| == 7 && |DEFAULT_EXT| == 4;
  }

  lemma CaptionStepsArePlain(host: Host, variables: seq<Variable>, nodes: seq<Node>, n: Node)
    requires IsCaptionKind(n.kind) && n.source.Some?
    ensures PlainStep(ContextOf(host, variables, nodes), n)
  {
    hide Resolved, FolderPath, ToolOutputOf;
  }

  lemma CaptionFormatsAreLiteral(n: Node)
    requires n.config == TO_JSON || n.config == map[]
    ensures LiteralFormat(n)
  {
    assert |"output_format"| == 13 && |"output_ext"| == 10;
    assert DollarFree("json");
  }

  lemma FolderStepsArePlain(host: Host, variables: seq<Variable>, nodes: seq<Node>, i: nat, path: string)
    requires i < |nodes| && nodes[i].kind.Folder? && nodes[i].config == FolderOn(path) && nodes[i].enabled == Bool(true)
    requires nodes[i].source.None? && Spelled(host, variables, path) != ""
    ensures PlainStep(ContextOf(host, variables, nodes), nodes[i])
  {
    PlainFolderPrediction(host, variables, nodes, i, path);
    hide Resolved, FolderPath, ToolOutputOf, Spelled;
  }

  lemma TwoNamesArePlain(host: Host, variables: seq<Variable>, nodes: seq<Node>, p: string, q: string)
    requires TwoNames(host, variables, nodes, p, q)
    ensures PlainGraph(ContextOf(host, variables, nodes))
  {
    hide Spelled, FolderKey, PlainStep, ReadsBackwards, TO_JSON, FolderOn;
    var ctx := ContextOf(host, variables, nodes);
    FolderStepsArePlain(host, variables, nodes, 0, p);
    FolderStepsArePlain(host, variables, nodes, 1, q);
    CaptionStepsArePlain(host, variables, nodes, nodes[2]);
    CaptionStepsArePlain(host, variables, nodes, nodes[3]);
    assert forall i: nat | i < 4 :: PlainStep(ctx, nodes[i]);
    forall i: nat, j: nat | ReadsFrom(nodes, i, j) && !nodes[i].kind.Folder? ensures nodes[j].kind.Folder? {
      assert nodes[0].id != nodes[2].id && nodes[0].id != nodes[3].id;
      assert nodes[1].id != nodes[2].id && nodes[1].id != nodes[3].id;
    }
  }

  lemma TwoNamesAreLiteral(host: Host, variables: seq<Variable>, nodes: seq<Node>, p: string, q: string)
    requires TwoNames(host, variables, nodes, p, q)
    ensures LiteralFormats(ContextOf(host, variables, nodes))
  {
    CaptionFormatsAreLiteral(nodes[2]);
    CaptionFormatsAreLiteral(nodes[3]);
    hide Spelled, FolderKey, WellOrdered, LiteralFormat, TO_JSON, FolderOn;
  }

  lemma FolderStepOrigin(host: Host, variables: seq<Variable>, nodes: seq<Node>, i: nat)
    requires i < |nodes| && nodes[i].kind.Folder? && WellOrdered(nodes)
    ensures var ctx := ContextOf(host, variables, nodes);
            OriginAt(ctx, i) == FolderKey(host, nodes[i])
            && nodes[i].id in ById(nodes) && ById(nodes)[nodes[i].id] == nodes[i]
  {
    hide Origin, FolderKey;
    OriginSteps(host, nodes, i, map[]);
    ByIdFinds(nodes, i);
  }

  lemma OnlyTheTagConverts(
    host: Host, variables: seq<Variable>, nodes: seq<Node>, p: string, q: string, j: nat, byId: map<string, Node>,
    predicted: Handles
  )
    requires TwoNames(host, variables, nodes, p, q)
    requires j < 4 && Converts(ContextOf(host, variables, nodes), nodes[j], byId, predicted)
    ensures j == 2
  {
    JsonChoice(host);
    hide ChoiceOf, CaptionOverride, WellOrdered, Spelled, FolderKey;
  }

  /** The check tells the two folder steps apart, so it accepts the graph. */
  lemma TwoNamesAreAccepted(host: Host, variables: seq<Variable>, nodes: seq<Node>, p: string, q: string)
    requires TwoNames(host, variables, nodes, p, q)
    ensures Accepted(ContextOf(host, variables, nodes))
  {
    var ctx := ContextOf(host, variables, nodes);
    FolderStepOrigin(host, variables, nodes, 0);
    FolderStepOrigin(host, variables, nodes, 1);
    hide Predict, Origin, Downstream, ById, Converts, Spelled, FolderKey, WellOrdered;
    var predicted := Predict(ctx, |nodes|);
    forall i: nat, j: nat | i < |nodes| && Refuses(ctx, ById(nodes), predicted, j, i)
      ensures false
    {
      OnlyTheTagConverts(host, variables, nodes, p, q, j, ById(nodes), predicted);
    }
  }

  /** The disk before the run: the one directory holds sidecars. */
  ghost function SidecarsIn(directory: string): Disk {
    map[directory := Layout(DEFAULT_FORMAT, DEFAULT_EXT)]
  }

  lemma TwoNamesDeclareTheDisk(host: Host, variables: seq<Variable>, nodes: seq<Node>, p: string, q: string)
    requires TwoNames(host, variables, nodes, p, q)
    ensures DeclaresDisk(ContextOf(host, variables, nodes), SidecarsIn(host.directory(Spelled(host, variables, p))))
  {
    PlainFolderPrediction(host, variables, nodes, 0, p);
    PlainFolderPrediction(host, variables, nodes, 1, q);
    assert |"json"| == 4 && |DEFAULT_FORMAT| == 7 && |DEFAULT_EXT| == 4;
    hide PredictedAt, Reload, WellOrdered, Spelled, FolderKey;
  }

  lemma ToJsonIsLiteral(host: Host, variables: seq<Variable>, nodes: seq<Node>, n: Node)
    requires n.config == TO_JSON
    ensures Resolved(ContextOf(host, variables, nodes), n) == TO_JSON
  {
    assert DollarFree("json");
    hide ResolveConfig;
    LiteralConfigIsUnchanged(TO_JSON, VariableMap(host, variables));
  }

  lemma ConvertingToJson(ctx: Context, n: Node, path: string)
    requires IsCaptionKind(n.kind) && Resolved(ctx, n) == TO_JSON
    ensures ConversionTarget(ctx, n, Some(PlainFolderHandle(path))).Some?
  {
    JsonChoice(ctx.host);
    hide ChoiceOf, Resolved;
    assert |"json"| == 4 && |DEFAULT_FORMAT| == 7 && |DEFAULT_EXT| == 4;
  }

  lemma TheTagRewrites(host: Host, variables: seq<Variable>, nodes: seq<Node>, p: string, q: string)
    requires TwoNames(host, variables, nodes, p, q)
    ensures Rewrites(ContextOf(host, variables, nodes), 2, host.directory(Spelled(host, variables, p)))
  {
    var ctx := ContextOf(host, variables, nodes);
    assert nodes[0].id != nodes[1].id && nodes[0].id != nodes[2].id;
    assert SourcePos(nodes, 2) == 0;
    PlainFolderPrediction(host, variables, nodes, 0, p);
    hide PredictedAt, Predict, Reload, Spelled, FolderKey, WellOrdered, ConversionTarget, PlainFolderHandle, TO_JSON,
      Resolved;
    InputIsSourcePrediction(ctx, 2);
    ToJsonIsLiteral(host, variables, nodes, nodes[2]);
    ConvertingToJson(ctx, nodes[2], Spelled(host, variables, p));
    FolderHandlePath(Spelled(host, variables, p));
  }

  lemma FolderHandlePath(path: string)
    ensures PlainFolderHandle(path).path == path
  {
  }

  /** The directory, origin and reading of the last step. */
  lemma TheReaderOfTheSecondName(host: Host, variables: seq<Variable>, nodes: seq<Node>, p: string, q: string)
    requires TwoNames(host, variables, nodes, p, q)
    ensures var ctx, d := ContextOf(host, variables, nodes), host.directory(Spelled(host, variables, p));
            && PlainGraph(ctx) && IsCaptionStep(ctx, 2) && IsCaptionStep(ctx, 3)
            && DirectoryRead(ctx, 3) == d && OriginRead(ctx, 2) != OriginRead(ctx, 3)
            && RewrittenOnce(ctx, d, 3)
  {
    var ctx := ContextOf(host, variables, nodes);
    TwoNamesArePlain(host, variables, nodes, p, q);
    assert nodes[0].id != nodes[1].id && nodes[0].id != nodes[2].id && nodes[1].id != nodes[2].id;
    assert SourcePos(nodes, 2) == 0 && SourcePos(nodes, 3) == 1;
    PlainFolderPrediction(host, variables, nodes, 1, q);
    FolderStepOrigin(host, variables, nodes, 0);
    FolderStepOrigin(host, variables, nodes, 1);
    hide PredictedAt, Reload, Spelled, FolderKey, WellOrdered, OriginAt, PlainGraph, Rewrites, Predict;
    FolderHandlePath(Spelled(host, variables, q));
    forall a: nat | a < 3 && Rewrites(ctx, a, host.directory(Spelled(host, variables, p))) ensures a == 2 {
      RewriterIsACaptionStep(ctx, a, host.directory(Spelled(host, variables, p)));
    }
  }

  /**
   * The naming hypothesis is needed: the check accepts every graph of this shape, and the last step
   * reads sidecars from a directory now in json.
   */
  lemma ASecondNameEscapesTheCheck(host: Host, variables: seq<Variable>, nodes: seq<Node>, p: string, q: string)
    requires TwoNames(host, variables, nodes, p, q)
    ensures var ctx := ContextOf(host, variables, nodes);
            var disk := SidecarsIn(host.directory(Spelled(host, variables, p)));
            && PlainGraph(ctx) && Accepted(ctx) && HonestReports(ctx, map[]) && DeclaresDisk(ctx, disk)
            && LiteralFormats(ctx) && IsCaptionStep(ctx, 3) && OriginRead(ctx, 2) != OriginRead(ctx, 3)
            && Escapes(ctx, 3, 2) && !ReadsTheLayoutOnDisk(ctx, map[], disk, 3)
  {
    var ctx := ContextOf(host, variables, nodes);
    TwoNamesAreAccepted(host, variables, nodes, p, q);
    TwoNamesAreLiteral(host, variables, nodes, p, q);
    TwoNamesDeclareTheDisk(host, variables, nodes, p, q);
    TheTagRewrites(host, variables, nodes, p, q);
    TheReaderOfTheSecondName(host, variables, nodes, p, q);
    hide Spelled, FolderKey, WellOrdered, OriginRead, DirectoryRead, Rewrites, PlainGraph, Accepted, DeclaresDisk,
      ReadsTheLayoutOnDisk, RewrittenOnce, LiteralFormats, IsConverter;
    AcceptedStepIsWrongIffARewriteEscapes(ctx, map[], SidecarsIn(host.directory(Spelled(host, variables, p))), 3);
  }

  /** Two folder steps, a converter of the first and a reader of the second. */
  function FourSteps(p: string, q: string): seq<Node> {
    [ Step("a", Folder, None, FolderOn(p)), Step("b", Folder, None, FolderOn(q)),
      Step("c", Tag, Some("a"), TO_JSON), Step("d", Caption, Some("b"), map[]) ]
  }

  lemma FourStepsAreOrdered(p: string, q: string)
    ensures WellOrdered(FourSteps(p, q))
  {
    var nodes := FourSteps(p, q);
    assert nodes[0].id[0] == 'a' && nodes[1].id[0] == 'b' && nodes[2].id[0] == 'c' && nodes[3].id[0] == 'd';
    assert ReadsFrom(nodes, 2, 0) && ReadsFrom(nodes, 3, 1);
  }

  /** One family member: two folder steps on the current directory, each named after itself. */
  lemma CurrentDirectoryHasTwoNames(host: Host)
    requires host.normalize(".") == "."
    ensures TwoNames(host, [], FourSteps(".", "."), ".", ".")
  {
    FourStepsAreOrdered(".", ".");
    var nodes := FourSteps(".", ".");
    assert DollarFree(".");
    DollarFreeTextIsUnchanged(".", VariableMap(host, []));
    assert nodes[0].id[0] == 'a' && nodes[1].id[0] == 'b';
    hide WellOrdered, ResolveText;
  }

  /** The check's name for a folder step on `p` is the normalised text of `p`. */
  predicate NamedByItsText(host: Host, p: string) {
    p != "" && host.normalize(p) != "." && host.normalize(p) != ""
  }

  lemma TwoSpellings(host: Host, variables: seq<Variable>, p: string, q: string)
    requires NamedByItsText(host, p) && NamedByItsText(host, q) && host.normalize(p) != host.normalize(q)
    requires Spelled(host, variables, p) != "" && Spelled(host, variables, q) != ""
    requires host.directory(Spelled(host, variables, p)) == host.directory(Spelled(host, variables, q))
    ensures TwoNames(host, variables, FourSteps(p, q), p, q)
  {
    FourStepsAreOrdered(p, q);
    var nodes := FourSteps(p, q);
    KeysDiffer(host.normalize(p), host.normalize(q));
    assert |"path"| == 4;
    hide WellOrdered, Spelled, DirectoryKey;
  }

  /** Another: a relative and an absolute path, or a link and its target, for one directory. */
  lemma TwoPathsAreTwoNames(host: Host, p: string, q: string)
    requires NamedByItsText(host, p) && NamedByItsText(host, q) && DollarFree(p) && DollarFree(q)
    requires host.normalize(p) != host.normalize(q) && host.directory(p) == host.directory(q)
    ensures TwoNames(host, [], FourSteps(p, q), p, q)
  {
    DollarFreeTextIsUnchanged(p, VariableMap(host, []));
    DollarFreeTextIsUnchanged(q, VariableMap(host, []));
    hide ResolveText, DollarFree, NamedByItsText;
    TwoSpellings(host, [], p, q);
  }

  /** And another: a path written out and the same path in a variable, which the check does not fill in. */
  lemma AVariableIsASecondName(host: Host, name: string, path: string)
    requires ValidName(name) && NamedByItsText(host, RefText(name)) && NamedByItsText(host, path) && DollarFree(path)
    requires host.normalize(RefText(name)) != host.normalize(path)
    ensures TwoNames(host, [Variable(Str(name), Str(path), Null)], FourSteps(RefText(name), path), RefText(name), path)
  {
    var variables := [Variable(Str(name), Str(path), Null)];
    assert VariableMap(host, variables) == map[name := path] by { assert variables[..0] == []; }
    DollarFreeTextIsUnchanged(path, VariableMap(host, variables));
    ScanRef(name, "", VariableMap(host, variables));
    assert RefText(name) + "" == RefText(name) && path + "" == path;
    hide ResolveText, RefText, DollarFree, ValidName, NamedByItsText, VariableMap;
    TwoSpellings(host, variables, RefText(name), path);
  }
}
