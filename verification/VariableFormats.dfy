/**
 * Output formats held in a variable. The check reads a step's configuration as it is written, the run
 * fills the variables in: a format that is a variable converts a folder without being counted.
 */
module VariableFormats {
  import opened Values
  import Text
  import opened WorkflowGraph
  import opened Substitution
  import opened SourceWalks
  import opened Prediction
  import opened Conversion
  import opened ConversionLimits
  import opened FolderNames

  /** A caption step that asks for the format spelled `text`. */
  function FormatOf(text: string): Config {
    map["output_format" := Str(text)]
  }

  /**
   * A folder step, a step that converts it to a format spelled `text`, and a reader of the folder. Filled
   * in the text means json, as it is written it asks for nothing.
   */
  ghost predicate HiddenFormat(host: Host, variables: seq<Variable>, nodes: seq<Node>, path: string, text: string) {
    && |nodes| == 3 && WellOrdered(nodes)
    && (forall i | 0 <= i < 3 :: nodes[i].enabled == Bool(true))
    && nodes[0].kind.Folder? && nodes[0].config == FolderOn(path) && nodes[0].source.None?
    && nodes[1].kind.Tag? && nodes[1].config == FormatOf(text) && nodes[1].source == Some(nodes[0].id)
    && nodes[2].kind.Caption? && nodes[2].config == map[] && nodes[2].source == Some(nodes[0].id)
    && Spelled(host, variables, path) != ""
    && Spelled(host, variables, text) == "json" && ChoiceOf(host, FormatOf(text)).Inherit?
  }

  lemma HiddenFormatIsPlain(host: Host, variables: seq<Variable>, nodes: seq<Node>, path: string, text: string)
    requires HiddenFormat(host, variables, nodes, path, text)
    ensures PlainGraph(ContextOf(host, variables, nodes))
    ensures SourcePos(nodes, 1) == 0 && SourcePos(nodes, 2) == 0
  {
    hide Spelled, PlainStep, ReadsBackwards, FolderOn, FormatOf, ChoiceOf;
    var ctx := ContextOf(host, variables, nodes);
    FolderStepsArePlain(host, variables, nodes, 0, path);
    CaptionStepsArePlain(host, variables, nodes, nodes[1]);
    CaptionStepsArePlain(host, variables, nodes, nodes[2]);
    assert forall i: nat | i < 3 :: PlainStep(ctx, nodes[i]);
    assert nodes[0].id != nodes[1].id && nodes[0].id != nodes[2].id;
  }

  /** No step counts as a converter, so nothing is refused. */
  lemma HiddenFormatIsAccepted(host: Host, variables: seq<Variable>, nodes: seq<Node>, path: string, text: string)
    requires HiddenFormat(host, variables, nodes, path, text)
    ensures Accepted(ContextOf(host, variables, nodes)) && !IsConverter(ContextOf(host, variables, nodes), 1)
  {
    var ctx := ContextOf(host, variables, nodes);
    JsonChoice(host);
    hide ChoiceOf, CaptionOverride, WellOrdered, Spelled, Predict, ReadsOrigin, Downstream, ById;
    forall j: nat, byId: map<string, Node>, predicted: Handles | j < 3
      ensures !Converts(ctx, nodes[j], byId, predicted)
    {
    }
  }

  lemma HiddenFormatDeclaresTheDisk(
    host: Host, variables: seq<Variable>, nodes: seq<Node>, path: string, text: string
  )
    requires HiddenFormat(host, variables, nodes, path, text)
    ensures var ctx := ContextOf(host, variables, nodes);
            && DeclaresDisk(ctx, SidecarsIn(host.directory(Spelled(host, variables, path)))) && OneNamePerDirectory(ctx)
  {
    PlainFolderPrediction(host, variables, nodes, 0, path);
    assert |"json"| == 4 && |DEFAULT_FORMAT| == 7 && |DEFAULT_EXT| == 4;
    hide PredictedAt, Reload, WellOrdered, Spelled, FolderKey, ChoiceOf;
  }

  lemma FilledInItMeansJson(host: Host, variables: seq<Variable>, nodes: seq<Node>, n: Node, text: string)
    requires n.config == FormatOf(text) && Spelled(host, variables, text) == "json"
    ensures Resolved(ContextOf(host, variables, nodes), n) == TO_JSON
  {
    hide ResolveText;
  }

  lemma HiddenFormatRewrites(host: Host, variables: seq<Variable>, nodes: seq<Node>, path: string, text: string)
    requires HiddenFormat(host, variables, nodes, path, text)
    ensures var ctx, d := ContextOf(host, variables, nodes), host.directory(Spelled(host, variables, path));
            && PlainGraph(ctx) && IsCaptionStep(ctx, 1) && IsCaptionStep(ctx, 2) && DirectoryRead(ctx, 2) == d
            && OriginRead(ctx, 1) == OriginRead(ctx, 2) && Rewrites(ctx, 1, d) && RewrittenOnce(ctx, d, 2)
            && nodes[2].id !in Downstream(nodes, 1, 3)
  {
    var ctx := ContextOf(host, variables, nodes);
    HiddenFormatIsPlain(host, variables, nodes, path, text);
    PlainFolderPrediction(host, variables, nodes, 0, path);
    FilledInItMeansJson(host, variables, nodes, nodes[1], text);
    ConvertingToJson(ctx, nodes[1], Spelled(host, variables, path));
    InputIsSourcePrediction(ctx, 1);
    FolderHandlePath(Spelled(host, variables, path));
    DownstreamFollowsSource(nodes, 1, 2);
    DownstreamAt(nodes, 1, 3, 0);
    hide PredictedAt, Reload, Spelled, PlainGraph, Predict, ConversionTarget, PlainFolderHandle, WellOrdered, OriginAt,
      FormatOf, ChoiceOf, Downstream, Resolved;
    forall a: nat | a < 2 && Rewrites(ctx, a, host.directory(Spelled(host, variables, path))) ensures a == 1 {
      RewritingStep(ctx, a, host.directory(Spelled(host, variables, path)));
    }
  }

  /**
   * The format hypothesis is needed: the check accepts every graph of this shape, each directory has one
   * name, and the last step reads sidecars from a directory now in json.
   */
  lemma AHiddenFormatEscapesTheCheck(
    host: Host, variables: seq<Variable>, nodes: seq<Node>, path: string, text: string
  )
    requires HiddenFormat(host, variables, nodes, path, text)
    ensures var ctx := ContextOf(host, variables, nodes);
            var disk := SidecarsIn(host.directory(Spelled(host, variables, path)));
            && PlainGraph(ctx) && Accepted(ctx) && HonestReports(ctx, map[]) && DeclaresDisk(ctx, disk)
            && OneNamePerDirectory(ctx) && IsCaptionStep(ctx, 2)
            && !IsConverter(ctx, 1) && Escapes(ctx, 2, 1) && !ReadsTheLayoutOnDisk(ctx, map[], disk, 2)
  {
    var ctx := ContextOf(host, variables, nodes);
    HiddenFormatIsAccepted(host, variables, nodes, path, text);
    HiddenFormatDeclaresTheDisk(host, variables, nodes, path, text);
    HiddenFormatRewrites(host, variables, nodes, path, text);
    hide Spelled, WellOrdered, OriginRead, DirectoryRead, Rewrites, PlainGraph, Accepted, DeclaresDisk, IsConverter,
      ReadsTheLayoutOnDisk, RewrittenOnce, Downstream, OneNamePerDirectory, ChoiceOf, FormatOf;
    AcceptedStepIsWrongIffARewriteEscapes(ctx, map[], SidecarsIn(host.directory(Spelled(host, variables, path))), 2);
  }

  function ThreeSteps(path: string, text: string): seq<Node> {
    [ Step("a", Folder, None, FolderOn(path)), Step("b", Tag, Some("a"), FormatOf(text)),
      Step("c", Caption, Some("a"), map[]) ]
  }

  lemma ThreeStepsAreOrdered(path: string, text: string)
    ensures WellOrdered(ThreeSteps(path, text))
  {
    var nodes := ThreeSteps(path, text);
    assert nodes[0].id[0] == 'a' && nodes[1].id[0] == 'b' && nodes[2].id[0] == 'c';
    assert ReadsFrom(nodes, 1, 0) && ReadsFrom(nodes, 2, 0);
  }

  /** As it is written a reference names no format: it starts with a dollar sign. */
  lemma AReferenceIsNoFormat(host: Host, name: string)
    ensures ChoiceOf(host, FormatOf(RefText(name))).Inherit?
  {
    var text := RefText(name);
    assert text[0] == '$' && text[|text| - 1] == '}';
    Text.AlreadyTrimmed(text);
    assert Text.Lower(text)[0] == '$';
    assert Get(FormatOf(text), "output_format") == Str(text);
    assert "sidecar"[0] == 's' && "json"[0] == 'j';
  }

  lemma SpelledReference(host: Host, name: string, value: string)
    requires ValidName(name)
    ensures Spelled(host, [Variable(Str(name), Str(value), Null)], RefText(name)) == value
  {
    var variables := [Variable(Str(name), Str(value), Null)];
    assert VariableMap(host, variables) == map[name := value] by { assert variables[..0] == []; }
    ScanRef(name, "", VariableMap(host, variables));
    assert RefText(name) + "" == RefText(name) && value + "" == value;
    assert ResolveText("", VariableMap(host, variables)) == "";
  }

  /** A format held in a variable is hidden from the check. */
  lemma AVariableHidesTheFormat(host: Host, name: string, path: string)
    requires ValidName(name) && DollarFree(path) && path != ""
    ensures HiddenFormat(
              host, [Variable(Str(name), Str("json"), Null)], ThreeSteps(path, RefText(name)), path, RefText(name))
  {
    ThreeStepsAreOrdered(path, RefText(name));
    AReferenceIsNoFormat(host, name);
    DollarFreeTextIsUnchanged(path, VariableMap(host, [Variable(Str(name), Str("json"), Null)]));
    SpelledReference(host, name, "json");
    hide ResolveText, RefText, DollarFree, ValidName, VariableMap, WellOrdered, ChoiceOf;
  }
}
