/**
 * Handles along a chain of sources: what they inherit, and that a run produces the predicted ones.
 * Unlike the conversion theorem this lets clean steps write to one directory, or to a folder's.
 */
module HandleChains {
  import opened Values
  import Text
  import opened WorkflowGraph
  import opened SourceWalks
  import opened Prediction
  import opened Conversion

  /** Folder, prep and pass-through tool steps, each but the folders reading another enabled one. */
  ghost predicate ChainGraph(ctx: Context) {
    var nodes := ctx.graph.nodes;
    && WellOrdered(nodes)
    && (forall i: nat | i < |nodes| && Enabled(nodes[i]) ::
          && !nodes[i].kind.Unknown?
          && (nodes[i].kind.Folder? <==> nodes[i].source.None?)
          && (nodes[i].kind.Tool? ==> ToolOutputOf(ctx.host, nodes[i], ctx.tools).OutPassThrough?))
    && (forall i: nat, j: nat | ReadsFrom(nodes, i, j) && Enabled(nodes[i]) && !nodes[i].kind.Folder? ::
          Enabled(nodes[j]) && !nodes[j].kind.Train?)
  }

  ghost predicate OnChain(ctx: Context, i: nat) {
    i < |ctx.graph.nodes| && Enabled(ctx.graph.nodes[i]) && !ctx.graph.nodes[i].kind.Train?
  }

  lemma ChainSource(ctx: Context, i: nat)
    requires ChainGraph(ctx) && i < |ctx.graph.nodes| && Enabled(ctx.graph.nodes[i]) && !ctx.graph.nodes[i].kind.Folder?
    ensures ctx.graph.nodes[i].source.Some? && OnChain(ctx, SourcePos(ctx.graph.nodes, i))
    ensures InputFrom(Predict(ctx, i), ctx.graph.nodes[i]) == PredictedAt(ctx, SourcePos(ctx.graph.nodes, i))
  {
    hide Predict, PredictedAt;
    assert ctx.graph.nodes[i].source.Some?;
    var s := SourcePos(ctx.graph.nodes, i);
    assert ReadsFrom(ctx.graph.nodes, i, s);
    InputIsSourcePrediction(ctx, i);
  }

  // ---------------------------------------------------------------- the control folder

  /** The folder step a chain starts at. */
  ghost function RootOf(ctx: Context, i: nat): (r: nat)
    requires ChainGraph(ctx) && OnChain(ctx, i)
    ensures OnChain(ctx, r) && ctx.graph.nodes[r].kind.Folder?
    decreases i
  {
    if ctx.graph.nodes[i].kind.Folder? then i
    else (ChainSource(ctx, i); RootOf(ctx, SourcePos(ctx.graph.nodes, i)))
  }

  predicate Stripped(s: string) {
    Text.Trim(s) == s
  }

  lemma InheritedControl(host: Host, path: string, input: Handle, over: Overrides)
    requires over.control.None? && Stripped(input.control)
    ensures InheritHandle(host, path, Some(input), over).control == input.control
  {
  }

  lemma FolderControlIsStripped(host: Host, path: string, over: Overrides)
    ensures Stripped(InheritHandle(host, path, None, over).control)
  {
  }

  /** One step of the chain: a handle in, a handle out, with the same control folder. */
  lemma StepKeepsControl(ctx: Context, n: Node, input: Handle)
    requires Enabled(n) && !n.kind.Folder? && !n.kind.Train? && !n.kind.Unknown? && Stripped(input.control)
    requires n.kind.Tool? ==> ToolOutputOf(ctx.host, n, ctx.tools).OutPassThrough?
    ensures PredictNode(ctx, n, Some(input)).Some? && PredictNode(ctx, n, Some(input)).value.control == input.control
  {
    hide InheritHandle, CaptionOverride, CleanPath, Resolved, Stripped;
    var report := Null;
    InheritedControl(ctx.host, CleanPath(ctx.host, Resolved(ctx, n), Some(input), report), input, NO_OVERRIDES);
    var over := CaptionOverride(ctx.host, Resolved(ctx, n), Some(input));
    if over.Some? {
      InheritedControl(ctx.host, input.path, input,
                       Overrides(Some(Str(over.value.format)), Some(Str(over.value.ext)), None));
    }
  }

  lemma FolderPredicts(ctx: Context, n: Node, upstream: Option<Handle>)
    requires Enabled(n) && n.kind.Folder?
    ensures PredictNode(ctx, n, upstream).Some? && Stripped(PredictNode(ctx, n, upstream).value.control)
  {
    hide InheritHandle, Stripped;
    FolderControlIsStripped(ctx.host, FolderPath(ctx.host, Resolved(ctx, n)), OverridesIn(Resolved(ctx, n)));
  }

  /** Every handle of a chain carries the control folder of the folder step it starts at. */
  lemma {:induction false} ControlFolderTravels(ctx: Context, i: nat)
    requires ChainGraph(ctx) && OnChain(ctx, i)
    ensures PredictedAt(ctx, i).Some? && PredictedAt(ctx, RootOf(ctx, i)).Some?
    ensures PredictedAt(ctx, i).value.control == PredictedAt(ctx, RootOf(ctx, i)).value.control
    ensures Stripped(PredictedAt(ctx, i).value.control)
  {
    hide PredictNode, Predict, Stripped, WellOrdered;
    var n := ctx.graph.nodes[i];
    if n.kind.Folder? {
      FolderPredicts(ctx, n, InputFrom(Predict(ctx, i), n));
    } else {
      ChainSource(ctx, i);
      var s := SourcePos(ctx.graph.nodes, i);
      ControlFolderTravels(ctx, s);
      StepKeepsControl(ctx, n, PredictedAt(ctx, s).value);
    }
  }

  // ---------------------------------------------------------------- the caption layout

  /** Does the step set a layout of its own? */
  predicate SetsLayout(ctx: Context, n: Node) {
    IsCaptionKind(n.kind) && !ChoiceOf(ctx.host, Resolved(ctx, n)).Inherit?
  }

  /** The nearest step, from `i` upwards, that sets a layout; else the folder step. */
  ghost function LayoutSetter(ctx: Context, i: nat): (r: nat)
    requires ChainGraph(ctx) && OnChain(ctx, i)
    ensures OnChain(ctx, r) && (ctx.graph.nodes[r].kind.Folder? || SetsLayout(ctx, ctx.graph.nodes[r]))
    decreases i
  {
    if ctx.graph.nodes[i].kind.Folder? || SetsLayout(ctx, ctx.graph.nodes[i]) then i
    else (ChainSource(ctx, i); LayoutSetter(ctx, SourcePos(ctx.graph.nodes, i)))
  }

  lemma StepKeepsLayout(ctx: Context, n: Node, input: Handle)
    requires Enabled(n) && !n.kind.Folder? && !n.kind.Train? && !n.kind.Unknown? && !SetsLayout(ctx, n)
    requires n.kind.Tool? ==> ToolOutputOf(ctx.host, n, ctx.tools).OutPassThrough?
    ensures var out := PredictNode(ctx, n, Some(input));
            out.Some? && out.value.format == input.format && out.value.ext == input.ext
  {
    hide ChoiceOf, CleanPath, Resolved, Text.Trim;
  }

  /**
   * The layout of every handle is that of the nearest step above that sets one: its format, and its
   * extension, which for `json` is the one it read.
   */
  lemma {:induction false} LayoutComesFromTheNearestSetter(ctx: Context, i: nat)
    requires ChainGraph(ctx) && OnChain(ctx, i)
    ensures PredictedAt(ctx, i).Some? && PredictedAt(ctx, LayoutSetter(ctx, i)).Some?
    ensures PredictedAt(ctx, i).value.format == PredictedAt(ctx, LayoutSetter(ctx, i)).value.format
    ensures PredictedAt(ctx, i).value.ext == PredictedAt(ctx, LayoutSetter(ctx, i)).value.ext
  {
    hide PredictNode, Predict, SetsLayout, WellOrdered, Stripped;
    var n := ctx.graph.nodes[i];
    ControlFolderTravels(ctx, i);
    if !n.kind.Folder? && !SetsLayout(ctx, n) {
      ChainSource(ctx, i);
      var s := SourcePos(ctx.graph.nodes, i);
      LayoutComesFromTheNearestSetter(ctx, s);
      StepKeepsLayout(ctx, n, PredictedAt(ctx, s).value);
    }
  }

  /** What a setter sets. */
  lemma SetterSetsItsLayout(ctx: Context, i: nat)
    requires ChainGraph(ctx) && OnChain(ctx, i) && SetsLayout(ctx, ctx.graph.nodes[i])
    ensures PredictedAt(ctx, i).Some? && PredictedAt(ctx, SourcePos(ctx.graph.nodes, i)).Some?
    ensures var config := Resolved(ctx, ctx.graph.nodes[i]);
            var out := PredictedAt(ctx, i).value;
            if ChoiceOf(ctx.host, config).Json?
            then out.format == "json" && out.ext == PredictedAt(ctx, SourcePos(ctx.graph.nodes, i)).value.ext
            else out.format == "sidecar" && out.ext == NormExt(ctx.host, Get(config, "output_ext"))
  {
    hide Predict, ChoiceOf, NormExt, Resolved, Text.Trim, Stripped;
    ControlFolderTravels(ctx, i);
    ChainSource(ctx, i);
    ControlFolderTravels(ctx, SourcePos(ctx.graph.nodes, i));
  }

  // ---------------------------------------------------------------- the run

  /** No step is predicted to emit an empty path, which a saved handle cannot keep. */
  ghost predicate PathsNamed(ctx: Context) {
    forall i | OnChain(ctx, i) && PredictedAt(ctx, i).Some? :: PredictedAt(ctx, i).value.path != ""
  }

  lemma ChainRunInput(ctx: Context, st: RunState, k: nat)
    requires ChainGraph(ctx) && k < |ctx.graph.nodes| && Predicted(ctx, st, k)
    requires Enabled(ctx.graph.nodes[k]) && !ctx.graph.nodes[k].kind.Folder?
    ensures InputFrom(st.outputs, ctx.graph.nodes[k]) == Reload(PredictedAt(ctx, SourcePos(ctx.graph.nodes, k)))
  {
    hide PredictedAt, Predict, Reload;
    ChainSource(ctx, k);
  }

  lemma ChainRunStep(ctx: Context, reports: Config, st: RunState, k: nat)
    requires ChainGraph(ctx) && PathsNamed(ctx) && HonestReports(ctx, reports)
    requires k < |ctx.graph.nodes| && Predicted(ctx, st, k) && Enabled(ctx.graph.nodes[k])
    ensures var n := ctx.graph.nodes[k];
            RunNode(ctx, n, ReportOf(reports, n), st).outputs == st.outputs[n.id := Reload(PredictedAt(ctx, k))]
  {
    hide Reload, ConversionTarget, PredictNode, Predict, CleanPath, WellOrdered;
    var n := ctx.graph.nodes[k];
    if n.kind.Folder? {
      EmissionUpToReload(ctx, n, InputFrom(Predict(ctx, k), n), ReportOf(reports, n));
    } else {
      ChainSource(ctx, k);
      ChainRunInput(ctx, st, k);
      ControlFolderTravels(ctx, SourcePos(ctx.graph.nodes, k));
      if n.kind.Clean? {
        CleanEmission(ctx, n, PredictedAt(ctx, SourcePos(ctx.graph.nodes, k)).value, ReportOf(reports, n));
      } else {
        EmissionUpToReload(ctx, n, InputFrom(Predict(ctx, k), n), ReportOf(reports, n));
      }
    }
  }

  lemma ChainsHaveUniqueIds(ctx: Context)
    requires ChainGraph(ctx)
    ensures UniqueIds(ctx.graph.nodes)
  {
  }

  /** A run leaves every enabled step with the handle predicted for it before the run. */
  lemma {:induction false} ChainsRunAsPredicted(ctx: Context, reports: Config, disk: Disk, k: nat)
    requires ChainGraph(ctx) && PathsNamed(ctx) && HonestReports(ctx, reports) && k <= |ctx.graph.nodes|
    ensures Predicted(ctx, Run(ctx, reports, disk, k), k)
  {
    hide *;
    ChainsHaveUniqueIds(ctx);
    RunUnfolds(ctx, reports, disk, k);
    if k == 0 {
      NothingPredictedYet(ctx, Run(ctx, reports, disk, k));
    } else {
      ChainsRunAsPredicted(ctx, reports, disk, k - 1);
      var n, before := ctx.graph.nodes[k - 1], Run(ctx, reports, disk, k - 1);
      if Enabled(n) {
        ChainRunStep(ctx, reports, before, k - 1);
        PredictedStep(ctx, before, Run(ctx, reports, disk, k), k - 1, Reload(PredictedAt(ctx, k - 1)));
      } else {
        DisabledStepLeavesTheDisk(ctx, n, ReportOf(reports, n), before);
        PredictedStep(ctx, before, Run(ctx, reports, disk, k), k - 1, SavedOutput(ctx, n.id));
      }
    }
  }
}
