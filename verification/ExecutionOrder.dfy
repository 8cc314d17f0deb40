/** What pre-flight's acceptance buys: list order is a legal order, and accepted graphs convert safely. */
module ExecutionOrder {
  import opened Values
  import opened WorkflowGraph
  import opened SourceWalks
  import opened Prediction
  import opened Substitution
  import opened Conversion
  import opened ConversionLimits
  import opened HandleChains
  import opened Validation

  /** `execution_order`: the enabled steps, in list order. */
  function Order(nodes: seq<Node>): seq<Node> {
    if nodes == [] then []
    else
      var front, last := Order(nodes[..|nodes| - 1]), nodes[|nodes| - 1];
      if Enabled(last) then front + [last] else front
  }

  lemma {:induction false} OrderSplits(nodes: seq<Node>, i: nat)
    requires i <= |nodes|
    ensures Order(nodes) == Order(nodes[..i]) + Order(nodes[i..])
  {
    hide Enabled;
    if i == |nodes| {
      assert nodes[..i] == nodes && nodes[i..] == [];
    } else {
      var front := nodes[..|nodes| - 1];
      OrderSplits(front, i);
      assert front[..i] == nodes[..i];
      assert front[i..] == nodes[i..][..|nodes| - i - 1];
      assert nodes[i..] != [] && nodes[i..][|nodes| - i - 1] == nodes[|nodes| - 1];
    }
  }

  lemma {:induction false} OrderKeepsEnabled(nodes: seq<Node>, j: nat)
    requires j < |nodes| && Enabled(nodes[j])
    ensures nodes[j] in Order(nodes)
  {
    if j < |nodes| - 1 {
      OrderKeepsEnabled(nodes[..|nodes| - 1], j);
    }
  }

  lemma OrderThrough(nodes: seq<Node>, i: nat)
    requires i < |nodes| && Enabled(nodes[i])
    ensures Order(nodes[..i]) + [nodes[i]] <= Order(nodes)
  {
    hide Enabled;
    OrderSplits(nodes, i + 1);
    assert nodes[..i + 1][..i] == nodes[..i] && nodes[..i + 1][i] == nodes[i];
  }

  /**
   * List order is a topological order of every sound graph: an enabled step is in the order, and
   * what it reads either ran before it or is disabled and left a handle behind.
   */
  lemma SourcesRunFirst(ctx: Context, i: nat)
    requires SoundGraph(ctx) && i < |ctx.graph.nodes| && Enabled(ctx.graph.nodes[i])
    ensures var nodes := ctx.graph.nodes;
            var before := Order(nodes[..i]);
            && before + [nodes[i]] <= Order(nodes)
            && (nodes[i].source.Some? ==>
                  var source := nodes[SourcePos(nodes, i)];
                  if Enabled(source) then source in before else SavedOutput(ctx, source.id).Some?)
  {
    hide ProblemOf, HasSavedOutput, ConfigRefs, Order, Enabled, LoadHandle;
    var nodes := ctx.graph.nodes;
    OrderThrough(nodes, i);
    if nodes[i].source.Some? {
      var j := SourcePos(nodes, i);
      if Enabled(nodes[j]) {
        assert nodes[..i][j] == nodes[j];
        OrderKeepsEnabled(nodes[..i], j);
      } else {
        SavedOutputLoads(ctx, nodes[j].id);
      }
    }
  }

  /** The positions of a step's ancestors, the step itself first. */
  ghost function Ancestry(nodes: seq<Node>, i: nat): seq<nat>
    requires WellOrdered(nodes) && i < |nodes|
  {
    if nodes[i].source.None? then [i] else [i] + Ancestry(nodes, SourcePos(nodes, i))
  }

  /** Every chain of sources strictly descends and ends at a step allowed to have no source. */
  lemma {:induction false} ChainsEndAtARoot(ctx: Context, i: nat)
    requires SoundGraph(ctx) && i < |ctx.graph.nodes|
    ensures var nodes, chain := ctx.graph.nodes, Ancestry(ctx.graph.nodes, i);
            && chain != [] && chain[0] == i && |chain| <= i + 1
            && (forall k | 0 <= k < |chain| :: chain[k] < |nodes|)
            && (forall k | 0 <= k < |chain| - 1 :: chain[k + 1] < chain[k] && ReadsFrom(nodes, chain[k], chain[k + 1]))
            && nodes[chain[|chain| - 1]].source.None?
            && SourceOptional(nodes[chain[|chain| - 1]].kind)
  {
    var nodes := ctx.graph.nodes;
    if nodes[i].source.Some? {
      var j := SourcePos(nodes, i);
      ChainsEndAtARoot(ctx, j);
      var chain, rest := Ancestry(nodes, i), Ancestry(nodes, j);
      assert chain == [i] + rest;
      forall k | 0 <= k < |chain| - 1
        ensures chain[k + 1] < chain[k] && ReadsFrom(nodes, chain[k], chain[k + 1])
      {
        if k > 0 { assert chain[k] == rest[k - 1] && chain[k + 1] == rest[k]; }
      }
    }
  }

  /**
   * The promise of pre-flight as a whole: a graph of plain steps, one name to a directory, for which
   * `validate` reports nothing structural and no conversion runs with every caption step reading the
   * layout on disk.
   */
  lemma AcceptedGraphsConvertSafely(
    ctx: Context, stage: StageCheck, conversions: seq<ConversionError>, reports: Config, initial: Disk, k: nat
  )
    requires StructureAccepted(StepErrors(ctx, stage)) && conversions == []
    requires ListsRefusals(
               ctx, ById(ctx.graph.nodes), Predict(ctx, |ctx.graph.nodes|), conversions,
               ConversionError(|ctx.graph.nodes|, 0))
    requires PlainContents(ctx) && OneNamePerDirectory(ctx) && LiteralFormats(ctx)
    requires HonestReports(ctx, reports) && DeclaresDisk(ctx, initial) && IsCaptionStep(ctx, k)
    ensures ReadsTheLayoutOnDisk(ctx, reports, initial, k)
  {
    AcceptedIffSound(ctx, stage);
    SoundGraphsAreOrdered(ctx);
    var n := ctx.graph.nodes[k];
    assert Enabled(n) && IsCaptionKind(n.kind);
    hide *;
    NoMessagesMeansAccepted(ctx, conversions);
    CaptionStepsReadTheLayoutOnDisk(ctx, reports, initial, k);
  }

  lemma SoundGraphsAreOrdered(ctx: Context)
    requires SoundGraph(ctx)
    ensures PlainContents(ctx) ==> PlainGraph(ctx)
  {
  }

  // ---------------------------------------------------------------- edit datasets

  lemma {:induction false} NoErrorsInAnyStep(
    ctx: Context, stage: StageCheck, byId: map<string, Node>, positions: map<string, nat>, predicted: Handles, k: nat,
    i: nat
  )
    requires i < k <= |ctx.graph.nodes| && Keyed(byId) && positions.Keys == byId.Keys
    requires ErrorsUpTo(ctx, stage, byId, positions, predicted, k) == []
    ensures NodeErrors(ctx, stage, byId, positions, predicted, i) == []
  {
    hide NodeErrors;
    if i < k - 1 {
      NoErrorsInAnyStep(ctx, stage, byId, positions, predicted, k - 1, i);
    }
  }

  lemma NoEditDatasetError(
    ctx: Context, stage: StageCheck, byId: map<string, Node>, positions: map<string, nat>, predicted: Handles, i: nat
  )
    requires i < |ctx.graph.nodes| && Keyed(byId) && positions.Keys == byId.Keys
    requires NodeErrors(ctx, stage, byId, positions, predicted, i) == []
    requires Enabled(ctx.graph.nodes[i]) && IsPrepKind(ctx.graph.nodes[i].kind)
    ensures EditDatasetErrors(ctx, InputFrom(predicted, ctx.graph.nodes[i]), i) == []
  {
    hide SourceErrors, VariableErrors, EditDatasetErrors, DecidedAtRunTime, InputFrom;
  }

  /**
   * In an accepted graph a chain whose folder step names a control folder holds no clean step and no
   * quality step that moves images: either would change the targets and leave their controls behind.
   */
  lemma EditDatasetsKeepTheirPairs(ctx: Context, stage: StageCheck, i: nat)
    requires ChainGraph(ctx) && StepErrors(ctx, stage) == []
    requires OnChain(ctx, i)
    requires PredictedAt(ctx, RootOf(ctx, i)).Some? && PredictedAt(ctx, RootOf(ctx, i)).value.control != ""
    ensures var n := ctx.graph.nodes[i];
            !n.kind.Clean? && !(n.kind.Quality? && Get(Resolved(ctx, n), "action") == Str("move"))
  {
    hide *;
    KindFacts(ctx, i);
    var nodes, n := ctx.graph.nodes, ctx.graph.nodes[i];
    TablesAgree(ctx, stage);
    if n.kind.Clean? || n.kind.Quality? {
      var predicted := Predict(ctx, |nodes|);
      NoErrorsInAnyStep(ctx, stage, ById(nodes), Positions(nodes), predicted, |nodes|, i);
      NoEditDatasetError(ctx, stage, ById(nodes), Positions(nodes), predicted, i);
      InputCarriesTheControl(ctx, i);
      ControlForbids(ctx, InputFrom(predicted, n), i);
    }
  }

  lemma KindFacts(ctx: Context, i: nat)
    requires OnChain(ctx, i)
    ensures i < |ctx.graph.nodes| && Enabled(ctx.graph.nodes[i])
    ensures ctx.graph.nodes[i].kind.Clean? || ctx.graph.nodes[i].kind.Quality? ==> IsPrepKind(ctx.graph.nodes[i].kind)
  {
  }

  lemma ControlForbids(ctx: Context, input: Option<Handle>, i: nat)
    requires i < |ctx.graph.nodes| && EditDatasetErrors(ctx, input, i) == []
    requires input.Some? && input.value.control != ""
    ensures var n := ctx.graph.nodes[i];
            !n.kind.Clean? && !(n.kind.Quality? && Get(Resolved(ctx, n), "action") == Str("move"))
  {
    hide Resolved;
  }

  /** What a step of a chain is predicted to read carries the control folder of the chain's folder step. */
  lemma InputCarriesTheControl(ctx: Context, i: nat)
    requires ChainGraph(ctx) && OnChain(ctx, i) && !ctx.graph.nodes[i].kind.Folder?
    ensures PredictedAt(ctx, RootOf(ctx, i)).Some?
    ensures var input := InputFrom(Predict(ctx, |ctx.graph.nodes|), ctx.graph.nodes[i]);
            input.Some? && input.value.control == PredictedAt(ctx, RootOf(ctx, i)).value.control
  {
    hide Predict, PredictNode, WellOrdered, Stripped;
    ChainSource(ctx, i);
    var nodes, s := ctx.graph.nodes, SourcePos(ctx.graph.nodes, i);
    ControlFolderTravels(ctx, s);
    ChainsHaveUniqueIds(ctx);
    PredictionIsStable(ctx, s, |nodes|);
    PredictionIsKept(ctx, s);
  }

  lemma PredictionIsKept(ctx: Context, i: nat)
    requires i < |ctx.graph.nodes|
    ensures ctx.graph.nodes[i].id in Predict(ctx, |ctx.graph.nodes|)
  {
    hide PredictNode;
  }
}
