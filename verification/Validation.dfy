/** Pre-flight validation of a whole graph, and what a graph without errors is guaranteed to be. */
module Validation {
  import opened Values
  import opened WorkflowGraph
  import opened Substitution
  import opened SourceWalks
  import opened Prediction
  import opened Conversion
  import opened ConversionLimits

  /** One message; `pos` is the step's position in the list. */
  datatype GraphError =
    | DuplicateId(pos: nat)
    | UnknownKind(pos: nat)
    | NoSource(pos: nat)
    | ReadsItself(pos: nat)
    | SourceMissing(pos: nat)
    | SourceForward(pos: nat)
    | SourceDisabled(pos: nat)
    | SourceHandsNothing(pos: nat, problem: SourceProblem)
    | UnknownVariables(pos: nat, names: set<string>)
    | StageRefused(pos: nat, message: string)
    | CleanOnEditDataset(pos: nat)
    | MoveOnEditDataset(pos: nat)

  /** `validate_for_stage` behind a function: step, predicted input, "decided at run time". */
  type StageCheck = (Node, Option<Handle>, bool) -> seq<string>

  /** Id to position; with repeated ids the last one wins. */
  function Positions(nodes: seq<Node>): (m: map<string, nat>)
    ensures forall k :: k in m ==> m[k] < |nodes| && nodes[m[k]].id == k
    ensures forall i | 0 <= i < |nodes| :: nodes[i].id in m && i <= m[nodes[i].id]
  {
    if nodes == [] then map[]
    else
      var front := nodes[..|nodes| - 1];
      assert forall i | 0 <= i < |nodes| - 1 :: nodes[i] == front[i];
      Positions(front)[nodes[|nodes| - 1].id := |nodes| - 1]
  }

  /** The variable names the workflow defines, as written. */
  function Defined(graph: Graph): set<Value> {
    set v | v in graph.variables :: v.name
  }

  predicate HasSavedOutput(ctx: Context, id: string) {
    && id in ctx.saved && ctx.saved[id].Obj?
    && var output := Get(ctx.saved[id].fields, "output");
       output.Obj? && Truthy(Get(output.fields, "path"))
  }

  /** What is wrong with the link from step `i` to its source: at most one message. */
  function SourceErrors(ctx: Context, byId: map<string, Node>, positions: map<string, nat>, i: nat): seq<GraphError>
    requires i < |ctx.graph.nodes| && Keyed(byId) && positions.Keys == byId.Keys
  {
    var n := ctx.graph.nodes[i];
    if n.source.None? then
      if !n.kind.Unknown? && !SourceOptional(n.kind) then [NoSource(i)] else []
    else if n.source.value == n.id then [ReadsItself(i)]
    else if n.source.value !in positions then [SourceMissing(i)]
    else if positions[n.source.value] > i then [SourceForward(i)]
    else if Enabled(n) && !Enabled(byId[n.source.value]) && !HasSavedOutput(ctx, n.source.value) then
      [SourceDisabled(i)]
    else if Enabled(n) then
      var problem := ProblemOf(ctx.host, byId[n.source.value], byId, ctx.tools);
      if problem.NoProblem? then [] else [SourceHandsNothing(i, problem)]
    else []
  }

  function VariableErrors(ctx: Context, i: nat): seq<GraphError>
    requires i < |ctx.graph.nodes|
  {
    var unknown := set name | name in ConfigRefs(ctx.graph.nodes[i].config) && Str(name) !in Defined(ctx.graph);
    if unknown == {} then [] else [UnknownVariables(i, unknown)]
  }

  /** Steps that would break an edit dataset: they touch the targets and leave the controls behind. */
  function EditDatasetErrors(ctx: Context, input: Option<Handle>, i: nat): seq<GraphError>
    requires i < |ctx.graph.nodes|
  {
    var n := ctx.graph.nodes[i];
    if input.None? || input.value.control == "" then []
    else if n.kind.Clean? then [CleanOnEditDataset(i)]
    else if n.kind.Quality? && Get(Resolved(ctx, n), "action") == Str("move") then [MoveOnEditDataset(i)]
    else []
  }

  function Wrap(i: nat, messages: seq<string>): seq<GraphError> {
    seq(|messages|, k requires 0 <= k < |messages| => StageRefused(i, messages[k]))
  }

  /** Does the folder come from a tool that decides it when it runs? */
  predicate DecidedAtRunTime(ctx: Context, byId: map<string, Node>, n: Node, input: Option<Handle>)
    requires Keyed(byId)
  {
    && input.None? && n.source.Some? && n.source.value in byId
    && var origin := Origin(ctx.host, byId[n.source.value], byId, ctx.tools);
       origin in byId && byId[origin].kind.Tool?
  }

  /** The launch's own checks, run only for an enabled step whose variables all resolve. */
  function StageErrors(
    ctx: Context, stage: StageCheck, byId: map<string, Node>, predicted: Handles, i: nat
  ): seq<GraphError>
    requires i < |ctx.graph.nodes| && Keyed(byId)
  {
    var n := ctx.graph.nodes[i];
    if Enabled(n) && IsPrepKind(n.kind) && VariableErrors(ctx, i) == [] then
      var input := InputFrom(predicted, n);
      Wrap(i, stage(n, input, DecidedAtRunTime(ctx, byId, n, input))) + EditDatasetErrors(ctx, input, i)
    else []
  }

  function NodeErrors(
    ctx: Context, stage: StageCheck, byId: map<string, Node>, positions: map<string, nat>, predicted: Handles, i: nat
  ): seq<GraphError>
    requires i < |ctx.graph.nodes| && Keyed(byId) && positions.Keys == byId.Keys
  {
    var n := ctx.graph.nodes[i];
    (if n.id in IdsBefore(ctx.graph.nodes, i) then [DuplicateId(i)] else [])
    + (if n.kind.Unknown? then [UnknownKind(i)] else [])
    + SourceErrors(ctx, byId, positions, i)
    + VariableErrors(ctx, i)
    + StageErrors(ctx, stage, byId, predicted, i)
  }

  function IdsBefore(nodes: seq<Node>, i: nat): set<string>
    requires i <= |nodes|
  {
    set k | 0 <= k < i :: nodes[k].id
  }

  function ErrorsUpTo(
    ctx: Context, stage: StageCheck, byId: map<string, Node>, positions: map<string, nat>, predicted: Handles, i: nat
  ): seq<GraphError>
    requires i <= |ctx.graph.nodes| && Keyed(byId) && positions.Keys == byId.Keys
  {
    if i == 0 then []
    else ErrorsUpTo(ctx, stage, byId, positions, predicted, i - 1)
         + NodeErrors(ctx, stage, byId, positions, predicted, i - 1)
  }

  lemma {:induction false} SameKeys(nodes: seq<Node>)
    ensures Positions(nodes).Keys == ById(nodes).Keys
  {
    if nodes != [] {
      SameKeys(nodes[..|nodes| - 1]);
    }
  }

  /** Every message about single steps, in list order. */
  function StepErrors(ctx: Context, stage: StageCheck): seq<GraphError> {
    var nodes := ctx.graph.nodes;
    SameKeys(nodes);
    ErrorsUpTo(ctx, stage, ById(nodes), Positions(nodes), Predict(ctx, |nodes|), |nodes|)
  }

  lemma TablesAgree(ctx: Context, stage: StageCheck)
    ensures var nodes := ctx.graph.nodes;
            && Keyed(ById(nodes)) && Positions(nodes).Keys == ById(nodes).Keys
            && StepErrors(ctx, stage)
               == ErrorsUpTo(ctx, stage, ById(nodes), Positions(nodes), Predict(ctx, |nodes|), |nodes|)
            && IdsBefore(nodes, 0) == {}
            && ErrorsUpTo(ctx, stage, ById(nodes), Positions(nodes), Predict(ctx, |nodes|), 0) == []
  {
    hide Predict, Positions, NodeErrors;
    SameKeys(ctx.graph.nodes);
  }

  /** One more step: its messages in order, and its id among those seen. */
  lemma ErrorsGrow(
    ctx: Context, stage: StageCheck, byId: map<string, Node>, positions: map<string, nat>, predicted: Handles, i: nat
  )
    requires i < |ctx.graph.nodes| && Keyed(byId) && positions.Keys == byId.Keys
    ensures var n := ctx.graph.nodes[i];
            ErrorsUpTo(ctx, stage, byId, positions, predicted, i + 1)
            == ErrorsUpTo(ctx, stage, byId, positions, predicted, i)
               + ((if n.id in IdsBefore(ctx.graph.nodes, i) then [DuplicateId(i)] else [])
                  + (if n.kind.Unknown? then [UnknownKind(i)] else [])
                  + SourceErrors(ctx, byId, positions, i)
                  + VariableErrors(ctx, i)
                  + StageErrors(ctx, stage, byId, predicted, i))
    ensures IdsBefore(ctx.graph.nodes, i + 1) == IdsBefore(ctx.graph.nodes, i) + {ctx.graph.nodes[i].id}
  {
    hide SourceErrors, VariableErrors, StageErrors;
  }

  /** The link checks of one step, with the walk up a chain of tools where they come to it. */
  method CheckSource(ctx: Context, byId: map<string, Node>, positions: map<string, nat>, i: nat)
    returns (errors: seq<GraphError>)
    requires i < |ctx.graph.nodes| && Keyed(byId) && positions.Keys == byId.Keys
    ensures errors == SourceErrors(ctx, byId, positions, i)
  {
    hide ProblemOf, HasSavedOutput;
    var n := ctx.graph.nodes[i];
    if n.source.None? {
      return if !n.kind.Unknown? && !SourceOptional(n.kind) then [NoSource(i)] else [];
    }
    if n.source.value == n.id {
      return [ReadsItself(i)];
    }
    if n.source.value !in positions {
      return [SourceMissing(i)];
    }
    if positions[n.source.value] > i {
      return [SourceForward(i)];
    }
    if !Enabled(n) {
      return [];
    }
    if !Enabled(byId[n.source.value]) && !HasSavedOutput(ctx, n.source.value) {
      return [SourceDisabled(i)];
    }
    var problem := FindSourceProblem(ctx.host, byId[n.source.value], byId, ctx.tools);
    return if problem.NoProblem? then [] else [SourceHandsNothing(i, problem)];
  }

  /** `validate`: the messages about steps, then those about conversions. Never fails, on any graph. */
  method Validate(ctx: Context, stage: StageCheck)
    returns (errors: seq<GraphError>, conversions: seq<ConversionError>)
    ensures errors == StepErrors(ctx, stage)
    ensures ListsRefusals(
              ctx, ById(ctx.graph.nodes), Predict(ctx, |ctx.graph.nodes|), conversions,
              ConversionError(|ctx.graph.nodes|, 0))
  {
    hide *;
    var nodes := ctx.graph.nodes;
    errors := [];
    var seen: set<string> := {};
    var positions, byId := Positions(nodes), ById(nodes);
    TablesAgree(ctx, stage);
    var predicted := PredictedHandles(ctx);
    assert Keyed(byId) && positions.Keys == byId.Keys;
    for i := 0 to |nodes|
      invariant errors == ErrorsUpTo(ctx, stage, byId, positions, predicted, i)
      invariant seen == IdsBefore(nodes, i)
    {
      ErrorsGrow(ctx, stage, byId, positions, predicted, i);
      var n := nodes[i];
      var found: seq<GraphError> := [];
      if n.id in seen {
        found := found + [DuplicateId(i)];
      }
      seen := seen + {n.id};
      if n.kind.Unknown? {
        found := found + [UnknownKind(i)];
      }
      var linkErrors := CheckSource(ctx, byId, positions, i);
      found := found + linkErrors;
      found := found + VariableErrors(ctx, i);
      found := found + StageErrors(ctx, stage, byId, predicted, i);
      errors := errors + found;
    }
    conversions := ConvertedFolderErrors(ctx, byId, predicted);
  }

  // ---------------------------------------------------------------- what acceptance means

  predicate Structural(e: GraphError) {
    !e.StageRefused? && !e.CleanOnEditDataset? && !e.MoveOnEditDataset?
  }

  /** What a step emits in a run that gives it this input and this report. */
  ghost function Emitted(ctx: Context, n: Node, input: Option<Handle>, report: Value): Emission {
    EffectiveOutput(ctx.host, n.kind, Resolved(ctx, n), input, report, ToolOutputOf(ctx.host, n, ctx.tools))
  }

  /** Whatever the step reads and returns, it hands nothing on. */
  ghost predicate EmitsNothing(ctx: Context, n: Node) {
    forall input: Option<Handle>, report: Value :: Emitted(ctx, n, input, report) == Emits(None)
  }

  /** A step that returns nothing hands on what it reads. */
  ghost predicate PassesItsInputOn(ctx: Context, n: Node) {
    forall input: Option<Handle> :: Emitted(ctx, n, input, Null) == Emits(input)
  }

  /** The tool was declared with an output. */
  predicate DeclaresItsOutput(ctx: Context, n: Node) {
    var tool := StrOrEmpty(ctx.host, Get(n.config, "tool_id"));
    tool in ctx.tools && ctx.tools[tool].declared
  }

  /**
   * There is no folder to read from step `j`: it is an enabled tool that never emits one, or that passes
   * its input on and reads such a step, or that reads nothing although its output was declared.
   */
  ghost predicate NothingToRead(ctx: Context, j: nat)
    requires WellOrdered(ctx.graph.nodes) && j < |ctx.graph.nodes|
    decreases j
  {
    var n := ctx.graph.nodes[j];
    && n.kind.Tool? && Enabled(n)
    && (|| EmitsNothing(ctx, n)
        || (PassesItsInputOn(ctx, n)
            && if n.source.None? then DeclaresItsOutput(ctx, n)
               else NothingToRead(ctx, SourcePos(ctx.graph.nodes, j))))
  }

  /** The structure every accepted graph has, said without the validator's tables and walks. */
  ghost predicate SoundGraph(ctx: Context) {
    var nodes := ctx.graph.nodes;
    && WellOrdered(nodes)
    && (forall i: nat | i < |nodes| ::
          && !nodes[i].kind.Unknown?
          && (nodes[i].source.None? ==> nodes[i].kind.Folder? || nodes[i].kind.Tool?))
    && (forall i: nat, j: nat | ReadsFrom(nodes, i, j) && Enabled(nodes[i]) ::
          && (Enabled(nodes[j]) || SavedOutput(ctx, nodes[j].id).Some?)
          && !NothingToRead(ctx, j))
    && (forall i: nat, name | i < |nodes| && name in ConfigRefs(nodes[i].config) :: Str(name) in Defined(ctx.graph))
  }

  lemma ToolsByWhatTheyEmit(ctx: Context, n: Node)
    requires n.kind.Tool?
    ensures EmitsNothing(ctx, n) <==> ToolIoOf(ctx.host, n, ctx.tools).output.OutNothing?
    ensures PassesItsInputOn(ctx, n) <==> ToolIoOf(ctx.host, n, ctx.tools).output.OutPassThrough?
    ensures DeclaresItsOutput(ctx, n) <==> ToolIoOf(ctx.host, n, ctx.tools).declared
  {
    hide Resolved, StrOrEmpty;
    var some := Some(Handle("", "", "", ""));
    assert Emitted(ctx, n, some, Str("a")) != Emits(None) <==> !ToolIoOf(ctx.host, n, ctx.tools).output.OutNothing?;
    assert Emitted(ctx, n, some, Null) == Emits(some) <==> ToolIoOf(ctx.host, n, ctx.tools).output.OutPassThrough?;
  }

  /** The walk refuses a source exactly when there is no folder to read from it. */
  lemma {:induction false} RefusedIffNothingToRead(ctx: Context, j: nat, seen: set<string>)
    requires WellOrdered(ctx.graph.nodes) && j < |ctx.graph.nodes|
    requires forall k | 0 <= k <= j :: ctx.graph.nodes[k].id !in seen
    ensures ProblemFrom(ctx.host, Some(ctx.graph.nodes[j]), ById(ctx.graph.nodes), ctx.tools, seen).NoProblem?
       <==> !NothingToRead(ctx, j)
    decreases j
  {
    hide EmitsNothing, PassesItsInputOn, DeclaresItsOutput, ToolIoOf, Enabled;
    var nodes, n := ctx.graph.nodes, ctx.graph.nodes[j];
    if n.kind.Tool? {
      ToolsByWhatTheyEmit(ctx, n);
      if Enabled(n) && n.source.Some? {
        var i := SourcePos(nodes, j);
        ByIdFinds(nodes, i);
        assert SourceNode(n, ById(nodes)) == Some(nodes[i]);
        forall k | 0 <= k <= i ensures nodes[k].id !in seen + {n.id} {
          assert nodes[k].id != nodes[j].id;
        }
        RefusedIffNothingToRead(ctx, i, seen + {n.id});
      }
    }
  }

  /** A training step hands nothing on either, and the walk lets it pass. */
  lemma ATrainStepIsNotRefused(ctx: Context, n: Node, byId: map<string, Node>)
    requires n.kind.Train? && Keyed(byId)
    ensures EmitsNothing(ctx, n) && ProblemOf(ctx.host, n, byId, ctx.tools).NoProblem?
  {
  }

  lemma SavedOutputLoads(ctx: Context, id: string)
    ensures HasSavedOutput(ctx, id) <==> SavedOutput(ctx, id).Some?
  {
  }

  ghost predicate StructureAccepted(errors: seq<GraphError>) {
    forall e :: e in errors ==> !Structural(e)
  }

  lemma {:induction false} ErrorsOfStep(
    ctx: Context, stage: StageCheck, byId: map<string, Node>, positions: map<string, nat>, predicted: Handles, k: nat
  )
    requires k <= |ctx.graph.nodes| && Keyed(byId) && positions.Keys == byId.Keys
    ensures StructureAccepted(ErrorsUpTo(ctx, stage, byId, positions, predicted, k))
       <==> forall i: nat | i < k :: StructureAccepted(NodeErrors(ctx, stage, byId, positions, predicted, i))
  {
    hide NodeErrors;
    if k > 0 {
      ErrorsOfStep(ctx, stage, byId, positions, predicted, k - 1);
    }
  }

  lemma StageErrorsAreNotStructural(
    ctx: Context, stage: StageCheck, byId: map<string, Node>, predicted: Handles, i: nat
  )
    requires i < |ctx.graph.nodes| && Keyed(byId)
    ensures StructureAccepted(StageErrors(ctx, stage, byId, predicted, i))
  {
    hide DecidedAtRunTime, InputFrom, VariableErrors, Resolved;
  }

  lemma NodeAcceptedIff(
    ctx: Context, stage: StageCheck, byId: map<string, Node>, positions: map<string, nat>, predicted: Handles, i: nat
  )
    requires i < |ctx.graph.nodes| && Keyed(byId) && positions.Keys == byId.Keys
    ensures StructureAccepted(NodeErrors(ctx, stage, byId, positions, predicted, i))
       <==> && ctx.graph.nodes[i].id !in IdsBefore(ctx.graph.nodes, i)
            && !ctx.graph.nodes[i].kind.Unknown?
            && SourceErrors(ctx, byId, positions, i) == []
            && VariableErrors(ctx, i) == []
  {
    StageErrorsAreNotStructural(ctx, stage, byId, predicted, i);
    assert StructureAccepted(SourceErrors(ctx, byId, positions, i))
      <==> SourceErrors(ctx, byId, positions, i) == [] by {
      hide ProblemOf, HasSavedOutput, Enabled;
      var s := SourceErrors(ctx, byId, positions, i);
      if s != [] { assert s[0] in s; }
    }
    assert StructureAccepted(VariableErrors(ctx, i)) <==> VariableErrors(ctx, i) == [] by {
      var v := VariableErrors(ctx, i);
      if v != [] { assert v[0] in v; }
    }
    hide SourceErrors, VariableErrors, StageErrors, IdsBefore, Structural;
    var n := ctx.graph.nodes[i];
    assert Structural(DuplicateId(i)) && Structural(UnknownKind(i)) by { StructuralKinds(i); }
    var dup := if n.id in IdsBefore(ctx.graph.nodes, i) then [DuplicateId(i)] else [];
    var unknown := if n.kind.Unknown? then [UnknownKind(i)] else [];
    assert NodeErrors(ctx, stage, byId, positions, predicted, i)
        == dup + unknown + SourceErrors(ctx, byId, positions, i) + VariableErrors(ctx, i)
           + StageErrors(ctx, stage, byId, predicted, i);
    if dup != [] { assert dup[0] in dup; }
    if unknown != [] { assert unknown[0] in unknown; }
  }

  lemma StructuralKinds(i: nat)
    ensures Structural(DuplicateId(i)) && Structural(UnknownKind(i))
  {
  }

  lemma UniqueIffNotBefore(nodes: seq<Node>)
    ensures UniqueIds(nodes) <==> forall i: nat | i < |nodes| :: nodes[i].id !in IdsBefore(nodes, i)
  {
  }

  /** The part of a sound graph that concerns the link of one step. */
  ghost predicate LinkSound(ctx: Context, i: nat)
    requires i < |ctx.graph.nodes|
  {
    var nodes := ctx.graph.nodes;
    && (nodes[i].source.None? ==> SourceOptional(nodes[i].kind))
    && ReadsBackwards(nodes, i)
    && (forall j: nat | ReadsFrom(nodes, i, j) && Enabled(nodes[i]) ::
          && (Enabled(nodes[j]) || HasSavedOutput(ctx, nodes[j].id))
          && ProblemOf(ctx.host, nodes[j], ById(nodes), ctx.tools).NoProblem?)
  }

  ghost predicate NamesDefined(ctx: Context, i: nat)
    requires i < |ctx.graph.nodes|
  {
    forall name | name in ConfigRefs(ctx.graph.nodes[i].config) :: Str(name) in Defined(ctx.graph)
  }

  ghost predicate StepSound(ctx: Context, i: nat)
    requires i < |ctx.graph.nodes|
  {
    !ctx.graph.nodes[i].kind.Unknown? && LinkSound(ctx, i) && NamesDefined(ctx, i)
  }

  /** The link check of one step, against the graph's structure. */
  lemma SourceAcceptedIff(ctx: Context, i: nat)
    requires UniqueIds(ctx.graph.nodes) && i < |ctx.graph.nodes| && !ctx.graph.nodes[i].kind.Unknown?
    requires Positions(ctx.graph.nodes).Keys == ById(ctx.graph.nodes).Keys
    ensures SourceErrors(ctx, ById(ctx.graph.nodes), Positions(ctx.graph.nodes), i) == [] <==> LinkSound(ctx, i)
  {
    hide ProblemOf, HasSavedOutput, Enabled, ById, Positions;
    var nodes, n := ctx.graph.nodes, ctx.graph.nodes[i];
    if n.source.Some? && n.source.value in Positions(nodes) {
      var j := Positions(nodes)[n.source.value];
      assert ReadsFrom(nodes, i, j);
      ByIdFinds(nodes, j);
      assert forall m: nat | ReadsFrom(nodes, i, m) :: m == j;
      if j == i { assert n.source.value == n.id; }
    }
  }

  lemma StepAcceptedIff(
    ctx: Context, stage: StageCheck, byId: map<string, Node>, positions: map<string, nat>, predicted: Handles, i: nat
  )
    requires UniqueIds(ctx.graph.nodes) && i < |ctx.graph.nodes|
    requires Keyed(byId) && positions.Keys == byId.Keys
    requires byId == ById(ctx.graph.nodes) && positions == Positions(ctx.graph.nodes)
    requires ctx.graph.nodes[i].id !in IdsBefore(ctx.graph.nodes, i)
    ensures StructureAccepted(NodeErrors(ctx, stage, byId, positions, predicted, i)) <==> StepSound(ctx, i)
  {
    NodeAcceptedIff(ctx, stage, byId, positions, predicted, i);
    VariablesAcceptedIff(ctx, i);
    hide NodeErrors, SourceErrors, VariableErrors, LinkSound, IdsBefore, StructureAccepted, ById, Positions;
    if !ctx.graph.nodes[i].kind.Unknown? {
      SourceAcceptedIff(ctx, i);
    }
  }

  lemma LinkSoundMeans(ctx: Context, i: nat)
    requires WellOrdered(ctx.graph.nodes) && i < |ctx.graph.nodes|
    ensures LinkSound(ctx, i)
       <==> && (ctx.graph.nodes[i].source.None? ==> ctx.graph.nodes[i].kind.Folder? || ctx.graph.nodes[i].kind.Tool?)
            && forall j: nat | ReadsFrom(ctx.graph.nodes, i, j) && Enabled(ctx.graph.nodes[i]) ::
                 && (Enabled(ctx.graph.nodes[j]) || SavedOutput(ctx, ctx.graph.nodes[j].id).Some?)
                 && !NothingToRead(ctx, j)
  {
    hide ProblemFrom, HasSavedOutput, SavedOutput, Enabled, ById, NothingToRead;
    assert ReadsBackwards(ctx.graph.nodes, i);
    forall j: nat | ReadsFrom(ctx.graph.nodes, i, j)
      ensures HasSavedOutput(ctx, ctx.graph.nodes[j].id) <==> SavedOutput(ctx, ctx.graph.nodes[j].id).Some?
      ensures ProblemOf(ctx.host, ctx.graph.nodes[j], ById(ctx.graph.nodes), ctx.tools).NoProblem?
         <==> !NothingToRead(ctx, j)
    {
      SavedOutputLoads(ctx, ctx.graph.nodes[j].id);
      RefusedIffNothingToRead(ctx, j, {});
    }
  }

  lemma SoundIffEveryStepSound(ctx: Context)
    ensures SoundGraph(ctx)
       <==> UniqueIds(ctx.graph.nodes) && forall i: nat | i < |ctx.graph.nodes| :: StepSound(ctx, i)
  {
    hide ProblemOf, HasSavedOutput, SavedOutput, Enabled, ById, ConfigRefs, Defined, NothingToRead;
    var nodes := ctx.graph.nodes;
    if UniqueIds(nodes) && forall i: nat | i < |nodes| :: StepSound(ctx, i) {
      forall i: nat | i < |nodes|
        ensures ReadsBackwards(nodes, i) && NamesDefined(ctx, i) && LinkSound(ctx, i) && !nodes[i].kind.Unknown?
      {
        assert StepSound(ctx, i);
      }
    }
    if WellOrdered(nodes) {
      hide LinkSound;
      forall i: nat | i < |nodes|
        ensures LinkSound(ctx, i)
           <==> && (nodes[i].source.None? ==> nodes[i].kind.Folder? || nodes[i].kind.Tool?)
                && forall j: nat | ReadsFrom(nodes, i, j) && Enabled(nodes[i]) ::
                     (Enabled(nodes[j]) || SavedOutput(ctx, nodes[j].id).Some?) && !NothingToRead(ctx, j)
      {
        LinkSoundMeans(ctx, i);
      }
    }
  }

  /** A graph has no structural message exactly when its structure is sound. */
  lemma AcceptedIffSound(ctx: Context, stage: StageCheck)
    ensures StructureAccepted(StepErrors(ctx, stage)) <==> SoundGraph(ctx)
  {
    hide *;
    var nodes := ctx.graph.nodes;
    TablesAgree(ctx, stage);
    var byId, positions, predicted := ById(nodes), Positions(nodes), Predict(ctx, |nodes|);
    ErrorsOfStep(ctx, stage, byId, positions, predicted, |nodes|);
    UniqueIffNotBefore(nodes);
    SoundIffEveryStepSound(ctx);
    if UniqueIds(nodes) {
      forall i: nat | i < |nodes|
        ensures StructureAccepted(NodeErrors(ctx, stage, byId, positions, predicted, i)) <==> StepSound(ctx, i)
      {
        StepAcceptedIff(ctx, stage, byId, positions, predicted, i);
      }
    } else {
      var i: nat :| i < |nodes| && nodes[i].id in IdsBefore(nodes, i);
      NodeAcceptedIff(ctx, stage, byId, positions, predicted, i);
    }
  }

  lemma VariablesAcceptedIff(ctx: Context, i: nat)
    requires i < |ctx.graph.nodes|
    ensures VariableErrors(ctx, i) == [] <==> NamesDefined(ctx, i)
  {
    hide ConfigRefs;
    var refs := ConfigRefs(ctx.graph.nodes[i].config);
    var unknown := set name | name in refs && Str(name) !in Defined(ctx.graph);
    if unknown == {} {
      forall name | name in refs ensures Str(name) in Defined(ctx.graph) {
        assert name !in unknown;
      }
    }
  }
}
