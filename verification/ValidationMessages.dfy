/** Exactly which messages pre-flight shows, on any graph, well formed or not. */
module ValidationMessages {
  import opened Values
  import opened WorkflowGraph
  import opened Substitution
  import opened SourceWalks
  import opened Prediction
  import opened Validation

  /** The step that an id stands for: the last one that has it. */
  ghost predicate StandsFor(nodes: seq<Node>, id: string, j: nat) {
    j < |nodes| && nodes[j].id == id && forall k | j < k < |nodes| :: nodes[k].id != id
  }

  ghost predicate IsDefined(ctx: Context, name: string) {
    exists v :: v in ctx.graph.variables && v.name == Str(name)
  }

  /** The step reads `nodes[j]`, which comes no later than itself and is another id. */
  ghost predicate Links(ctx: Context, i: nat, j: nat) {
    var nodes := ctx.graph.nodes;
    && i < |nodes| && nodes[i].source.Some? && nodes[i].source.value != nodes[i].id
    && StandsFor(nodes, nodes[i].source.value, j) && j <= i
  }

  /** The launch's own checks are run on the step. */
  ghost predicate IsChecked(ctx: Context, i: nat) {
    && i < |ctx.graph.nodes|
    && var n := ctx.graph.nodes[i];
       && Enabled(n) && !n.kind.Unknown? && !n.kind.Folder? && !n.kind.Tool? && !n.kind.Train?
       && forall name | name in ConfigRefs(n.config) :: IsDefined(ctx, name)
  }

  /** What the step is predicted to read. */
  ghost function ReadBy(ctx: Context, i: nat): Option<Handle>
    requires i < |ctx.graph.nodes|
  {
    InputFrom(Predict(ctx, |ctx.graph.nodes|), ctx.graph.nodes[i])
  }

  /** The step reads a folder that a tool decides when it runs: no prediction, and a tool where it starts. */
  ghost predicate ToolDecides(ctx: Context, i: nat)
    requires i < |ctx.graph.nodes|
  {
    var nodes := ctx.graph.nodes;
    && ReadBy(ctx, i).None? && nodes[i].source.Some?
    && exists j: nat, t: nat ::
         && StandsFor(nodes, nodes[i].source.value, j)
         && StandsFor(nodes, Origin(ctx.host, nodes[j], ById(nodes), ctx.tools), t) && nodes[t].kind.Tool?
  }

  /** When a message about the link of a step to its source is due. */
  ghost predicate LinkDue(ctx: Context, e: GraphError) {
    var nodes, i := ctx.graph.nodes, e.pos;
    && i < |nodes|
    && var n := nodes[i];
       match e
       case NoSource(_) => n.source.None? && !n.kind.Unknown? && !n.kind.Folder? && !n.kind.Tool?
       case ReadsItself(_) => n.source == Some(n.id)
       case SourceMissing(_) =>
         n.source.Some? && n.source.value != n.id && forall k | 0 <= k < |nodes| :: nodes[k].id != n.source.value
       case SourceForward(_) =>
         n.source.Some? && n.source.value != n.id && exists k :: i < k < |nodes| && nodes[k].id == n.source.value
       case SourceDisabled(_) =>
         Enabled(n) && exists j: nat :: Links(ctx, i, j) && !Enabled(nodes[j]) && SavedOutput(ctx, nodes[j].id).None?
       case SourceHandsNothing(_, problem) =>
         Enabled(n) && !problem.NoProblem? && exists j: nat ::
           && Links(ctx, i, j) && (Enabled(nodes[j]) || SavedOutput(ctx, nodes[j].id).Some?)
           && problem == ProblemOf(ctx.host, nodes[j], ById(nodes), ctx.tools)
       case _ => false
  }

  /** When each message is due. */
  ghost predicate IsDue(ctx: Context, stage: StageCheck, e: GraphError) {
    var nodes, i := ctx.graph.nodes, e.pos;
    && i < |nodes|
    && var n := nodes[i];
       match e
       case DuplicateId(_) => exists k :: 0 <= k < i && nodes[k].id == n.id
       case UnknownKind(_) => n.kind.Unknown?
       case UnknownVariables(_, names) =>
         names != {} && forall name :: name in names <==> name in ConfigRefs(n.config) && !IsDefined(ctx, name)
       case StageRefused(_, message) => IsChecked(ctx, i) && message in stage(n, ReadBy(ctx, i), ToolDecides(ctx, i))
       case CleanOnEditDataset(_) =>
         IsChecked(ctx, i) && n.kind.Clean? && ReadBy(ctx, i).Some? && ReadBy(ctx, i).value.control != ""
       case MoveOnEditDataset(_) =>
         && IsChecked(ctx, i) && n.kind.Quality? && Get(Resolved(ctx, n), "action") == Str("move")
         && ReadBy(ctx, i).Some? && ReadBy(ctx, i).value.control != ""
       case _ => LinkDue(ctx, e)
  }

  lemma {:induction false} TablesStandFor(nodes: seq<Node>, id: string)
    ensures id in Positions(nodes) <==> exists j: nat :: StandsFor(nodes, id, j)
    ensures id in Positions(nodes) <==> id in ById(nodes)
    ensures id in Positions(nodes) ==>
              StandsFor(nodes, id, Positions(nodes)[id]) && ById(nodes)[id] == nodes[Positions(nodes)[id]]
  {
    SameKeys(nodes);
    if nodes != [] {
      var front, last := nodes[..|nodes| - 1], nodes[|nodes| - 1];
      TablesStandFor(front, id);
      if id == last.id {
        assert StandsFor(nodes, id, |nodes| - 1);
      } else {
        forall j: nat ensures StandsFor(nodes, id, j) <==> StandsFor(front, id, j) {
        }
      }
    }
  }

  lemma OneStandsFor(nodes: seq<Node>, id: string, j: nat)
    requires StandsFor(nodes, id, j)
    ensures id in Positions(nodes) && Positions(nodes)[id] == j && id in ById(nodes) && ById(nodes)[id] == nodes[j]
  {
    TablesStandFor(nodes, id);
  }

  predicate AboutTheStage(e: GraphError) {
    e.StageRefused? || e.CleanOnEditDataset? || e.MoveOnEditDataset?
  }

  /** A step that reads another one before it. */
  lemma LinkedMessages(ctx: Context, i: nat, j: nat, e: GraphError)
    requires i < |ctx.graph.nodes| && Positions(ctx.graph.nodes).Keys == ById(ctx.graph.nodes).Keys && Links(ctx, i, j)
    ensures e in SourceErrors(ctx, ById(ctx.graph.nodes), Positions(ctx.graph.nodes), i)
       <==> e.pos == i && LinkDue(ctx, e)
  {
    hide ProblemOf, Enabled, ById, Positions, HasSavedOutput, SavedOutput;
    var nodes, id := ctx.graph.nodes, ctx.graph.nodes[i].source.value;
    OneStandsFor(nodes, id, j);
    SavedOutputLoads(ctx, id);
    forall k: nat | Links(ctx, i, k) ensures k == j {
      OneStandsFor(nodes, id, k);
    }
    hide Links;
  }

  /** A step that reads nothing. */
  lemma SourcelessMessages(ctx: Context, i: nat, e: GraphError)
    requires i < |ctx.graph.nodes| && Positions(ctx.graph.nodes).Keys == ById(ctx.graph.nodes).Keys
    requires ctx.graph.nodes[i].source.None?
    ensures e in SourceErrors(ctx, ById(ctx.graph.nodes), Positions(ctx.graph.nodes), i)
       <==> e.pos == i && LinkDue(ctx, e)
  {
    hide ProblemOf, Enabled, ById, Positions, HasSavedOutput, SavedOutput;
  }

  /** A step that reads itself, a missing step or a later one. */
  lemma UnlinkedMessages(ctx: Context, i: nat, e: GraphError)
    requires i < |ctx.graph.nodes| && Positions(ctx.graph.nodes).Keys == ById(ctx.graph.nodes).Keys
    requires ctx.graph.nodes[i].source.Some? && forall j: nat :: !Links(ctx, i, j)
    ensures e in SourceErrors(ctx, ById(ctx.graph.nodes), Positions(ctx.graph.nodes), i)
       <==> e.pos == i && LinkDue(ctx, e)
  {
    hide ProblemOf, Enabled, ById, Positions, HasSavedOutput, SavedOutput;
    var nodes, n := ctx.graph.nodes, ctx.graph.nodes[i];
    TablesStandFor(nodes, n.source.value);
    if n.source.value in Positions(nodes) && n.source.value != n.id {
      assert !Links(ctx, i, Positions(nodes)[n.source.value]);
    }
    hide Links;
  }

  lemma LinkMessages(ctx: Context, i: nat, e: GraphError)
    requires i < |ctx.graph.nodes| && Positions(ctx.graph.nodes).Keys == ById(ctx.graph.nodes).Keys
    ensures e in SourceErrors(ctx, ById(ctx.graph.nodes), Positions(ctx.graph.nodes), i)
       <==> e.pos == i && LinkDue(ctx, e)
  {
    hide *;
    if j: nat :| Links(ctx, i, j) {
      LinkedMessages(ctx, i, j, e);
    } else if ctx.graph.nodes[i].source.None? {
      SourcelessMessages(ctx, i, e);
    } else {
      UnlinkedMessages(ctx, i, e);
    }
  }

  lemma IsDefinedMeans(ctx: Context, name: string)
    ensures Str(name) in Defined(ctx.graph) <==> IsDefined(ctx, name)
  {
  }

  lemma VariableMessages(ctx: Context, stage: StageCheck, i: nat, e: GraphError)
    requires i < |ctx.graph.nodes|
    ensures e in VariableErrors(ctx, i) <==> e.pos == i && e.UnknownVariables? && IsDue(ctx, stage, e)
    ensures VariableErrors(ctx, i) == []
       <==> forall name | name in ConfigRefs(ctx.graph.nodes[i].config) :: IsDefined(ctx, name)
  {
    hide ConfigRefs, IsDefined, Defined;
    var refs := ConfigRefs(ctx.graph.nodes[i].config);
    var unknown := set name | name in refs && Str(name) !in Defined(ctx.graph);
    forall name: string ensures name in unknown <==> name in refs && !IsDefined(ctx, name) {
      IsDefinedMeans(ctx, name);
    }
    assert e in VariableErrors(ctx, i) <==> unknown != {} && e == UnknownVariables(i, unknown);
    if e.UnknownVariables? && e.pos == i && IsDue(ctx, stage, e) {
      assert forall name :: name in e.names <==> name in unknown;
      assert e.names == unknown;
    }
    if unknown == {} {
      forall name | name in refs ensures IsDefined(ctx, name) {
        assert name !in unknown;
      }
    }
  }

  lemma ToolDecidesMeans(ctx: Context, i: nat)
    requires i < |ctx.graph.nodes|
    ensures DecidedAtRunTime(ctx, ById(ctx.graph.nodes), ctx.graph.nodes[i], ReadBy(ctx, i)) <==> ToolDecides(ctx, i)
  {
    hide Origin, ReadBy, ById, Positions;
    var nodes, n := ctx.graph.nodes, ctx.graph.nodes[i];
    if n.source.Some? {
      TablesStandFor(nodes, n.source.value);
      if n.source.value in ById(nodes) {
        var j := Positions(nodes)[n.source.value];
        var origin := Origin(ctx.host, nodes[j], ById(nodes), ctx.tools);
        TablesStandFor(nodes, origin);
        forall k: nat | StandsFor(nodes, n.source.value, k) ensures k == j {
          OneStandsFor(nodes, n.source.value, k);
        }
        forall t: nat | StandsFor(nodes, origin, t) ensures origin in ById(nodes) && ById(nodes)[origin] == nodes[t] {
          OneStandsFor(nodes, origin, t);
        }
      }
    }
  }

  lemma Wrapped(i: nat, messages: seq<string>, e: GraphError)
    ensures e in Wrap(i, messages) <==> e.StageRefused? && e.pos == i && e.message in messages
  {
    if e.StageRefused? && e.pos == i && e.message in messages {
      var k :| 0 <= k < |messages| && messages[k] == e.message;
      assert Wrap(i, messages)[k] == e;
    }
  }

  lemma StageMessages(ctx: Context, stage: StageCheck, i: nat, e: GraphError)
    requires i < |ctx.graph.nodes|
    ensures e in StageErrors(ctx, stage, ById(ctx.graph.nodes), Predict(ctx, |ctx.graph.nodes|), i)
       <==> e.pos == i && AboutTheStage(e) && IsDue(ctx, stage, e)
  {
    hide ConfigRefs, IsDefined, VariableErrors, Origin, Predict, ById, DecidedAtRunTime, ToolDecides, Wrap, Resolved;
    var n := ctx.graph.nodes[i];
    VariableMessages(ctx, stage, i, e);
    ToolDecidesMeans(ctx, i);
    Wrapped(i, stage(n, ReadBy(ctx, i), ToolDecides(ctx, i)), e);
  }

  lemma LinkDueKinds(ctx: Context, e: GraphError)
    ensures LinkDue(ctx, e) ==>
              !e.DuplicateId? && !e.UnknownKind? && !e.UnknownVariables? && !AboutTheStage(e)
  {
  }

  lemma StepMessages(ctx: Context, stage: StageCheck, i: nat, e: GraphError)
    requires i < |ctx.graph.nodes| && Positions(ctx.graph.nodes).Keys == ById(ctx.graph.nodes).Keys
    ensures e in NodeErrors(
                   ctx, stage, ById(ctx.graph.nodes), Positions(ctx.graph.nodes), Predict(ctx, |ctx.graph.nodes|), i)
       <==> e.pos == i && IsDue(ctx, stage, e)
  {
    hide SourceErrors, VariableErrors, StageErrors, ById, Positions, Predict, IsChecked, ToolDecides, ConfigRefs;
    LinkDueKinds(ctx, e);
    hide LinkDue, IsDefined, Resolved;
    LinkMessages(ctx, i, e);
    VariableMessages(ctx, stage, i, e);
    StageMessages(ctx, stage, i, e);
    assert ctx.graph.nodes[i].id in IdsBefore(ctx.graph.nodes, i)
      <==> exists k :: 0 <= k < i && ctx.graph.nodes[k].id == ctx.graph.nodes[i].id;
  }

  lemma {:induction false} MessagesUpTo(ctx: Context, stage: StageCheck, m: nat, e: GraphError)
    requires m <= |ctx.graph.nodes| && Positions(ctx.graph.nodes).Keys == ById(ctx.graph.nodes).Keys
    ensures e in ErrorsUpTo(
                   ctx, stage, ById(ctx.graph.nodes), Positions(ctx.graph.nodes), Predict(ctx, |ctx.graph.nodes|), m)
       <==> e.pos < m && IsDue(ctx, stage, e)
  {
    hide NodeErrors, IsDue, ById, Positions, Predict;
    if m > 0 {
      MessagesUpTo(ctx, stage, m - 1, e);
      StepMessages(ctx, stage, m - 1, e);
    }
  }

  /**
   * On any graph, with repeated ids, missing sources and cycles: a message about a step is shown if and
   * only if it is due.
   */
  lemma ExactlyTheDueMessagesAreShown(ctx: Context, stage: StageCheck, e: GraphError)
    ensures e in StepErrors(ctx, stage) <==> IsDue(ctx, stage, e)
  {
    hide ErrorsUpTo, ById, Positions, Predict, IsChecked, ToolDecides, Links, ConfigRefs;
    TablesAgree(ctx, stage);
    MessagesUpTo(ctx, stage, |ctx.graph.nodes|, e);
  }
}
