/** Which handle each step will emit, as far as it can be known before a run. */
module Prediction {
  import opened Values
  import opened WorkflowGraph
  import opened Substitution
  import opened SourceWalks

  /** Everything pre-flight reads: the graph, the tools' declarations and the saved run state. */
  datatype Context = Context(host: Host, graph: Graph, tools: map<string, ToolIo>, saved: map<string, Value>)

  type Handles = map<string, Option<Handle>>

  function Resolved(ctx: Context, n: Node): Config {
    ResolveConfig(n.config, VariableMap(ctx.host, ctx.graph.variables))
  }

  /** `handles.get(node.source)`. */
  function InputFrom(handles: Handles, n: Node): Option<Handle> {
    if n.source.Some? && n.source.value in handles then handles[n.source.value] else None
  }

  /** The handle a disabled step left behind: its saved output. */
  function SavedOutput(ctx: Context, id: string): Option<Handle> {
    if id in ctx.saved && ctx.saved[id].Obj?
    then LoadHandle(ctx.host, Get(ctx.saved[id].fields, "output"))
    else None
  }

  function PredictNode(ctx: Context, n: Node, upstream: Option<Handle>): Option<Handle> {
    if !Enabled(n) then SavedOutput(ctx, n.id)
    else if n.kind.Unknown? then upstream
    else
      match EffectiveOutput(ctx.host, n.kind, Resolved(ctx, n), upstream, Null, ToolOutputOf(ctx.host, n, ctx.tools))
      case Emits(h) => h
      case Fails => None
  }

  /** The predictions after the first `k` steps. */
  function Predict(ctx: Context, k: nat): (out: Handles)
    requires k <= |ctx.graph.nodes|
    ensures forall i | 0 <= i < k :: ctx.graph.nodes[i].id in out
  {
    if k == 0 then map[]
    else
      var before, n := Predict(ctx, k - 1), ctx.graph.nodes[k - 1];
      before[n.id := PredictNode(ctx, n, InputFrom(before, n))]
  }

  /** `_predicted_handles`. */
  method PredictedHandles(ctx: Context) returns (out: Handles)
    ensures out == Predict(ctx, |ctx.graph.nodes|)
  {
    out := map[];
    for k := 0 to |ctx.graph.nodes|
      invariant out == Predict(ctx, k)
    {
      var n := ctx.graph.nodes[k];
      var upstream := InputFrom(out, n);
      if !Enabled(n) {
        out := out[n.id := SavedOutput(ctx, n.id)];
        continue;
      }
      if n.kind.Unknown? {
        out := out[n.id := upstream];
        continue;
      }
      var emission := EffectiveOutput(
        ctx.host, n.kind, Resolved(ctx, n), upstream, Null, ToolOutputOf(ctx.host, n, ctx.tools));
      out := out[n.id := if emission.Emits? then emission.handle else None];
    }
  }

  /** A prediction is made once: later steps do not change it. */
  lemma {:induction false} PredictionIsStable(ctx: Context, i: nat, k: nat)
    requires UniqueIds(ctx.graph.nodes) && i < k <= |ctx.graph.nodes|
    ensures Predict(ctx, k)[ctx.graph.nodes[i].id]
         == PredictNode(ctx, ctx.graph.nodes[i], InputFrom(Predict(ctx, i), ctx.graph.nodes[i]))
  {
    hide PredictNode;
    if i < k - 1 {
      PredictionIsStable(ctx, i, k - 1);
      assert ctx.graph.nodes[i].id != ctx.graph.nodes[k - 1].id;
    }
  }

  /** The prediction for the step at position `i` of a graph with unique ids. */
  ghost function PredictedAt(ctx: Context, i: nat): Option<Handle>
    requires i < |ctx.graph.nodes|
  {
    PredictNode(ctx, ctx.graph.nodes[i], InputFrom(Predict(ctx, i), ctx.graph.nodes[i]))
  }

  /** What a step reads is what its source was predicted to emit. */
  lemma InputIsSourcePrediction(ctx: Context, i: nat)
    requires WellOrdered(ctx.graph.nodes) && i < |ctx.graph.nodes| && ctx.graph.nodes[i].source.Some?
    ensures InputFrom(Predict(ctx, i), ctx.graph.nodes[i]) == PredictedAt(ctx, SourcePos(ctx.graph.nodes, i))
  {
    PredictionIsStable(ctx, SourcePos(ctx.graph.nodes, i), i);
  }

  /**
   * The predictions hang together: an enabled step's is what it would emit, reporting nothing, on the
   * prediction of what it reads; a disabled step's is its saved output, and an unknown one passes its
   * input on.
   */
  lemma PredictionsHangTogether(ctx: Context, i: nat)
    requires WellOrdered(ctx.graph.nodes) && i < |ctx.graph.nodes|
    ensures var all, n := Predict(ctx, |ctx.graph.nodes|), ctx.graph.nodes[i];
            && n.id in all
            && (!Enabled(n) ==> all[n.id] == SavedOutput(ctx, n.id))
            && (Enabled(n) && n.kind.Unknown? ==> all[n.id] == InputFrom(all, n))
            && (Enabled(n) && !n.kind.Unknown? ==>
                  Emits(all[n.id]) == EffectiveOutput(
                    ctx.host, n.kind, Resolved(ctx, n), InputFrom(all, n), Null, ToolOutputOf(ctx.host, n, ctx.tools)))
  {
    hide Resolved, ToolOutputOf, Predict, SavedOutput, EffectiveOutput;
    var nodes, n := ctx.graph.nodes, ctx.graph.nodes[i];
    PredictionIsStable(ctx, i, |nodes|);
    if n.source.Some? {
      PredictionIsStable(ctx, SourcePos(nodes, i), i);
      PredictionIsStable(ctx, SourcePos(nodes, i), |nodes|);
    }
    PredictionFailsOnlyForUnknownKinds(
      ctx.host, n.kind, Resolved(ctx, n), InputFrom(Predict(ctx, i), n), ToolOutputOf(ctx.host, n, ctx.tools));
  }

  lemma ToolPrediction(ctx: Context, n: Node, upstream: Option<Handle>)
    requires n.kind.Tool? && Enabled(n)
    ensures PredictNode(ctx, n, upstream)
         == if ToolIoOf(ctx.host, n, ctx.tools).output.OutPassThrough? then upstream else None
  {
  }

  lemma ProblemStep(host: Host, n: Node, byId: map<string, Node>, tools: map<string, ToolIo>, seen: set<string>)
    requires Keyed(byId)
    requires !ProblemFrom(host, Some(n), byId, tools, seen).NoProblem?
    ensures n.kind.Tool? && Enabled(n) && !ToolIoOf(host, n, tools).output.OutFolder?
    ensures n.source.Some? && ToolIoOf(host, n, tools).output.OutPassThrough? ==>
              !ProblemFrom(host, SourceNode(n, byId), byId, tools, seen + {n.id}).NoProblem?
  {
  }

  /** A source refused by the source walk really has no folder to hand on. */
  lemma {:induction false} RefusedSourceHandsNothingOn(ctx: Context, i: nat, seen: set<string>)
    requires WellOrdered(ctx.graph.nodes) && i < |ctx.graph.nodes|
    requires forall k | 0 <= k <= i :: ctx.graph.nodes[k].id !in seen
    requires !ProblemFrom(ctx.host, Some(ctx.graph.nodes[i]), ById(ctx.graph.nodes), ctx.tools, seen).NoProblem?
    ensures PredictedAt(ctx, i) == None
  {
    hide PredictNode, ProblemFrom, Predict;
    var nodes := ctx.graph.nodes;
    var n := nodes[i];
    ProblemStep(ctx.host, n, ById(nodes), ctx.tools, seen);
    ToolPrediction(ctx, n, InputFrom(Predict(ctx, i), n));
    if ToolIoOf(ctx.host, n, ctx.tools).output.OutPassThrough? && n.source.Some? {
      var j := SourcePos(nodes, i);
      ByIdFinds(nodes, j);
      assert SourceNode(n, ById(nodes)) == Some(nodes[j]);
      forall k | 0 <= k <= j ensures nodes[k].id !in seen + {n.id} {
        assert nodes[k].id != nodes[i].id;
      }
      RefusedSourceHandsNothingOn(ctx, j, seen + {n.id});
      InputIsSourcePrediction(ctx, i);
    }
  }
}
