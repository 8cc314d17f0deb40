/** Walks up the `from` links of a graph that may be malformed: cycles, missing and repeated ids. */
module SourceWalks {
  import opened Values
  import opened WorkflowGraph

  ghost predicate Keyed(byId: map<string, Node>) {
    forall k :: k in byId ==> byId[k].id == k
  }

  /** The step a node reads from, when it is a node of the graph. */
  function SourceNode(n: Node, byId: map<string, Node>): Option<Node> {
    if n.source.Some? && n.source.value in byId then Some(byId[n.source.value]) else None
  }

  /** Nodes the walk has not seen yet; drops at every step because each step adds its node to `seen`. */
  ghost function Remaining(current: Option<Node>, byId: map<string, Node>, seen: set<string>): nat {
    |byId.Keys - seen| + if current.Some? && current.value.id !in byId then 1 else 0
  }

  lemma RemainingDrops(n: Node, byId: map<string, Node>, seen: set<string>)
    requires Keyed(byId) && n.id !in seen
    ensures Remaining(SourceNode(n, byId), byId, seen + {n.id}) < Remaining(Some(n), byId, seen)
  {
    assert byId.Keys - (seen + {n.id}) == (byId.Keys - seen) - {n.id};
    hide Keyed;
    assert SourceNode(n, byId).Some? ==> SourceNode(n, byId).value.id in byId by { SourceIsKeyed(n, byId); }
  }

  lemma SourceIsKeyed(n: Node, byId: map<string, Node>)
    requires Keyed(byId)
    ensures SourceNode(n, byId).Some? ==> SourceNode(n, byId).value.id in byId
  {
  }

  // ---------------------------------------------------------------- the step that created a folder

  /** Does the step start a new folder rather than work on the one it reads? */
  predicate StartsFolder(host: Host, n: Node, tools: map<string, ToolIo>) {
    || n.source.None?
    || n.kind.Folder?
    || (n.kind.Clean? && !Truthy(Get(n.config, "in_place")))
    || ToolOutputOf(host, n, tools).OutFolder?
  }

  function DirectoryKey(path: string): string {
    "folder:" + path
  }

  /** The name of the folder a starting step creates: two folder steps on one directory share it. */
  function FolderKey(host: Host, n: Node): string {
    var path := host.normalize(StrOrEmpty(host, Get(n.config, "path")));
    if n.kind.Folder? && path != "." && path != "" then DirectoryKey(path) else n.id
  }

  function OriginFrom(
    host: Host, current: Option<Node>, byId: map<string, Node>, tools: map<string, ToolIo>, seen: set<string>,
    start: string
  ): string
    requires Keyed(byId)
    decreases Remaining(current, byId, seen)
  {
    if current.None? || current.value.id in seen then start
    else if StartsFolder(host, current.value, tools) then FolderKey(host, current.value)
    else
      (RemainingDrops(current.value, byId, seen);
       OriginFrom(host, SourceNode(current.value, byId), byId, tools, seen + {current.value.id}, start))
  }

  /** The origin of the folder `n` emits. */
  function Origin(host: Host, n: Node, byId: map<string, Node>, tools: map<string, ToolIo>): string
    requires Keyed(byId)
  {
    OriginFrom(host, Some(n), byId, tools, {}, n.id)
  }

  /** `_folder_origin`: terminates on any graph and computes `Origin`. */
  method FolderOrigin(host: Host, n: Node, byId: map<string, Node>, tools: map<string, ToolIo>)
    returns (origin: string)
    requires Keyed(byId)
    ensures origin == Origin(host, n, byId, tools)
  {
    var seen: set<string> := {};
    var current := Some(n);
    while current.Some? && current.value.id !in seen
      invariant OriginFrom(host, current, byId, tools, seen, n.id) == Origin(host, n, byId, tools)
      decreases Remaining(current, byId, seen)
    {
      RemainingDrops(current.value, byId, seen);
      seen := seen + {current.value.id};
      if StartsFolder(host, current.value, tools) {
        return FolderKey(host, current.value);
      }
      current := SourceNode(current.value, byId);
    }
    return n.id;
  }

  // ---------------------------------------------------------------- why a source has no folder

  datatype SourceProblem =
    | NoProblem
    | OutputsNothing(tool: string)      // the tool declares that it outputs nothing
    | SourceWithoutFolder(tool: string) // no input, and an explicitly declared non-folder output

  function ProblemFrom(
    host: Host, current: Option<Node>, byId: map<string, Node>, tools: map<string, ToolIo>, seen: set<string>
  ): SourceProblem
    requires Keyed(byId)
    decreases Remaining(current, byId, seen)
  {
    if current.None? || !current.value.kind.Tool? || !Enabled(current.value) || current.value.id in seen then NoProblem
    else
      var n, info := current.value, ToolIoOf(host, current.value, tools);
      if info.output.OutNothing? then OutputsNothing(n.id)
      else if info.output.OutFolder? then NoProblem
      else if n.source.None? then
        if info.declared then SourceWithoutFolder(n.id) else NoProblem
      else
        (RemainingDrops(n, byId, seen);
         ProblemFrom(host, SourceNode(n, byId), byId, tools, seen + {n.id}))
  }

  function ProblemOf(host: Host, source: Node, byId: map<string, Node>, tools: map<string, ToolIo>): SourceProblem
    requires Keyed(byId)
  {
    ProblemFrom(host, Some(source), byId, tools, {})
  }

  /** `_source_problem`: terminates on any graph and computes `ProblemOf`. */
  method FindSourceProblem(host: Host, source: Node, byId: map<string, Node>, tools: map<string, ToolIo>)
    returns (problem: SourceProblem)
    requires Keyed(byId)
    ensures problem == ProblemOf(host, source, byId, tools)
  {
    var seen: set<string> := {};
    var current := Some(source);
    while current.Some? && current.value.kind.Tool? && Enabled(current.value)
      invariant ProblemFrom(host, current, byId, tools, seen) == ProblemOf(host, source, byId, tools)
      decreases Remaining(current, byId, seen)
    {
      var n := current.value;
      if n.id in seen {
        return NoProblem;
      }
      RemainingDrops(n, byId, seen);
      seen := seen + {n.id};
      var info := ToolIoOf(host, n, tools);
      if info.output.OutNothing? {
        return OutputsNothing(n.id);
      }
      if info.output.OutFolder? {
        return NoProblem;
      }
      if n.source.None? {
        return if info.declared then SourceWithoutFolder(n.id) else NoProblem;
      }
      current := SourceNode(n, byId);
    }
    return NoProblem;
  }

  // ---------------------------------------------------------------- graphs whose links point backwards

  ghost predicate UniqueIds(nodes: seq<Node>) {
    forall i, j | 0 <= i < j < |nodes| :: nodes[i].id != nodes[j].id
  }

  /** `j` is the position of the step that node `i` reads from. */
  ghost predicate ReadsFrom(nodes: seq<Node>, i: nat, j: nat) {
    i < |nodes| && j < |nodes| && nodes[i].source == Some(nodes[j].id)
  }

  /** The step that node `i` reads, if any, stands before it. */
  ghost predicate ReadsBackwards(nodes: seq<Node>, i: nat)
    requires i < |nodes|
  {
    nodes[i].source.Some? ==> exists j: nat :: j < i && ReadsFrom(nodes, i, j)
  }

  /** Unique ids, and every `from` names an earlier step. */
  ghost predicate WellOrdered(nodes: seq<Node>) {
    && UniqueIds(nodes)
    && forall i: nat | i < |nodes| :: ReadsBackwards(nodes, i)
  }

  ghost function SourcePos(nodes: seq<Node>, i: nat): (j: nat)
    requires WellOrdered(nodes) && i < |nodes| && nodes[i].source.Some?
    ensures j < i && ReadsFrom(nodes, i, j)
  {
    assert ReadsBackwards(nodes, i);
    var j: nat :| j < i && ReadsFrom(nodes, i, j);
    j
  }

  lemma {:induction false} ByIdFinds(nodes: seq<Node>, i: nat)
    requires UniqueIds(nodes) && i < |nodes|
    ensures nodes[i].id in ById(nodes) && ById(nodes)[nodes[i].id] == nodes[i]
  {
    var front := nodes[..|nodes| - 1];
    if i < |nodes| - 1 {
      assert forall a, b | 0 <= a < b < |front| :: front[a].id != front[b].id;
      ByIdFinds(front, i);
      assert nodes[i].id != nodes[|nodes| - 1].id;
    }
  }

  /** The origin along backward links: no `seen` set is needed. */
  ghost function RootKey(host: Host, nodes: seq<Node>, i: nat, tools: map<string, ToolIo>): string
    requires WellOrdered(nodes) && i < |nodes|
  {
    if StartsFolder(host, nodes[i], tools) then FolderKey(host, nodes[i])
    else RootKey(host, nodes, SourcePos(nodes, i), tools)
  }

  lemma {:induction false} OriginIsRootKey(
    host: Host, nodes: seq<Node>, i: nat, tools: map<string, ToolIo>, seen: set<string>, start: string
  )
    requires WellOrdered(nodes) && i < |nodes|
    requires forall k | 0 <= k <= i :: nodes[k].id !in seen
    ensures OriginFrom(host, Some(nodes[i]), ById(nodes), tools, seen, start) == RootKey(host, nodes, i, tools)
  {
    if !StartsFolder(host, nodes[i], tools) {
      var j := SourcePos(nodes, i);
      ByIdFinds(nodes, j);
      assert SourceNode(nodes[i], ById(nodes)) == Some(nodes[j]);
      OriginIsRootKey(host, nodes, j, tools, seen + {nodes[i].id}, start);
    }
  }

  /** In a well-ordered graph a step that does not start a folder shares its source's origin. */
  lemma OriginSteps(host: Host, nodes: seq<Node>, i: nat, tools: map<string, ToolIo>)
    requires WellOrdered(nodes) && i < |nodes|
    ensures StartsFolder(host, nodes[i], tools) ==>
              Origin(host, nodes[i], ById(nodes), tools) == FolderKey(host, nodes[i])
    ensures !StartsFolder(host, nodes[i], tools) ==>
              Origin(host, nodes[i], ById(nodes), tools)
              == Origin(host, nodes[SourcePos(nodes, i)], ById(nodes), tools)
  {
    OriginIsRootKey(host, nodes, i, tools, {}, nodes[i].id);
    if !StartsFolder(host, nodes[i], tools) {
      var j := SourcePos(nodes, i);
      OriginIsRootKey(host, nodes, j, tools, {}, nodes[j].id);
    }
  }

  /**
   * The origin, kind by kind. A folder step's is the name of its directory; a clean step that is not in
   * place, a tool that returns a folder and a step without source start a folder of their own, named
   * after the step; every other step works on the folder of its source.
   */
  lemma OriginByKind(host: Host, nodes: seq<Node>, i: nat, tools: map<string, ToolIo>)
    requires WellOrdered(nodes) && i < |nodes|
    ensures var n, origin := nodes[i], Origin(host, nodes[i], ById(nodes), tools);
            var cleansElsewhere := n.kind.Clean? && !Truthy(Get(n.config, "in_place"));
            var tool := StrOrEmpty(host, Get(n.config, "tool_id"));
            var returnsFolder := n.kind.Tool? && tool in tools && tools[tool].output.OutFolder?;
            if n.kind.Folder? then
              origin == (var path := host.normalize(StrOrEmpty(host, Get(n.config, "path")));
                         if path == "." || path == "" then n.id else "folder:" + path)
            else if n.source.None? || cleansElsewhere || returnsFolder then origin == n.id
            else origin == Origin(host, nodes[SourcePos(nodes, i)], ById(nodes), tools)
  {
    hide Origin, WellOrdered;
    OriginSteps(host, nodes, i, tools);
  }
}
