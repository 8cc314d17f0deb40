/** Which steps no longer match what produced their saved output: parent-chained configuration hashes. */
module Staleness {
  import opened Values
  import opened WorkflowGraph
  import opened Substitution
  import opened SourceWalks

  /** What one step contributes to its hash. */
  datatype Print = Print(kind: NodeKind, config: Config, gpu: NodeGpu)

  /**
   * `fill` resolves nothing: it adds the stage's defaults to a resolved configuration. `digest` is
   * SHA-256 over the canonical JSON of the print and the parent's hash.
   */
  datatype Hasher = Hasher(host: Host, fill: (NodeKind, Config) -> Config, digest: (Print, string) -> string)

  ghost predicate Collisionless(h: Hasher) {
    && (forall a, s, b, t :: h.digest(a, s) == h.digest(b, t) ==> a == b && s == t)
    && (forall a, s :: h.digest(a, s) != "")
  }

  /** `materialize_config` and the GPU policy, as the hash sees them. */
  function PrintOf(h: Hasher, vars: Variables, n: Node): Print {
    Print(n.kind, h.fill(n.kind, ResolveConfig(n.config, vars)), n.gpu)
  }

  /** What the run state keeps of a step. A step without a record has three nulls. */
  datatype Saved = Saved(configHash: Value, output: Value, savedInput: Value)

  type RunRecord = map<string, Saved>

  function SavedOf(record: RunRecord, id: string): Saved {
    if id in record then record[id] else Saved(Null, Null, Null)
  }

  datatype HandleKey = HandleKey(path: string, format: string, ext: string, control: string)

  function TextOr(host: Host, data: Config, key: string, default: string): string {
    if key in data then PyStr(host, data[key]) else default
  }

  /** `_handle_key`: defaults never read as a change. */
  function KeyOf(host: Host, data: Value): Option<HandleKey> {
    if data.Obj? && data.fields != map[] then
      Some(HandleKey(
        TextOr(host, data.fields, "path", ""),
        TextOr(host, data.fields, "caption_format", DEFAULT_FORMAT),
        TextOr(host, data.fields, "caption_ext", DEFAULT_EXT),
        StrOrEmpty(host, Get(data.fields, "control_path"))))
    else None
  }

  type Hashes = map<string, string>

  function ParentHash(hashes: Hashes, n: Node): string {
    if n.source.Some? && n.source.value in hashes then hashes[n.source.value] else ""
  }

  function HashesUpTo(h: Hasher, graph: Graph, k: nat): (hashes: Hashes)
    requires k <= |graph.nodes|
  {
    if k == 0 then map[]
    else
      var before, n := HashesUpTo(h, graph, k - 1), graph.nodes[k - 1];
      before[n.id := h.digest(PrintOf(h, VariableMap(h.host, graph.variables), n), ParentHash(before, n))]
  }

  /** Is the step stale, given its current hash? A step that never ran never is. */
  predicate IsStale(h: Hasher, record: RunRecord, n: Node, current: string) {
    var saved := SavedOf(record, n.id);
    var upstream := if n.source.Some? then SavedOf(record, n.source.value).output else Null;
    && (Truthy(saved.configHash) || Truthy(saved.output))
    && (saved.configHash != Str(current) || KeyOf(h.host, upstream) != KeyOf(h.host, saved.savedInput))
  }

  /** The hash of the step at position `i`. */
  function HashAt(h: Hasher, graph: Graph, i: nat): string
    requires i < |graph.nodes|
  {
    h.digest(PrintOf(h, VariableMap(h.host, graph.variables), graph.nodes[i]),
             ParentHash(HashesUpTo(h, graph, i), graph.nodes[i]))
  }

  function StaleUpTo(h: Hasher, graph: Graph, record: RunRecord, k: nat): map<string, bool>
    requires k <= |graph.nodes|
  {
    if k == 0 then map[]
    else
      var n := graph.nodes[k - 1];
      StaleUpTo(h, graph, record, k - 1)[n.id := IsStale(h, record, n, HashAt(h, graph, k - 1))]
  }

  /** `compute_stale`. */
  method ComputeStale(h: Hasher, graph: Graph, record: RunRecord) returns (stale: map<string, bool>)
    ensures stale == StaleUpTo(h, graph, record, |graph.nodes|)
  {
    hide IsStale, PrintOf, VariableMap;
    var hashes: Hashes := map[];
    stale := map[];
    for k := 0 to |graph.nodes|
      invariant hashes == HashesUpTo(h, graph, k)
      invariant stale == StaleUpTo(h, graph, record, k)
    {
      var n := graph.nodes[k];
      var current := h.digest(PrintOf(h, VariableMap(h.host, graph.variables), n), ParentHash(hashes, n));
      hashes := hashes[n.id := current];
      stale := stale[n.id := IsStale(h, record, n, current)];
    }
  }

  lemma {:induction false} StaleAt(h: Hasher, graph: Graph, record: RunRecord, i: nat, k: nat)
    requires UniqueIds(graph.nodes) && i < k <= |graph.nodes|
    ensures graph.nodes[i].id in StaleUpTo(h, graph, record, k)
    ensures StaleUpTo(h, graph, record, k)[graph.nodes[i].id]
         == IsStale(h, record, graph.nodes[i], HashAt(h, graph, i))
  {
    hide IsStale, HashAt;
    if i < k - 1 {
      StaleAt(h, graph, record, i, k - 1);
      assert graph.nodes[i].id != graph.nodes[k - 1].id;
    }
  }

  /** What the run state holds of a step: hash, output and input, or three nulls. */
  ghost predicate Records(record: RunRecord, id: string, hash: Value, output: Value, input: Value) {
    if id in record then record[id] == Saved(hash, output, input) else hash == Null && output == Null && input == Null
  }

  /**
   * The rule, for any run state whatever: a step that recorded a hash or an output is fresh exactly when
   * the hash is its current one and its source's recorded output compares equal to the input it
   * recorded; a step that recorded neither is never stale.
   */
  lemma FreshIff(
    h: Hasher, graph: Graph, record: RunRecord, i: nat, hash: Value, output: Value, input: Value, upstream: Value
  )
    requires UniqueIds(graph.nodes) && i < |graph.nodes| && Records(record, graph.nodes[i].id, hash, output, input)
    requires graph.nodes[i].source.None? ==> upstream == Null
    requires graph.nodes[i].source.Some? ==>
               exists x, y :: Records(record, graph.nodes[i].source.value, x, upstream, y)
    ensures var stale := StaleUpTo(h, graph, record, |graph.nodes|);
            && graph.nodes[i].id in stale
            && (Truthy(hash) || Truthy(output) ==>
                  (!stale[graph.nodes[i].id]
                   <==> hash == Str(HashAt(h, graph, i)) && KeyOf(h.host, upstream) == KeyOf(h.host, input)))
            && (!Truthy(hash) && !Truthy(output) ==> !stale[graph.nodes[i].id])
  {
    StaleAt(h, graph, record, i, |graph.nodes|);
    hide StaleUpTo, HashAt, KeyOf, UniqueIds, Truthy;
  }

  /**
   * The case the saved input is there for: nothing was edited, but the source now hands on another
   * folder. The step is stale exactly when the two handles differ.
   */
  lemma AnotherFolderIsStale(h: Hasher, graph: Graph, record: RunRecord, i: nat, now: Handle, then': Handle)
    requires UniqueIds(graph.nodes) && i < |graph.nodes| && graph.nodes[i].source.Some?
    requires graph.nodes[i].id in record && graph.nodes[i].source.value in record
    requires record[graph.nodes[i].id].configHash == Str(HashAt(h, graph, i)) && HashAt(h, graph, i) != ""
    requires record[graph.nodes[i].id].savedInput == Obj(SaveHandle(then'))
    requires record[graph.nodes[i].source.value].output == Obj(SaveHandle(now))
    ensures graph.nodes[i].id in StaleUpTo(h, graph, record, |graph.nodes|)
    ensures StaleUpTo(h, graph, record, |graph.nodes|)[graph.nodes[i].id] <==> now != then'
  {
    hide StaleUpTo, HashAt, KeyOf, SaveHandle;
    var saved, above := record[graph.nodes[i].id], record[graph.nodes[i].source.value];
    assert Records(record, graph.nodes[i].source.value, above.configHash, above.output, above.savedInput);
    FreshIff(h, graph, record, i, saved.configHash, saved.output, saved.savedInput, above.output);
    SavedHandlesCompareExactly(h.host, now, then');
  }

  lemma {:induction false} HashIsStable(h: Hasher, graph: Graph, i: nat, k: nat)
    requires UniqueIds(graph.nodes) && i < k <= |graph.nodes|
    ensures graph.nodes[i].id in HashesUpTo(h, graph, k)
    ensures HashesUpTo(h, graph, k)[graph.nodes[i].id] == HashAt(h, graph, i)
  {
    hide PrintOf, VariableMap;
    if i < k - 1 {
      HashIsStable(h, graph, i, k - 1);
      assert graph.nodes[i].id != graph.nodes[k - 1].id;
    }
  }

  /** Along backward links the parent's hash is the source's hash. */
  lemma HashOfStep(h: Hasher, graph: Graph, i: nat)
    requires WellOrdered(graph.nodes) && i < |graph.nodes|
    ensures HashAt(h, graph, i)
         == h.digest(PrintOf(h, VariableMap(h.host, graph.variables), graph.nodes[i]),
                     if graph.nodes[i].source.None? then "" else HashAt(h, graph, SourcePos(graph.nodes, i)))
  {
    hide PrintOf, VariableMap;
    if graph.nodes[i].source.Some? {
      HashIsStable(h, graph, SourcePos(graph.nodes, i), i);
    }
  }

  // ---------------------------------------------------------------- a hash stands for the ancestor chain

  /** The prints of a step and its ancestors, the step first. */
  ghost function Lineage(h: Hasher, graph: Graph, i: nat): seq<Print>
    requires WellOrdered(graph.nodes) && i < |graph.nodes|
  {
    [PrintOf(h, VariableMap(h.host, graph.variables), graph.nodes[i])]
    + if graph.nodes[i].source.None? then [] else Lineage(h, graph, SourcePos(graph.nodes, i))
  }

  /** Two steps, even of different graphs, have one hash exactly when their whole ancestor chains agree. */
  lemma {:induction false} HashStandsForTheAncestorChain(h: Hasher, g: Graph, i: nat, g': Graph, i': nat)
    requires Collisionless(h) && WellOrdered(g.nodes) && WellOrdered(g'.nodes) && i < |g.nodes| && i' < |g'.nodes|
    ensures HashAt(h, g, i) == HashAt(h, g', i') <==> Lineage(h, g, i) == Lineage(h, g', i')
  {
    hide PrintOf, HashAt, VariableMap, WellOrdered;
    HashOfStep(h, g, i);
    HashOfStep(h, g', i');
    LineageStep(h, g, i);
    LineageStep(h, g', i');
    if g.nodes[i].source.Some? {
      LineageStep(h, g, SourcePos(g.nodes, i));
      HashOfStep(h, g, SourcePos(g.nodes, i));
    }
    if g'.nodes[i'].source.Some? {
      LineageStep(h, g', SourcePos(g'.nodes, i'));
      HashOfStep(h, g', SourcePos(g'.nodes, i'));
    }
    if g.nodes[i].source.Some? && g'.nodes[i'].source.Some? {
      HashStandsForTheAncestorChain(h, g, SourcePos(g.nodes, i), g', SourcePos(g'.nodes, i'));
    }
    hide Lineage;
  }

  lemma LineageStep(h: Hasher, g: Graph, i: nat)
    requires WellOrdered(g.nodes) && i < |g.nodes|
    ensures Lineage(h, g, i) != []
    ensures Lineage(h, g, i)[0] == PrintOf(h, VariableMap(h.host, g.variables), g.nodes[i])
    ensures Lineage(h, g, i)[1..] == if g.nodes[i].source.None? then [] else Lineage(h, g, SourcePos(g.nodes, i))
    ensures Lineage(h, g, i) == [Lineage(h, g, i)[0]] + Lineage(h, g, i)[1..]
  {
  }

  // ---------------------------------------------------------------- after a run, and after an edit

  /** Every step ran: it recorded its hash, and the input it read is its source's recorded output. */
  ghost predicate FullyRun(h: Hasher, graph: Graph, record: RunRecord) {
    forall i: nat | i < |graph.nodes| ::
      var n := graph.nodes[i];
      && SavedOf(record, n.id).configHash == Str(HashAt(h, graph, i))
      && KeyOf(h.host, if n.source.Some? then SavedOf(record, n.source.value).output else Null)
         == KeyOf(h.host, SavedOf(record, n.id).savedInput)
  }

  /** The two graphs have the same steps in the same places, up to their contents. */
  ghost predicate SameShape(g: Graph, g': Graph) {
    && |g.nodes| == |g'.nodes|
    && forall i | 0 <= i < |g.nodes| :: g.nodes[i].id == g'.nodes[i].id && g.nodes[i].source == g'.nodes[i].source
  }

  ghost predicate Changed(h: Hasher, g: Graph, g': Graph, i: nat)
    requires i < |g.nodes| && i < |g'.nodes|
  {
    PrintOf(h, VariableMap(h.host, g.variables), g.nodes[i])
    != PrintOf(h, VariableMap(h.host, g'.variables), g'.nodes[i])
  }

  /** The step or one of its ancestors changed. */
  ghost predicate Affected(h: Hasher, g: Graph, g': Graph, i: nat)
    requires WellOrdered(g.nodes) && SameShape(g, g') && i < |g.nodes|
  {
    Changed(h, g, g', i) || (g.nodes[i].source.Some? && Affected(h, g, g', SourcePos(g.nodes, i)))
  }

  lemma SameShapeSameOrder(g: Graph, g': Graph)
    requires WellOrdered(g.nodes) && SameShape(g, g')
    ensures WellOrdered(g'.nodes)
    ensures forall i: nat | i < |g.nodes| && g.nodes[i].source.Some? :: SourcePos(g'.nodes, i) == SourcePos(g.nodes, i)
  {
    assert UniqueIds(g'.nodes);
    forall i: nat | i < |g'.nodes| && g'.nodes[i].source.Some?
      ensures exists j: nat :: j < i && ReadsFrom(g'.nodes, i, j)
    {
      assert ReadsFrom(g'.nodes, i, SourcePos(g.nodes, i));
    }
    forall i: nat | i < |g.nodes| && g.nodes[i].source.Some?
      ensures SourcePos(g'.nodes, i) == SourcePos(g.nodes, i)
    {
      var a, b := SourcePos(g.nodes, i), SourcePos(g'.nodes, i);
      assert g'.nodes[a].id == g'.nodes[b].id;
    }
  }

  lemma {:induction false} HashChangesWithTheChain(h: Hasher, g: Graph, g': Graph, i: nat)
    requires Collisionless(h) && WellOrdered(g.nodes) && SameShape(g, g') && i < |g.nodes| && WellOrdered(g'.nodes)
    ensures HashAt(h, g, i) != HashAt(h, g', i) <==> Affected(h, g, g', i)
  {
    SameShapeSameOrder(g, g');
    HashOfStep(h, g, i);
    HashOfStep(h, g', i);
    hide PrintOf, HashAt, VariableMap, WellOrdered;
    if g.nodes[i].source.Some? {
      HashChangesWithTheChain(h, g, g', SourcePos(g.nodes, i));
    }
  }

  /**
   * After a full run and any edit of steps or variables that keeps the links, exactly the steps with
   * a changed step among themselves and their ancestors are stale.
   */
  lemma EditMakesStaleExactlyTheDescendants(h: Hasher, g: Graph, g': Graph, record: RunRecord, i: nat)
    requires Collisionless(h) && WellOrdered(g.nodes) && SameShape(g, g') && i < |g.nodes|
    requires FullyRun(h, g, record)
    ensures WellOrdered(g'.nodes) && g'.nodes[i].id in StaleUpTo(h, g', record, |g'.nodes|)
    ensures StaleUpTo(h, g', record, |g'.nodes|)[g'.nodes[i].id] <==> Affected(h, g, g', i)
  {
    SameShapeSameOrder(g, g');
    StaleAt(h, g', record, i, |g'.nodes|);
    HashChangesWithTheChain(h, g, g', i);
    HashIsText(h, g, i);
    hide HashAt, Affected, StaleUpTo, KeyOf, Collisionless, SavedOf;
  }

  lemma HashIsText(h: Hasher, g: Graph, i: nat)
    requires Collisionless(h) && i < |g.nodes|
    ensures HashAt(h, g, i) != "" && Truthy(Str(HashAt(h, g, i)))
  {
  }

  /** With nothing edited nothing is stale. */
  lemma {:induction false} NothingIsStaleAfterARun(h: Hasher, g: Graph, record: RunRecord, i: nat)
    requires Collisionless(h) && WellOrdered(g.nodes) && i < |g.nodes| && FullyRun(h, g, record)
    ensures g.nodes[i].id in StaleUpTo(h, g, record, |g.nodes|) && !StaleUpTo(h, g, record, |g.nodes|)[g.nodes[i].id]
  {
    EditMakesStaleExactlyTheDescendants(h, g, g, record, i);
    UnchangedIsUnaffected(h, g, i);
  }

  lemma {:induction false} UnchangedIsUnaffected(h: Hasher, g: Graph, i: nat)
    requires WellOrdered(g.nodes) && i < |g.nodes|
    ensures !Affected(h, g, g, i)
  {
    hide PrintOf, VariableMap;
    if g.nodes[i].source.Some? {
      UnchangedIsUnaffected(h, g, SourcePos(g.nodes, i));
    }
  }

  /** Editing variables leaves every step fresh that, with its ancestors, uses only unchanged ones. */
  lemma {:induction false} UnusedVariablesAffectNothing(h: Hasher, g: Graph, variables: seq<Variable>, i: nat)
    requires WellOrdered(g.nodes) && i < |g.nodes|
    requires forall k | 0 <= k <= i ::
               AgreeOn(ConfigRefs(g.nodes[k].config), VariableMap(h.host, g.variables), VariableMap(h.host, variables))
    ensures !Affected(h, g, g.(variables := variables), i)
  {
    hide VariableMap, AgreeOn, ConfigRefs, ResolveConfig;
    ConfigDependsOnItsRefs(g.nodes[i].config, VariableMap(h.host, g.variables), VariableMap(h.host, variables));
    if g.nodes[i].source.Some? {
      UnusedVariablesAffectNothing(h, g, variables, SourcePos(g.nodes, i));
    }
  }

  /**
   * Defaults never read as a change: a handle saved before a key existed compares equal to the same
   * handle with the key at its default. An empty record compares equal to none at all.
   */
  lemma DefaultsAreNoChange(host: Host, data: Config, key: string, default: string)
    requires data != map[] && key !in data
    requires || (key == "caption_format" && default == "sidecar") || (key == "caption_ext" && default == ".txt")
             || ((key == "control_path" || key == "path") && default == "")
    ensures KeyOf(host, Obj(data)) == KeyOf(host, Obj(data[key := Str(default)]))
    ensures KeyOf(host, Obj(map[])) == KeyOf(host, Null) != KeyOf(host, Obj(data))
  {
    assert |"path"| == 4 && |"caption_format"| == 14 && |"caption_ext"| == 11 && |"control_path"| == 12;
    var longer := data[key := Str(default)];
    assert key in longer;
    assert forall k | k != key :: k in longer <==> k in data;
  }

  /** Saved handles compare equal exactly when the handles are equal. */
  lemma SavedHandlesCompareExactly(host: Host, a: Handle, b: Handle)
    ensures KeyOf(host, Obj(SaveHandle(a))) == KeyOf(host, Obj(SaveHandle(b))) <==> a == b
  {
    KeyOfSaved(host, a);
    KeyOfSaved(host, b);
  }

  lemma KeyOfSaved(host: Host, h: Handle)
    ensures KeyOf(host, Obj(SaveHandle(h))) == Some(HandleKey(h.path, h.format, h.ext, h.control))
  {
    var d := SaveHandle(h);
    assert |"path"| == 4 && |"caption_format"| == 14 && |"caption_ext"| == 11 && |"control_path"| == 12;
    assert d["path"] == Str(h.path) && d["caption_format"] == Str(h.format) && d["caption_ext"] == Str(h.ext);
    assert Get(d, "control_path") == if h.control != "" then Str(h.control) else Null;
  }
}
