/** Reading a graph from decoded JSON and writing it back: tolerant in, one normal form out. */
module GraphCodec {
  import opened Values
  import opened WorkflowGraph

  // ---------------------------------------------------------------- step types

  function PrintKind(k: NodeKind): string {
    match k
    case Folder => "folder"
    case Tag => "prep.tag"
    case Caption => "prep.caption"
    case EditCaption => "prep.edit_caption"
    case Clean => "prep.clean"
    case Quality => "prep.quality"
    case Index => "prep.index"
    case Tool => "tool"
    case Train => "train"
    case Unknown(name) => name
  }

  /** Any other name is kept as it is: a newer app's graph survives an older one. */
  function ParseKind(name: string): NodeKind {
    if name == "folder" then Folder
    else if name == "prep.tag" then Tag
    else if name == "prep.caption" then Caption
    else if name == "prep.edit_caption" then EditCaption
    else if name == "prep.clean" then Clean
    else if name == "prep.quality" then Quality
    else if name == "prep.index" then Index
    else if name == "tool" then Tool
    else if name == "train" then Train
    else Unknown(name)
  }

  // ---------------------------------------------------------------- reading

  /** A field the filler copies when the key is there, whatever its value. */
  function Filled(data: Config, key: string, default: Value): Value {
    if key in data then data[key] else default
  }

  /** `str(value) if value is not None else ""`. */
  function TextOf(host: Host, v: Value): string {
    if v.Null? then "" else PyStr(host, v)
  }

  function ParseGpu(v: Value): NodeGpu {
    var data := if v.Obj? then v.fields else map[];
    NodeGpu(Filled(data, "required", Bool(false)), Filled(data, "wait", Bool(true)), Filled(data, "device", Null))
  }

  /** The source is read from `from` only; a stray `source` key is dropped. */
  function ParseNode(host: Host, data: Config): Node {
    var from := Get(data, "from");
    var config := Get(data, "config");
    Node(
      TextOf(host, Filled(data, "id", Str(""))),
      ParseKind(TextOf(host, Filled(data, "type", Str("")))),
      Filled(data, "title", Str("")),
      if from.Str? && from.s != "" then Some(from.s) else None,
      Filled(data, "enabled", Bool(true)),
      if config.Obj? then config.fields else map[],
      ParseGpu(Get(data, "gpu")))
  }

  function ParseVariable(data: Config): Variable {
    Variable(Filled(data, "name", Str("")), Filled(data, "value", Str("")), Filled(data, "description", Str("")))
  }

  function ItemsOf(v: Value): seq<Value> {
    if v.List? then v.items else []
  }

  /** Items that are not objects are skipped. */
  function ParseNodes(host: Host, items: seq<Value>): seq<Node> {
    if items == [] then []
    else
      var front, last := ParseNodes(host, items[..|items| - 1]), items[|items| - 1];
      if last.Obj? then front + [ParseNode(host, last.fields)] else front
  }

  function ParseVariables(items: seq<Value>): seq<Variable> {
    if items == [] then []
    else
      var front, last := ParseVariables(items[..|items| - 1]), items[|items| - 1];
      if last.Obj? then front + [ParseVariable(last.fields)] else front
  }

  function Parse(host: Host, v: Value): Graph {
    var data := if v.Obj? then v.fields else map[];
    Graph(
      Filled(data, "version", Num(1, 0)), Filled(data, "name", Str("")), Filled(data, "description", Str("")),
      ParseVariables(ItemsOf(Get(data, "variables"))),
      ParseNodes(host, ItemsOf(Get(data, "nodes"))))
  }

  /** `parse_graph`: never fails. */
  method ParseGraph(host: Host, v: Value) returns (graph: Graph)
    ensures graph == Parse(host, v)
  {
    graph := Graph(Num(1, 0), Str(""), Str(""), [], []);
    if !v.Obj? {
      return;
    }
    graph := graph.(version := Filled(v.fields, "version", graph.version),
                    name := Filled(v.fields, "name", graph.name),
                    description := Filled(v.fields, "description", graph.description));
    hide ParseNode, ParseVariable;
    var variables := ItemsOf(Get(v.fields, "variables"));
    for i := 0 to |variables|
      invariant graph.nodes == []
      invariant graph == Parse(host, v).(variables := ParseVariables(variables[..i]), nodes := [])
    {
      assert variables[..i + 1][..i] == variables[..i];
      if variables[i].Obj? {
        graph := graph.(variables := graph.variables + [ParseVariable(variables[i].fields)]);
      }
    }
    assert variables[..|variables|] == variables;
    var nodes := ItemsOf(Get(v.fields, "nodes"));
    for i := 0 to |nodes|
      invariant graph == Parse(host, v).(nodes := ParseNodes(host, nodes[..i]))
    {
      assert nodes[..i + 1][..i] == nodes[..i];
      if nodes[i].Obj? {
        graph := graph.(nodes := graph.nodes + [ParseNode(host, nodes[i].fields)]);
      }
    }
    assert nodes[..|nodes|] == nodes;
  }

  // ---------------------------------------------------------------- writing

  function PrintGpu(g: NodeGpu): Value {
    Obj(map["required" := g.required, "wait" := g.wait, "device" := g.device])
  }

  function NodeFields(n: Node): Config {
    map[
      "id" := Str(n.id),
      "type" := Str(PrintKind(n.kind)),
      "title" := n.title,
      "from" := if n.source.Some? then Str(n.source.value) else Null,
      "enabled" := n.enabled,
      "config" := Obj(n.config),
      "gpu" := PrintGpu(n.gpu)]
  }

  function VariableFields(v: Variable): Config {
    map["name" := v.name, "value" := v.value, "description" := v.description]
  }

  function GraphFields(g: Graph): Config {
    map[
      "version" := g.version,
      "name" := g.name,
      "description" := g.description,
      "variables" := List(seq(|g.variables|, i requires 0 <= i < |g.variables| => Obj(VariableFields(g.variables[i])))),
      "nodes" := List(seq(|g.nodes|, i requires 0 <= i < |g.nodes| => Obj(NodeFields(g.nodes[i]))))]
  }

  /** `graph_to_dict`. */
  function Print(g: Graph): Value {
    Obj(GraphFields(g))
  }

  // ---------------------------------------------------------------- round trips

  lemma KindNames()
    ensures |"folder"| == 6 && |"tool"| == 4 && |"train"| == 5
    ensures |"prep.tag"| == 8 && |"prep.edit_caption"| == 17
    ensures |"prep.caption"| == 12 && |"prep.quality"| == 12 && "prep.caption"[5] == 'c' && "prep.quality"[5] == 'q'
    ensures |"prep.clean"| == 10 && |"prep.index"| == 10 && "prep.clean"[5] == 'c' && "prep.index"[5] == 'i'
  {
  }

  /** The kinds a parser can produce: `Unknown` never hides a known name. */
  predicate KindIsCanonical(k: NodeKind) {
    k.Unknown? ==> ParseKind(k.name).Unknown?
  }

  /** Every type name survives, known or not; a kind survives exactly when it is canonical. */
  lemma KindsRoundTrip(name: string, k: NodeKind)
    ensures PrintKind(ParseKind(name)) == name && KindIsCanonical(ParseKind(name))
    ensures ParseKind(PrintKind(k)) == k <==> KindIsCanonical(k)
  {
    KindNames();
  }

  predicate NodeIsCanonical(n: Node) {
    KindIsCanonical(n.kind) && n.source != Some("")
  }

  ghost predicate Canonical(g: Graph) {
    forall n | n in g.nodes :: NodeIsCanonical(n)
  }

  lemma GpuRoundTrips(g: NodeGpu)
    ensures ParseGpu(PrintGpu(g)) == g
  {
  }

  lemma NodeKeys(n: Node)
    ensures var d := NodeFields(n);
            && Filled(d, "id", Str("")) == Str(n.id) && Filled(d, "type", Str("")) == Str(PrintKind(n.kind))
            && Filled(d, "title", Str("")) == n.title && Filled(d, "enabled", Bool(true)) == n.enabled
            && Get(d, "from") == (if n.source.Some? then Str(n.source.value) else Null)
            && Get(d, "config") == Obj(n.config) && Get(d, "gpu") == PrintGpu(n.gpu)
  {
  }

  lemma NodeRoundTripsIff(host: Host, n: Node)
    ensures ParseNode(host, NodeFields(n)) == n <==> NodeIsCanonical(n)
  {
    NodeKeys(n);
    KindsRoundTrip("", n.kind);
    GpuRoundTrips(n.gpu);
    hide NodeFields, ParseKind, PrintKind, ParseGpu, PrintGpu, KindIsCanonical;
  }

  lemma ParsedNodeIsCanonical(host: Host, data: Config)
    ensures NodeIsCanonical(ParseNode(host, data))
  {
    KindsRoundTrip(TextOf(host, Filled(data, "type", Str(""))), Folder);
    hide ParseKind, KindIsCanonical;
  }

  lemma VariableRoundTrips(v: Variable)
    ensures ParseVariable(VariableFields(v)) == v
  {
  }

  function PrintNodes(nodes: seq<Node>): seq<Value> {
    seq(|nodes|, i requires 0 <= i < |nodes| => Obj(NodeFields(nodes[i])))
  }

  lemma {:induction false} NodesRoundTrip(host: Host, nodes: seq<Node>)
    ensures |ParseNodes(host, PrintNodes(nodes))| == |nodes|
    ensures forall i | 0 <= i < |nodes| ::
              ParseNodes(host, PrintNodes(nodes))[i] == ParseNode(host, NodeFields(nodes[i]))
  {
    hide ParseNode, NodeFields;
    if nodes != [] {
      var front := nodes[..|nodes| - 1];
      NodesRoundTrip(host, front);
      assert PrintNodes(nodes)[..|nodes| - 1] == PrintNodes(front);
    }
  }

  function PrintVariables(variables: seq<Variable>): seq<Value> {
    seq(|variables|, i requires 0 <= i < |variables| => Obj(VariableFields(variables[i])))
  }

  lemma {:induction false} VariablesRoundTrip(variables: seq<Variable>)
    ensures ParseVariables(PrintVariables(variables)) == variables
  {
    hide ParseVariable, VariableFields;
    if variables != [] {
      var front := variables[..|variables| - 1];
      VariablesRoundTrip(front);
      VariableRoundTrips(variables[|variables| - 1]);
      assert PrintVariables(variables)[..|variables| - 1] == PrintVariables(front);
    }
  }

  lemma GraphKeys(g: Graph)
    ensures var d := GraphFields(g);
            && Filled(d, "version", Num(1, 0)) == g.version && Filled(d, "name", Str("")) == g.name
            && Filled(d, "description", Str("")) == g.description
            && Get(d, "variables") == List(PrintVariables(g.variables)) && Get(d, "nodes") == List(PrintNodes(g.nodes))
  {
  }

  /** A graph survives print and parse exactly when it is one a parser could have made. */
  lemma GraphRoundTripsIff(host: Host, g: Graph)
    ensures Parse(host, Print(g)) == g <==> Canonical(g)
  {
    GraphKeys(g);
    NodesRoundTrip(host, g.nodes);
    VariablesRoundTrip(g.variables);
    hide GraphFields, ParseNode, NodeFields, NodeIsCanonical, PrintNodes, PrintVariables, ParseNodes, ParseVariables;
    forall i | 0 <= i < |g.nodes|
      ensures ParseNode(host, NodeFields(g.nodes[i])) == g.nodes[i] <==> NodeIsCanonical(g.nodes[i])
    {
      NodeRoundTripsIff(host, g.nodes[i]);
    }
  }

  lemma {:induction false} ParsedNodesAreCanonical(host: Host, items: seq<Value>)
    ensures forall n | n in ParseNodes(host, items) :: NodeIsCanonical(n)
  {
    hide ParseNode, NodeIsCanonical;
    if items != [] {
      ParsedNodesAreCanonical(host, items[..|items| - 1]);
      if items[|items| - 1].Obj? {
        ParsedNodeIsCanonical(host, items[|items| - 1].fields);
      }
    }
  }

  /** Parsing is a normal form: printing a parsed graph and parsing it again changes nothing, for any input. */
  lemma ParsingIsANormalForm(host: Host, v: Value)
    ensures Parse(host, Print(Parse(host, v))) == Parse(host, v)
  {
    ParsedNodesAreCanonical(host, ItemsOf(Get(if v.Obj? then v.fields else map[], "nodes")));
    assert Canonical(Parse(host, v));
    GraphRoundTripsIff(host, Parse(host, v));
  }

  // ---------------------------------------------------------------- only unknown keys are dropped

  const GRAPH_KEYS := {"version", "name", "description", "variables", "nodes"}
  const NODE_KEYS := {"id", "type", "title", "from", "enabled", "config", "gpu"}
  const VARIABLE_KEYS := {"name", "value", "description"}
  const GPU_KEYS := {"required", "wait", "device"}

  function Restricted(data: Config, keys: set<string>): Config {
    map k | k in data && k in keys :: data[k]
  }

  lemma RestrictedKeeps(data: Config, keys: set<string>)
    ensures forall key | key in keys :: Get(Restricted(data, keys), key) == Get(data, key)
    ensures forall key, d | key in keys :: Filled(Restricted(data, keys), key, d) == Filled(data, key, d)
  {
  }

  function OnlyKeys(v: Value, keys: set<string>): Value {
    if v.Obj? then Obj(Restricted(v.fields, keys)) else v
  }

  /** A step with no key of its own outside the format, nor in its GPU settings. */
  function KnownNode(v: Value): Value {
    var node := OnlyKeys(v, NODE_KEYS);
    if node.Obj? && "gpu" in node.fields then Obj(node.fields["gpu" := OnlyKeys(node.fields["gpu"], GPU_KEYS)])
    else node
  }

  function KnownNodes(items: seq<Value>): seq<Value> {
    seq(|items|, i requires 0 <= i < |items| => KnownNode(items[i]))
  }

  function KnownVariables(items: seq<Value>): seq<Value> {
    seq(|items|, i requires 0 <= i < |items| => OnlyKeys(items[i], VARIABLE_KEYS))
  }

  /** A graph without the keys outside the format, at any level. */
  function KnownGraph(data: Config): Config {
    var known := Restricted(data, GRAPH_KEYS);
    var variables, nodes := Get(data, "variables"), Get(data, "nodes");
    known["variables" := List(KnownVariables(ItemsOf(variables)))]["nodes" := List(KnownNodes(ItemsOf(nodes)))]
  }

  predicate HasOnly(v: Value, keys: set<string>) {
    v.Obj? ==> v.fields.Keys <= keys
  }

  /** Nothing outside the format is left, at any level. */
  lemma OnlyTheFormatIsLeft(data: Config)
    ensures var known := KnownGraph(data);
            && known.Keys <= GRAPH_KEYS
            && (forall v | v in ItemsOf(Get(known, "variables")) :: HasOnly(v, VARIABLE_KEYS))
            && (forall v | v in ItemsOf(Get(known, "nodes")) ::
                  HasOnly(v, NODE_KEYS) && (v.Obj? ==> HasOnly(Get(v.fields, "gpu"), GPU_KEYS)))
  {
    var known := KnownGraph(data);
    assert |"nodes"| == 5 && |"variables"| == 9 && |"gpu"| == 3;
    forall v | v in ItemsOf(Get(known, "nodes"))
      ensures HasOnly(v, NODE_KEYS) && (v.Obj? ==> HasOnly(Get(v.fields, "gpu"), GPU_KEYS))
    {
      var i :| 0 <= i < |ItemsOf(Get(data, "nodes"))| && v == KnownNode(ItemsOf(Get(data, "nodes"))[i]);
    }
  }

  lemma KnownGpuParses(v: Value)
    ensures ParseGpu(OnlyKeys(v, GPU_KEYS)) == ParseGpu(v)
  {
    if v.Obj? {
      RestrictedKeeps(v.fields, GPU_KEYS);
    }
    hide Restricted, Filled;
  }

  lemma KnownNodeParses(host: Host, v: Value)
    ensures KnownNode(v).Obj? <==> v.Obj?
    ensures v.Obj? ==> ParseNode(host, KnownNode(v).fields) == ParseNode(host, v.fields)
  {
    if v.Obj? {
      RestrictedKeeps(v.fields, NODE_KEYS);
      var kept := Restricted(v.fields, NODE_KEYS);
      KnownGpuParses(Get(v.fields, "gpu"));
      assert "gpu" in NODE_KEYS;
      assert |"gpu"| == 3 && |"id"| == 2 && |"type"| == 4 && |"title"| == 5 && |"from"| == 4;
      assert |"enabled"| == 7 && |"config"| == 6;
      assert "gpu" in kept <==> "gpu" in v.fields;
      if "gpu" in kept {
        var node := KnownNode(v).fields;
        assert Get(node, "gpu") == OnlyKeys(Get(v.fields, "gpu"), GPU_KEYS);
        assert forall key | key in NODE_KEYS && key != "gpu" :: key in node <==> key in v.fields;
        assert forall key | key in NODE_KEYS && key != "gpu" && key in node :: node[key] == v.fields[key];
      }
    }
    hide Restricted, ParseKind, ParseGpu, OnlyKeys;
  }

  lemma KnownVariableParses(v: Value)
    requires v.Obj?
    ensures ParseVariable(OnlyKeys(v, VARIABLE_KEYS).fields) == ParseVariable(v.fields)
  {
    RestrictedKeeps(v.fields, VARIABLE_KEYS);
    hide Restricted, Filled;
  }

  lemma {:induction false} KnownNodesParse(host: Host, items: seq<Value>)
    ensures ParseNodes(host, KnownNodes(items)) == ParseNodes(host, items)
  {
    hide KnownNode, ParseNode;
    if items != [] {
      KnownNodesParse(host, items[..|items| - 1]);
      KnownNodeParses(host, items[|items| - 1]);
      assert KnownNodes(items)[..|items| - 1] == KnownNodes(items[..|items| - 1]);
    }
  }

  lemma {:induction false} KnownVariablesParse(items: seq<Value>)
    ensures ParseVariables(KnownVariables(items)) == ParseVariables(items)
  {
    hide ParseVariable, Restricted;
    if items != [] {
      KnownVariablesParse(items[..|items| - 1]);
      if items[|items| - 1].Obj? {
        KnownVariableParses(items[|items| - 1]);
      }
      assert KnownVariables(items)[..|items| - 1] == KnownVariables(items[..|items| - 1]);
    }
  }

  lemma KnownGraphKeys(data: Config)
    ensures var known := KnownGraph(data);
            && (forall d :: Filled(known, "version", d) == Filled(data, "version", d))
            && (forall d :: Filled(known, "name", d) == Filled(data, "name", d))
            && (forall d :: Filled(known, "description", d) == Filled(data, "description", d))
            && ItemsOf(Get(known, "variables")) == KnownVariables(ItemsOf(Get(data, "variables")))
            && ItemsOf(Get(known, "nodes")) == KnownNodes(ItemsOf(Get(data, "nodes")))
  {
    assert |"version"| == 7 && |"name"| == 4 && |"description"| == 11 && |"variables"| == 9 && |"nodes"| == 5;
    hide KnownNodes, KnownVariables;
  }

  /** Keys outside the format do not matter, at the top, in variables, in steps and in their GPU settings. */
  lemma UnknownKeysAreDropped(host: Host, data: Config)
    ensures Parse(host, Obj(KnownGraph(data))) == Parse(host, Obj(data))
    ensures KnownGraph(data).Keys <= GRAPH_KEYS
  {
    OnlyTheFormatIsLeft(data);
    KnownGraphKeys(data);
    KnownNodesParse(host, ItemsOf(Get(data, "nodes")));
    KnownVariablesParse(ItemsOf(Get(data, "variables")));
    hide KnownGraph, Get, Filled, ParseNodes, ParseVariables, KnownNodes, KnownVariables;
  }

  /** The format's keys are all there, with what was given under the listed ones. */
  ghost predicate Keeps(out: Config, format: set<string>, data: Config, given: set<string>) {
    out.Keys == format && forall key | key in given && key in data :: key in out && out[key] == data[key]
  }

  lemma GpuKeysAreKept(data: Config)
    ensures PrintGpu(ParseGpu(Obj(data))).Obj? && Keeps(PrintGpu(ParseGpu(Obj(data))).fields, GPU_KEYS, data, GPU_KEYS)
  {
    assert |"required"| == 8 && |"wait"| == 4 && |"device"| == 6;
  }

  lemma VariableKeysAreKept(data: Config)
    ensures Keeps(VariableFields(ParseVariable(data)), VARIABLE_KEYS, data, VARIABLE_KEYS)
  {
    assert |"name"| == 4 && |"value"| == 5 && |"description"| == 11;
  }

  lemma NodeKeysAreKept(host: Host, data: Config)
    ensures var out := NodeFields(ParseNode(host, data));
            && Keeps(out, NODE_KEYS, data, {"title", "enabled"})
            && ("id" in data && data["id"].Str? ==> out["id"] == data["id"])
            && ("type" in data && data["type"].Str? ==> out["type"] == data["type"])
            && ("config" in data && data["config"].Obj? ==> out["config"] == data["config"])
            && ("from" in data && data["from"].Str? && data["from"].s != "" ==> out["from"] == data["from"])
            && ("gpu" in data && data["gpu"].Obj? ==>
                  out["gpu"].Obj? && Keeps(out["gpu"].fields, GPU_KEYS, data["gpu"].fields, GPU_KEYS))
  {
    NodeDefaults(host, data);
    NodePlainFields(host, data);
    if "gpu" in data && data["gpu"].Obj? {
      GpuKeysAreKept(data["gpu"].fields);
    }
    hide NodeFields, ParseNode, ParseGpu, PrintGpu;
  }

  lemma NodePlainFields(host: Host, data: Config)
    ensures var out := NodeFields(ParseNode(host, data));
            && out.Keys == NODE_KEYS
            && ("title" in data ==> out["title"] == data["title"])
            && ("enabled" in data ==> out["enabled"] == data["enabled"])
            && ("gpu" in data ==> out["gpu"] == PrintGpu(ParseGpu(data["gpu"])))
  {
    var n := ParseNode(host, data);
    NodeKeys(n);
    hide ParseKind, PrintKind, ParseGpu, PrintGpu;
    assert NodeFields(n).Keys == NODE_KEYS;
  }

  /** The items that are objects; the others are skipped. */
  function Objects(items: seq<Value>): (objects: seq<Value>)
    ensures forall i | 0 <= i < |objects| :: objects[i].Obj?
    ensures (forall i | 0 <= i < |items| :: items[i].Obj?) ==> objects == items
  {
    if items == [] then []
    else
      var front, last := Objects(items[..|items| - 1]), items[|items| - 1];
      assert items == items[..|items| - 1] + [last];
      if last.Obj? then front + [last] else front
  }

  lemma {:induction false} OneNodePerObject(host: Host, items: seq<Value>)
    ensures |ParseNodes(host, items)| == |Objects(items)|
    ensures forall i | 0 <= i < |Objects(items)| ::
              ParseNodes(host, items)[i] == ParseNode(host, Objects(items)[i].fields)
  {
    hide ParseNode;
    if items != [] {
      OneNodePerObject(host, items[..|items| - 1]);
    }
  }

  lemma {:induction false} OneVariablePerObject(items: seq<Value>)
    ensures |ParseVariables(items)| == |Objects(items)|
    ensures forall i | 0 <= i < |Objects(items)| :: ParseVariables(items)[i] == ParseVariable(Objects(items)[i].fields)
  {
    hide ParseVariable;
    if items != [] {
      OneVariablePerObject(items[..|items| - 1]);
    }
  }

  /**
   * No known key is lost, at any level: what a graph, its variables and its steps had under the
   * format's keys is what is printed, object by object.
   */
  lemma KnownKeysAreKept(host: Host, data: Config)
    ensures var g, nodes, variables :=
              Parse(host, Obj(data)), Objects(ItemsOf(Get(data, "nodes"))), Objects(ItemsOf(Get(data, "variables")));
            && Keeps(GraphFields(g), GRAPH_KEYS, data, {"version", "name", "description"})
            && |g.variables| == |variables| && |g.nodes| == |nodes|
            && (forall i | 0 <= i < |variables| ::
                  Keeps(VariableFields(g.variables[i]), VARIABLE_KEYS, variables[i].fields, VARIABLE_KEYS))
            && (forall i | 0 <= i < |nodes| ::
                  g.nodes[i] == ParseNode(host, nodes[i].fields)
                  && Keeps(NodeFields(g.nodes[i]), NODE_KEYS, nodes[i].fields, {"title", "enabled"}))
  {
    OneNodePerObject(host, ItemsOf(Get(data, "nodes")));
    OneVariablePerObject(ItemsOf(Get(data, "variables")));
    var nodes, variables := Objects(ItemsOf(Get(data, "nodes"))), Objects(ItemsOf(Get(data, "variables")));
    forall i | 0 <= i < |variables|
      ensures Keeps(
                VariableFields(ParseVariable(variables[i].fields)), VARIABLE_KEYS, variables[i].fields, VARIABLE_KEYS)
    {
      VariableKeysAreKept(variables[i].fields);
    }
    forall i | 0 <= i < |nodes|
      ensures Keeps(NodeFields(ParseNode(host, nodes[i].fields)), NODE_KEYS, nodes[i].fields, {"title", "enabled"})
    {
      NodeKeysAreKept(host, nodes[i].fields);
    }
    GraphScalarsAreKept(host, data);
    hide ParseNodes, ParseVariables, ParseNode, ParseVariable, NodeFields, VariableFields, GraphFields, Keeps, Get,
      Filled, Objects;
  }

  /** Variables miss nothing but empty texts. */
  lemma VariableDefaults(data: Config)
    ensures var out := VariableFields(ParseVariable(data));
            forall key | key in VARIABLE_KEYS && key !in data :: key in out && out[key] == Str("")
  {
    assert |"name"| == 4 && |"value"| == 5 && |"description"| == 11;
  }

  /** What a step is printed with for each key: a default when it is absent or unusable. */
  lemma NodeDefaults(host: Host, data: Config)
    ensures var out := NodeFields(ParseNode(host, data));
            && out.Keys == NODE_KEYS
            && out["id"] == Str(if Get(data, "id") == Null then "" else PyStr(host, Get(data, "id")))
            && out["type"] == Str(if Get(data, "type") == Null then "" else PyStr(host, Get(data, "type")))
            && ("title" !in data ==> out["title"] == Str(""))
            && out["from"] == (if Get(data, "from").Str? then (if Get(data, "from").s == "" then Null else data["from"])
                               else Null)
            && ("enabled" !in data ==> out["enabled"] == Bool(true))
            && out["config"] == (if Get(data, "config").Obj? then data["config"] else Obj(map[]))
  {
    var n := ParseNode(host, data);
    NodeKeys(n);
    KindsRoundTrip(TextOf(host, Filled(data, "type", Str(""))), Folder);
    hide ParseKind, PrintKind, ParseGpu, PrintGpu;
    assert NodeFields(n).Keys == NODE_KEYS;
  }

  /** A step's GPU settings: not required, waiting for a device, any device. */
  lemma GpuDefaults(data: Config)
    ensures PrintGpu(ParseGpu(Obj(data))).Obj?
    ensures var out := PrintGpu(ParseGpu(Obj(data))).fields;
            && out.Keys == GPU_KEYS
            && ("required" !in data ==> out["required"] == Bool(false))
            && ("wait" !in data ==> out["wait"] == Bool(true))
            && ("device" !in data ==> out["device"] == Null)
  {
    assert |"required"| == 8 && |"wait"| == 4 && |"device"| == 6;
  }

  /** A graph is of version 1, has no name and no steps. */
  lemma GraphDefaults(host: Host, data: Config)
    ensures var out := GraphFields(Parse(host, Obj(data)));
            && out.Keys == GRAPH_KEYS
            && ("version" !in data ==> out["version"] == Num(1, 0))
            && ("name" !in data ==> out["name"] == Str(""))
            && ("description" !in data ==> out["description"] == Str(""))
            && ("variables" !in data ==> out["variables"] == List([]))
            && ("nodes" !in data ==> out["nodes"] == List([]))
  {
    var g := Parse(host, Obj(data));
    GraphKeys(g);
    assert GraphFields(g).Keys == GRAPH_KEYS;
  }

  lemma GraphScalarsAreKept(host: Host, data: Config)
    ensures Keeps(GraphFields(Parse(host, Obj(data))), GRAPH_KEYS, data, {"version", "name", "description"})
  {
    GraphKeys(Parse(host, Obj(data)));
    hide ParseNodes, ParseVariables, NodeFields, VariableFields;
    assert GraphFields(Parse(host, Obj(data))).Keys == GRAPH_KEYS;
  }
}
