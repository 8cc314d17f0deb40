/** Nested configurations as flat forms with dotted keys, and back. */
module ConfigForm {
  import opened Values
  import Text

  type Form = map<string, Value>

  /** `json.loads`; `None` where it raises. */
  type JsonReader = string -> Option<Value>

  const HAS_ADAPTER := "_has_adapter"
  const ADAPTER := "adapter"

  /** Paths whose table is one form value. */
  const LEAF_DICTS: set<string> := {"micro_batch_size_per_gpu", "image_micro_batch_size_per_gpu"}

  // ---------------------------------------------------------------- dotted keys

  function Extend(prefix: string, key: string): string {
    if prefix == "" then key else prefix + "." + key
  }

  function Dotted(prefix: string, path: seq<string>): string
    decreases |path|
  {
    if path == [] then prefix else Dotted(Extend(prefix, path[0]), path[1..])
  }

  function FirstDot(s: string): (i: nat)
    ensures i <= |s| && '.' !in s[..i] && (i < |s| ==> s[i] == '.')
  {
    if s == "" || s[0] == '.' then 0
    else
      var rest := FirstDot(s[1..]);
      assert s[..rest + 1] == [s[0]] + s[1..][..rest];
      rest + 1
  }

  /** `path.split(".")`. */
  function Split(s: string): (parts: seq<string>)
    ensures parts != []
    decreases |s|
  {
    var i := FirstDot(s);
    if i == |s| then [s] else [s[..i]] + Split(s[i + 1..])
  }

  predicate KeyOk(key: string) {
    key != "" && '.' !in key
  }

  predicate PathOk(path: seq<string>) {
    path != [] && forall i | 0 <= i < |path| :: KeyOk(path[i])
  }

  function Join(path: seq<string>): string
    requires path != []
  {
    if |path| == 1 then path[0] else path[0] + "." + Join(path[1..])
  }

  lemma {:induction false} FirstDotIs(s: string, n: nat)
    requires n <= |s| && (forall j | 0 <= j < n :: s[j] != '.') && (n < |s| ==> s[n] == '.')
    ensures FirstDot(s) == n
  {
  }

  lemma FirstDotOfKey(key: string, rest: string)
    requires '.' !in key
    ensures FirstDot(key + "." + rest) == |key| && FirstDot(key) == |key|
  {
    var s := key + "." + rest;
    assert forall j | 0 <= j < |key| :: s[j] == key[j] && key[j] in key;
    FirstDotIs(s, |key|);
    FirstDotIs(key, |key|);
  }

  lemma SplitHead(key: string, rest: string)
    requires '.' !in key
    ensures Split(key) == [key] && Split(key + "." + rest) == [key] + Split(rest)
  {
    FirstDotOfKey(key, rest);
    var s := key + "." + rest;
    assert s[..|key|] == key && s[|key| + 1..] == rest;
  }

  lemma {:induction false} SplitUndoesJoin(path: seq<string>)
    requires PathOk(path)
    ensures Split(Join(path)) == path
    ensures '.' in Join(path) <==> |path| > 1
  {
    hide Split;
    assert KeyOk(path[0]);
    if |path| > 1 {
      assert PathOk(path[1..]);
      SplitUndoesJoin(path[1..]);
      SplitHead(path[0], Join(path[1..]));
      assert Join(path)[|path[0]|] == '.';
    } else {
      SplitHead(path[0], "");
    }
  }

  lemma {:induction false} DottedJoins(prefix: string, path: seq<string>)
    requires PathOk(path)
    ensures Dotted(prefix, path) == if prefix == "" then Join(path) else prefix + "." + Join(path)
    decreases |path|
  {
    assert KeyOk(path[0]);
    if |path| > 1 {
      assert PathOk(path[1..]);
      DottedJoins(Extend(prefix, path[0]), path[1..]);
      assert prefix + "." + path[0] + "." + Join(path[1..]) == prefix + "." + (path[0] + "." + Join(path[1..]));
    }
  }

  // ---------------------------------------------------------------- leaves of a configuration

  predicate IsTable(v: Value, path: string) {
    v.Obj? && path !in LEAF_DICTS
  }

  /** The value the form holds for the path, if the path leads to one. */
  function LeafAt(t: Value, path: seq<string>, prefix: string): Option<Value>
    requires t.Obj?
    decreases |path|
  {
    if path == [] || path[0] !in t.fields then None
    else
      var v, here := t.fields[path[0]], Extend(prefix, path[0]);
      if IsTable(v, here) then LeafAt(v, path[1..], here)
      else if |path| == 1 then Some(v)
      else None
  }

  /** At the top of a configuration the only tables that are one form value are the two batch sizes. */
  lemma TheTwoBatchTablesAreLeaves(t: Value, key: string)
    requires t.Obj? && key in t.fields
    ensures LeafAt(t, [key], "") ==
            if t.fields[key].Obj? && key !in {"micro_batch_size_per_gpu", "image_micro_batch_size_per_gpu"}
            then None else Some(t.fields[key])
  {
    assert [key][1..] == [];
  }

  /** Every form entry is a leaf, and every leaf has its entry. */
  ghost predicate HasLeaves(form: Form, t: Value, prefix: string)
    requires t.Obj?
  {
    && (forall key | key in form :: IsLeafEntry(t, prefix, key, form[key]))
    && (forall path | LeafAt(t, path, prefix).Some? :: Dotted(prefix, path) in form)
  }

  ghost predicate IsLeafEntry(t: Value, prefix: string, key: string, v: Value)
    requires t.Obj?
  {
    exists path :: LeafAt(t, path, prefix) == Some(v) && Dotted(prefix, path) == key
  }

  lemma LeafOfKey(t: Value, prefix: string, k: string)
    requires t.Obj? && k in t.fields
    ensures IsTable(t.fields[k], Extend(prefix, k)) ==>
              forall path :: LeafAt(t, [k] + path, prefix) == LeafAt(t.fields[k], path, Extend(prefix, k))
                          && Dotted(prefix, [k] + path) == Dotted(Extend(prefix, k), path)
    ensures !IsTable(t.fields[k], Extend(prefix, k)) ==>
              LeafAt(t, [k], prefix) == Some(t.fields[k]) && Dotted(prefix, [k]) == Extend(prefix, k)
  {
  }

  /** `flatten_config`, whatever the keys look like and in whatever order they come. */
  method FlattenConfig(t: Value, prefix: string) returns (form: Form)
    requires t.Obj?
    ensures HasLeaves(form, t, prefix)
    decreases t
  {
    form := map[];
    var left := t.fields.Keys;
    while left != {}
      invariant left <= t.fields.Keys
      invariant forall key | key in form :: IsLeafEntry(t, prefix, key, form[key])
      invariant forall path | LeafAt(t, path, prefix).Some? && path[0] !in left :: Dotted(prefix, path) in form
      decreases left
    {
      hide LeafAt, Dotted;
      var k :| k in left;
      LeafOfKey(t, prefix, k);
      LeavesUnder(t, prefix, k);
      ghost var before := left;
      left := left - {k};
      var here := Extend(prefix, k);
      if IsTable(t.fields[k], here) {
        var inner := FlattenConfig(t.fields[k], here);
        forall key | key in inner ensures IsLeafEntry(t, prefix, key, inner[key]) {
          var path :| LeafAt(t.fields[k], path, here) == Some(inner[key]) && Dotted(here, path) == key;
          assert LeafAt(t, [k] + path, prefix) == Some(inner[key]) && Dotted(prefix, [k] + path) == key;
        }
        form := form + inner;
      } else {
        assert IsLeafEntry(t, prefix, here, t.fields[k]);
        form := form[here := t.fields[k]];
      }
    }
    NoEmptyLeafPath(t, prefix);
  }

  lemma NoEmptyLeafPath(t: Value, prefix: string)
    requires t.Obj?
    ensures forall path | LeafAt(t, path, prefix).Some? :: path != [] && path[0] in t.fields
  {
  }

  /** The leaves whose path starts with `k`. */
  lemma LeavesUnder(t: Value, prefix: string, k: string)
    requires t.Obj? && k in t.fields
    ensures forall path | LeafAt(t, path, prefix).Some? && path[0] == k ::
              if IsTable(t.fields[k], Extend(prefix, k))
              then path == [k] + path[1..] && LeafAt(t.fields[k], path[1..], Extend(prefix, k)).Some?
              else path == [k]
    ensures forall path | LeafAt(t, path, prefix).Some? :: path != []
  {
  }

  // ---------------------------------------------------------------- back to a configuration

  predicate Blank(v: Value) {
    v.Null? || (v.Str? && Text.Trim(v.s) == "")
  }

  predicate OpensJson(s: string) {
    s != "" && (s[0] == '[' || s[0] == '{')
  }

  /** `_parse_json_value`. */
  function Parsed(json: JsonReader, v: Value): Value {
    if v.Str? && OpensJson(Text.Trim(v.s)) && json(Text.Trim(v.s)).Some? then json(Text.Trim(v.s)).value else v
  }

  predicate ReadAsJson(json: JsonReader, v: Value) {
    v.Str? && OpensJson(Text.Trim(v.s)) && json(Text.Trim(v.s)).Some?
  }

  /** A leaf is dropped when it is null or text of nothing but space. */
  lemma BlankMeans(v: Value)
    ensures Blank(v) <==> v == Null || (v.Str? && Text.AllSpace(v.s))
  {
    if v.Str? {
      var before, after := Text.TrimMeans(v.s);
    }
  }

  /** Text is read as JSON when its first character that is no space is a bracket or a brace. */
  lemma FirstCharacterDecides(json: JsonReader, v: Value)
    ensures ReadAsJson(json, v) <==>
              && v.Str? && json(Text.Trim(v.s)).Some?
              && exists i :: 0 <= i < |v.s| && Text.AllSpace(v.s[..i]) && v.s[i] in {'[', '{'}
    ensures Parsed(json, v) == if ReadAsJson(json, v) then json(Text.Trim(v.s)).value else v
  {
    if v.Str? {
      var before, after := Text.TrimMeans(v.s);
      FirstAfterSpace(v.s, before, Text.Trim(v.s), after);
    }
  }

  lemma FirstAfterSpace(s: string, before: string, text: string, after: string)
    requires s == before + text + after && Text.AllSpace(before) && Text.AllSpace(after)
    requires text != "" ==> text[0] !in {' ', '\t', '\n', '\r'}
    ensures text != "" && text[0] in {'[', '{'} <==>
            exists i :: 0 <= i < |s| && Text.AllSpace(s[..i]) && s[i] in {'[', '{'}
  {
    assert s[..|before|] == before && forall j | 0 <= j < |before| :: s[j] == before[j];
    if text != "" {
      assert s[|before|] == text[0];
      forall i | 0 <= i < |s| && Text.AllSpace(s[..i]) && s[i] in {'[', '{'} ensures i == |before| {
        assert forall j | 0 <= j < i :: s[j] == s[..i][j];
      }
    } else {
      forall i | 0 <= i < |s| ensures s[i] in {' ', '\t', '\n', '\r'} {
        assert s[i] == if i < |before| then before[i] else after[i - |before|];
      }
    }
  }

  /** Text that opens a list or a table can only be read as one. */
  ghost predicate Reads(json: JsonReader) {
    forall s | OpensJson(s) && json(s).Some? :: json(s).value.List? || json(s).value.Obj?
  }

  /** `_set_nested` with a value to keep. */
  function SetNested(config: Config, path: seq<string>, v: Value): Config
    requires path != []
    decreases |path|
  {
    if |path| == 1 then config[path[0] := v]
    else
      var inner := if path[0] in config && config[path[0]].Obj? then config[path[0]].fields else map[];
      config[path[0] := Obj(SetNested(inner, path[1..], v))]
  }

  predicate Skipped(key: string, v: Value) {
    key == HAS_ADAPTER || Blank(v)
  }

  /** What of a table comes back: blank leaves and tables left empty are gone, JSON text is read. */
  function Kept(json: JsonReader, t: Value, prefix: string): Value
    requires t.Obj?
    ensures Kept(json, t, prefix).Obj?
    decreases t
  {
    Obj(map k | k in t.fields
              && (if IsTable(t.fields[k], Extend(prefix, k))
                  then Kept(json, t.fields[k], Extend(prefix, k)) != Obj(map[])
                  else !Blank(t.fields[k])) ::
          if IsTable(t.fields[k], Extend(prefix, k)) then Kept(json, t.fields[k], Extend(prefix, k))
          else Parsed(json, t.fields[k]))
  }

  /** Every key of every table is nonempty and has no dot. */
  predicate KeysOk(t: Value, prefix: string)
    requires t.Obj?
    decreases t
  {
    forall k | k in t.fields ::
      KeyOk(k) && (IsTable(t.fields[k], Extend(prefix, k)) ==> KeysOk(t.fields[k], Extend(prefix, k)))
  }

  lemma {:induction false} LeafPathsAreOk(t: Value, prefix: string, path: seq<string>)
    requires t.Obj? && KeysOk(t, prefix) && LeafAt(t, path, prefix).Some?
    ensures PathOk(path)
    decreases |path|
  {
    var here := Extend(prefix, path[0]);
    if IsTable(t.fields[path[0]], here) {
      LeafPathsAreOk(t.fields[path[0]], here, path[1..]);
      assert forall i | 1 <= i < |path| :: path[i] == path[1..][i - 1];
    }
  }

  /** The part of the result that is built so far agrees with the configuration the form came from. */
  ghost predicate PartOf(json: JsonReader, built: Config, t: Value, prefix: string)
    requires t.Obj?
    decreases t
  {
    forall k | k in built ::
      && k in t.fields
      && if IsTable(t.fields[k], Extend(prefix, k))
         then built[k].Obj? && built[k].fields != map[] && PartOf(json, built[k].fields, t.fields[k], Extend(prefix, k))
         else !Blank(t.fields[k]) && built[k] == Parsed(json, t.fields[k])
  }

  predicate Present(built: Config, path: seq<string>)
    requires path != []
    decreases |path|
  {
    path[0] in built && (|path| == 1 || (built[path[0]].Obj? && Present(built[path[0]].fields, path[1..])))
  }

  /** Setting one leaf adds that leaf and no other. */
  lemma {:induction false} SetLeaf(
    json: JsonReader, built: Config, t: Value, prefix: string, path: seq<string>, v: Value
  )
    requires t.Obj? && PartOf(json, built, t, prefix) && LeafAt(t, path, prefix) == Some(v) && !Blank(v)
    ensures var after := SetNested(built, path, Parsed(json, v));
            && after != map[] && PartOf(json, after, t, prefix)
            && forall q | LeafAt(t, q, prefix).Some? :: Present(after, q) <==> q == path || Present(built, q)
    decreases |path|
  {
    hide Parsed, Blank, Extend;
    var k, here := path[0], Extend(prefix, path[0]);
    var after := SetNested(built, path, Parsed(json, v));
    LeavesUnder(t, prefix, k);
    assert k in after;
    if IsTable(t.fields[k], here) {
      assert path == [k] + path[1..];
      assert |path| > 1 by { NoEmptyLeafPath(t.fields[k], here); }
      var inner := if k in built && built[k].Obj? then built[k].fields else map[];
      SetLeaf(json, inner, t.fields[k], here, path[1..], v);
      hide LeafAt;
      forall q | LeafAt(t, q, prefix).Some? ensures Present(after, q) <==> q == path || Present(built, q) {
        if q[0] == k {
          assert LeafAt(t.fields[k], q[1..], here).Some?;
          NoEmptyLeafPath(t.fields[k], here);
          assert q == path <==> q[1..] == path[1..];
        }
      }
    }
  }

  /** A form that holds the leaves of `t`, and the flag. */
  ghost predicate FormOf(form: Form, t: Value)
    requires t.Obj?
  {
    && KeysOk(t, "") && HAS_ADAPTER !in t.fields
    && HasLeaves(form - {HAS_ADAPTER}, t, "")
  }

  /** What is built when the keys in `left` are still to come. */
  ghost predicate BuiltSoFar(json: JsonReader, built: Config, left: set<string>, t: Value)
    requires t.Obj?
  {
    && PartOf(json, built, t, "")
    && forall path | LeafAt(t, path, "").Some? ::
         path != [] && (Present(built, path) <==> Dotted("", path) !in left && !Blank(LeafAt(t, path, "").value))
  }

  lemma DottedIsInjective(p: seq<string>, q: seq<string>)
    requires PathOk(p) && PathOk(q)
    ensures Dotted("", p) == Dotted("", q) <==> p == q
  {
    DottedJoins("", p);
    DottedJoins("", q);
    SplitUndoesJoin(p);
    SplitUndoesJoin(q);
  }

  /** The leaf behind a form key. */
  lemma LeafOfEntry(form: Form, t: Value, key: string) returns (path: seq<string>)
    requires t.Obj? && FormOf(form, t) && key in form && key != HAS_ADAPTER
    ensures LeafAt(t, path, "") == Some(form[key]) && PathOk(path) && Dotted("", path) == key
    ensures forall q | LeafAt(t, q, "").Some? :: Dotted("", q) == key <==> q == path
    ensures Split(key) == path && ('.' in key <==> |path| > 1) && (|path| == 1 ==> path == [key])
  {
    hide LeafAt, Dotted, Split;
    var trimmed := form - {HAS_ADAPTER};
    assert IsLeafEntry(t, "", key, trimmed[key]);
    path :| LeafAt(t, path, "") == Some(trimmed[key]) && Dotted("", path) == key;
    LeafPathsAreOk(t, "", path);
    DottedJoins("", path);
    SplitUndoesJoin(path);
    forall q | LeafAt(t, q, "").Some? ensures Dotted("", q) == key <==> q == path {
      LeafPathsAreOk(t, "", q);
      DottedIsInjective(q, path);
    }
  }

  lemma FlagIsNoLeaf(t: Value, path: seq<string>)
    requires t.Obj? && KeysOk(t, "") && HAS_ADAPTER !in t.fields && LeafAt(t, path, "").Some?
    ensures Dotted("", path) != HAS_ADAPTER
  {
    LeafPathsAreOk(t, "", path);
    DottedJoins("", path);
    SplitUndoesJoin(path);
    assert '.' !in HAS_ADAPTER;
    NoEmptyLeafPath(t, "");
  }

  lemma KeyIsDone(json: JsonReader, built: Config, form: Form, left: set<string>, t: Value, key: string)
    requires t.Obj? && FormOf(form, t) && key in form && key in left && BuiltSoFar(json, built, left, t)
    ensures Skipped(key, form[key]) ==> BuiltSoFar(json, built, left - {key}, t)
    ensures !Skipped(key, form[key]) ==>
              BuiltSoFar(
                json, SetNested(built, if '.' in key then Split(key) else [key], Parsed(json, form[key])),
                left - {key}, t)
  {
    hide LeafAt, Dotted, Split, Present, PartOf, SetNested, HasLeaves, Blank, Parsed;
    if key == HAS_ADAPTER {
      forall path | LeafAt(t, path, "").Some? ensures Dotted("", path) != key {
        FlagIsNoLeaf(t, path);
      }
    } else {
      var p := LeafOfEntry(form, t, key);
      if !Blank(form[key]) {
        SetLeaf(json, built, t, "", p, form[key]);
      }
    }
  }

  lemma NothingBuilt(json: JsonReader, form: Form, t: Value)
    requires t.Obj? && FormOf(form, t)
    ensures BuiltSoFar(json, map[], form.Keys, t)
  {
  }

  /** A table of which something is kept has a leaf that is kept. */
  lemma {:induction false} KeptLeaf(json: JsonReader, t: Value, prefix: string) returns (path: seq<string>)
    requires t.Obj? && Kept(json, t, prefix) != Obj(map[])
    ensures LeafAt(t, path, prefix).Some? && path != [] && !Blank(LeafAt(t, path, prefix).value)
    decreases t
  {
    hide Blank, Parsed;
    var fields := Kept(json, t, prefix).fields;
    assert fields != map[];
    var k :| k in fields;
    var here := Extend(prefix, k);
    LeafOfKey(t, prefix, k);
    if IsTable(t.fields[k], here) {
      var rest := KeptLeaf(json, t.fields[k], here);
      path := [k] + rest;
    } else {
      path := [k];
    }
  }

  /** Everything kept is built: the result is what is kept of the configuration. */
  lemma {:induction false} CompleteIsKept(json: JsonReader, built: Config, t: Value, prefix: string)
    requires t.Obj? && PartOf(json, built, t, prefix)
    requires forall path | LeafAt(t, path, prefix).Some? && path != [] ::
               Present(built, path) <==> !Blank(LeafAt(t, path, prefix).value)
    ensures Obj(built) == Kept(json, t, prefix)
    decreases t
  {
    hide Blank, Parsed;
    var kept := Kept(json, t, prefix).fields;
    forall k | k in t.fields
      ensures k in built <==> k in kept
      ensures k in built ==> built[k] == kept[k]
    {
      var here := Extend(prefix, k);
      LeafOfKey(t, prefix, k);
      if IsTable(t.fields[k], here) {
        if k in built {
          forall path | LeafAt(t.fields[k], path, here).Some? && path != []
            ensures Present(built[k].fields, path) <==> !Blank(LeafAt(t.fields[k], path, here).value)
          {
            assert LeafAt(t, [k] + path, prefix) == LeafAt(t.fields[k], path, here);
            assert ([k] + path)[1..] == path;
          }
          CompleteIsKept(json, built[k].fields, t.fields[k], here);
        } else if Kept(json, t.fields[k], here) != Obj(map[]) {
          var rest := KeptLeaf(json, t.fields[k], here);
        }
      } else {
        assert Present(built, [k]) <==> k in built;
      }
    }
    assert built == kept;
  }

  /** `unflatten_form`, in whatever order the keys come: of a form made from a configuration it makes what is kept. */
  method UnflattenForm(json: JsonReader, form: Form) returns (config: Config)
    ensures forall t: Value | t.Obj? && FormOf(form, t) ::
              config == if Truthy(Get(form, HAS_ADAPTER)) then Kept(json, t, "").fields
                        else Kept(json, t, "").fields - {ADAPTER}
  {
    hide FormOf, BuiltSoFar, Kept, SetNested, PartOf;
    config := map[];
    var left := form.Keys;
    forall t: Value | t.Obj? && FormOf(form, t) ensures BuiltSoFar(json, config, left, t) {
      NothingBuilt(json, form, t);
    }
    while left != {}
      invariant left <= form.Keys
      invariant forall t: Value | t.Obj? && FormOf(form, t) :: BuiltSoFar(json, config, left, t)
      decreases left
    {
      var key :| key in left;
      forall t: Value | t.Obj? && FormOf(form, t)
        ensures Skipped(key, form[key]) ==> BuiltSoFar(json, config, left - {key}, t)
        ensures !Skipped(key, form[key]) ==>
                  BuiltSoFar(json, SetNested(config, if '.' in key then Split(key) else [key], Parsed(json, form[key])),
                             left - {key}, t)
      {
        KeyIsDone(json, config, form, left, t, key);
      }
      left := left - {key};
      if !Skipped(key, form[key]) {
        config := SetNested(config, if '.' in key then Split(key) else [key], Parsed(json, form[key]));
      }
    }
    forall t: Value | t.Obj? && FormOf(form, t) ensures Obj(config) == Kept(json, t, "") {
      AllBuilt(json, config, t);
    }
    if !Truthy(Get(form, HAS_ADAPTER)) {
      config := config - {ADAPTER};
    }
  }

  lemma AllBuilt(json: JsonReader, config: Config, t: Value)
    requires t.Obj? && BuiltSoFar(json, config, {}, t)
    ensures Obj(config) == Kept(json, t, "")
  {
    CompleteIsKept(json, config, t, "");
  }

  // ---------------------------------------------------------------- the round trip

  /** Nothing in the table is lost or read as JSON. */
  predicate Unharmed(json: JsonReader, t: Value, prefix: string)
    requires t.Obj?
    decreases t
  {
    forall k | k in t.fields ::
      if IsTable(t.fields[k], Extend(prefix, k))
      then t.fields[k] != Obj(map[]) && Unharmed(json, t.fields[k], Extend(prefix, k))
      else !Blank(t.fields[k]) && !ReadAsJson(json, t.fields[k])
  }

  lemma {:induction false} KeptIsTheSameIff(json: JsonReader, t: Value, prefix: string)
    requires t.Obj? && Reads(json)
    ensures Kept(json, t, prefix) == t <==> Unharmed(json, t, prefix)
    decreases t
  {
    hide Blank;
    var kept := Kept(json, t, prefix).fields;
    forall k | k in t.fields
      ensures k in kept && kept[k] == t.fields[k]
         <==> if IsTable(t.fields[k], Extend(prefix, k))
              then t.fields[k] != Obj(map[]) && Unharmed(json, t.fields[k], Extend(prefix, k))
              else !Blank(t.fields[k]) && !ReadAsJson(json, t.fields[k])
    {
      if IsTable(t.fields[k], Extend(prefix, k)) {
        KeptIsTheSameIff(json, t.fields[k], Extend(prefix, k));
      }
    }
    assert kept == t.fields <==> forall k | k in t.fields :: k in kept && kept[k] == t.fields[k];
  }

  /** The adapter table is only kept when the form says there is one. */
  predicate AdapterKept(t: Value)
    requires t.Obj?
  {
    ADAPTER in t.fields ==> Truthy(t.fields[ADAPTER])
  }

  /**
   * A configuration with plain keys, its form, and what comes back: all of it that the form can hold,
   * without the adapter when there is none. That is the configuration exactly when it has no blank
   * leaf, no empty table, no text that reads as JSON, and no adapter entry that is false.
   */
  method ThroughTheForm(json: JsonReader, t: Value) returns (form: Form, back: Config)
    requires t.Obj? && Reads(json)
    ensures var adapter := ADAPTER in t.fields && Truthy(t.fields[ADAPTER]);
            && HAS_ADAPTER in form && form[HAS_ADAPTER] == Bool(adapter)
            && (KeysOk(t, "") && HAS_ADAPTER !in t.fields ==>
                  && FormOf(form, t)
                  && back == if adapter then Kept(json, t, "").fields else Kept(json, t, "").fields - {ADAPTER})
    ensures KeysOk(t, "") && HAS_ADAPTER !in t.fields ==>
              (back == t.fields <==> Unharmed(json, t, "") && AdapterKept(t))
  {
    var flat := FlattenConfig(t, "");
    var flag := Bool(ADAPTER in t.fields && Truthy(t.fields[ADAPTER]));
    form := flat[HAS_ADAPTER := flag];
    back := UnflattenForm(json, form);
    if KeysOk(t, "") && HAS_ADAPTER !in t.fields {
      FormHoldsTheLeaves(flat, form, t);
      KeptIsTheSameIff(json, t, "");
      AdapterDecides(json, t, back, flag.b);
    }
  }

  lemma FormHoldsTheLeaves(flat: Form, form: Form, t: Value)
    requires t.Obj? && KeysOk(t, "") && HAS_ADAPTER !in t.fields && HasLeaves(flat, t, "")
    requires HAS_ADAPTER in form && form - {HAS_ADAPTER} == flat - {HAS_ADAPTER}
    ensures FormOf(form, t)
  {
    forall path | LeafAt(t, path, "").Some? ensures Dotted("", path) in form - {HAS_ADAPTER} {
      FlagIsNoLeaf(t, path);
    }
  }

  lemma AdapterDecides(json: JsonReader, t: Value, back: Config, flag: bool)
    requires t.Obj? && (flag <==> ADAPTER in t.fields && Truthy(t.fields[ADAPTER]))
    requires back == if flag then Kept(json, t, "").fields else Kept(json, t, "").fields - {ADAPTER}
    requires Kept(json, t, "") == t <==> Unharmed(json, t, "")
    ensures back == t.fields <==> Unharmed(json, t, "") && AdapterKept(t)
  {
    var kept := Kept(json, t, "").fields;
    if !flag && back == t.fields {
      assert ADAPTER !in t.fields;
      assert kept.Keys <= t.fields.Keys;
      assert kept == kept - {ADAPTER};
    }
    hide Kept, Unharmed;
  }
}
