/** `${name}` substitution in step configurations: one left-to-right pass, `$$` escapes a dollar. */
module Substitution {
  import opened Values
  import opened WorkflowGraph

  type Variables = map<string, string>

  // ---------------------------------------------------------------- the token pattern

  predicate IsNameStart(c: char) {
    'A' <= c <= 'Z' || 'a' <= c <= 'z' || c == '_'
  }

  predicate IsNameChar(c: char) {
    IsNameStart(c) || '0' <= c <= '9'
  }

  predicate ValidName(name: string) {
    name != "" && IsNameStart(name[0]) && forall i | 0 <= i < |name| :: IsNameChar(name[i])
  }

  /** Names are the ASCII identifiers: letters, digits and underscores by code, and no digit first. */
  lemma NamesAreIdentifiers(name: string)
    ensures ValidName(name) <==>
              && name != "" && !(48 <= name[0] as int <= 57)
              && forall c | c in name ::
                   var code := c as int;
                   48 <= code <= 57 || 65 <= code <= 90 || code == 95 || 97 <= code <= 122
  {
    if ValidName(name) {
      forall c | c in name ensures IsNameChar(c) {
        var i :| 0 <= i < |name| && name[i] == c;
      }
    }
    assert forall i | 0 <= i < |name| :: name[i] in name;
  }

  /** Length of the longest prefix of name characters (the pattern's greedy `*`). */
  function NameLength(s: string): (n: nat)
    ensures n <= |s|
    ensures forall i | 0 <= i < n :: IsNameChar(s[i])
    ensures n < |s| ==> !IsNameChar(s[n])
  {
    if s != "" && IsNameChar(s[0]) then 1 + NameLength(s[1..]) else 0
  }

  /** The name of the reference `text` opens with, if it opens with one. */
  function MatchRef(text: string): (r: Option<string>)
    ensures r.Some? ==> ValidName(r.value) && "${" + r.value + "}" <= text
  {
    if |text| >= 2 && text[..2] == "${" then
      var n := NameLength(text[2..]);
      if n > 0 && IsNameStart(text[2]) && 2 + n < |text| && text[2 + n] == '}' then
        var name := text[2..2 + n];
        assert text[..3 + n] == "${" + name + "}";
        Some(name)
      else None
    else None
  }

  datatype Token = Lit(c: char) | Escape | Ref(name: string)

  /** The single scan: an escape, else a reference, else one plain character. */
  function Tokens(text: string): seq<Token>
    decreases |text|
  {
    if text == "" then []
    else if |text| >= 2 && text[..2] == "$$" then [Escape] + Tokens(text[2..])
    else
      match MatchRef(text)
      case Some(name) => [Ref(name)] + Tokens(text[|name| + 3..])
      case None => [Lit(text[0])] + Tokens(text[1..])
  }

  function RefText(name: string): string {
    "${" + name + "}"
  }

  function TokenText(t: Token, vars: Variables): string {
    match t
    case Lit(c) => [c]
    case Escape => "$"
    case Ref(name) => if name in vars then vars[name] else RefText(name)
  }

  function Render(tokens: seq<Token>, vars: Variables): string {
    if tokens == [] then "" else TokenText(tokens[0], vars) + Render(tokens[1..], vars)
  }

  /** `resolve_text`. */
  function ResolveText(text: string, vars: Variables): string {
    Render(Tokens(text), vars)
  }

  function TokenRefs(tokens: seq<Token>): set<string> {
    set i | 0 <= i < |tokens| && tokens[i].Ref? :: tokens[i].name
  }

  /** The names a text refers to, as the editor collects them. */
  function TextRefs(text: string): set<string> {
    TokenRefs(Tokens(text))
  }

  // ---------------------------------------------------------------- templates

  /** What the author of a text means: literal stretches and uses of a variable. */
  datatype Part = Literal(s: string) | Use(name: string)

  /** The escaped spelling of a literal: every dollar doubled. */
  function Doubled(s: string): string {
    if s == "" then ""
    else (if s[0] == '$' then "$$" else [s[0]]) + Doubled(s[1..])
  }

  function Print(parts: seq<Part>): string {
    if parts == [] then ""
    else (match parts[0] case Literal(s) => Doubled(s) case Use(n) => RefText(n)) + Print(parts[1..])
  }

  /** The meaning of a template: variables are replaced by their values, which are not looked into. */
  function Meaning(parts: seq<Part>, vars: Variables): string {
    if parts == [] then ""
    else
      (match parts[0]
       case Literal(s) => s
       case Use(n) => if n in vars then vars[n] else RefText(n)) + Meaning(parts[1..], vars)
  }

  predicate WellNamed(parts: seq<Part>) {
    forall p :: p in parts && p.Use? ==> ValidName(p.name)
  }

  lemma ScanEscape(rest: string, vars: Variables)
    ensures ResolveText("$$" + rest, vars) == "$" + ResolveText(rest, vars)
  {
    var text := "$$" + rest;
    assert text[..2] == "$$" && text[2..] == rest;
    assert Tokens(text)[0] == Escape && Tokens(text)[1..] == Tokens(rest);
  }

  lemma ScanPlainChar(c: char, rest: string, vars: Variables)
    requires c != '$'
    ensures Tokens([c] + rest) == [Lit(c)] + Tokens(rest)
    ensures ResolveText([c] + rest, vars) == [c] + ResolveText(rest, vars)
  {
    var text := [c] + rest;
    assert text[0] == c && text[1..] == rest;
    assert Tokens(text)[0] == Lit(c) && Tokens(text)[1..] == Tokens(rest);
  }

  /** The doubled text, one character at a time. */
  lemma DoubledStep(s: string, rest: string)
    requires s != ""
    ensures Doubled(s) + rest == (if s[0] == '$' then "$$" else [s[0]]) + (Doubled(s[1..]) + rest)
  {
  }

  lemma PrefixStep(s: string, r: string)
    requires s != ""
    ensures s + r == [s[0]] + (s[1..] + r)
  {
  }

  lemma {:induction false} ScanDoubled(s: string, rest: string, vars: Variables)
    ensures ResolveText(Doubled(s) + rest, vars) == s + ResolveText(rest, vars)
  {
    hide ResolveText;
    if s == "" {
      assert Doubled(s) + rest == rest;
    } else {
      var tail := Doubled(s[1..]) + rest;
      ScanDoubled(s[1..], rest, vars);
      DoubledStep(s, rest);
      PrefixStep(s, ResolveText(rest, vars));
      if s[0] == '$' {
        ScanEscape(tail, vars);
      } else {
        ScanPlainChar(s[0], tail, vars);
      }
    }
  }

  lemma {:induction false} NameLengthOfName(name: string, rest: string)
    requires forall i | 0 <= i < |name| :: IsNameChar(name[i])
    requires rest != "" && !IsNameChar(rest[0])
    ensures NameLength(name + rest) == |name|
  {
    if name == "" {
      assert name + rest == rest;
    } else {
      assert (name + rest)[1..] == name[1..] + rest;
      NameLengthOfName(name[1..], rest);
    }
  }

  lemma ScanRef(name: string, rest: string, vars: Variables)
    requires ValidName(name)
    ensures ResolveText(RefText(name) + rest, vars)
         == (if name in vars then vars[name] else RefText(name)) + ResolveText(rest, vars)
  {
    var text := RefText(name) + rest;
    assert text[2..] == name + ("}" + rest);
    NameLengthOfName(name, "}" + rest);
    assert text[..2] == "${" && "${"[1] != "$$"[1];
    assert text[2..2 + |name|] == name && text[2 + |name|] == '}';
    assert MatchRef(text) == Some(name);
    assert text[|name| + 3..] == rest;
    assert Tokens(text) == [Ref(name)] + Tokens(rest);
  }

  /**
   * Substitution is correct for every template: resolving the printed text gives its meaning.
   * Values are inserted as they are, whatever references they contain; unknown names stay spelled out.
   */
  lemma {:induction false} ResolvingATemplate(parts: seq<Part>, vars: Variables)
    requires WellNamed(parts)
    ensures ResolveText(Print(parts), vars) == Meaning(parts, vars)
  {
    if parts != [] {
      ResolvingATemplate(parts[1..], vars);
      match parts[0]
      case Literal(s) => ScanDoubled(s, Print(parts[1..]), vars);
      case Use(n) => ScanRef(n, Print(parts[1..]), vars);
    }
  }

  /** Doubling every dollar is a true escape, for any text and any variables. */
  lemma EscapedTextResolvesToItself(s: string, vars: Variables)
    ensures ResolveText(Doubled(s), vars) == s
  {
    ScanDoubled(s, "", vars);
    assert Doubled(s) + "" == Doubled(s);
    assert s + ResolveText("", vars) == s;
  }

  predicate DollarFree(s: string) {
    '$' !in s
  }

  lemma {:induction false} DollarFreeTextIsUnchanged(s: string, vars: Variables)
    requires DollarFree(s)
    ensures ResolveText(s, vars) == s && TextRefs(s) == {}
  {
    if s != "" {
      assert s[0] in s && DollarFree(s[1..]);
      DollarFreeTextIsUnchanged(s[1..], vars);
      ScanPlainChar(s[0], s[1..], vars);
      assert s == [s[0]] + s[1..];
    }
  }

  /** No escape and no reference starts anywhere in the text. */
  ghost predicate TokenFree(text: string) {
    forall i | 0 <= i < |text| - 1 && text[i] == '$' ::
      text[i + 1] != '$' && !exists name :: ValidName(name) && RefText(name) <= text[i..]
  }

  lemma AMatchStartsTheText(text: string)
    ensures MatchRef(text).Some? ==>
      && |text| >= 3 && text[0] == '$'
      && ValidName(MatchRef(text).value) && RefText(MatchRef(text).value) <= text
  {
    if MatchRef(text).Some? {
      assert text[0] == RefText(MatchRef(text).value)[0];
    }
  }

  lemma NoTokenAtTheStart(text: string)
    requires text != "" && TokenFree(text)
    ensures Tokens(text) == [Lit(text[0])] + Tokens(text[1..])
  {
    hide ValidName, RefText, MatchRef;
    AMatchStartsTheText(text);
    assert text[0..] == text;
    assert "$$"[0] == '$' && "$$"[1] == '$';
  }

  /** A dollar sign that opens neither stays, like every other character: `$`, `${`, `${1}`, `$x`. */
  lemma {:induction false} OtherTextIsUnchanged(text: string, vars: Variables)
    requires TokenFree(text)
    ensures ResolveText(text, vars) == text && TextRefs(text) == {}
  {
    if text != "" {
      var rest := text[1..];
      forall i | 0 <= i < |rest| - 1 && rest[i] == '$'
        ensures rest[i + 1] != '$' && !exists name :: ValidName(name) && RefText(name) <= rest[i..]
      {
        assert rest[i..] == text[i + 1..] && text[i + 1] == '$';
      }
      OtherTextIsUnchanged(rest, vars);
      NoTokenAtTheStart(text);
      assert text == [text[0]] + rest;
    }
  }

  // ---------------------------------------------------------------- dependence on the references

  /** Two variable tables look the same through the given names. */
  ghost predicate AgreeOn(names: set<string>, vars: Variables, other: Variables) {
    forall n :: n in names ==> (n in vars <==> n in other) && (n in vars ==> vars[n] == other[n])
  }

  lemma {:induction false} RenderDependsOnRefs(tokens: seq<Token>, vars: Variables, other: Variables)
    requires AgreeOn(TokenRefs(tokens), vars, other)
    ensures Render(tokens, vars) == Render(tokens, other)
  {
    if tokens != [] {
      forall n | n in TokenRefs(tokens[1..]) ensures n in TokenRefs(tokens) {
        var i :| 0 <= i < |tokens[1..]| && tokens[1..][i].Ref? && tokens[1..][i].name == n;
        assert tokens[i + 1].Ref? && tokens[i + 1].name == n;
      }
      RenderDependsOnRefs(tokens[1..], vars, other);
    }
  }

  // ---------------------------------------------------------------- whole configurations

  /** Strings only, recursively; numbers and booleans are never touched. */
  function ResolveValue(v: Value, vars: Variables): Value {
    match v
    case Str(s) => Str(ResolveText(s, vars))
    case List(items) => List(seq(|items|, i requires 0 <= i < |items| => ResolveValue(items[i], vars)))
    case Obj(fields) => Obj(map k | k in fields :: ResolveValue(fields[k], vars))
    case _ => v
  }

  /** `resolve_config`. */
  function ResolveConfig(config: Config, vars: Variables): Config {
    map k | k in config :: ResolveValue(config[k], vars)
  }

  /** The value at a path of keys and positions. */
  datatype Place = Key(key: string) | Position(i: nat)

  function ValueAt(v: Value, path: seq<Place>): Option<Value>
    decreases |path|
  {
    if path == [] then Some(v)
    else
      match path[0]
      case Key(k) => if v.Obj? && k in v.fields then ValueAt(v.fields[k], path[1..]) else None
      case Position(i) => if v.List? && i < |v.items| then ValueAt(v.items[i], path[1..]) else None
  }

  /**
   * Texts are resolved wherever they are nested, in tables and lists; every other value stays, and so
   * does the shape around them.
   */
  lemma {:induction false} EveryTextIsResolved(v: Value, vars: Variables, path: seq<Place>)
    ensures var before, after := ValueAt(v, path), ValueAt(ResolveValue(v, vars), path);
            && (before.Some? <==> after.Some?)
            && (before.Some? ==>
                  match before.value
                  case Str(s) => after.value == Str(ResolveText(s, vars))
                  case Obj(fields) => after.value.Obj? && after.value.fields.Keys == fields.Keys
                  case List(items) => after.value.List? && |after.value.items| == |items|
                  case _ => after == before)
    decreases |path|
  {
    hide ResolveText;
    if path != [] {
      match path[0]
      case Key(k) =>
        if v.Obj? && k in v.fields {
          EveryTextIsResolved(v.fields[k], vars, path[1..]);
        }
      case Position(i) =>
        if v.List? && i < |v.items| {
          EveryTextIsResolved(v.items[i], vars, path[1..]);
        }
    }
  }

  /** Every name some string inside the value refers to. */
  function ValueRefs(v: Value): set<string> {
    match v
    case Str(s) => TextRefs(s)
    case List(items) => set i, n | 0 <= i < |items| && n in ValueRefs(items[i]) :: n
    case Obj(fields) => set k, n | k in fields && n in ValueRefs(fields[k]) :: n
    case _ => {}
  }

  /** `_node_refs`, as the set of names it reports. */
  function ConfigRefs(config: Config): set<string> {
    set k, n | k in config && n in ValueRefs(config[k]) :: n
  }

  lemma {:induction false} ValueDependsOnRefs(v: Value, vars: Variables, other: Variables)
    requires AgreeOn(ValueRefs(v), vars, other)
    ensures ResolveValue(v, vars) == ResolveValue(v, other)
  {
    match v
    case Str(s) => RenderDependsOnRefs(Tokens(s), vars, other);
    case List(items) =>
      forall i | 0 <= i < |items| ensures ResolveValue(items[i], vars) == ResolveValue(items[i], other) {
        ValueDependsOnRefs(items[i], vars, other);
      }
    case Obj(fields) =>
      forall k | k in fields ensures ResolveValue(fields[k], vars) == ResolveValue(fields[k], other) {
        ValueDependsOnRefs(fields[k], vars, other);
      }
      assert ResolveValue(v, vars).fields == ResolveValue(v, other).fields;
    case _ =>
  }

  /** A step's resolved configuration is a function of the variables it is reported to use. */
  lemma ConfigDependsOnItsRefs(config: Config, vars: Variables, other: Variables)
    requires AgreeOn(ConfigRefs(config), vars, other)
    ensures ResolveConfig(config, vars) == ResolveConfig(config, other)
  {
    forall k | k in config ensures ResolveValue(config[k], vars) == ResolveValue(config[k], other) {
      ValueDependsOnRefs(config[k], vars, other);
    }
  }

  /** A key whose value substitution cannot change, checkable before the run. */
  predicate LiteralKey(config: Config, key: string) {
    key !in config || match config[key]
                      case Str(s) => DollarFree(s)
                      case List(_) => false
                      case Obj(_) => false
                      case _ => true
  }

  lemma LiteralKeyIsUnchanged(config: Config, key: string, vars: Variables)
    requires LiteralKey(config, key)
    ensures Lookup(ResolveConfig(config, vars), key) == Lookup(config, key)
    ensures Get(ResolveConfig(config, vars), key) == Get(config, key)
  {
    if key in config && config[key].Str? {
      DollarFreeTextIsUnchanged(config[key].s, vars);
    }
  }

  lemma LiteralConfigIsUnchanged(config: Config, vars: Variables)
    requires forall k | k in config :: LiteralKey(config, k)
    ensures ResolveConfig(config, vars) == config
  {
    hide ResolveValue;
    forall k | k in config ensures ResolveConfig(config, vars)[k] == config[k] {
      LiteralKeyIsUnchanged(config, k, vars);
    }
  }

  // ---------------------------------------------------------------- the workflow's variables

  /** `_variable_map`: names and values as text; a repeated name keeps its last value. */
  function VariableMap(host: Host, variables: seq<Variable>): Variables {
    if variables == [] then map[]
    else
      var last := variables[|variables| - 1];
      VariableMap(host, variables[..|variables| - 1])[PyStr(host, last.name) := PyStr(host, last.value)]
  }
}
