/** Optimizer and scheduler parameters: flat keys in the config, one table of extras in the form. */
module ParamForms {
  import opened Values
  import opened ConfigForm
  import Text

  /**
   * The two sections differ in three names: where the type is, which parameter is never written
   * back (the optimizer's own type), and which has a top-level key of its own (the warm-up).
   */
  datatype Section = Section(prefix: string, typeKey: string, dropped: Option<string>, moved: Option<string>) {
    function ExtraKey(): string { prefix + "extra_params" }

    predicate IsParam(key: string) {
      prefix <= key && key != typeKey && key != ExtraKey()
    }
  }

  const OPTIMIZER := Section("optimizer.", "optimizer.type", Some("type"), None)
  const SCHEDULER := Section("lr_scheduler_args.", "lr_scheduler", None, Some("warmup_steps"))

  /** The names of a section do not get in each other's way. */
  predicate WellNamed(sec: Section) {
    && (sec.dropped.Some? ==> sec.prefix + sec.dropped.value == sec.typeKey)
    && (sec.moved.Some? ==> !(sec.prefix <= sec.moved.value))
  }

  lemma SectionsAreWellNamed()
    ensures WellNamed(OPTIMIZER) && WellNamed(SCHEDULER)
  {
  }

  /** `normalize_param_type`: the type as stripped text. */
  function TypeName(render: Value -> string, v: Value): string {
    if v.Null? then "" else Text.Trim(if v.Str? then v.s else render(v))
  }

  predicate NoType(sec: Section, render: Value -> string, form: Form) {
    TypeName(render, Get(form, sec.typeKey)) == ""
  }

  /** `extras_dict_from_form`: a table, or the JSON text of one. */
  function ExtrasTable(json: JsonReader, raw: Value): Option<Config> {
    if raw.Obj? then Some(raw.fields)
    else if raw.Str? && Text.Trim(raw.s) != "" && json(Text.Trim(raw.s)).Some? && json(Text.Trim(raw.s)).value.Obj? then
      Some(json(Text.Trim(raw.s)).value.fields)
    else None
  }

  function TableOrEmpty(json: JsonReader, raw: Value): Config {
    var table := ExtrasTable(json, raw);
    if table.Some? then table.value else map[]
  }

  /** The extras are a table, or text that is JSON of one with any white space around it; else there are none. */
  lemma ExtrasTableMeans(json: JsonReader, raw: Value)
    ensures raw.Obj? ==> ExtrasTable(json, raw) == Some(raw.fields)
    ensures raw.Str? ==>
              var text := Text.Trim(raw.s);
              ExtrasTable(json, raw) == if !Text.AllSpace(raw.s) && json(text).Some? && json(text).value.Obj?
                                        then Some(json(text).value.fields) else None
    ensures !raw.Obj? && !raw.Str? ==> ExtrasTable(json, raw) == None
  {
    if raw.Str? {
      var before, after := Text.TrimMeans(raw.s);
    }
  }

  /** Values that are not written back. */
  predicate Unset(v: Value) {
    v == Null || v == Str("")
  }

  // ---------------------------------------------------------------- config keys into the table

  function SubKeys(sec: Section, form: Form): set<string> {
    set k | k in form && sec.IsParam(k) :: k[|sec.prefix|..]
  }

  lemma SubKeyIn(sec: Section, form: Form, sub: string)
    ensures sub in SubKeys(sec, form) <==> sec.prefix + sub in form && sec.IsParam(sec.prefix + sub)
  {
    if sub in SubKeys(sec, form) {
      var k :| k in form && sec.IsParam(k) && k[|sec.prefix|..] == sub;
      assert k == sec.prefix + sub;
    }
    assert (sec.prefix + sub)[|sec.prefix|..] == sub;
  }

  function RawExtras(sec: Section, json: JsonReader, form: Form): Config {
    TableOrEmpty(json, Get(form, sec.ExtraKey()))
  }

  /** The section's parameters by their own names. */
  ghost function Params(sec: Section, form: Form): Config {
    map sub | sub in SubKeys(sec, form) :: (SubKeyIn(sec, form, sub); form[sec.prefix + sub])
  }

  ghost function Extras(sec: Section, json: JsonReader, form: Form): Config {
    var raw := RawExtras(sec, json, form);
    (if sec.moved.Some? then raw - {sec.moved.value} else raw) + Params(sec, form)
  }

  /** The moved parameter gets its top-level key when only the table has it. */
  function WithMoved(sec: Section, json: JsonReader, form: Form): Form {
    var raw := RawExtras(sec, json, form);
    if sec.moved.Some? && sec.moved.value in raw && sec.moved.value !in form
    then form[sec.moved.value := raw[sec.moved.value]] else form
  }

  function Others(sec: Section, form: Form): Form {
    map k | k in form && !sec.IsParam(k) :: form[k]
  }

  ghost function Split(sec: Section, render: Value -> string, json: JsonReader, form: Form): Form {
    if NoType(sec, render, form) then form
    else
      var out := WithMoved(sec, json, form);
      Others(sec, out)[sec.ExtraKey() := Obj(Extras(sec, json, form))]
  }

  /** A typed section's moved parameter keeps its own key, or gets it from the table, and leaves the table. */
  lemma MovedGetsItsKey(sec: Section, render: Value -> string, json: JsonReader, form: Form, moved: string)
    requires WellNamed(sec) && sec.moved == Some(moved) && !NoType(sec, render, form)
    ensures var raw, out := RawExtras(sec, json, form), Split(sec, render, json, form);
            && (moved in out <==> moved in form || moved in raw)
            && (moved in out ==> out[moved] == if moved in form then form[moved] else raw[moved])
            && (moved in Extras(sec, json, form) ==> sec.prefix + moved in form)
  {
    hide NoType, RawExtras, Params;
    ParamsOf(sec, form, moved);
    assert sec.prefix <= sec.ExtraKey();
  }

  /** The moved key is no parameter: the parameters stay what they were. */
  lemma WithMovedKeepsParams(sec: Section, json: JsonReader, form: Form)
    requires WellNamed(sec)
    ensures Params(sec, WithMoved(sec, json, form)) == Params(sec, form)
    ensures forall k | k in form :: k in WithMoved(sec, json, form) && WithMoved(sec, json, form)[k] == form[k]
  {
    var out := WithMoved(sec, json, form);
    forall sub
      ensures sub in SubKeys(sec, out) <==> sub in SubKeys(sec, form)
      ensures sub in SubKeys(sec, form) ==> sec.prefix + sub in form
    {
      SubKeyIn(sec, out, sub);
      SubKeyIn(sec, form, sub);
      assert sec.prefix <= sec.prefix + sub;
    }
    hide RawExtras, SubKeys;
  }

  lemma OneMoreParam(sec: Section, form: Form, left: set<string>, k: string)
    requires k in form && k in left
    ensures Params(sec, form - (left - {k}))
         == if sec.IsParam(k) then Params(sec, form - left)[k[|sec.prefix|..] := form[k]] else Params(sec, form - left)
  {
    var before, after := form - left, form - (left - {k});
    forall sub
      ensures sub in SubKeys(sec, after) <==> sub in SubKeys(sec, before) || (sec.IsParam(k) && sec.prefix + sub == k)
      ensures sec.prefix + sub == k ==> sub == k[|sec.prefix|..]
      ensures sec.IsParam(k) ==> sec.prefix + k[|sec.prefix|..] == k
      ensures sub in SubKeys(sec, before) ==> sec.prefix + sub in before
    {
      SubKeyIn(sec, after, sub);
      SubKeyIn(sec, before, sub);
      assert (sec.prefix + sub)[|sec.prefix|..] == sub;
    }
    hide SubKeys, Section.IsParam;
  }

  /** The form without the parameters that have been moved. */
  ghost function Remaining(sec: Section, form: Form, left: set<string>): Form {
    map k | k in form && (k in left || !sec.IsParam(k)) :: form[k]
  }

  lemma OneFewerRemaining(sec: Section, form: Form, left: set<string>, k: string)
    requires k in form && k in left
    ensures k in Remaining(sec, form, left) && Remaining(sec, form, left)[k] == form[k]
    ensures Remaining(sec, form, left - {k})
         == if sec.IsParam(k) then Remaining(sec, form, left) - {k} else Remaining(sec, form, left)
  {
  }

  lemma MoveEnds(sec: Section, form: Form)
    ensures Remaining(sec, form, form.Keys) == form && Remaining(sec, form, {}) == Others(sec, form)
    ensures Params(sec, form - form.Keys) == map[] && form - {} == form
  {
  }

  /** The loops of the split: parameters leave the form for the table. */
  method MoveParams(sec: Section, form: Form, first: Config) returns (out: Form, extras: Config)
    ensures out == Others(sec, form) && extras == first + Params(sec, form)
  {
    out, extras := form, first;
    var left := form.Keys;
    MoveEnds(sec, form);
    hide *;
    while left != {}
      invariant left <= form.Keys
      invariant out == Remaining(sec, form, left)
      invariant extras == first + Params(sec, form - left)
      decreases left
    {
      var k :| k in left;
      OneMoreParam(sec, form, left, k);
      OneFewerRemaining(sec, form, left, k);
      left := left - {k};
      if sec.IsParam(k) {
        PrefixOfParam(sec, k);
        extras := extras[k[|sec.prefix|..] := out[k]];
        out := out - {k};
      }
    }
  }

  lemma PrefixOfParam(sec: Section, k: string)
    requires sec.IsParam(k)
    ensures |sec.prefix| <= |k|
  {
  }

  /** `split_optimizer_extras` and `split_scheduler_extras`. */
  method SplitExtras(sec: Section, render: Value -> string, json: JsonReader, form: Form) returns (out: Form)
    requires WellNamed(sec)
    ensures out == Split(sec, render, json, form)
  {
    out := form;
    if NoType(sec, render, form) {
      return;
    }
    var raw := RawExtras(sec, json, form);
    var extras := raw;
    if sec.moved.Some? {
      if sec.moved.value in raw && sec.moved.value !in out {
        out := out[sec.moved.value := raw[sec.moved.value]];
      }
      extras := extras - {sec.moved.value};
    }
    WithMovedKeepsParams(sec, json, form);
    hide Params;
    out, extras := MoveParams(sec, out, extras);
    out := out[sec.ExtraKey() := Obj(extras)];
  }

  // ---------------------------------------------------------------- the table into config keys

  /** The flat key a parameter is written to. */
  function Target(sec: Section, sub: string): string {
    if sec.moved == Some(sub) then sub else sec.prefix + sub
  }

  predicate Written(sec: Section, table: Config, sub: string) {
    sub in table && sec.dropped != Some(sub) && !Unset(table[sub])
  }

  ghost predicate IsMerged(sec: Section, base: Form, table: Config, out: Form) {
    && (forall k :: k in out <==> k in base || exists sub :: Written(sec, table, sub) && Target(sec, sub) == k)
    && (forall sub | Written(sec, table, sub) :: Target(sec, sub) in out && out[Target(sec, sub)] == table[sub])
    && (forall k | k in base && (forall sub | Written(sec, table, sub) :: Target(sec, sub) != k) :: out[k] == base[k])
  }

  /** Nothing in the table replaces the type of the optimizer. */
  lemma TheTypeIsNotWritten(base: Form, table: Config, out: Form)
    requires IsMerged(OPTIMIZER, base, table, out)
    ensures Lookup(out, "optimizer.type") == Lookup(base, "optimizer.type")
  {
    forall sub | Target(OPTIMIZER, sub) == "optimizer.type" ensures sub == "type" {
      assert ("optimizer." + sub)[|"optimizer."|..] == sub;
      assert "optimizer.type"[|"optimizer."|..] == "type";
    }
  }

  lemma TargetsDiffer(sec: Section, a: string, b: string)
    requires WellNamed(sec)
    ensures Target(sec, a) == Target(sec, b) <==> a == b
  {
    assert (sec.prefix + a)[|sec.prefix|..] == a && (sec.prefix + b)[|sec.prefix|..] == b;
    assert sec.prefix <= sec.prefix + a && sec.prefix <= sec.prefix + b;
  }

  /** `merge_optimizer_extras` and `merge_scheduler_extras`. */
  method MergeExtras(sec: Section, json: JsonReader, form: Form) returns (out: Form)
    requires WellNamed(sec)
    ensures IsMerged(sec, form - {sec.ExtraKey()}, TableOrEmpty(json, Get(form, sec.ExtraKey())), out)
  {
    out := form - {sec.ExtraKey()};
    ghost var base := out;
    var raw := ExtrasTable(json, Get(form, sec.ExtraKey()));
    if raw.None? {
      return;
    }
    var table := raw.value;
    var left := table.Keys;
    while left != {}
      invariant left <= table.Keys
      invariant forall k :: k in out <==>
                  k in base || exists sub :: Written(sec, table, sub) && sub !in left && Target(sec, sub) == k
      invariant forall sub | Written(sec, table, sub) && sub !in left ::
                  Target(sec, sub) in out && out[Target(sec, sub)] == table[sub]
      invariant forall k |
        k in base && (forall sub | Written(sec, table, sub) && sub !in left :: Target(sec, sub) != k) ::
                  out[k] == base[k]
      decreases left
    {
      var sub :| sub in left;
      ghost var before, was := left, out;
      left := left - {sub};
      if Written(sec, table, sub) {
        forall s | s != sub ensures Target(sec, s) != Target(sec, sub) {
          TargetsDiffer(sec, s, sub);
        }
        out := out[Target(sec, sub) := table[sub]];
      }
    }
  }

  // ---------------------------------------------------------------- the round trip

  /** Can the split be undone by the merge? Checkable on the form before the split. */
  predicate Restorable(sec: Section, render: Value -> string, form: Form) {
    NoType(sec, render, form) || AllRestorable(sec, form)
  }

  /** Every parameter is set and keeps its name. */
  predicate AllRestorable(sec: Section, form: Form) {
    forall k | k in form && sec.IsParam(k) :: !Unset(form[k]) && sec.moved != Some(k[|sec.prefix|..])
  }

  /** The type is missing, null or text of nothing but space. */
  ghost predicate Untyped(render: Value -> string, form: Form, typeKey: string) {
    typeKey !in form || form[typeKey] == Null
    || Text.AllSpace(if form[typeKey].Str? then form[typeKey].s else render(form[typeKey]))
  }

  lemma NoTypeMeans(sec: Section, render: Value -> string, form: Form)
    ensures NoType(sec, render, form) <==> Untyped(render, form, sec.typeKey)
  {
    if sec.typeKey in form && form[sec.typeKey] != Null {
      var v := form[sec.typeKey];
      var before, after := Text.TrimMeans(if v.Str? then v.s else render(v));
    }
  }

  /** The condition of the round trip on the two sections, key by key. */
  lemma RestorableMeans(render: Value -> string, form: Form)
    ensures Restorable(OPTIMIZER, render, form) <==>
              || Untyped(render, form, "optimizer.type")
              || forall k | k in form && "optimizer." <= k && k !in {"optimizer.type", "optimizer.extra_params"} ::
                   form[k] != Null && form[k] != Str("")
    ensures Restorable(SCHEDULER, render, form) <==>
              || Untyped(render, form, "lr_scheduler")
              || forall k | k in form && "lr_scheduler_args." <= k && k != "lr_scheduler_args.extra_params" ::
                   form[k] != Null && form[k] != Str("") && k != "lr_scheduler_args.warmup_steps"
  {
    NoTypeMeans(OPTIMIZER, render, form);
    NoTypeMeans(SCHEDULER, render, form);
    forall k: string
      ensures OPTIMIZER.IsParam(k) <==> "optimizer." <= k && k !in {"optimizer.type", "optimizer.extra_params"}
      ensures SCHEDULER.IsParam(k) <==> "lr_scheduler_args." <= k && k != "lr_scheduler_args.extra_params"
      ensures SCHEDULER.IsParam(k) ==>
                (SCHEDULER.moved == Some(k[|SCHEDULER.prefix|..]) <==> k == "lr_scheduler_args.warmup_steps")
    {
      ParameterNames(k);
    }
    hide NoType, Untyped, Section.IsParam;
  }

  lemma ParameterNames(k: string)
    ensures OPTIMIZER.IsParam(k) <==> "optimizer." <= k && k !in {"optimizer.type", "optimizer.extra_params"}
    ensures SCHEDULER.IsParam(k) <==> "lr_scheduler_args." <= k && k != "lr_scheduler_args.extra_params"
    ensures SCHEDULER.IsParam(k) ==>
              (SCHEDULER.moved == Some(k[|SCHEDULER.prefix|..]) <==> k == "lr_scheduler_args.warmup_steps")
  {
    assert "optimizer." + "extra_params" == "optimizer.extra_params";
    assert "lr_scheduler_args." + "extra_params" == "lr_scheduler_args.extra_params";
    assert "lr_scheduler_args." + "warmup_steps" == "lr_scheduler_args.warmup_steps";
    if "lr_scheduler_args." <= k {
      assert k == "lr_scheduler_args." + k[|"lr_scheduler_args."|..];
      assert "lr_scheduler_args.warmup_steps"[|"lr_scheduler_args."|..] == "warmup_steps";
    }
  }

  lemma ParamsOf(sec: Section, form: Form, sub: string)
    ensures sub in Params(sec, form) <==> sec.prefix + sub in form && sec.IsParam(sec.prefix + sub)
    ensures sub in Params(sec, form) ==> Params(sec, form)[sub] == form[sec.prefix + sub]
  {
    SubKeyIn(sec, form, sub);
  }

  /** Merging what was split, when there was no table before. */
  lemma SplitWithoutTable(sec: Section, render: Value -> string, json: JsonReader, form: Form)
    requires WellNamed(sec) && sec.ExtraKey() !in form && !NoType(sec, render, form)
    ensures var split := Split(sec, render, json, form);
            && split - {sec.ExtraKey()} == Others(sec, form)
            && TableOrEmpty(json, Get(split, sec.ExtraKey())) == Params(sec, form)
  {
    hide NoType, Params;
    assert RawExtras(sec, json, form) == map[];
    assert WithMoved(sec, json, form) == form;
    assert Extras(sec, json, form) == Params(sec, form);
    var split := Split(sec, render, json, form);
    assert Get(split, sec.ExtraKey()) == Obj(Params(sec, form));
  }

  lemma ParamIsWritten(sec: Section, form: Form, k: string)
    requires WellNamed(sec) && k in form && sec.IsParam(k)
    ensures var sub := k[|sec.prefix|..];
            && k == sec.prefix + sub && sub in Params(sec, form) && Params(sec, form)[sub] == form[k]
            && sec.dropped != Some(sub)
            && (Written(sec, Params(sec, form), sub) <==> !Unset(form[k]))
            && (Target(sec, sub) == k <==> sec.moved != Some(sub))
  {
  }

  /** Every parameter is restored exactly when it is set and is not the moved one. */
  lemma RestoredIff(sec: Section, form: Form, out: Form)
    requires WellNamed(sec) && sec.ExtraKey() !in form
    requires IsMerged(sec, Others(sec, form), Params(sec, form), out)
    ensures out == form <==> AllRestorable(sec, form)
  {
    forall k | k in form && sec.IsParam(k)
      ensures k in out && out[k] == form[k] <==> !Unset(form[k]) && sec.moved != Some(k[|sec.prefix|..])
    {
      ParamRestoredIff(sec, form, out, k);
    }
    if AllRestorable(sec, form) {
      forall k ensures k in out <==> k in form {
        KeyComesFromForm(sec, form, out, k);
      }
      forall k | k in form && !sec.IsParam(k) ensures out[k] == form[k] {
        OtherKeyIsKept(sec, form, out, k);
      }
      hide Params, Section.IsParam, Unset, IsMerged;
      assert out == form;
    }
  }

  lemma KeyComesFromForm(sec: Section, form: Form, out: Form, k: string)
    requires WellNamed(sec) && AllRestorable(sec, form)
    requires IsMerged(sec, Others(sec, form), Params(sec, form), out)
    ensures k in out ==> k in form
    ensures k in form && !sec.IsParam(k) ==> k in out
  {
    if k in out && k !in Others(sec, form) {
      var sub :| Written(sec, Params(sec, form), sub) && Target(sec, sub) == k;
      ParamsOf(sec, form, sub);
      assert (sec.prefix + sub)[|sec.prefix|..] == sub;
    }
  }

  lemma OtherKeyIsKept(sec: Section, form: Form, out: Form, k: string)
    requires WellNamed(sec) && AllRestorable(sec, form) && k in form && !sec.IsParam(k)
    requires IsMerged(sec, Others(sec, form), Params(sec, form), out)
    ensures k in out && out[k] == form[k]
  {
  }

  lemma ParamRestoredIff(sec: Section, form: Form, out: Form, k: string)
    requires WellNamed(sec) && k in form && sec.IsParam(k)
    requires IsMerged(sec, Others(sec, form), Params(sec, form), out)
    ensures k in out && out[k] == form[k] <==> !Unset(form[k]) && sec.moved != Some(k[|sec.prefix|..])
  {
    var table, mine := Params(sec, form), k[|sec.prefix|..];
    ParamIsWritten(sec, form, k);
    assert k !in Others(sec, form);
    if k in out {
      var sub :| Written(sec, table, sub) && Target(sec, sub) == k;
      assert (sec.prefix + sub)[|sec.prefix|..] == sub;
    }
  }

  /**
   * Merging the split parameters restores a form that had no table exactly when it has no type, or
   * every parameter is set and keeps its name. A table that was there before is gone afterwards.
   */
  method SplitThenMerge(sec: Section, render: Value -> string, json: JsonReader, form: Form) returns (back: Form)
    requires WellNamed(sec)
    ensures sec.ExtraKey() !in form ==> (back == form <==> Restorable(sec, render, form))
    ensures "extra_params" !in RawExtras(sec, json, form) ==> sec.ExtraKey() !in back
  {
    var split := SplitExtras(sec, render, json, form);
    back := MergeExtras(sec, json, split);
    SplitThenMergeRestores(sec, render, json, form, split, back);
    hide *;
  }

  lemma SplitThenMergeRestores(
    sec: Section, render: Value -> string, json: JsonReader, form: Form, split: Form, back: Form
  )
    requires WellNamed(sec) && split == Split(sec, render, json, form)
    requires IsMerged(sec, split - {sec.ExtraKey()}, TableOrEmpty(json, Get(split, sec.ExtraKey())), back)
    ensures sec.ExtraKey() !in form ==> (back == form <==> Restorable(sec, render, form))
    ensures "extra_params" !in RawExtras(sec, json, form) ==> sec.ExtraKey() !in back
  {
    TableKeyIsGone(sec, json, split, back);
    if NoType(sec, render, form) {
      if sec.ExtraKey() !in form {
        NothingToMerge(sec, json, form, back);
      }
    } else {
      TableOfSplit(sec, render, json, form);
      if sec.ExtraKey() !in form {
        SplitWithoutTable(sec, render, json, form);
        RestoredIff(sec, form, back);
      }
    }
    hide *;
  }

  lemma TableOfSplit(sec: Section, render: Value -> string, json: JsonReader, form: Form)
    requires !NoType(sec, render, form)
    ensures TableOrEmpty(json, Get(Split(sec, render, json, form), sec.ExtraKey())) == Extras(sec, json, form)
    ensures "extra_params" in Extras(sec, json, form) ==> "extra_params" in RawExtras(sec, json, form)
  {
    hide NoType, Params, RawExtras;
    ParamsOf(sec, form, "extra_params");
    assert Get(Split(sec, render, json, form), sec.ExtraKey()) == Obj(Extras(sec, json, form));
  }

  lemma TableKeyIsGone(sec: Section, json: JsonReader, form: Form, out: Form)
    requires WellNamed(sec)
    requires IsMerged(sec, form - {sec.ExtraKey()}, TableOrEmpty(json, Get(form, sec.ExtraKey())), out)
    ensures sec.ExtraKey() in out ==> "extra_params" in TableOrEmpty(json, Get(form, sec.ExtraKey()))
  {
    if sec.ExtraKey() in out {
      var sub :| Written(sec, TableOrEmpty(json, Get(form, sec.ExtraKey())), sub) && Target(sec, sub) == sec.ExtraKey();
      assert (sec.prefix + sub)[|sec.prefix|..] == sub && sec.ExtraKey()[|sec.prefix|..] == "extra_params";
      assert sec.prefix <= sec.ExtraKey();
    }
  }

  lemma NothingToMerge(sec: Section, json: JsonReader, form: Form, out: Form)
    requires WellNamed(sec) && sec.ExtraKey() !in form
    requires IsMerged(sec, form - {sec.ExtraKey()}, TableOrEmpty(json, Get(form, sec.ExtraKey())), out)
    ensures out == form
  {
    assert form - {sec.ExtraKey()} == form;
    assert TableOrEmpty(json, Get(form, sec.ExtraKey())) == map[];
    assert forall sub :: !Written(sec, map[], sub);
  }
}
