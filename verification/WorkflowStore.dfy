/** Workflow rows: two columns, each under its own compare-and-swap. */
module WorkflowStore {
  import opened Values

  /** The JSON codec of run states; `Faithful` is all that is assumed of it. */
  datatype Codec = Codec(encode: Config -> string, decode: string -> Config)

  type Mutator = Config -> Config

  const EMPTY_STATE := "{}"

  ghost predicate Faithful(codec: Codec) {
    && (forall s :: codec.decode(codec.encode(s)) == s && codec.encode(s) != "")
    && codec.decode(EMPTY_STATE) == map[]
  }

  /** `json.loads(raw) if raw else {}`. */
  function Decoded(codec: Codec, raw: string): Config {
    if raw == "" then map[] else codec.decode(raw)
  }

  /** A run state is read back as written, and one that was never written is empty. */
  lemma StatesAreReadBack(codec: Codec, state: Config)
    requires Faithful(codec)
    ensures Decoded(codec, codec.encode(state)) == state
    ensures Decoded(codec, "") == map[] && Decoded(codec, EMPTY_STATE) == map[]
  {
  }

  datatype Row = Row(name: string, content: string, state: string, version: nat)

  type Rows = map<nat, Row>

  datatype Saved = SavedOk | SaveMissing | SaveStale(actual: nat)

  /** `UPDATE … SET content, name = COALESCE(name), version + 1 WHERE id AND version`. */
  function SaveGraph(rows: Rows, id: nat, content: string, expected: int, name: Option<string>): (Rows, Saved) {
    if id !in rows then (rows, SaveMissing)
    else if rows[id].version != expected then (rows, SaveStale(rows[id].version))
    else
      var row := rows[id];
      (rows[id := Row(if name.Some? then name.value else row.name, content, row.state, row.version + 1)], SavedOk)
  }

  /** `UPDATE … SET state_json WHERE id AND state_json = old`: did it match, and the table after it. */
  function SwapState(rows: Rows, id: nat, read: string, written: string): (Rows, bool) {
    if id in rows && rows[id].state == read then (rows[id := rows[id].(state := written)], true) else (rows, false)
  }

  function CopyName(name: string): string {
    if name == "" then "" else name + " (copy)"
  }

  // ---------------------------------------------------------------- one caller, others in between

  /** What other threads may commit between a read and the swap that follows it. */
  datatype Foreign =
    | OtherState(raw: string)
    | OtherGraph(content: string, expected: int, name: Option<string>)
    | OtherDelete

  function Disturb(rows: Rows, id: nat, writes: seq<Foreign>): Rows {
    if writes == [] then rows
    else
      var before := Disturb(rows, id, writes[..|writes| - 1]);
      match writes[|writes| - 1]
      case OtherState(raw) => if id in before then before[id := before[id].(state := raw)] else before
      case OtherGraph(content, expected, name) => SaveGraph(before, id, content, expected, name).0
      case OtherDelete => before - {id}
  }

  datatype Mutation = Changed(state: Config) | Missing | GaveUp

  const MAX_ATTEMPTS: nat := 10000

  function Round(others: seq<seq<Foreign>>, attempt: nat): seq<Foreign> {
    if attempt < |others| then others[attempt] else []
  }

  /** The whole retry loop from the given attempt on, with what the others do in each round. */
  function Mutate(
    codec: Codec, rows: Rows, id: nat, fn: Mutator, others: seq<seq<Foreign>>, attempt: nat
  ): (Rows, Mutation)
    requires attempt <= MAX_ATTEMPTS
    decreases MAX_ATTEMPTS - attempt
  {
    if attempt == MAX_ATTEMPTS then (rows, GaveUp)
    else if id !in rows then (rows, Missing)
    else
      var raw := rows[id].state;
      var state := fn(Decoded(codec, raw));
      var (after, swapped) := SwapState(Disturb(rows, id, Round(others, attempt)), id, raw, codec.encode(state));
      if swapped then (after, Changed(state)) else Mutate(codec, after, id, fn, others, attempt + 1)
  }

  class Store {
    var rows: Rows
    var lastId: nat
    var changes: nat  // the counter clients poll

    ghost predicate Valid()
      reads this
    {
      forall id :: id in rows ==> id <= lastId
    }

    constructor ()
      ensures Valid() && rows == map[] && changes == 0
    {
      rows, lastId, changes := map[], 0, 0;
    }

    /** A new row: an unused id, no run state, version 0. */
    method Create(name: string, content: string) returns (id: nat)
      requires Valid()
      modifies this
      ensures Valid()
      ensures id !in old(rows) && id > old(lastId) && lastId == id
      ensures rows == old(rows)[id := Row(name, content, EMPTY_STATE, 0)]
      ensures changes == old(changes) + 1
    {
      id := lastId + 1;
      lastId := id;
      rows := rows[id := Row(name, content, EMPTY_STATE, 0)];
      changes := changes + 1;
    }

    /** `None` when the row is missing. */
    method Clone(id: nat, name: Option<string>, content: Option<string>) returns (copy: Option<nat>)
      requires Valid()
      modifies this
      ensures Valid()
      ensures copy.Some? <==> id in old(rows)
      ensures copy.None? ==> rows == old(rows) && changes == old(changes)
      ensures copy.Some? ==>
                var source := old(rows)[id];
                && copy.value !in old(rows)
                && rows == old(rows)[copy.value := Row(
                     if name.Some? then name.value else if source.name == "" then "" else source.name + " (copy)",
                     if content.Some? then content.value else source.content, EMPTY_STATE, 0)]
    {
      if id !in rows {
        return None;
      }
      var newName := if name.Some? then name.value else CopyName(rows[id].name);
      var made := Create(newName, if content.Some? then content.value else rows[id].content);
      return Some(made);
    }

    method Delete(id: nat) returns (found: bool)
      requires Valid()
      modifies this
      ensures Valid() && lastId == old(lastId)
      ensures found <==> id in old(rows)
      ensures rows == old(rows) - {id}
      ensures changes == old(changes) + if found then 1 else 0
    {
      found := id in rows;
      rows := rows - {id};
      if found {
        changes := changes + 1;
      }
    }

    method UpdateGraph(id: nat, content: string, expected: int, name: Option<string>) returns (r: Saved)
      requires Valid()
      modifies this
      ensures Valid() && lastId == old(lastId)
      ensures (rows, r) == SaveGraph(old(rows), id, content, expected, name)
      ensures r.SavedOk? <==> id in old(rows) && old(rows)[id].version == expected
      ensures r.SaveMissing? <==> id !in old(rows)
      ensures r.SaveStale? ==> r.actual == old(rows)[id].version
      ensures !r.SavedOk? ==> rows == old(rows)
      ensures r.SavedOk? ==>
                && rows.Keys == old(rows).Keys && (forall x | x in rows && x != id :: rows[x] == old(rows)[x])
                && rows[id].content == content && rows[id].state == old(rows)[id].state
                && rows[id].version == old(rows)[id].version + 1
                && rows[id].name == if name.Some? then name.value else old(rows)[id].name
      ensures changes == old(changes) + if r.SavedOk? then 1 else 0
    {
      if id in rows && rows[id].version == expected {
        var newName := if name.Some? then name.value else rows[id].name;
        rows := rows[id := rows[id].(content := content, name := newName, version := rows[id].version + 1)];
        changes := changes + 1;
        return SavedOk;
      }
      if id !in rows {
        return SaveMissing;
      }
      return SaveStale(rows[id].version);
    }

    /** The retry loop; `others[k]` is what other threads commit during attempt `k`. */
    method MutateState(codec: Codec, id: nat, fn: Mutator, others: seq<seq<Foreign>>) returns (r: Mutation)
      modifies this
      ensures (rows, r) == Mutate(codec, old(rows), id, fn, others, 0)
      ensures changes == old(changes) + if r.Changed? then 1 else 0
    {
      for attempt := 0 to MAX_ATTEMPTS
        invariant Mutate(codec, rows, id, fn, others, attempt) == Mutate(codec, old(rows), id, fn, others, 0)
        invariant changes == old(changes)
      {
        if id !in rows {
          return Missing;
        }
        var raw := rows[id].state;
        var state := fn(Decoded(codec, raw));
        rows := Disturb(rows, id, Round(others, attempt)); // other threads run here
        if id in rows && rows[id].state == raw {
          rows := rows[id := rows[id].(state := codec.encode(state))];
          changes := changes + 1;
          return Changed(state);
        }
      }
      return GaveUp;
    }
  }

  /** The table after the first `k` rounds of the others, with nothing of this caller. */
  function DisturbedBy(rows: Rows, id: nat, others: seq<seq<Foreign>>, from: nat, k: nat): Rows
    requires from <= k
  {
    if k == from then rows else Disturb(DisturbedBy(rows, id, others, from, k - 1), id, Round(others, k - 1))
  }

  lemma {:induction false} DisturbedFrom(rows: Rows, id: nat, others: seq<seq<Foreign>>, from: nat, k: nat)
    requires from < k
    ensures DisturbedBy(Disturb(rows, id, Round(others, from)), id, others, from + 1, k)
         == DisturbedBy(rows, id, others, from, k)
  {
    if from + 1 < k {
      DisturbedFrom(rows, id, others, from, k - 1);
    }
  }

  /** One atomic application of the caller's function at the end of round `k - 1`. */
  ghost predicate TookEffectAt(
    codec: Codec, rows: Rows, id: nat, fn: Mutator, others: seq<seq<Foreign>>, attempt: nat, after: Rows, state: Config,
    k: nat
  ) {
    && attempt < k
    && var current := DisturbedBy(rows, id, others, attempt, k);
       && id in current
       && state == fn(Decoded(codec, current[id].state))
       && after == current[id := current[id].(state := codec.encode(state))]
  }

  /**
   * A call that succeeds is one atomic step: however often it lost the race, and whatever values came
   * and went meanwhile, the table is what the others made of it with the function applied once, to
   * the value that was current. A call that fails changed nothing: the workflow was gone when it
   * looked, or it has lost the race in every round.
   */
  lemma {:induction false} MutationIsOneAtomicStep(
    codec: Codec, rows: Rows, id: nat, fn: Mutator, others: seq<seq<Foreign>>, attempt: nat
  )
    requires attempt <= MAX_ATTEMPTS
    ensures var (after, result) := Mutate(codec, rows, id, fn, others, attempt);
            if result.Changed? then
              exists k: nat ::
                k <= MAX_ATTEMPTS && TookEffectAt(codec, rows, id, fn, others, attempt, after, result.state, k)
            else
              exists k: nat ::
                && attempt <= k <= MAX_ATTEMPTS && after == DisturbedBy(rows, id, others, attempt, k)
                && (if result.Missing? then id !in after else k == MAX_ATTEMPTS)
    decreases MAX_ATTEMPTS - attempt
  {
    var (after, result) := Mutate(codec, rows, id, fn, others, attempt);
    if attempt == MAX_ATTEMPTS || id !in rows {
      assert after == DisturbedBy(rows, id, others, attempt, attempt);
    } else {
      var raw := rows[id].state;
      var disturbed := Disturb(rows, id, Round(others, attempt));
      assert disturbed == DisturbedBy(rows, id, others, attempt, attempt + 1);
      if id in disturbed && disturbed[id].state == raw {
        assert TookEffectAt(codec, rows, id, fn, others, attempt, after, result.state, attempt + 1);
      } else {
        MutationIsOneAtomicStep(codec, disturbed, id, fn, others, attempt + 1);
        if result.Changed? {
          var k: nat :| k <= MAX_ATTEMPTS
            && TookEffectAt(codec, disturbed, id, fn, others, attempt + 1, after, result.state, k);
          DisturbedFrom(rows, id, others, attempt, k);
          assert TookEffectAt(codec, rows, id, fn, others, attempt, after, result.state, k);
        } else {
          var k: nat :|
            && attempt + 1 <= k <= MAX_ATTEMPTS && after == DisturbedBy(disturbed, id, others, attempt + 1, k)
            && (if result.Missing? then id !in after else k == MAX_ATTEMPTS);
          DisturbedFrom(rows, id, others, attempt, k);
        }
      }
    }
  }
}
