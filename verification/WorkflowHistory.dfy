/**
 * Any number of threads on the workflow table at once: reads and swaps interleave freely, and still
 * the table is what the committed operations give when applied one after another.
 */
module WorkflowHistory {
  import opened Values
  import opened WorkflowStore

  /** A `mutate_state` call in progress; `read` is the raw value its current attempt saw. */
  datatype Call = Call(id: nat, fn: Mutator, read: Option<string>)

  /** What is committed, in commit order. `result` is what the caller was handed. */
  datatype Entry =
    | Born(id: nat, name: string, content: string)
    | GraphSaved(id: nat, content: string, expected: nat, rename: Option<string>)
    | StateMutated(id: nat, fn: Mutator, result: Config)
    | Died(id: nat)

  datatype System = System(rows: Rows, lastId: nat, calls: map<nat, Call>, log: seq<Entry>)

  datatype Event =
    | Begin(thread: nat, id: nat, fn: Mutator)
    | Read(thread: nat)
    | Swap(thread: nat)
    | GiveUp(thread: nat)
    | Save(id: nat, content: string, expected: int, rename: Option<string>)
    | Create(name: string, content: string)
    | Clone(id: nat, rename: Option<string>, rewrite: Option<string>)
    | Delete(id: nat)

  predicate CanHappen(s: System, e: Event) {
    match e
    case Begin(t, _, _) => t !in s.calls
    case Read(t) => t in s.calls && s.calls[t].read.None?
    case Swap(t) => t in s.calls && s.calls[t].read.Some?
    case GiveUp(t) => t in s.calls
    case Clone(id, _, _) => id in s.rows
    case _ => true
  }

  function Added(s: System, name: string, content: string): System {
    var id := s.lastId + 1;
    s.(rows := s.rows[id := Row(name, content, EMPTY_STATE, 0)], lastId := id, log := s.log + [Born(id, name, content)])
  }

  /** A read of a missing row raises; otherwise the attempt remembers the raw value. */
  function AfterRead(s: System, t: nat): System
    requires t in s.calls
  {
    var call := s.calls[t];
    s.(calls := if call.id in s.rows then s.calls[t := call.(read := Some(s.rows[call.id].state))] else s.calls - {t})
  }

  /** A swap that matches commits and returns; one that does not starts the next attempt. */
  function AfterSwap(codec: Codec, s: System, t: nat): System
    requires t in s.calls && s.calls[t].read.Some?
  {
    var call := s.calls[t];
    var state := call.fn(Decoded(codec, call.read.value));
    var (rows, swapped) := SwapState(s.rows, call.id, call.read.value, codec.encode(state));
    if swapped then
      s.(rows := rows, calls := s.calls - {t}, log := s.log + [StateMutated(call.id, call.fn, state)])
    else s.(calls := s.calls[t := call.(read := None)])
  }

  function AfterSave(s: System, id: nat, content: string, expected: int, name: Option<string>): System {
    var (rows, saved) := SaveGraph(s.rows, id, content, expected, name);
    if saved.SavedOk? then s.(rows := rows, log := s.log + [GraphSaved(id, content, expected as nat, name)]) else s
  }

  function Next(codec: Codec, s: System, e: Event): System
    requires CanHappen(s, e)
  {
    match e
    case Begin(t, id, fn) => s.(calls := s.calls[t := Call(id, fn, None)])
    case Read(t) => AfterRead(s, t)
    case Swap(t) => AfterSwap(codec, s, t)
    case GiveUp(t) => s.(calls := s.calls - {t})
    case Save(id, content, expected, name) => AfterSave(s, id, content, expected, name)
    case Create(name, content) => Added(s, name, content)
    case Clone(id, name, content) =>
      Added(s, if name.Some? then name.value else CopyName(s.rows[id].name),
            if content.Some? then content.value else s.rows[id].content)
    case Delete(id) => if id in s.rows then s.(rows := s.rows - {id}, log := s.log + [Died(id)]) else s
  }

  // ---------------------------------------------------------------- the sequential reading

  /** A workflow with its run state decoded. */
  datatype Workflow = Workflow(name: string, content: string, state: Config, version: nat)

  function Abstract(codec: Codec, rows: Rows): map<nat, Workflow> {
    map id | id in rows ::
      Workflow(rows[id].name, rows[id].content, Decoded(codec, rows[id].state), rows[id].version)
  }

  /** One operation with nothing in between. */
  function Apply(table: map<nat, Workflow>, e: Entry): map<nat, Workflow> {
    match e
    case Born(id, name, content) => table[id := Workflow(name, content, map[], 0)]
    case GraphSaved(id, content, _, name) =>
      if id in table then
        var w := table[id];
        table[id := w.(content := content, name := if name.Some? then name.value else w.name, version := w.version + 1)]
      else table
    case StateMutated(id, fn, _) => if id in table then table[id := table[id].(state := fn(table[id].state))] else table
    case Died(id) => table - {id}
  }

  function Replay(log: seq<Entry>): map<nat, Workflow> {
    if log == [] then map[] else Apply(Replay(log[..|log| - 1]), log[|log| - 1])
  }

  /** Each committed operation returned what the one-after-another reading says. */
  predicate ResultHolds(table: map<nat, Workflow>, e: Entry) {
    match e
    case Born(id, _, _) => id !in table
    case GraphSaved(id, _, expected, _) => id in table && table[id].version == expected
    case StateMutated(id, fn, result) => id in table && result == fn(table[id].state)
    case Died(id) => id in table
  }

  ghost predicate ResultsHold(log: seq<Entry>) {
    forall k | 0 <= k < |log| :: ResultHolds(Replay(log[..k]), log[k])
  }

  ghost predicate IsRun(codec: Codec, systems: seq<System>, events: seq<Event>) {
    && |systems| == |events| + 1
    && systems[0] == System(map[], 0, map[], [])
    && forall i | 0 <= i < |events| ::
         CanHappen(systems[i], events[i]) && systems[i + 1] == Next(codec, systems[i], events[i])
  }

  ghost predicate Inv(codec: Codec, s: System) {
    && (forall id | id in s.rows :: id <= s.lastId)
    && Abstract(codec, s.rows) == Replay(s.log)
    && ResultsHold(s.log)
  }

  lemma ReplayGrows(log: seq<Entry>, e: Entry)
    ensures Replay(log + [e]) == Apply(Replay(log), e)
    ensures ResultsHold(log) && ResultHolds(Replay(log), e) ==> ResultsHold(log + [e])
  {
    var longer := log + [e];
    assert longer[..|log|] == log;
    if ResultsHold(log) && ResultHolds(Replay(log), e) {
      forall k | 0 <= k < |longer| ensures ResultHolds(Replay(longer[..k]), longer[k]) {
        if k < |log| { assert longer[..k] == log[..k]; }
      }
    }
  }

  lemma SwapCommits(codec: Codec, s: System, t: nat)
    requires Faithful(codec) && Inv(codec, s) && t in s.calls && s.calls[t].read.Some?
    ensures Inv(codec, AfterSwap(codec, s, t))
  {
    hide ResultsHold, Replay;
    var call := s.calls[t];
    var state := call.fn(Decoded(codec, call.read.value));
    var after := AfterSwap(codec, s, t);
    if call.id in s.rows && s.rows[call.id].state == call.read.value {
      var e := StateMutated(call.id, call.fn, state);
      ReplayGrows(s.log, e);
      assert Decoded(codec, codec.encode(state)) == state;
      assert Abstract(codec, after.rows) == Apply(Replay(s.log), e);
    }
  }

  lemma SaveCommits(codec: Codec, s: System, id: nat, content: string, expected: int, name: Option<string>)
    requires Inv(codec, s)
    ensures Inv(codec, AfterSave(s, id, content, expected, name))
  {
    hide ResultsHold, Replay, Decoded;
    if id in s.rows && s.rows[id].version == expected {
      var e := GraphSaved(id, content, expected as nat, name);
      ReplayGrows(s.log, e);
      assert Abstract(codec, AfterSave(s, id, content, expected, name).rows) == Apply(Replay(s.log), e);
    }
  }

  lemma CreateCommits(codec: Codec, s: System, name: string, content: string)
    requires Faithful(codec) && Inv(codec, s)
    ensures Inv(codec, Added(s, name, content))
  {
    hide ResultsHold, Replay;
    var e := Born(s.lastId + 1, name, content);
    ReplayGrows(s.log, e);
    assert Abstract(codec, Added(s, name, content).rows) == Apply(Replay(s.log), e);
  }

  lemma DeleteCommits(codec: Codec, s: System, id: nat)
    requires Inv(codec, s)
    ensures Inv(codec, Next(codec, s, Delete(id)))
  {
    hide ResultsHold, Replay, Decoded;
    if id in s.rows {
      ReplayGrows(s.log, Died(id));
      assert Abstract(codec, s.rows - {id}) == Apply(Replay(s.log), Died(id));
    }
  }

  lemma EventKeepsInv(codec: Codec, s: System, e: Event)
    requires Faithful(codec) && Inv(codec, s) && CanHappen(s, e)
    ensures Inv(codec, Next(codec, s, e))
  {
    hide ResultsHold, Replay, Faithful, Abstract, AfterSwap, AfterSave;
    match e
    case Swap(t) => SwapCommits(codec, s, t);
    case Save(id, content, expected, name) => SaveCommits(codec, s, id, content, expected, name);
    case Create(name, content) => CreateCommits(codec, s, name, content);
    case Clone(id, name, content) =>
      CreateCommits(codec, s, if name.Some? then name.value else CopyName(s.rows[id].name),
                    if content.Some? then content.value else s.rows[id].content);
    case Delete(id) => DeleteCommits(codec, s, id);
    case _ =>
  }

  /**
   * Every interleaving is equivalent to the committed operations one after another in commit order:
   * no mutation is lost or applied to a value that was not current, even when a value comes back
   * between read and swap; every caller got the result of that order; no new row takes an id in use; and a
   * graph save went through only against the version it expected.
   */
  lemma {:induction false} EveryRunIsSequential(codec: Codec, systems: seq<System>, events: seq<Event>, i: nat)
    requires Faithful(codec) && IsRun(codec, systems, events) && i <= |events|
    ensures Abstract(codec, systems[i].rows) == Replay(systems[i].log)
    ensures ResultsHold(systems[i].log)
    ensures Inv(codec, systems[i])
  {
    hide CanHappen, Next, Faithful, Abstract, ResultHolds;
    if i == 0 {
      assert Abstract(codec, map[]) == map[] by { NoWorkflows(codec); }
    } else {
      EveryRunIsSequential(codec, systems, events, i - 1);
      hide Inv;
      EventKeepsInv(codec, systems[i - 1], events[i - 1]);
      InvSays(codec, systems[i]);
    }
  }

  lemma NoWorkflows(codec: Codec)
    ensures Abstract(codec, map[]) == map[]
  {
  }

  lemma InvSays(codec: Codec, s: System)
    requires Inv(codec, s)
    ensures Abstract(codec, s.rows) == Replay(s.log) && ResultsHold(s.log)
  {
  }

  /** Which events commit what: a swap just when the value it read is still there, a save on its version. */
  lemma CommitsExactly(codec: Codec, s: System, e: Event)
    requires CanHappen(s, e)
    ensures Next(codec, s, e).log == s.log + match e
      case Swap(t) =>
        var call := s.calls[t];
        if call.id in s.rows && Some(s.rows[call.id].state) == call.read
        then [StateMutated(call.id, call.fn, call.fn(Decoded(codec, call.read.value)))] else []
      case Save(id, content, expected, rename) =>
        if id in s.rows && s.rows[id].version == expected
        then [GraphSaved(id, content, expected as nat, rename)] else []
      case Create(name, content) => [Born(s.lastId + 1, name, content)]
      case Clone(id, rename, rewrite) =>
        [Born(s.lastId + 1, if rename.Some? then rename.value else CopyName(s.rows[id].name),
              if rewrite.Some? then rewrite.value else s.rows[id].content)]
      case Delete(id) => if id in s.rows then [Died(id)] else []
      case _ => []
  {
    hide Decoded;
  }

  /** A call ends by committing, by finding no workflow to read, or by giving up; else it goes on. */
  lemma CallsEndExactly(codec: Codec, s: System, e: Event, t: nat)
    requires CanHappen(s, e) && t in s.calls
    ensures t !in Next(codec, s, e).calls <==>
              || (e == Swap(t) && s.calls[t].id in s.rows && Some(s.rows[s.calls[t].id].state) == s.calls[t].read)
              || (e == Read(t) && s.calls[t].id !in s.rows)
              || e == GiveUp(t)
  {
    hide Decoded;
  }

  /** A call that nothing disturbs needs one attempt: it begins, reads, commits, and is over. */
  lemma AnUndisturbedCallCommits(codec: Codec, s: System, t: nat, id: nat, fn: Mutator)
    requires Faithful(codec) && t !in s.calls && id in s.rows
    ensures var begin := Begin(t, id, fn);
            && CanHappen(s, begin) && CanHappen(Next(codec, s, begin), Read(t))
            && CanHappen(Next(codec, Next(codec, s, begin), Read(t)), Swap(t))
            && var after := Next(codec, Next(codec, Next(codec, s, begin), Read(t)), Swap(t));
               && after.calls == s.calls
               && after.rows == s.rows[id := s.rows[id].(state := codec.encode(fn(Decoded(codec, s.rows[id].state))))]
  {
    hide Faithful, Decoded;
    var begun := Next(codec, s, Begin(t, id, fn));
    var read := Next(codec, begun, Read(t));
    assert read.rows == s.rows && read.calls[t].read == Some(s.rows[id].state);
    assert read.calls - {t} == s.calls;
  }

  /** What a call goes by was the workflow's run state at some moment of the run. */
  lemma {:induction false} CallsGoByARealState(codec: Codec, systems: seq<System>, events: seq<Event>, i: nat, t: nat)
    requires IsRun(codec, systems, events) && i <= |events|
    requires t in systems[i].calls && systems[i].calls[t].read.Some?
    ensures var call := systems[i].calls[t];
            exists j: nat :: j < i && call.id in systems[j].rows && systems[j].rows[call.id].state == call.read.value
  {
    var call, before := systems[i].calls[t], systems[i - 1];
    ReadsComeFromTheTable(codec, before, events[i - 1], t);
    if t in before.calls && before.calls[t] == call {
      CallsGoByARealState(codec, systems, events, i - 1, t);
    } else {
      assert call.id in before.rows && before.rows[call.id].state == call.read.value;
    }
  }

  lemma ReadsComeFromTheTable(codec: Codec, s: System, e: Event, t: nat)
    requires CanHappen(s, e) && t in Next(codec, s, e).calls && Next(codec, s, e).calls[t].read.Some?
    ensures var call := Next(codec, s, e).calls[t];
            || (t in s.calls && s.calls[t] == call)
            || (call.id in s.rows && s.rows[call.id].state == call.read.value)
  {
    hide Decoded;
  }

  // ---------------------------------------------------------------- the two columns are independent

  /** The log without the graph saves, or without the state mutations. */
  function Keep(log: seq<Entry>, graphs: bool): seq<Entry> {
    if log == [] then []
    else
      var before, last := Keep(log[..|log| - 1], graphs), log[|log| - 1];
      if (if graphs then last.StateMutated? else last.GraphSaved?) then before else before + [last]
  }

  /** The first table has the graphs of the second and the run states of the third. */
  ghost predicate Columns(full: map<nat, Workflow>, graphs: map<nat, Workflow>, states: map<nat, Workflow>) {
    && full.Keys == graphs.Keys && full.Keys == states.Keys
    && forall id | id in full ::
         full[id].state == states[id].state && full[id].(state := map[]) == graphs[id].(state := map[])
  }

  lemma ColumnsStep(full: map<nat, Workflow>, graphs: map<nat, Workflow>, states: map<nat, Workflow>, e: Entry)
    requires Columns(full, graphs, states)
    ensures Columns(
              Apply(full, e),
              if e.StateMutated? then graphs else Apply(graphs, e),
              if e.GraphSaved? then states else Apply(states, e))
  {
  }

  /** Graph writes never change a run state; state writes never change a name, a graph or a version. */
  lemma {:induction false} ColumnsAreIndependent(log: seq<Entry>)
    ensures Columns(Replay(log), Replay(Keep(log, true)), Replay(Keep(log, false)))
  {
    hide Columns, Apply;
    if log == [] {
      EmptyColumns();
    } else {
      var front, last := log[..|log| - 1], log[|log| - 1];
      ColumnsAreIndependent(front);
      ReplayGrows(Keep(front, true), last);
      ReplayGrows(Keep(front, false), last);
      ColumnsStep(Replay(front), Replay(Keep(front, true)), Replay(Keep(front, false)), last);
    }
  }

  lemma EmptyColumns()
    ensures Columns(map[], map[], map[])
  {
  }

  // ---------------------------------------------------------------- no version is replaced twice

  /** Workflow `id` is not created in positions `from .. to` of the log. */
  ghost predicate NotBornIn(log: seq<Entry>, id: nat, from: nat, to: nat)
    requires to <= |log|
  {
    forall k | from <= k < to :: log[k].Born? ==> log[k].id != id
  }

  lemma {:induction false} VersionsOnlyGrow(log: seq<Entry>, id: nat, from: nat, to: nat)
    requires from <= to <= |log| && NotBornIn(log, id, from, to) && id in Replay(log[..to])
    ensures id in Replay(log[..from]) && Replay(log[..from])[id].version <= Replay(log[..to])[id].version
  {
    if from < to {
      assert log[..to][..to - 1] == log[..to - 1];
      VersionsOnlyGrow(log, id, from, to - 1);
    }
  }

  /** Of two saves of one workflow the later one expected a later version: each version is replaced once. */
  lemma EachVersionIsReplacedOnce(log: seq<Entry>, a: nat, b: nat)
    requires ResultsHold(log) && a < b < |log| && log[a].GraphSaved? && log[b].GraphSaved? && log[a].id == log[b].id
    requires NotBornIn(log, log[a].id, a + 1, b)
    ensures log[a].expected < log[b].expected
  {
    var id := log[a].id;
    assert ResultHolds(Replay(log[..a]), log[a]) && ResultHolds(Replay(log[..b]), log[b]);
    VersionsOnlyGrow(log, id, a + 1, b);
    assert log[..a + 1][..a] == log[..a];
    assert Replay(log[..a + 1]) == Apply(Replay(log[..a]), log[a]);
  }
}
