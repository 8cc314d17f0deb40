/** The harmful events of the launch protocol do occur: two runs that end with a shared GPU. */
module LaunchFailures {
  import opened Values
  import opened GpuLease
  import opened LaunchProtocol

  /** One GPU, one workflow, one job. */
  function OneGpu(
    jobs: map<nat, JobRow>, leases: Leases, live: map<Pid, Proc>, nextPid: Pid, launch: Launch, refused: set<nat>
  ): State {
    State([0], jobs, leases, live, nextPid, {0}, {}, launch, refused)
  }

  function Row(state: JobState, pid: Option<Pid>): map<nat, JobRow> {
    map[0 := JobRow(state, pid)]
  }

  function Held(holder: Holder, pid: Option<Pid>): Leases {
    map[0 := Lease(holder, pid, {0})]
  }

  const GPU: set<int> := {0}
  const PROCESS: map<Pid, Proc> := map[0 := Proc(0, {0})]
  const JOB: Holder := JobHolder(0)
  const LANE: Holder := WorkflowHolder(0, "node")

  const FAILED := OneGpu(Row(Failed, None), map[], map[], 0, Idle, {})
  const QUEUED := OneGpu(Row(Pending, None), map[], map[], 0, Idle, {})
  const CHOSEN := OneGpu(Row(Pending, None), map[], map[], 0, Chosen(0, GPU, false), {})
  const ACQUIRED := OneGpu(Row(Pending, None), Held(JOB, None), map[], 0, Acquired(0, GPU), {})
  const SPAWNED := OneGpu(Row(Pending, None), Held(JOB, None), PROCESS, 1, Spawned(0, GPU, 0), {})
  const DELETED := OneGpu(map[], Held(JOB, None), PROCESS, 1, Spawned(0, GPU, 0), {})
  const WRITTEN := OneGpu(Row(Running, Some(0)), Held(JOB, None), PROCESS, 1, Written(0, GPU, 0), {})
  const BOUND := OneGpu(Row(Running, Some(0)), Held(JOB, Some(0)), PROCESS, 1, Idle, {})
  const AGAIN := OneGpu(Row(Running, Some(0)), Held(JOB, Some(0)), PROCESS, 1, Chosen(0, GPU, true), {})
  const REFUSED := OneGpu(Row(Running, Some(0)), Held(JOB, Some(0)), PROCESS, 1, Idle, {0})
  const UNDONE := OneGpu(Row(Failed, None), Held(JOB, Some(0)), PROCESS, 1, Idle, {})

  /** The process lives on and its job holds nothing. */
  function Lost(jobs: map<nat, JobRow>): State {
    OneGpu(jobs, map[], PROCESS, 1, Idle, {})
  }

  function Taken(jobs: map<nat, JobRow>): State {
    OneGpu(jobs, Held(LANE, None), PROCESS, 1, Idle, {})
  }

  /** A live training process whose only GPU is leased to the workflow lane, with no launch in flight. */
  ghost predicate SharesItsGpu(s: State) {
    s.live == PROCESS && s.launch.Idle? && s.leases == Held(LANE, None)
  }

  ghost predicate Follows(s: State, e: Event, t: State) {
    CanHappen(s, e) && t == Next(s, e)
  }

  // ---------------------------------------------------------------- single events

  lemma WholeHost()
    ensures Indices([0]) == GPU && Resolve([0], []) == GPU
  {
  }

  lemma LaunchSteps()
    ensures Follows(QUEUED, ChooseHead(0, []), CHOSEN)
    ensures Follows(CHOSEN, Acquire, ACQUIRED)
    ensures Follows(ACQUIRED, Spawn, SPAWNED)
  {
    WholeHost();
    assert Inserted(map[], JOB, GPU) == Held(JOB, None);
  }

  lemma DeleteAndWrite()
    ensures Follows(SPAWNED, Delete(0), DELETED)
    ensures Follows(DELETED, WriteRow, Lost(map[]))
  {
    assert Without(Held(JOB, None), {JOB}) == map[];
    assert Row(Pending, None) - {0} == map[];
  }

  lemma LaneTakesTheGpu(jobs: map<nat, JobRow>)
    ensures Follows(Lost(jobs), WfAcquire(0, "node", []), Taken(jobs))
    ensures SharesItsGpu(Taken(jobs))
  {
    WholeHost();
    assert Inserted(map[], LANE, GPU) == Held(LANE, None);
  }

  lemma RequeueAndBind()
    ensures Follows(FAILED, Requeue(0, Pending), QUEUED)
    ensures Follows(SPAWNED, WriteRow, WRITTEN)
    ensures Follows(WRITTEN, Bind, BOUND)
  {
    assert 0 in Owned(Held(JOB, None), JOB);
    assert Bound(Held(JOB, None), JOB, 0) == Held(JOB, Some(0));
  }

  lemma RefuseAndUndo()
    ensures Follows(BOUND, StartNow(0), AGAIN)
    ensures Follows(AGAIN, Acquire, REFUSED)
    ensures Follows(REFUSED, Undo(0, Some(Failed)), UNDONE)
  {
    WholeHost();
    assert 0 in Held(JOB, Some(0)).Keys;
    assert {0} - {0} == {};
  }

  lemma UndoneIsReaped()
    ensures Follows(UNDONE, Reap({JOB}), Lost(Row(Failed, None)))
  {
    assert RowSays(WorldOf(UNDONE), UNDONE.leases, JOB, true, 0);
    assert Without(UNDONE.leases, {JOB}) == map[];
  }

  lemma HarmlessAndHarmful()
    ensures FreshStart(FAILED) && FreshStart(QUEUED)
    ensures Benign(SPAWNED, WriteRow) && !Benign(DELETED, WriteRow)
    ensures !Benign(REFUSED, Undo(0, Some(Failed)))
  {
  }

  lemma OnlyThreeEventsHarm(s: State, e: Event)
    requires !e.WriteRow? && !e.Crash? && !e.Undo?
    ensures Benign(s, e)
  {
  }

  // ---------------------------------------------------------------- runs

  /** A run of benign events that ends in `s`. */
  ghost predicate BenignRunTo(states: seq<State>, events: seq<Event>, s: State) {
    IsRun(states, events) && BenignUpTo(states, events, |events|) && states[|events|] == s
  }

  lemma Extend(states: seq<State>, events: seq<Event>, s: State, e: Event, t: State)
    requires BenignRunTo(states, events, s) && Follows(s, e, t)
    ensures IsRun(states + [t], events + [e]) && BenignUpTo(states + [t], events + [e], |events|)
    ensures Benign(s, e) ==> BenignRunTo(states + [t], events + [e], t)
  {
    hide CanHappen, Next, Benign, FreshStart;
    var longer, all := states + [t], events + [e];
    forall i | 0 <= i < |all| ensures CanHappen(longer[i], all[i]) && longer[i + 1] == Next(longer[i], all[i]) {
      if i < |events| {
        assert CanHappen(states[i], events[i]);
      }
    }
  }

  lemma StartOfRun(s: State)
    requires FreshStart(s)
    ensures BenignRunTo([s], [], s)
  {
    hide FreshStart;
  }

  lemma Launch(states: seq<State>, events: seq<Event>) returns (longer: seq<State>, all: seq<Event>)
    requires BenignRunTo(states, events, QUEUED)
    ensures BenignRunTo(longer, all, SPAWNED)
  {
    LaunchSteps();
    hide *;
    longer, all := states, events;
    OnlyThreeEventsHarm(QUEUED, ChooseHead(0, []));
    Extend(longer, all, QUEUED, ChooseHead(0, []), CHOSEN);
    longer, all := longer + [CHOSEN], all + [ChooseHead(0, [])];
    OnlyThreeEventsHarm(CHOSEN, Acquire);
    Extend(longer, all, CHOSEN, Acquire, ACQUIRED);
    longer, all := longer + [ACQUIRED], all + [Acquire];
    OnlyThreeEventsHarm(ACQUIRED, Spawn);
    Extend(longer, all, ACQUIRED, Spawn, SPAWNED);
    longer, all := longer + [SPAWNED], all + [Spawn];
  }

  /**
   * A queued run is deleted between spawn and row write: after a benign run its process lives on
   * with no lease, and the workflow lane takes its GPU.
   */
  lemma DeletingMidLaunchSharesTheGpu() returns (states: seq<State>, events: seq<Event>, lost: State, taken: State)
    ensures BenignRunTo(states, events, DELETED)
    ensures !Benign(DELETED, WriteRow) && Follows(DELETED, WriteRow, lost)
    ensures Follows(lost, WfAcquire(0, "node", []), taken) && SharesItsGpu(taken)
  {
    HarmlessAndHarmful();
    DeleteAndWrite();
    lost, taken := Lost(map[]), Taken(map[]);
    LaneTakesTheGpu(map[]);
    hide *;
    StartOfRun(QUEUED);
    states, events := Launch([QUEUED], []);
    OnlyThreeEventsHarm(SPAWNED, Delete(0));
    Extend(states, events, SPAWNED, Delete(0), DELETED);
    states, events := states + [DELETED], events + [Delete(0)];
  }

  /**
   * A failed prep job is requeued with "start now"; the queue takes it first, so the explicit start
   * finds the job's own lease, is refused, and rolls the row of the running process back. The next
   * reap frees its lease and the workflow lane takes the GPU.
   */
  lemma UndoingAStartedRunSharesTheGpu()
    returns (states: seq<State>, events: seq<Event>, undone: State, lost: State, taken: State)
    ensures BenignRunTo(states, events, REFUSED)
    ensures !Benign(REFUSED, Undo(0, Some(Failed))) && Follows(REFUSED, Undo(0, Some(Failed)), undone)
    ensures Follows(undone, Reap({JOB}), lost)
    ensures Follows(lost, WfAcquire(0, "node", []), taken) && SharesItsGpu(taken)
  {
    HarmlessAndHarmful();
    RequeueAndBind();
    RefuseAndUndo();
    UndoneIsReaped();
    undone, lost, taken := UNDONE, Lost(Row(Failed, None)), Taken(Row(Failed, None));
    LaneTakesTheGpu(Row(Failed, None));
    hide *;
    StartOfRun(FAILED);
    states, events := [FAILED], [];
    OnlyThreeEventsHarm(FAILED, Requeue(0, Pending));
    Extend(states, events, FAILED, Requeue(0, Pending), QUEUED);
    states, events := Launch(states + [QUEUED], events + [Requeue(0, Pending)]);
    Extend(states, events, SPAWNED, WriteRow, WRITTEN);
    states, events := states + [WRITTEN], events + [WriteRow];
    OnlyThreeEventsHarm(WRITTEN, Bind);
    Extend(states, events, WRITTEN, Bind, BOUND);
    states, events := states + [BOUND], events + [Bind];
    OnlyThreeEventsHarm(BOUND, StartNow(0));
    Extend(states, events, BOUND, StartNow(0), AGAIN);
    states, events := states + [AGAIN], events + [StartNow(0)];
    OnlyThreeEventsHarm(AGAIN, Acquire);
    Extend(states, events, AGAIN, Acquire, REFUSED);
    states, events := states + [REFUSED], events + [Acquire];
  }
}
