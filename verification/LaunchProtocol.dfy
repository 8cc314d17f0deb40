/**
 * The three-stage launch (acquire, spawn and write the row, bind the pid) interleaved with
 * everything that may happen to job rows, leases and processes meanwhile. Only launches are
 * serialised, by the start lock; any other event may fall between two stages.
 */
module LaunchProtocol {
  import opened Values
  import opened GpuLease

  /** A live training process: the job it was started for and the devices it was started on. */
  datatype Proc = Proc(job: nat, devices: set<int>)

  /** How far the launch that holds the start lock has come. */
  datatype Launch =
    | Idle
    | Chosen(job: nat, devices: set<int>, explicit: bool) // `explicit`: a "start now", not the queue head
    | Acquired(job: nat, devices: set<int>)
    | Spawned(job: nat, devices: set<int>, pid: Pid)      // process started, row not written yet
    | Written(job: nat, devices: set<int>, pid: Pid)      // row written, lease not bound yet
    | Doomed(job: nat, devices: set<int>, pid: Pid)       // binding failed, process to be killed
    | Killed(job: nat)                                    // process killed, row not marked yet

  datatype State = State(
    known: seq<int>,
    jobs: map<nat, JobRow>,
    leases: Leases,
    live: map<Pid, Proc>,
    nextPid: Pid,
    workflows: set<nat>,
    wfLive: set<Pid>,
    launch: Launch,
    refused: set<nat>   // prep jobs whose "start now" was refused and not yet rolled back
  )

  datatype Event =
    // the launch, under the start lock
    | ChooseHead(job: nat, wanted: seq<int>)
    | ConfigMissing(job: nat)
    | StartNow(job: nat)
    | Acquire
    | FailBeforeSpawn
    | Spawn
    | WriteRow
    | Bind
    | KillDoomed
    | MarkFailed
    // job rows
    | Create(job: nat, state: JobState)
    | Promote(job: nat)
    | Stop(job: nat, killed: bool)
    | Poll(job: nat, outcome: JobState)
    | Dequeue(job: nat)
    | Delete(job: nat)
    | Requeue(job: nat, state: JobState)
    | Undo(job: nat, previous: Option<JobState>)
    // processes, leases, the workflow lane, the server
    | Exit(pid: Pid)
    | Reap(freed: set<Holder>)
    | WfAcquire(workflow: nat, node: string, wanted: seq<int>)
    | WfBind(workflow: nat, node: string, boundPid: Pid)
    | WfRelease(workflow: nat, node: string)
    | WfSpawn
    | WfExit(pid: Pid)
    | WfCreate(workflow: nat)
    | WfDelete(workflow: nat)
    | Crash(freed: set<Holder>)

  predicate Active(state: JobState) {
    state.Running? || state.Stopping?
  }

  predicate Terminal(state: JobState) {
    state.Finished? || state.Stopped? || state.Failed?
  }

  function WorldOf(s: State): World {
    World(s.jobs, s.workflows, s.live.Keys + s.wfLive)
  }

  predicate InState(s: State, job: nat, state: JobState) {
    job in s.jobs && s.jobs[job].state == state
  }

  /** Can the event happen? The guards are the ones the code checks. */
  ghost predicate CanHappen(s: State, e: Event) {
    match e
    case ChooseHead(j, _) =>
      s.launch.Idle? && InState(s, j, Pending) && forall k :: k in s.jobs ==> !Active(s.jobs[k].state)
    case ConfigMissing(j) => s.launch.Idle? && InState(s, j, Pending)
    case StartNow(_) => s.launch.Idle?
    case Acquire => s.launch.Chosen?
    case FailBeforeSpawn => s.launch.Acquired?
    case Spawn => s.launch.Acquired?
    case WriteRow => s.launch.Spawned?
    case Bind => s.launch.Written?
    case KillDoomed => s.launch.Doomed?
    case MarkFailed => s.launch.Killed?
    case Create(j, st) => j !in s.jobs && (st.New? || st.Pending?)
    case Promote(j) => InState(s, j, New)
    case Stop(j, _) => j in s.jobs
    case Poll(j, outcome) =>
      && j in s.jobs && Active(s.jobs[j].state) && (outcome.Finished? || outcome.Failed?)
      && (s.jobs[j].pid.Some? ==> s.jobs[j].pid.value !in WorldOf(s).alive)
    case Dequeue(j) => InState(s, j, Pending)
    case Delete(j) => j in s.jobs && !Active(s.jobs[j].state)
    case Requeue(j, st) => j in s.jobs && !Active(s.jobs[j].state) && (st.New? || st.Pending?)
    case Undo(j, previous) => j in s.refused && (previous.Some? ==> Terminal(previous.value))
    case Exit(p) => p in s.live
    case Reap(freed) => MayFree(WorldOf(s), s.leases, freed)
    case WfAcquire(_, _, wanted) => Free(s.leases, Resolve(s.known, wanted))
    case WfBind(_, _, _) => true
    case WfRelease(_, _) => true
    case WfSpawn => true
    case WfExit(p) => p in s.wfLive
    case WfCreate(_) => true
    case WfDelete(_) => true
    case Crash(freed) => MayFree(WorldOf(s), s.leases, freed)
  }

  function SetState(jobs: map<nat, JobRow>, job: nat, state: JobState): map<nat, JobRow> {
    if job in jobs then jobs[job := jobs[job].(state := state)] else jobs
  }

  function SetRow(jobs: map<nat, JobRow>, job: nat, row: JobRow): map<nat, JobRow> {
    if job in jobs then jobs[job := row] else jobs
  }

  /** `acquire`; refused, a queue head stays pending and an explicit start is rolled back later. */
  function AfterAcquire(s: State): State
    requires s.launch.Chosen?
  {
    var l := s.launch;
    if Free(s.leases, l.devices) then
      s.(leases := Inserted(s.leases, JobHolder(l.job), l.devices), launch := Acquired(l.job, l.devices))
    else s.(launch := Idle, refused := if l.explicit then s.refused + {l.job} else s.refused)
  }

  /** `update_job(state="running", pid)` raises for a missing row; the caller then frees the lease. */
  function AfterWriteRow(s: State): State
    requires s.launch.Spawned?
  {
    var l := s.launch;
    if l.job in s.jobs then
      s.(jobs := s.jobs[l.job := JobRow(Running, Some(l.pid))], launch := Written(l.job, l.devices, l.pid))
    else s.(leases := Without(s.leases, {JobHolder(l.job)}), launch := Idle)
  }

  function AfterBind(s: State): State
    requires s.launch.Written?
  {
    var l := s.launch;
    if Owned(s.leases, JobHolder(l.job)) != {} then
      s.(leases := Bound(s.leases, JobHolder(l.job), l.pid), launch := Idle)
    else s.(launch := Doomed(l.job, l.devices, l.pid))
  }

  function AfterStop(s: State, job: nat, killed: bool): State
    requires job in s.jobs
  {
    match s.jobs[job].pid
    case None => s.(jobs := SetState(s.jobs, job, Stopped))
    case Some(pid) =>
      s.(jobs := SetState(s.jobs, job, Stopping), live := if killed then s.live - {pid} else s.live)
  }

  function AfterPoll(s: State, job: nat, outcome: JobState): State
    requires job in s.jobs
  {
    var final := if s.jobs[job].state.Stopping? then Stopped else outcome;
    s.(jobs := s.jobs[job := JobRow(final, None)], leases := Without(s.leases, {JobHolder(job)}))
  }

  function Next(s: State, e: Event): State
    requires CanHappen(s, e)
  {
    match e
    case ChooseHead(j, wanted) => s.(launch := Chosen(j, Resolve(s.known, wanted), false))
    case ConfigMissing(j) => s.(jobs := SetState(s.jobs, j, Failed))
    case StartNow(j) => s.(launch := Chosen(j, Resolve(s.known, []), true))
    case Acquire => AfterAcquire(s)
    case FailBeforeSpawn => s.(leases := Without(s.leases, {JobHolder(s.launch.job)}), launch := Idle)
    case Spawn =>
      s.(live := s.live[s.nextPid := Proc(s.launch.job, s.launch.devices)], nextPid := s.nextPid + 1,
         launch := Spawned(s.launch.job, s.launch.devices, s.nextPid))
    case WriteRow => AfterWriteRow(s)
    case Bind => AfterBind(s)
    case KillDoomed => s.(live := s.live - {s.launch.pid}, launch := Killed(s.launch.job))
    case MarkFailed => s.(jobs := SetRow(s.jobs, s.launch.job, JobRow(Failed, None)), launch := Idle)
    case Create(j, st) => s.(jobs := s.jobs[j := JobRow(st, None)])
    case Promote(j) => s.(jobs := SetState(s.jobs, j, Pending))
    case Stop(j, killed) => AfterStop(s, j, killed)
    case Poll(j, outcome) => AfterPoll(s, j, outcome)
    case Dequeue(j) => s.(jobs := SetState(s.jobs, j, New))
    case Delete(j) => s.(jobs := s.jobs - {j})
    case Requeue(j, st) => s.(jobs := s.jobs[j := JobRow(st, None)])
    case Undo(j, previous) =>
      s.(jobs := if previous.Some? then SetRow(s.jobs, j, JobRow(previous.value, None)) else s.jobs - {j},
         refused := s.refused - {j})
    case Exit(p) => s.(live := s.live - {p})
    case Reap(freed) => s.(leases := Without(s.leases, freed))
    case WfAcquire(w, node, wanted) =>
      s.(leases := Inserted(s.leases, WorkflowHolder(w, node), Resolve(s.known, wanted)))
    case WfBind(w, node, p) => s.(leases := Bound(s.leases, WorkflowHolder(w, node), p))
    case WfRelease(w, node) => s.(leases := Without(s.leases, {WorkflowHolder(w, node)}))
    case WfSpawn => s.(wfLive := s.wfLive + {s.nextPid}, nextPid := s.nextPid + 1)
    case WfExit(p) => s.(wfLive := s.wfLive - {p})
    case WfCreate(w) => s.(workflows := s.workflows + {w})
    case WfDelete(w) => s.(workflows := s.workflows - {w})
    case Crash(freed) => s.(leases := BoundOnly(Without(s.leases, freed)), launch := Idle, refused := {})
  }

  // ---------------------------------------------------------------- the invariant

  /** The process the launch in flight has started. */
  function InFlight(launch: Launch): Option<Pid> {
    match launch
    case Spawned(_, _, p) => Some(p)
    case Written(_, _, p) => Some(p)
    case Doomed(_, _, p) => Some(p)
    case _ => None
  }

  /** The row says that process `p` is running for the job. */
  ghost predicate RowRuns(jobs: map<nat, JobRow>, job: nat, p: Pid) {
    job in jobs && Active(jobs[job].state) && jobs[job].pid == Some(p)
  }

  ghost predicate Covers(leases: Leases, holder: Holder, devices: set<int>) {
    forall d | d in devices :: d in leases && leases[d].holder == holder
  }

  /** Every lease of the holder is bound to `p`. */
  ghost predicate AllBoundTo(leases: Leases, holder: Holder, p: Pid) {
    forall d | d in leases && leases[d].holder == holder :: leases[d].pid == Some(p)
  }

  /** A live process whose row is active and whose job holds all its devices, bound to it. */
  ghost predicate Protected(jobs: map<nat, JobRow>, leases: Leases, proc: Proc, p: Pid) {
    && RowRuns(jobs, proc.job, p)
    && Covers(leases, JobHolder(proc.job), proc.devices)
    && AllBoundTo(leases, JobHolder(proc.job), p)
  }

  ghost predicate ProcessesOk(s: State) {
    && (forall p | p in s.live :: s.live[p].devices != {} && s.live[p].devices <= Indices(s.known))
    && (forall p, q | p in s.live && q in s.live :: p == q)
    && (forall p | p in s.live && InFlight(s.launch) != Some(p) :: Protected(s.jobs, s.leases, s.live[p], p))
  }

  /** The launching job holds nothing, or all its devices, still unbound. */
  ghost predicate Pinned(leases: Leases, job: nat, devices: set<int>) {
    || Owned(leases, JobHolder(job)) == {}
    || forall d | d in devices :: d in leases && leases[d].holder == JobHolder(job) && leases[d].pid == None
  }

  ghost predicate OnlyLive(live: map<Pid, Proc>, p: Pid, job: nat, devices: set<int>) {
    (forall q | q in live :: q == p) && (p in live ==> live[p] == Proc(job, devices))
  }

  ghost predicate LaunchOk(s: State) {
    match s.launch
    case Idle => true
    case Chosen(_, devices, _) =>
      devices != {} && devices <= Indices(s.known) && (devices == Indices(s.known) || s.live == map[])
    case Acquired(j, devices) =>
      devices != {} && devices <= Indices(s.known) && s.live == map[] && Pinned(s.leases, j, devices)
    case Spawned(j, devices, p) => devices != {} && OnlyLive(s.live, p, j, devices) && Pinned(s.leases, j, devices)
    case Written(j, devices, p) =>
      && devices != {} && OnlyLive(s.live, p, j, devices) && Pinned(s.leases, j, devices)
      && (p in s.live && Owned(s.leases, JobHolder(j)) != {} ==> RowRuns(s.jobs, j, p))
    case Doomed(j, devices, p) =>
      devices != {} && OnlyLive(s.live, p, j, devices) && Owned(s.leases, JobHolder(j)) == {}
    case Killed(_) => s.live == map[]
  }

  /** May the job hold unbound leases? Only while it is being launched. */
  predicate Launching(launch: Launch, job: nat) {
    (launch.Acquired? || launch.Spawned? || launch.Written?) && launch.job == job
  }

  ghost predicate LeasesOk(s: State) {
    && s.known != []
    && Intact(s.known, s.leases)
    && (forall d | d in s.leases && s.leases[d].holder.JobHolder? && s.leases[d].pid.None? ::
          Launching(s.launch, s.leases[d].holder.job))
  }

  ghost predicate Inv(s: State) {
    ProcessesOk(s) && LaunchOk(s) && LeasesOk(s)
  }

  /**
   * The three events the protocol does not survive, each with the guard that makes it harmless:
   * the row is gone when the launch writes it, the server dies while a launched process is not
   * bound yet, and a refused "start now" is rolled back over a row that has been started meanwhile.
   */
  ghost predicate Benign(s: State, e: Event) {
    match e
    case WriteRow => s.launch.Spawned? ==> s.launch.pid !in s.live || s.launch.job in s.jobs
    case Crash(_) => InFlight(s.launch).Some? ==> InFlight(s.launch).value !in s.live
    case Undo(j, _) => forall p | p in s.live && s.live[p].job == j :: Expendable(s)
    case _ => true
  }

  /** The launch will still write the row of its process, or kill the process. */
  predicate Expendable(s: State) {
    s.launch.Spawned? || s.launch.Doomed? || (s.launch.Written? && Owned(s.leases, JobHolder(s.launch.job)) == {})
  }

  // ---------------------------------------------------------------- changes that keep the invariant

  /** Rows may change in any way that leaves the rows of running processes running. */
  lemma RowsMayChange(s: State, jobs: map<nat, JobRow>)
    requires Inv(s)
    requires forall j, p | RowRuns(s.jobs, j, p) && p in s.live && s.live[p].job == j && !Expendable(s) ::
               RowRuns(jobs, j, p)
    ensures Inv(s.(jobs := jobs))
  {
    hide Intact, Indices, Pinned, Covers, AllBoundTo;
    var t := s.(jobs := jobs);
    forall p | p in t.live && InFlight(t.launch) != Some(p) ensures Protected(t.jobs, t.leases, t.live[p], p) {
      assert Protected(s.jobs, s.leases, s.live[p], p);
    }
  }

  /** Whole holders may lose their leases when they have no process but the one being launched. */
  lemma LeasesMayGo(s: State, freed: set<Holder>)
    requires Inv(s)
    requires forall p | p in s.live && InFlight(s.launch) != Some(p) :: JobHolder(s.live[p].job) !in freed
    ensures Inv(s.(leases := Without(s.leases, freed)))
  {
    hide RowRuns, Indices, Intact, Pinned, OnlyLive;
    var t := s.(leases := Without(s.leases, freed));
    forall p | p in t.live && InFlight(t.launch) != Some(p) ensures Protected(t.jobs, t.leases, t.live[p], p) {
      assert Protected(s.jobs, s.leases, s.live[p], p);
    }
    WithoutStaysIntact(s.known, s.leases, freed);
    forall j, devices | Pinned(s.leases, j, devices) ensures Pinned(t.leases, j, devices) {
      PinnedWithout(s.leases, j, devices, freed);
    }
  }

  lemma WithoutStaysIntact(known: seq<int>, leases: Leases, freed: set<Holder>)
    requires Intact(known, leases)
    ensures Intact(known, Without(leases, freed))
  {
  }

  lemma PinnedWithout(leases: Leases, j: nat, devices: set<int>, freed: set<Holder>)
    requires Pinned(leases, j, devices)
    ensures Pinned(Without(leases, freed), j, devices)
  {
  }

  /** Processes may end. */
  lemma ProcessesMayEnd(s: State, live: map<Pid, Proc>)
    requires Inv(s)
    requires forall p | p in live :: p in s.live && live[p] == s.live[p]
    ensures Inv(s.(live := live))
  {
    hide Intact, Indices, Pinned, Covers, AllBoundTo, RowRuns;
    var t := s.(live := live);
    forall p | p in t.live && InFlight(t.launch) != Some(p) ensures Protected(t.jobs, t.leases, t.live[p], p) {
      assert Protected(s.jobs, s.leases, s.live[p], p);
    }
    if s.live == map[] {
      assert live == map[];
    }
  }

  lemma NothingElseMatters(s: State, workflows: set<nat>, wfLive: set<Pid>, nextPid: Pid, refused: set<nat>)
    requires Inv(s)
    ensures Inv(s.(workflows := workflows, wfLive := wfLive, nextPid := nextPid, refused := refused))
  {
  }

  // ---------------------------------------------------------------- the steps of the launch

  /** No launch in flight and no active row means no process. */
  lemma NoRunnerMeansNoProcess(s: State)
    requires Inv(s) && InFlight(s.launch).None? && forall k :: k in s.jobs ==> !Active(s.jobs[k].state)
    ensures s.live == map[]
  {
  }

  /** Nothing leased means no process outside the launch. */
  lemma NothingLeasedMeansNoProcess(s: State)
    requires Inv(s) && InFlight(s.launch).None? && Free(s.leases, Indices(s.known))
    ensures s.live == map[]
  {
    hide RowRuns, AllBoundTo;
    forall p | p in s.live ensures false {
      HasElement(s.live[p].devices);
    }
  }

  lemma StepChoose(s: State, e: Event)
    requires Inv(s) && CanHappen(s, e) && (e.ChooseHead? || e.StartNow?)
    ensures Inv(Next(s, e))
  {
    hide Intact, Protected;
    if e.ChooseHead? {
      NoRunnerMeansNoProcess(s);
    } else {
      assert Resolve(s.known, []) == Indices(s.known);
    }
    hide Indices, Resolve;
  }

  lemma FreshGrantIsPinned(leases: Leases, job: nat, devices: set<int>)
    ensures Pinned(Inserted(leases, JobHolder(job), devices), job, devices)
  {
  }

  /**
   * Acquiring takes all the devices or none. It succeeds exactly when they are free, and they are the
   * job's from then on; a refusal touches no lease, process or job.
   */
  lemma StepAcquire(s: State)
    requires Inv(s) && s.launch.Chosen?
    ensures Inv(AfterAcquire(s))
    ensures var l, t := s.launch, AfterAcquire(s);
            && t.live == s.live && t.jobs == s.jobs
            && (t.launch.Acquired? <==> Free(s.leases, l.devices))
            && (t.launch.Acquired? ==> forall d :: d in t.leases <==> d in s.leases || d in l.devices)
            && (t.launch.Acquired? ==> forall d | d in l.devices :: t.leases[d].holder == JobHolder(l.job))
            && (!t.launch.Acquired? ==> t.leases == s.leases && t.launch == Idle)
  {
    hide Intact, Protected, Pinned, Inserted, Resolve;
    var l := s.launch;
    if Free(s.leases, l.devices) {
      if l.devices == Indices(s.known) {
        NothingLeasedMeansNoProcess(s);
      }
      assert s.live == map[];
      hide Free, Indices;
      InsertKeepsIntact(s.known, s.leases, JobHolder(l.job), l.devices);
      FreshGrantIsPinned(s.leases, l.job, l.devices);
      InsertedRows(s.leases, JobHolder(l.job), l.devices);
    }
  }

  lemma InsertedRows(leases: Leases, holder: Holder, devices: set<int>)
    ensures forall d :: d in Inserted(leases, holder, devices) <==> d in leases || d in devices
    ensures forall d | d in Inserted(leases, holder, devices) ::
              Inserted(leases, holder, devices)[d] == if d in devices then Lease(holder, None, devices) else leases[d]
  {
  }

  lemma StepSpawn(s: State)
    requires Inv(s) && s.launch.Acquired?
    ensures Inv(Next(s, Spawn)) && Inv(Next(s, FailBeforeSpawn))
  {
    WithoutStaysIntact(s.known, s.leases, {JobHolder(s.launch.job)});
    hide Intact, Protected, Pinned, Indices;
    assert s.live == map[];
    var t := Next(s, Spawn);
    assert forall p | p in t.live :: p == s.nextPid;
  }

  /** Writing the row keeps the invariant exactly when the row is there or the process already died. */
  lemma StepWriteRow(s: State)
    requires Inv(s) && s.launch.Spawned?
    ensures Inv(AfterWriteRow(s)) <==> Benign(s, WriteRow)
  {
    WithoutStaysIntact(s.known, s.leases, {JobHolder(s.launch.job)});
    hide Intact, Pinned, Indices, Covers, AllBoundTo;
    var l, t := s.launch, AfterWriteRow(s);
    if l.job !in s.jobs && l.pid in s.live {
      assert !Protected(t.jobs, t.leases, t.live[l.pid], l.pid);
    }
  }

  lemma BindCovers(s: State)
    requires Inv(s) && s.launch.Written? && Owned(s.leases, JobHolder(s.launch.job)) != {} && s.launch.pid in s.live
    ensures Protected(
              s.jobs, Bound(s.leases, JobHolder(s.launch.job), s.launch.pid), s.live[s.launch.pid], s.launch.pid)
  {
  }

  lemma BoundStaysIntact(known: seq<int>, leases: Leases, holder: Holder, pid: Pid)
    requires Intact(known, leases)
    ensures Intact(known, Bound(leases, holder, pid))
  {
  }

  lemma StepBind(s: State)
    requires Inv(s) && s.launch.Written?
    ensures Inv(AfterBind(s))
  {
    var l := s.launch;
    BoundStaysIntact(s.known, s.leases, JobHolder(l.job), l.pid);
    if Owned(s.leases, JobHolder(l.job)) != {} {
      if l.pid in s.live {
        BindCovers(s);
      }
    } else {
      assert forall d | d in s.leases ::
        s.leases[d].holder == JobHolder(l.job) ==> d in Owned(s.leases, JobHolder(l.job));
    }
    hide Intact, Indices, Protected, Owned, RowRuns, Pinned;
  }

  lemma StepDoomed(s: State)
    requires Inv(s)
    ensures s.launch.Doomed? ==> Inv(Next(s, KillDoomed))
    ensures s.launch.Killed? ==> Inv(Next(s, MarkFailed))
  {
    hide Intact, Indices, Protected, Pinned;
    if s.launch.Doomed? {
      assert s.live - {s.launch.pid} == map[];
    }
  }

  // ---------------------------------------------------------------- the other events

  lemma StepRows(s: State, e: Event)
    requires Inv(s) && CanHappen(s, e)
    requires e.ConfigMissing? || e.Create? || e.Promote? || e.Dequeue? || e.Delete? || e.Requeue?
    ensures Inv(Next(s, e))
  {
    RowsMayChange(s, Next(s, e).jobs) by { hide Inv; }
    hide Inv;
  }

  lemma StepStop(s: State, job: nat, killed: bool)
    requires Inv(s) && job in s.jobs
    ensures Inv(AfterStop(s, job, killed))
  {
    hide Inv;
    var t := AfterStop(s, job, killed);
    RowsMayChange(s, t.jobs);
    ProcessesMayEnd(s.(jobs := t.jobs), t.live);
  }

  /** A job whose process died has none: the poll may free its leases. */
  lemma StepPoll(s: State, job: nat, outcome: JobState)
    requires Inv(s) && CanHappen(s, Poll(job, outcome))
    ensures Inv(AfterPoll(s, job, outcome))
  {
    hide Intact, Indices, Pinned, Covers, AllBoundTo;
    var t := AfterPoll(s, job, outcome);
    forall p | p in s.live && InFlight(s.launch) != Some(p) ensures s.live[p].job != job {
      assert Protected(s.jobs, s.leases, s.live[p], p);
    }
    hide Inv, WorldOf;
    RowsMayChange(s, t.jobs);
    LeasesMayGo(s.(jobs := t.jobs), {JobHolder(job)});
  }

  /** Rolling a refused start back keeps the invariant exactly when the job was not started meanwhile. */
  lemma StepUndo(s: State, job: nat, previous: Option<JobState>)
    requires Inv(s) && CanHappen(s, Undo(job, previous))
    ensures Inv(Next(s, Undo(job, previous))) <==> Benign(s, Undo(job, previous))
  {
    var t := Next(s, Undo(job, previous));
    if Benign(s, Undo(job, previous)) {
      hide Inv;
      RowsMayChange(s, t.jobs);
      NothingElseMatters(s.(jobs := t.jobs), s.workflows, s.wfLive, s.nextPid, t.refused);
    } else {
      hide Intact, Indices, Pinned, Covers, AllBoundTo;
      var p :| p in s.live && s.live[p].job == job && !Expendable(s);
      assert !RowRuns(t.jobs, job, p);
      if InFlight(s.launch) != Some(p) {
        assert !Protected(t.jobs, t.leases, t.live[p], p);
      }
    }
  }

  /** A reap frees no holder whose process is protected. */
  lemma ReapSparesProtected(s: State, freed: set<Holder>, p: Pid)
    requires p in s.live && Protected(s.jobs, s.leases, s.live[p], p)
    requires MayFree(WorldOf(s), s.leases, freed)
    ensures JobHolder(s.live[p].job) !in freed
  {
  }

  lemma StepReap(s: State, freed: set<Holder>)
    requires Inv(s) && MayFree(WorldOf(s), s.leases, freed)
    ensures Inv(s.(leases := Without(s.leases, freed)))
  {
    hide Intact, Indices, Pinned, Protected, MayFree, WorldOf;
    forall p | p in s.live && InFlight(s.launch) != Some(p) ensures JobHolder(s.live[p].job) !in freed {
      ReapSparesProtected(s, freed, p);
    }
    LeasesMayGo(s, freed);
  }

  /** Another holder's rows do not matter to a job. */
  lemma OthersRows(jobs: map<nat, JobRow>, leases: Leases, after: Leases, job: nat)
    requires forall d | d in leases && leases[d].holder == JobHolder(job) :: d in after && after[d] == leases[d]
    requires forall d | d in after && after[d].holder == JobHolder(job) :: d in leases && after[d] == leases[d]
    ensures forall proc: Proc, p: Pid | proc.job == job && Protected(jobs, leases, proc, p) ::
              Protected(jobs, after, proc, p)
    ensures forall devices | Pinned(leases, job, devices) :: Pinned(after, job, devices)
    ensures Owned(leases, JobHolder(job)) == Owned(after, JobHolder(job))
  {
    hide RowRuns;
    assert forall d: int :: d in Owned(leases, JobHolder(job)) <==> d in Owned(after, JobHolder(job));
    assert Owned(leases, JobHolder(job)) == Owned(after, JobHolder(job));
  }

  /** The workflow lane may change its own rows. */
  lemma WorkflowRowsMayChange(s: State, after: Leases)
    requires Inv(s) && Intact(s.known, after)
    requires forall d | d in s.leases && s.leases[d].holder.JobHolder? :: d in after && after[d] == s.leases[d]
    requires forall d | d in after && after[d].holder.JobHolder? :: d in s.leases && after[d] == s.leases[d]
    ensures Inv(s.(leases := after))
  {
    hide Intact, Indices, Pinned, Protected, Owned;
    forall p | p in s.live && InFlight(s.launch) != Some(p) ensures Protected(s.jobs, after, s.live[p], p) {
      assert Protected(s.jobs, s.leases, s.live[p], p);
      OthersRows(s.jobs, s.leases, after, s.live[p].job);
    }
    if !s.launch.Idle? {
      OthersRows(s.jobs, s.leases, after, s.launch.job);
    }
  }

  lemma StepWorkflow(s: State, e: Event)
    requires Inv(s) && CanHappen(s, e) && (e.WfAcquire? || e.WfBind? || e.WfRelease?)
    ensures Inv(Next(s, e))
  {
    var op :=
      match e
      case WfAcquire(w, node, wanted) => DoAcquire(WorkflowHolder(w, node), wanted)
      case WfBind(w, node, p) => DoBind(WorkflowHolder(w, node), p)
      case WfRelease(w, node) => DoRelease({WorkflowHolder(w, node)})
      case _ => DoSweep;
    ApplyKeepsIntact(s.known, s.leases, op);
    hide Intact, Resolve;
    WorkflowRowsMayChange(s, Next(s, e).leases);
    hide Inv;
  }

  // ---------------------------------------------------------------- a server crash

  lemma BoundRowsSurvive(jobs: map<nat, JobRow>, leases: Leases, proc: Proc, p: Pid)
    requires Protected(jobs, leases, proc, p)
    ensures Protected(jobs, BoundOnly(leases), proc, p)
  {
  }

  lemma UnboundRowsGo(jobs: map<nat, JobRow>, leases: Leases, proc: Proc, p: Pid)
    requires Pinned(leases, proc.job, proc.devices) && proc.devices != {}
    ensures !Protected(jobs, BoundOnly(leases), proc, p)
  {
    hide RowRuns;
    HasElement(proc.devices);
    var d: int :| d in proc.devices;
    assert Owned(leases, JobHolder(proc.job)) == {} ==>
             d !in BoundOnly(leases) || leases[d].holder != JobHolder(proc.job) by {
      assert d in leases && leases[d].holder == JobHolder(proc.job) ==> d in Owned(leases, JobHolder(proc.job));
    }
  }

  lemma InFlightIsPinned(s: State, p: Pid)
    requires Inv(s) && InFlight(s.launch) == Some(p) && p in s.live
    ensures Pinned(s.leases, s.live[p].job, s.live[p].devices) && s.live[p].devices != {}
  {
  }

  /** A restart keeps the invariant exactly when no launched process was still waiting for its lease. */
  lemma StepCrash(s: State, freed: set<Holder>)
    requires Inv(s) && MayFree(WorldOf(s), s.leases, freed)
    ensures Inv(Next(s, Crash(freed))) <==> Benign(s, Crash(freed))
  {
    StepReap(s, freed);
    var r, t := s.(leases := Without(s.leases, freed)), Next(s, Crash(freed));
    ApplyKeepsIntact(s.known, r.leases, DoSweep);
    hide Intact, Indices, Pinned, Protected, MayFree, WorldOf, Without;
    if Benign(s, Crash(freed)) {
      forall p | p in t.live ensures Protected(t.jobs, t.leases, t.live[p], p) {
        BoundRowsSurvive(r.jobs, r.leases, r.live[p], p);
      }
    } else {
      var p := InFlight(s.launch).value;
      InFlightIsPinned(r, p);
      UnboundRowsGo(r.jobs, r.leases, r.live[p], p);
    }
  }

  // ---------------------------------------------------------------- every event, every run

  lemma StepElsewhere(s: State, e: Event)
    requires Inv(s) && CanHappen(s, e)
    requires e.WfSpawn? || e.WfExit? || e.WfCreate? || e.WfDelete? || e.Exit?
    ensures Inv(Next(s, e))
  {
    hide Inv;
    var t := Next(s, e);
    if e.Exit? {
      ProcessesMayEnd(s, t.live);
    } else {
      NothingElseMatters(s, t.workflows, t.wfLive, t.nextPid, t.refused);
    }
  }

  /** The invariant survives an event exactly when the event is benign. */
  lemma InvariantKeptExactlyByBenignEvents(s: State, e: Event)
    requires Inv(s) && CanHappen(s, e)
    ensures Inv(Next(s, e)) <==> Benign(s, e)
  {
    hide Inv;
    match e
    case ChooseHead(_, _) => StepChoose(s, e);
    case StartNow(_) => StepChoose(s, e);
    case Acquire => StepAcquire(s);
    case FailBeforeSpawn => StepSpawn(s);
    case Spawn => StepSpawn(s);
    case WriteRow => StepWriteRow(s);
    case Bind => StepBind(s);
    case KillDoomed => StepDoomed(s);
    case MarkFailed => StepDoomed(s);
    case Stop(j, killed) => StepStop(s, j, killed);
    case Poll(j, outcome) => StepPoll(s, j, outcome);
    case Undo(j, previous) => StepUndo(s, j, previous);
    case Reap(freed) => StepReap(s, freed);
    case WfAcquire(_, _, _) => StepWorkflow(s, e);
    case WfBind(_, _, _) => StepWorkflow(s, e);
    case WfRelease(_, _) => StepWorkflow(s, e);
    case Crash(freed) => StepCrash(s, freed);
    case WfSpawn => StepElsewhere(s, e);
    case WfExit(_) => StepElsewhere(s, e);
    case WfCreate(_) => StepElsewhere(s, e);
    case WfDelete(_) => StepElsewhere(s, e);
    case Exit(_) => StepElsewhere(s, e);
    case _ => StepRows(s, e);
  }

  /** A server that has just started for the first time. Job rows may be anything. */
  ghost predicate FreshStart(s: State) {
    s.known != [] && s.live == map[] && s.leases == map[] && s.launch.Idle? && s.refused == {}
  }

  ghost predicate IsRun(states: seq<State>, events: seq<Event>) {
    && |states| == |events| + 1
    && FreshStart(states[0])
    && forall i | 0 <= i < |events| :: CanHappen(states[i], events[i]) && states[i + 1] == Next(states[i], events[i])
  }

  ghost predicate BenignUpTo(states: seq<State>, events: seq<Event>, n: nat)
    requires IsRun(states, events) && n <= |events|
  {
    forall i | 0 <= i < n :: Benign(states[i], events[i])
  }

  /** The devices of a live process are leased to its job and bound to it. */
  ghost predicate Covered(s: State, p: Pid)
    requires p in s.live
  {
    forall d | d in s.live[p].devices ::
      d in s.leases && s.leases[d].holder == JobHolder(s.live[p].job) && s.leases[d].pid == Some(p)
  }

  /** At most one training process is alive, and only while it is being launched may it not be covered. */
  ghost predicate Safe(s: State) {
    && (forall p | p in s.live && InFlight(s.launch) != Some(p) :: Covered(s, p))
    && (forall p, q | p in s.live && q in s.live :: p == q)
    && Intact(s.known, s.leases)
    && (forall d | d in s.leases && s.leases[d].holder.JobHolder? && s.leases[d].pid.None? ::
          Launching(s.launch, s.leases[d].holder.job))
  }

  lemma InvIsSafe(s: State)
    requires Inv(s)
    ensures Safe(s)
    ensures s.launch.Killed? ==> s.live == map[]
  {
  }

  lemma {:induction false} InvariantAlongRun(states: seq<State>, events: seq<Event>, i: nat)
    requires IsRun(states, events) && i <= |events| && BenignUpTo(states, events, i)
    ensures Inv(states[i])
  {
    hide CanHappen, Next, Benign, Inv;
    if i == 0 {
      FreshStartIsFine(states[0]);
    } else {
      InvariantAlongRun(states, events, i - 1);
      InvariantKeptExactlyByBenignEvents(states[i - 1], events[i - 1]);
    }
  }

  lemma FreshStartIsFine(s: State)
    requires FreshStart(s)
    ensures Inv(s)
  {
  }

  /**
   * Safety of the launch protocol. Whatever is interleaved, as long as the events were benign: with
   * no launch in flight every live process is covered by bound leases on all its devices; during a
   * launch at most the process being launched is not; there is never a second live process; each
   * acquisition is whole or gone; and no job keeps an unbound lease after its launch.
   */
  lemma EveryBenignRunIsSafe(states: seq<State>, events: seq<Event>, i: nat)
    requires IsRun(states, events) && i <= |events| && BenignUpTo(states, events, i)
    ensures Safe(states[i])
    ensures states[i].launch.Idle? ==> forall p | p in states[i].live :: Covered(states[i], p)
    ensures states[i].launch.Killed? ==> states[i].live == map[]
  {
    InvariantAlongRun(states, events, i);
    InvIsSafe(states[i]);
    hide Inv, IsRun, BenignUpTo, Covered, Intact;
  }

  // ---------------------------------------------------------------- what a harmful event does

  /** The holders one reap may free, judged as harshly as possible. */
  ghost function AllGone(s: State): set<Holder> {
    set d | d in s.leases && SomeRowSays(WorldOf(s), s.leases, s.leases[d].holder, true) :: s.leases[d].holder
  }

  lemma HarshReapIsAllowed(s: State)
    ensures MayFree(WorldOf(s), s.leases, AllGone(s))
  {
    hide HolderIsGone, WorldOf;
    forall d | d in s.leases && s.leases[d].holder !in AllGone(s)
      ensures SomeRowSays(WorldOf(s), s.leases, s.leases[d].holder, false)
    {
      assert !RowSays(WorldOf(s), s.leases, s.leases[d].holder, true, d);
      assert RowSays(WorldOf(s), s.leases, s.leases[d].holder, false, d);
    }
  }

  /** Nothing is leased to the process's job on any of its devices: others may take them. */
  ghost predicate Uncovered(s: State, p: Pid)
    requires p in s.live
  {
    forall d | d in s.live[p].devices :: d in s.leases ==> s.leases[d].holder != JobHolder(s.live[p].job)
  }

  /** The launch, if any, runs to its end. */
  function BindIfWritten(s: State): State {
    if s.launch.Written? then AfterBind(s) else s
  }

  /** Writing a missing row, or restarting too early, leaves a process that holds nothing. */
  lemma LostLaunchUncoversItsProcess(s: State, e: Event)
    requires Inv(s) && CanHappen(s, e) && !Benign(s, e) && (e.WriteRow? || e.Crash?)
    ensures var t := Next(s, e);
            && t.launch.Idle?
            && InFlight(s.launch).Some? && InFlight(s.launch).value in t.live
            && Uncovered(t, InFlight(s.launch).value)
  {
    hide Intact, Indices, Protected, MayFree, WorldOf, Owned;
    var p := InFlight(s.launch).value;
    InFlightIsPinned(s, p);
    PinnedRows(s.leases, s.live[p].job, s.live[p].devices);
    hide Pinned;
  }

  lemma PinnedRows(leases: Leases, job: nat, devices: set<int>)
    requires Pinned(leases, job, devices)
    ensures forall d | d in devices && d in leases && leases[d].holder == JobHolder(job) :: leases[d].pid.None?
  {
    forall d | d in devices && d in leases && leases[d].holder == JobHolder(job) ensures leases[d].pid.None? {
      assert d in Owned(leases, JobHolder(job));
    }
  }

  /** Rolling back over a started run leaves a process whose leases the next reap frees. */
  lemma HarmfulUndoUncoversItsProcess(s: State, job: nat, previous: Option<JobState>) returns (p: Pid)
    requires Inv(s) && CanHappen(s, Undo(job, previous)) && !Benign(s, Undo(job, previous))
    ensures var t := BindIfWritten(Next(s, Undo(job, previous)));
            && (t.launch.Idle? || t.launch.Chosen?)
            && p in t.live
            && CanHappen(t, Reap(AllGone(t)))
            && Uncovered(Next(t, Reap(AllGone(t))), p)
  {
    p :| p in s.live && s.live[p].job == job && !Expendable(s);
    hide Intact, Indices, Protected;
    var t := BindIfWritten(Next(s, Undo(job, previous)));
    HarshReapIsAllowed(t);
    forall d | d in t.leases && t.leases[d].holder == JobHolder(job) ensures JobHolder(job) in AllGone(t) {
      assert RowSays(WorldOf(t), t.leases, JobHolder(job), true, d);
      assert SomeRowSays(WorldOf(t), t.leases, JobHolder(job), true);
    }
  }

  // ---------------------------------------------------------------- unbound leases have no timeout

  /** Job `j` is queued and the event is not its own launch's release or binding, nor a crash. */
  ghost predicate LeavesLaunchAlone(s: State, e: Event, j: nat) {
    && CanHappen(s, e) && InState(s, j, Pending)
    && !e.Crash?
    && (e.FailBeforeSpawn? || e.Bind? ==> s.launch.job != j)
  }

  ghost predicate Unbound(leases: Leases, j: nat) {
    forall d | d in leases && leases[d].holder == JobHolder(j) :: leases[d].pid.None?
  }

  lemma PendingIsNotReaped(s: State, freed: set<Holder>, j: nat)
    requires InState(s, j, Pending) && Unbound(s.leases, j) && MayFree(WorldOf(s), s.leases, freed)
    ensures JobHolder(j) !in freed
  {
  }

  lemma UnboundLeaseKept(s: State, e: Event, j: nat, d: int)
    requires LeavesLaunchAlone(s, e, j) && Unbound(s.leases, j)
    requires d in s.leases && s.leases[d].holder == JobHolder(j)
    ensures d in Next(s, e).leases && Next(s, e).leases[d] == s.leases[d]
    ensures Unbound(Next(s, e).leases, j)
  {
    hide MayFree, WorldOf, Resolve;
    if e.Reap? {
      PendingIsNotReaped(s, e.freed, j);
    }
  }

  /**
   * An unbound lease survives any number of reaps, and anything else that happens, for as long as
   * its job is queued and its own launch neither fails nor finishes.
   */
  lemma {:induction false} UnboundLeaseHasNoTimeout(
    states: seq<State>, events: seq<Event>, from: nat, n: nat, j: nat, d: int
  )
    requires |states| == |events| + 1 && from <= n <= |events|
    requires forall i | from <= i < n ::
               LeavesLaunchAlone(states[i], events[i], j) && states[i + 1] == Next(states[i], events[i])
    requires Unbound(states[from].leases, j)
    requires d in states[from].leases && states[from].leases[d].holder == JobHolder(j)
    ensures d in states[n].leases && states[n].leases[d] == states[from].leases[d] && Unbound(states[n].leases, j)
  {
    if from < n {
      UnboundLeaseHasNoTimeout(states, events, from, n - 1, j, d);
      hide CanHappen, Next, Unbound, InState, LeavesLaunchAlone;
      UnboundLeaseKept(states[n - 1], events[n - 1], j, d);
    }
  }
}
