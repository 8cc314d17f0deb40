/** What the job rows record over a run of the launch protocol, whatever is interleaved with it. */
module LaunchRows {
  import opened Values
  import opened GpuLease
  import opened LaunchProtocol

  /** A stretch of any run: each event could happen, and happened. */
  ghost predicate Happened(states: seq<State>, events: seq<Event>) {
    && |states| == |events| + 1
    && forall i | 0 <= i < |events| :: CanHappen(states[i], events[i]) && states[i + 1] == Next(states[i], events[i])
  }

  /** The launch in flight writes the job's row. */
  ghost predicate WritesRow(s: State, e: Event, j: nat) {
    e.WriteRow? && s.launch.Spawned? && s.launch.job == j && j in s.jobs
  }

  ghost predicate NotWritten(states: seq<State>, events: seq<Event>, from: nat, to: nat, j: nat)
    requires Happened(states, events) && from <= to <= |events|
  {
    forall a | from <= a < to :: !WritesRow(states[a], events[a], j)
  }

  ghost predicate StopAsked(events: seq<Event>, from: nat, to: nat, j: nat)
    requires from <= to <= |events|
  {
    exists a :: from <= a < to && events[a].Stop? && events[a].job == j
  }

  ghost predicate IsActive(s: State, j: nat) {
    j in s.jobs && (s.jobs[j].state.Running? || s.jobs[j].state.Stopping?)
  }

  /** Only an active row names a process. */
  ghost predicate Consistent(s: State, j: nat) {
    j in s.jobs && s.jobs[j].pid.Some? ==> IsActive(s, j)
  }

  /** Writing the row makes it run with the process that was started. */
  lemma WrittenRowRuns(s: State, j: nat)
    requires CanHappen(s, WriteRow) && WritesRow(s, WriteRow, j)
    ensures Next(s, WriteRow).jobs == s.jobs[j := JobRow(Running, Some(s.launch.pid))]
    ensures Next(s, WriteRow).leases == s.leases && Next(s, WriteRow).live == s.live
  {
  }

  /** An active row was active before, with the same process; only a stop changed what it says. */
  lemma ActiveRowStep(s: State, e: Event, j: nat)
    requires CanHappen(s, e) && !WritesRow(s, e, j) && Consistent(s, j)
    ensures Consistent(Next(s, e), j)
    ensures IsActive(Next(s, e), j) ==>
              && IsActive(s, j) && Next(s, e).jobs[j].pid == s.jobs[j].pid
              && Next(s, e).jobs[j].state == if e.Stop? && e.job == j then Stopping else s.jobs[j].state
  {
    hide MayFree, Free, Resolve, Bound, Without, BoundOnly, Inserted;
  }

  lemma {:induction false} ActiveRowSince(states: seq<State>, events: seq<Event>, from: nat, to: nat, j: nat)
    requires Happened(states, events) && from <= to <= |events|
    requires NotWritten(states, events, from, to, j) && Consistent(states[from], j)
    ensures Consistent(states[to], j)
    ensures IsActive(states[to], j) ==>
              && IsActive(states[from], j) && states[to].jobs[j].pid == states[from].jobs[j].pid
              && states[to].jobs[j].state
                 == if StopAsked(events, from, to, j) then Stopping else states[from].jobs[j].state
  {
    hide CanHappen, Next, WritesRow, Consistent, IsActive;
    if from < to {
      ActiveRowSince(states, events, from, to - 1, j);
      ActiveRowStep(states[to - 1], events[to - 1], j);
      if StopAsked(events, from, to - 1, j) {
        var a :| from <= a < to - 1 && events[a].Stop? && events[a].job == j;
        assert from <= a < to;
      }
      assert StopAsked(events, from, to, j)
        <==> StopAsked(events, from, to - 1, j) || (events[to - 1].Stop? && events[to - 1].job == j);
    }
  }

  /**
   * How a run is recorded to have ended, over any stretch of events: a poll writes Stopped if and only if
   * a stop of the job was asked for since its row was running, else the outcome it was given. It clears
   * the pid, frees the job's leases and touches nothing else.
   */
  lemma APollRecordsHowTheRunEnded(
    states: seq<State>, events: seq<Event>, from: nat, i: nat, j: nat, outcome: JobState
  )
    requires Happened(states, events) && from <= i < |events| && events[i] == Poll(j, outcome)
    requires j in states[from].jobs && states[from].jobs[j].state.Running?
    requires NotWritten(states, events, from, i, j)
    ensures var before, after := states[i], states[i + 1];
            && (after.jobs == before.jobs[j := JobRow(Stopped, None)] <==> StopAsked(events, from, i, j))
            && (after.jobs == before.jobs[j := JobRow(outcome, None)] <==> !StopAsked(events, from, i, j))
            && (forall d :: d in after.leases <==> d in before.leases && before.leases[d].holder != JobHolder(j))
            && (forall d | d in after.leases :: after.leases[d] == before.leases[d])
            && after.live == before.live && after.launch == before.launch && after.workflows == before.workflows
  {
    PollMeans(states[i], j, outcome);
    ActiveRowSince(states, events, from, i, j);
    var before, after := states[i], states[i + 1];
    assert after.jobs[j].state == if StopAsked(events, from, i, j) then Stopped else outcome;
  }

  lemma PollMeans(s: State, j: nat, outcome: JobState)
    requires CanHappen(s, Poll(j, outcome))
    ensures IsActive(s, j) && (outcome.Finished? || outcome.Failed?)
    ensures var t := Next(s, Poll(j, outcome));
            && t.jobs == s.jobs[j := JobRow(if s.jobs[j].state.Stopping? then Stopped else outcome, None)]
            && t.leases == Without(s.leases, {JobHolder(j)})
            && t == s.(jobs := t.jobs, leases := t.leases)
  {
  }

  /** A stop ends a job that has no process at once; otherwise it asks, and the row keeps its process. */
  lemma AStopEndsOrAsks(s: State, j: nat, killed: bool)
    requires CanHappen(s, Stop(j, killed))
    ensures var t := Next(s, Stop(j, killed));
            && t.leases == s.leases && t.launch == s.launch
            && t.jobs == (match s.jobs[j].pid
                          case None => s.jobs[j := JobRow(Stopped, None)]
                          case Some(p) => s.jobs[j := JobRow(Stopping, Some(p))])
            && t.live == (if killed && s.jobs[j].pid.Some? then s.live - {s.jobs[j].pid.value} else s.live)
  {
  }

  /** A finished job that is to start at once and finds no free device is, rolled back, what it was. */
  lemma ARefusedStartLeavesNothing(s: State, j: nat)
    requires s.launch.Idle? && j !in s.refused && j in s.jobs && s.jobs[j].pid == None
    requires s.jobs[j].state.Finished? || s.jobs[j].state.Stopped? || s.jobs[j].state.Failed?
    requires exists d :: d in Resolve(s.known, []) && d in s.leases
    ensures var queued, chosen := Requeue(j, Pending), StartNow(j);
            var undo := Undo(j, Some(s.jobs[j].state));
            && CanHappen(s, queued) && CanHappen(Next(s, queued), chosen)
            && CanHappen(Next(Next(s, queued), chosen), Acquire)
            && CanHappen(Next(Next(Next(s, queued), chosen), Acquire), undo)
            && Next(Next(Next(Next(s, queued), chosen), Acquire), undo) == s
  {
    hide Resolve, MayFree;
    var queued := Next(s, Requeue(j, Pending));
    var chosen := Next(queued, StartNow(j));
    assert !Free(chosen.leases, chosen.launch.devices);
    var refused := Next(chosen, Acquire);
    assert refused.refused - {j} == s.refused;
    assert refused.jobs[j := s.jobs[j]] == s.jobs;
  }

  /** A new job that is refused leaves no row. */
  lemma ARefusedNewJobLeavesNothing(s: State, j: nat)
    requires s.launch.Idle? && j !in s.refused && j !in s.jobs
    requires exists d :: d in Resolve(s.known, []) && d in s.leases
    ensures var created, chosen := Create(j, Pending), StartNow(j);
            && CanHappen(s, created) && CanHappen(Next(s, created), chosen)
            && CanHappen(Next(Next(s, created), chosen), Acquire)
            && CanHappen(Next(Next(Next(s, created), chosen), Acquire), Undo(j, None))
            && Next(Next(Next(Next(s, created), chosen), Acquire), Undo(j, None)) == s
  {
    hide Resolve, MayFree;
    var created := Next(s, Create(j, Pending));
    var chosen := Next(created, StartNow(j));
    assert !Free(chosen.leases, chosen.launch.devices);
    var refused := Next(chosen, Acquire);
    assert refused.refused - {j} == s.refused;
    assert refused.jobs - {j} == s.jobs;
  }

  /** A draft that is queued and taken back is the draft it was; without its config file it fails. */
  lemma WaitingIsUndoneOrFails(s: State, j: nat)
    requires s.launch.Idle? && j in s.jobs && s.jobs[j].state.New?
    ensures CanHappen(s, Promote(j)) && CanHappen(Next(s, Promote(j)), Dequeue(j))
    ensures Next(Next(s, Promote(j)), Dequeue(j)) == s
    ensures CanHappen(Next(s, Promote(j)), ConfigMissing(j))
    ensures Next(Next(s, Promote(j)), ConfigMissing(j)) == s.(jobs := s.jobs[j := JobRow(Failed, s.jobs[j].pid)])
  {
    hide Resolve, MayFree, Free;
    assert s.jobs[j := s.jobs[j]] == s.jobs;
  }

  /** A row made and deleted leaves nothing. */
  lemma MadeAndDeleted(s: State, j: nat, state: JobState)
    requires (state.New? || state.Pending?) && j !in s.jobs
    ensures CanHappen(s, Create(j, state)) && CanHappen(Next(s, Create(j, state)), Delete(j))
    ensures Next(s, Create(j, state)) == s.(jobs := s.jobs[j := JobRow(state, None)])
    ensures Next(Next(s, Create(j, state)), Delete(j)) == s
  {
    hide MayFree, Resolve, Free;
    assert s.jobs[j := JobRow(state, None)] - {j} == s.jobs;
  }

  /** A workflow made and deleted leaves nothing. */
  lemma WorkflowMadeAndDeleted(s: State, w: nat)
    requires w !in s.workflows
    ensures Next(s, WfCreate(w)).workflows == s.workflows + {w} && Next(Next(s, WfCreate(w)), WfDelete(w)) == s
  {
    hide MayFree, Resolve, Free;
    assert s.workflows + {w} - {w} == s.workflows;
  }

  /** An acquisition that the workflow lane gives back leaves nothing, when it held nothing before. */
  lemma WorkflowLeaseGivenBack(s: State, w: nat, node: string, wanted: seq<int>)
    requires CanHappen(s, WfAcquire(w, node, wanted)) && Owned(s.leases, WorkflowHolder(w, node)) == {}
    ensures Next(Next(s, WfAcquire(w, node, wanted)), WfRelease(w, node)) == s
  {
    hide MayFree, Resolve;
    AcquiredAndReleased(s.leases, WorkflowHolder(w, node), Resolve(s.known, wanted));
    hide Inserted, Without, Free, Owned;
  }

  lemma AcquiredAndReleased(leases: Leases, holder: Holder, devices: set<int>)
    requires Free(leases, devices) && Owned(leases, holder) == {}
    ensures Without(Inserted(leases, holder, devices), {holder}) == leases
  {
    forall d | d in leases ensures leases[d].holder != holder {
      assert d !in Owned(leases, holder);
    }
  }

  /** Pids in use lie below the next one. */
  ghost predicate PidsBelow(s: State) {
    (forall p | p in s.live :: p < s.nextPid) && (forall p | p in s.wfLive :: p < s.nextPid)
  }

  lemma ProcessesOf(s: State, e: Event)
    requires CanHappen(s, e)
    ensures var t := Next(s, e);
            && t.live.Keys <= s.live.Keys + (if e.Spawn? then {s.nextPid} else {})
            && t.wfLive <= s.wfLive + (if e.WfSpawn? then {s.nextPid} else {})
            && (if e.Spawn? || e.WfSpawn? then t.nextPid > s.nextPid else t.nextPid == s.nextPid)
  {
    hide MayFree, Free, Resolve, Bound, Without, BoundOnly, Inserted;
  }

  lemma StaysBelow(s: State, t: State, e: Event)
    requires PidsBelow(s)
    requires t.live.Keys <= s.live.Keys + (if e.Spawn? then {s.nextPid} else {})
    requires t.wfLive <= s.wfLive + (if e.WfSpawn? then {s.nextPid} else {})
    requires if e.Spawn? || e.WfSpawn? then t.nextPid > s.nextPid else t.nextPid == s.nextPid
    ensures PidsBelow(t)
  {
    assert forall p | p in t.live :: p in t.live.Keys;
    assert forall p | p in s.live.Keys :: p in s.live;
  }

  lemma NextPidIsFree(s: State)
    requires PidsBelow(s)
    ensures s.nextPid !in s.live && s.nextPid !in s.wfLive
  {
  }

  /** No event gives a process the pid of another. */
  lemma EveryProcessHasItsOwnPid(s: State, e: Event)
    requires CanHappen(s, e) && PidsBelow(s)
    ensures PidsBelow(Next(s, e))
    ensures s.nextPid !in s.live && s.nextPid !in s.wfLive
    ensures var t := Next(s, e);
            && t.live.Keys <= s.live.Keys + (if e.Spawn? then {s.nextPid} else {})
            && t.wfLive <= s.wfLive + (if e.WfSpawn? then {s.nextPid} else {})
  {
    hide CanHappen, Next, PidsBelow;
    ProcessesOf(s, e);
    StaysBelow(s, Next(s, e), e);
    NextPidIsFree(s);
  }

  /** Binding a workflow's lease names the process on its rows and on no other. */
  lemma AWorkflowBindsItsOwnRows(s: State, w: nat, node: string, p: Pid)
    ensures var t := Next(s, WfBind(w, node, p));
            && t == s.(leases := t.leases) && t.leases.Keys == s.leases.Keys
            && forall d | d in s.leases ::
                 t.leases[d] == if s.leases[d].holder == WorkflowHolder(w, node) then s.leases[d].(pid := Some(p))
                                else s.leases[d]
  {
    hide MayFree, Free, Resolve, Without, BoundOnly, Inserted;
  }
}
