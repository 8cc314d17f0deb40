/** The GPU lease table: one row per device, whose primary key is the mutex. */
module GpuLease {
  import opened Values

  type Pid = nat

  datatype JobState = New | Pending | Running | Stopping | Finished | Stopped | Failed

  datatype JobRow = JobRow(state: JobState, pid: Option<Pid>)

  datatype Holder = JobHolder(job: nat) | WorkflowHolder(workflow: nat, node: string)

  /** A row of the table. `grant` is history, not a column: the device set it was inserted with. */
  datatype Lease = Lease(holder: Holder, pid: Option<Pid>, grant: set<int>)

  type Leases = map<int, Lease>

  /** What the reaper consults: job rows, workflow rows, and the processes that are alive. */
  datatype World = World(jobs: map<nat, JobRow>, workflows: set<nat>, alive: set<Pid>)

  // ---------------------------------------------------------------- one operation on the table

  function Indices(devices: seq<int>): set<int> {
    set d | d in devices
  }

  /** No request, or one that names an unknown device, takes the whole host. */
  function Resolve(known: seq<int>, wanted: seq<int>): (devices: set<int>)
    ensures devices <= Indices(known)
    ensures known != [] ==> devices != {}
    ensures devices == Indices(known) || devices == Indices(wanted)
  {
    assert known != [] ==> known[0] in Indices(known);
    assert wanted != [] ==> wanted[0] in Indices(wanted);
    if wanted != [] && Indices(wanted) <= Indices(known) then Indices(wanted) else Indices(known)
  }

  /** The devices asked for when there are any and all are known, else every device of the host. */
  lemma ResolveMeans(known: seq<int>, wanted: seq<int>)
    ensures forall d ::
              d in Resolve(known, wanted)
              <==> d in if wanted != [] && (forall w | w in wanted :: w in known) then wanted else known
  {
    if wanted != [] {
      if forall w | w in wanted :: w in known {
        assert Indices(wanted) <= Indices(known);
      } else {
        var w :| w in wanted && w !in known;
        assert w in Indices(wanted) && w !in Indices(known);
      }
    }
  }

  predicate Free(leases: Leases, devices: set<int>) {
    devices !! leases.Keys
  }

  function Owned(leases: Leases, holder: Holder): set<int> {
    set d | d in leases && leases[d].holder == holder
  }

  function Put(leases: Leases, devices: set<int>, row: Lease): Leases {
    leases + map d | d in devices :: row
  }

  function Inserted(leases: Leases, holder: Holder, devices: set<int>): Leases {
    Put(leases, devices, Lease(holder, None, devices))
  }

  function Bound(leases: Leases, holder: Holder, pid: Pid): Leases {
    map d | d in leases ::
      if leases[d].holder == holder then leases[d].(pid := Some(pid)) else leases[d]
  }

  function Without(leases: Leases, holders: set<Holder>): Leases {
    map d | d in leases && leases[d].holder !in holders :: leases[d]
  }

  function BoundOnly(leases: Leases): Leases {
    map d | d in leases && leases[d].pid.Some? :: leases[d]
  }

  /** Job states in which a lease is legitimately held. */
  predicate HoldsLeases(state: JobState) {
    state.Pending? || state.Running? || state.Stopping?
  }

  /** `_holder_is_gone`. An unbound lease whose row is fine is never gone: there is no timeout. */
  predicate HolderIsGone(world: World, holder: Holder, pid: Option<Pid>) {
    || (holder.JobHolder? && !(holder.job in world.jobs && HoldsLeases(world.jobs[holder.job].state)))
    || (holder.WorkflowHolder? && holder.workflow !in world.workflows)
    || (pid.Some? && pid.value !in world.alive)
  }

  /** Row `d` of the holder says that the holder is gone, or that it is not. */
  predicate RowSays(world: World, leases: Leases, holder: Holder, gone: bool, d: int) {
    d in leases && leases[d].holder == holder && (HolderIsGone(world, holder, leases[d].pid) <==> gone)
  }

  ghost predicate SomeRowSays(world: World, leases: Leases, holder: Holder, gone: bool) {
    exists d :: RowSays(world, leases, holder, gone, d)
  }

  /**
   * A set of holders one reap may free: each holder is judged on one of its rows. Which row does not
   * matter when they agree on the pid.
   */
  ghost predicate MayFree(world: World, leases: Leases, freed: set<Holder>) {
    && (forall h | h in freed :: SomeRowSays(world, leases, h, true))
    && (forall d | d in leases && leases[d].holder !in freed :: SomeRowSays(world, leases, leases[d].holder, false))
  }

  lemma HasElement(devices: set<int>)
    ensures devices != {} <==> exists d: int :: d in devices
  {
    if forall d: int :: d !in devices {
      assert devices == {};
    }
  }

  lemma IndicesGrow(devices: seq<int>, i: nat)
    requires i < |devices|
    ensures Indices(devices[..i + 1]) == Indices(devices[..i]) + {devices[i]}
    ensures devices[i] in Indices(devices)
    ensures (forall j, k | 0 <= j < k < |devices| :: devices[j] != devices[k]) ==> devices[i] !in Indices(devices[..i])
  {
  }

  lemma PutOne(leases: Leases, devices: set<int>, row: Lease, d: int)
    ensures Put(leases, devices + {d}, row) == Put(leases, devices, row)[d := row]
    ensures d in Put(leases, devices, row) <==> d in leases || d in devices
  {
  }

  // ---------------------------------------------------------------- runs of the table

  datatype TableOp =
    | DoAcquire(holder: Holder, wanted: seq<int>)
    | DoBind(holder: Holder, pid: Pid)
    | DoRelease(holders: set<Holder>)
    | DoSweep

  function Apply(known: seq<int>, leases: Leases, op: TableOp): Leases {
    match op
    case DoAcquire(h, wanted) =>
      var devices := Resolve(known, wanted);
      if Free(leases, devices) then Inserted(leases, h, devices) else leases
    case DoBind(h, pid) => Bound(leases, h, pid)
    case DoRelease(holders) => Without(leases, holders)
    case DoSweep => BoundOnly(leases)
  }

  function ApplyAll(known: seq<int>, ops: seq<TableOp>): Leases {
    if ops == [] then map[] else Apply(known, ApplyAll(known, ops[..|ops| - 1]), ops[|ops| - 1])
  }

  /** Every row is there with the whole acquisition it came from, in the same state. */
  ghost predicate Intact(known: seq<int>, leases: Leases) {
    && leases.Keys <= Indices(known)
    && (forall d | d in leases :: d in leases[d].grant)
    && (forall d, e | d in leases && e in leases[d].grant :: e in leases && leases[e] == leases[d])
  }

  lemma InsertKeepsIntact(known: seq<int>, leases: Leases, holder: Holder, devices: set<int>)
    requires Intact(known, leases) && Free(leases, devices) && devices <= Indices(known)
    ensures Intact(known, Inserted(leases, holder, devices))
  {
  }

  lemma ApplyKeepsIntact(known: seq<int>, leases: Leases, op: TableOp)
    requires Intact(known, leases)
    ensures Intact(known, Apply(known, leases, op))
  {
    hide Resolve, Indices, Inserted;
    if op.DoAcquire? && Free(leases, Resolve(known, op.wanted)) {
      InsertKeepsIntact(known, leases, op.holder, Resolve(known, op.wanted));
    }
  }

  lemma OneMoreOp(known: seq<int>, ops: seq<TableOp>, op: TableOp)
    ensures ApplyAll(known, ops + [op]) == Apply(known, ApplyAll(known, ops), op)
  {
    assert (ops + [op])[..|ops|] == ops;
  }

  // ---------------------------------------------------------------- the table

  class LeaseTable {
    const known: seq<int>
    var rows: Leases
    ghost var ops: seq<TableOp>   // what has been done to the table since it was made

    /** The rows are what the operations made of the empty table, and every acquisition is whole. */
    ghost predicate Valid()
      reads this
    {
      && known != [] && (forall i, j | 0 <= i < j < |known| :: known[i] != known[j])
      && rows == ApplyAll(known, ops) && Intact(known, rows)
    }

    /** Records one operation. */
    ghost method Note(op: TableOp)
      requires known != [] && forall i, j | 0 <= i < j < |known| :: known[i] != known[j]
      requires Intact(known, ApplyAll(known, ops)) && rows == Apply(known, ApplyAll(known, ops), op)
      modifies this`ops
      ensures Valid() && ops == old(ops) + [op]
    {
      ApplyKeepsIntact(known, ApplyAll(known, ops), op);
      OneMoreOp(known, ops, op);
      ops := ops + [op];
    }

    constructor (known: seq<int>)
      requires known != [] && forall i, j | 0 <= i < j < |known| :: known[i] != known[j]
      ensures Valid() && this.known == known && rows == map[] && ops == []
    {
      this.known := known;
      rows, ops := map[], [];
    }

    /** `_resolve_devices`: the devices to insert, each once. */
    method ResolveDevices(wanted: seq<int>) returns (devices: seq<int>)
      requires Valid()
      ensures Indices(devices) == Resolve(known, wanted)
      ensures forall i, j | 0 <= i < j < |devices| :: devices[i] != devices[j]
    {
      if wanted == [] {
        return known;
      }
      devices := [];
      for i := 0 to |wanted|
        invariant Indices(devices) == Indices(wanted[..i])
        invariant Indices(devices) <= Indices(known)
        invariant forall i, j | 0 <= i < j < |devices| :: devices[i] != devices[j]
      {
        assert wanted[i] in Indices(wanted);
        if wanted[i] !in known {
          assert wanted[i] !in Indices(known);
          return known;
        }
        assert Indices(wanted[..i + 1]) == Indices(wanted[..i]) + {wanted[i]};
        if wanted[i] !in devices {
          assert Indices(devices + [wanted[i]]) == Indices(devices) + {wanted[i]};
          devices := devices + [wanted[i]];
        } else {
          assert wanted[i] in Indices(devices);
        }
      }
      assert wanted[..|wanted|] == wanted;
    }

    /** All or nothing: a conflict on any device rolls the whole insertion back. */
    method Acquire(holder: Holder, wanted: seq<int>) returns (ok: bool)
      requires Valid()
      modifies this
      ensures Valid() && ops == old(ops) + [DoAcquire(holder, wanted)]
      ensures ok <==> Free(old(rows), Resolve(known, wanted))
      ensures rows == if ok then Inserted(old(rows), holder, Resolve(known, wanted)) else old(rows)
    {
      hide Resolve, Intact, ApplyAll;
      var devices := ResolveDevices(wanted);
      var row := Lease(holder, None, Indices(devices));
      var before := rows;
      for i := 0 to |devices|
        invariant unchanged(this`ops)
        invariant rows == Put(before, Indices(devices[..i]), row)
        invariant Free(before, Indices(devices[..i]))
      {
        IndicesGrow(devices, i);
        PutOne(before, Indices(devices[..i]), row, devices[i]);
        if devices[i] in rows {
          rows := before;
          assert devices[i] in Indices(devices);
          Note(DoAcquire(holder, wanted));
          return false;
        }
        rows := rows[devices[i] := row];
      }
      assert devices[..|devices|] == devices;
      Note(DoAcquire(holder, wanted));
      return true;
    }

    /**
     * `bind_pid`: `None` when there was no pid. Otherwise all the holder's rows carry the pid from now
     * on, no row comes, goes or changes hands, and the answer says whether there was one.
     */
    method BindPid(holder: Holder, pid: Option<Pid>) returns (bound: Option<bool>)
      requires Valid()
      modifies this
      ensures Valid() && ops == if pid.Some? then old(ops) + [DoBind(holder, pid.value)] else old(ops)
      ensures bound.Some? <==> pid.Some?
      ensures bound == Some(true) <==> pid.Some? && exists d :: d in old(rows) && old(rows)[d].holder == holder
      ensures bound != Some(true) ==> rows == old(rows)
      ensures rows.Keys == old(rows).Keys
      ensures forall d | d in rows :: rows[d].holder == old(rows)[d].holder && rows[d].grant == old(rows)[d].grant
      ensures forall d | d in rows && rows[d].holder == holder && pid.Some? :: rows[d].pid == pid
      ensures forall d | d in rows && rows[d].holder != holder :: rows[d] == old(rows)[d]
    {
      if pid.None? {
        return None;
      }
      var matched := Owned(rows, holder);
      rows := Bound(rows, holder, pid.value);
      Note(DoBind(holder, pid.value));
      HasElement(matched);
      assert forall d :: d in matched <==> d in old(rows) && old(rows)[d].holder == holder;
      return Some(matched != {});
    }

    /** Frees every device of the holder, and no other; nothing happens when it holds none. */
    method Release(holder: Holder)
      requires Valid()
      modifies this
      ensures Valid() && ops == old(ops) + [DoRelease({holder})]
      ensures Owned(rows, holder) == {} && Free(rows, Owned(old(rows), holder))
      ensures forall d | d in old(rows) && old(rows)[d].holder != holder :: d in rows && rows[d] == old(rows)[d]
      ensures rows.Keys <= old(rows).Keys
      ensures Owned(old(rows), holder) == {} ==> rows == old(rows)
    {
      rows := Without(rows, {holder});
      Note(DoRelease({holder}));
      assert forall d :: d in Owned(old(rows), holder) <==> d in old(rows) && old(rows)[d].holder == holder;
    }

    /** `_holders`: every holder once, with the pid of one of its rows. */
    method Holders() returns (seen: map<Holder, Option<Pid>>)
      ensures SeenFrom(rows, seen)
      ensures forall d :: d in rows ==> rows[d].holder in seen
    {
      seen := map[];
      var left := rows.Keys;
      while left != {}
        invariant left <= rows.Keys
        invariant SeenFrom(rows, seen)
        invariant forall d :: d in rows && d !in left ==> rows[d].holder in seen
        decreases left
      {
        HasElement(left);
        var d: int :| d in left;
        left := left - {d};
        assert SeenRow(rows, rows[d].holder, rows[d].pid, d);
        if rows[d].holder !in seen {
          seen := seen[rows[d].holder := rows[d].pid];
        }
      }
    }

    /** Frees the leases of holders that are provably gone. */
    method ReapDead(world: World) returns (freed: set<Holder>)
      requires Valid()
      modifies this
      ensures Valid() && OnlyReleases(old(ops), ops)
      ensures MayFree(world, old(rows), freed)
      ensures rows == Without(old(rows), freed)
    {
      var seen := Holders();
      var left := seen.Keys;
      freed := {};
      hide Valid, MayFree, HolderIsGone, SeenFrom, Without, Owned, Free, GoneAmong, OnlyReleases;
      NoneGoneYet(world, rows, seen, ops);
      while left != {}
        invariant left <= seen.Keys
        invariant freed == GoneAmong(world, seen, seen.Keys - left)
        invariant Valid() && OnlyReleases(old(ops), ops)
        invariant rows == Without(old(rows), freed)
        decreases left
      {
        var h :| h in left;
        ghost var judged := seen.Keys - left;
        left := left - {h};
        JudgeOneMore(world, seen, judged, h);
        assert seen.Keys - left == judged + {h};
        if HolderIsGone(world, h, seen[h]) {
          ghost var before, history := rows, ops;
          Release(h);
          OneMoreRelease(old(ops), history, h);
          ReleasedToo(old(rows), before, rows, freed, h);
          freed := freed + {h};
        }
      }
      assert seen.Keys - left == seen.Keys;
      ReapIsAllowed(world, old(rows), seen, freed);
    }

    /** Startup: a reap, then every unbound lease goes with the process that created it. */
    method ReconcileOnStart(world: World) returns (ghost freed: set<Holder>)
      requires Valid()
      modifies this
      ensures Valid()
      ensures MayFree(world, old(rows), freed)
      ensures rows == BoundOnly(Without(old(rows), freed))
    {
      freed := ReapDead(world);
      rows := BoundOnly(rows);
      Note(DoSweep);
    }
  }

  /** Between the two histories nothing happened but releases. */
  ghost predicate OnlyReleases(before: seq<TableOp>, after: seq<TableOp>) {
    before <= after && forall k | |before| <= k < |after| :: after[k].DoRelease?
  }

  lemma OneMoreRelease(before: seq<TableOp>, after: seq<TableOp>, holder: Holder)
    requires OnlyReleases(before, after)
    ensures OnlyReleases(before, after + [DoRelease({holder})])
  {
  }

  lemma ReleasedToo(first: Leases, before: Leases, after: Leases, freed: set<Holder>, holder: Holder)
    requires before == Without(first, freed) && after.Keys <= before.Keys
    requires forall d | d in before && before[d].holder != holder :: d in after && after[d] == before[d]
    requires Owned(after, holder) == {} && Free(after, Owned(before, holder))
    ensures after == Without(first, freed + {holder})
  {
    assert forall d :: d in before && before[d].holder == holder ==> d in Owned(before, holder);
    forall d ensures d in after <==> d in first && first[d].holder !in freed + {holder} {
      if d in before {
        assert before[d] == first[d];
      }
    }
    assert forall d | d in after :: after[d] == before[d] == first[d];
  }

  /** The holders among the judged ones that are gone. */
  function GoneAmong(world: World, seen: map<Holder, Option<Pid>>, judged: set<Holder>): set<Holder> {
    set h | h in judged && h in seen && HolderIsGone(world, h, seen[h])
  }

  lemma NoneGoneYet(world: World, leases: Leases, seen: map<Holder, Option<Pid>>, ops: seq<TableOp>)
    ensures GoneAmong(world, seen, seen.Keys - seen.Keys) == {}
    ensures leases == Without(leases, {}) && OnlyReleases(ops, ops)
  {
  }

  lemma JudgeOneMore(world: World, seen: map<Holder, Option<Pid>>, judged: set<Holder>, h: Holder)
    requires h in seen
    ensures GoneAmong(world, seen, judged + {h})
         == GoneAmong(world, seen, judged) + if HolderIsGone(world, h, seen[h]) then {h} else {}
  {
  }

  predicate SeenRow(leases: Leases, holder: Holder, pid: Option<Pid>, d: int) {
    d in leases && leases[d].holder == holder && leases[d].pid == pid
  }

  ghost predicate SeenFrom(leases: Leases, seen: map<Holder, Option<Pid>>) {
    forall h | h in seen :: exists d :: SeenRow(leases, h, seen[h], d)
  }

  lemma ReapIsAllowed(world: World, leases: Leases, seen: map<Holder, Option<Pid>>, freed: set<Holder>)
    requires SeenFrom(leases, seen)
    requires forall d :: d in leases ==> leases[d].holder in seen
    requires freed == GoneAmong(world, seen, seen.Keys)
    ensures MayFree(world, leases, freed)
  {
    hide HolderIsGone;
    forall h | h in seen ensures SomeRowSays(world, leases, h, HolderIsGone(world, h, seen[h])) {
      var d :| SeenRow(leases, h, seen[h], d);
      assert RowSays(world, leases, h, HolderIsGone(world, h, seen[h]), d);
    }
  }

  // ---------------------------------------------------------------- what the operations do for each other

  /** Releasing a holder undoes its acquisition: the table is as it was. */
  lemma ReleaseUndoesAcquire(known: seq<int>, leases: Leases, holder: Holder, wanted: seq<int>)
    requires Free(leases, Resolve(known, wanted))
    ensures Without(Apply(known, leases, DoAcquire(holder, wanted)), {holder}) == leases
       <==> Owned(leases, holder) == {}
  {
    hide Resolve;
    var devices := Resolve(known, wanted);
    var after := Without(Inserted(leases, holder, devices), {holder});
    forall d | d in leases ensures d in after <==> d !in Owned(leases, holder) {
      assert d !in devices;
    }
    HasElement(Owned(leases, holder));
  }

  /** Whatever the rows look like, afterwards no terminal, drafted or deleted job holds a device. */
  lemma NoFinishedJobHoldsADevice(world: World, leases: Leases, freed: set<Holder>, d: int)
    requires MayFree(world, leases, freed) && d in Without(leases, freed)
    ensures leases[d].holder.JobHolder? ==>
              leases[d].holder.job in world.jobs && HoldsLeases(world.jobs[leases[d].holder.job].state)
    ensures leases[d].holder.WorkflowHolder? ==> leases[d].holder.workflow in world.workflows
  {
  }

  // ---------------------------------------------------------------- what every run of the table keeps

  /** The holder's request is the one it always makes. */
  ghost predicate Asks(op: TableOp, wants: Holder -> seq<int>) {
    op.DoAcquire? ==> op.wanted == wants(op.holder)
  }

  ghost predicate GrantsAreRequests(known: seq<int>, leases: Leases, wants: Holder -> seq<int>) {
    forall d | d in leases :: leases[d].grant == Resolve(known, wants(leases[d].holder))
  }

  lemma {:induction false} TableInvariant(known: seq<int>, ops: seq<TableOp>, wants: Holder -> seq<int>)
    requires forall op | op in ops :: Asks(op, wants)
    ensures Intact(known, ApplyAll(known, ops)) && GrantsAreRequests(known, ApplyAll(known, ops), wants)
  {
    if ops != [] {
      var before, op := ApplyAll(known, ops[..|ops| - 1]), ops[|ops| - 1];
      TableInvariant(known, ops[..|ops| - 1], wants);
      hide ApplyAll, Intact;
      ApplyKeepsIntact(known, before, op);
      assert Asks(op, wants);
      hide Resolve;
    }
  }

  /**
   * All or nothing over every run, when each holder keeps asking for the same devices: a holder owns
   * nothing or exactly its resolved set, and a host-exclusive holder leaves nothing to others.
   */
  lemma WholeSetOrNothing(known: seq<int>, ops: seq<TableOp>, wants: Holder -> seq<int>, holder: Holder)
    requires forall op | op in ops :: Asks(op, wants)
    ensures var leases := ApplyAll(known, ops);
            && (Owned(leases, holder) == {} || Owned(leases, holder) == Resolve(known, wants(holder)))
            && (Owned(leases, holder) == Indices(known) ==>
                  forall d | d in leases :: leases[d].holder == holder)
  {
    TableInvariant(known, ops, wants);
    var leases := ApplyAll(known, ops);
    hide ApplyAll, Resolve, Indices;
    HasElement(Owned(leases, holder));
    if d: int :| d in Owned(leases, holder) {
      assert leases[d].grant == Resolve(known, wants(holder));
      assert forall e: int :: e in leases[d].grant ==> e in Owned(leases, holder);
      assert forall e: int :: e in Owned(leases, holder) ==> e in leases[e].grant && leases[e].grant == leases[d].grant;
      assert Owned(leases, holder) == leases[d].grant;
    }
    if Owned(leases, holder) == Indices(known) {
      forall d | d in leases ensures leases[d].holder == holder {
        assert d in Owned(leases, holder);
      }
    }
  }

  /** A holder that always asks for the same devices has one acquisition at a time, so its rows agree. */
  lemma HolderRowsAgree(known: seq<int>, ops: seq<TableOp>, wants: Holder -> seq<int>, d: int, e: int)
    requires forall op | op in ops :: Asks(op, wants)
    requires var leases := ApplyAll(known, ops);
             d in leases && e in leases && leases[d].holder == leases[e].holder
    ensures ApplyAll(known, ops)[d] == ApplyAll(known, ops)[e]
  {
    TableInvariant(known, ops, wants);
    hide ApplyAll, Resolve;
    var leases := ApplyAll(known, ops);
    assert e in leases[d].grant;
  }

  /**
   * A reap at any point of any run, whichever row each holder is judged on, frees exactly the rows of
   * jobs that are missing, drafted or over, of workflows that are missing, and of processes that are
   * dead. It changes no row it keeps: an unbound one stays for as long as its job or workflow does.
   */
  lemma ReapFreesExactlyTheGone(
    known: seq<int>, ops: seq<TableOp>, wants: Holder -> seq<int>, world: World, freed: set<Holder>, d: int
  )
    requires forall op | op in ops :: Asks(op, wants)
    requires MayFree(world, ApplyAll(known, ops), freed) && d in ApplyAll(known, ops)
    ensures var leases := ApplyAll(known, ops);
            && (d in Without(leases, freed) <==>
                  && (match leases[d].holder
                      case JobHolder(j) => j in world.jobs && world.jobs[j].state in {Pending, Running, Stopping}
                      case WorkflowHolder(w, _) => w in world.workflows)
                  && (leases[d].pid.Some? ==> leases[d].pid.value in world.alive))
            && (d in Without(leases, freed) ==> Without(leases, freed)[d] == leases[d])
  {
    hide ApplyAll, Asks;
    var leases := ApplyAll(known, ops);
    var h := leases[d].holder;
    assert SomeRowSays(world, leases, h, h in freed);
    var e :| RowSays(world, leases, h, h in freed, e);
    HolderRowsAgree(known, ops, wants, d, e);
  }
}
