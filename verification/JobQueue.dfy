/** The job queue: a mutable position column that behaves like a list. */
module JobQueue {
  import opened Values
  import opened GpuLease

  datatype QueueRow = QueueRow(state: JobState, position: Option<int>)

  type QueueRows = map<nat, QueueRow>

  /**
   * How a caller names a job: by its number, or by a text that spells the number. The rows are found
   * under both, but a text never equals the number in a row.
   */
  datatype JobRef = ByNumber(id: nat) | ByText(id: nat)

  /** The ids that compare equal to the reference. */
  function EqualTo(job: JobRef): seq<nat> {
    if job.ByNumber? then [job.id] else []
  }

  const UNPLACED := 999999

  /** What the queue is sorted by. The source breaks ties by start time; here any order of ties will do. */
  function Key(rows: QueueRows, id: nat): int
    requires id in rows
  {
    if rows[id].position.Some? then rows[id].position.value else UNPLACED
  }

  predicate Waits(rows: QueueRows, id: nat) {
    id in rows && rows[id].state.Pending?
  }

  ghost predicate Distinct(q: seq<nat>) {
    forall i, j | 0 <= i < j < |q| :: q[i] != q[j]
  }

  ghost predicate InRows(rows: QueueRows, q: seq<nat>) {
    forall i | 0 <= i < |q| :: q[i] in rows
  }

  ghost predicate SortedBy(rows: QueueRows, q: seq<nat>)
    requires InRows(rows, q)
  {
    forall i, j | 0 <= i < j < |q| :: Key(rows, q[i]) <= Key(rows, q[j])
  }

  ghost predicate StrictBy(rows: QueueRows, q: seq<nat>)
    requires InRows(rows, q)
  {
    forall i, j | 0 <= i < j < |q| :: Key(rows, q[i]) < Key(rows, q[j])
  }

  /** `q` is the queue the rows stand for: the waiting jobs, each once, by strictly increasing position. */
  ghost predicate Represents(rows: QueueRows, q: seq<nat>) {
    && (forall id :: id in q <==> Waits(rows, id))
    && (forall id | id in q :: rows[id].position.Some?)
    && InRows(rows, q) && StrictBy(rows, q)
  }

  /** The list without the given ids. */
  function Dropped(q: seq<nat>, ids: seq<nat>): seq<nat> {
    if q == [] then []
    else
      var front, last := Dropped(q[..|q| - 1], ids), q[|q| - 1];
      if last in ids then front else front + [last]
  }

  // ---------------------------------------------------------------- sorted enumerations

  lemma {:induction false} DroppedMembers(q: seq<nat>, ids: seq<nat>)
    ensures forall x :: x in Dropped(q, ids) <==> x in q && x !in ids
  {
    if q != [] {
      DroppedMembers(q[..|q| - 1], ids);
      assert q == q[..|q| - 1] + [q[|q| - 1]];
    }
  }

  lemma {:induction false} DroppedStaysStrict(rows: QueueRows, q: seq<nat>, ids: seq<nat>)
    requires InRows(rows, q) && StrictBy(rows, q)
    ensures InRows(rows, Dropped(q, ids)) && StrictBy(rows, Dropped(q, ids))
  {
    DroppedMembers(q, ids);
    if q != [] {
      var front := q[..|q| - 1];
      DroppedStaysStrict(rows, front, ids);
      DroppedMembers(front, ids);
      forall i | 0 <= i < |Dropped(front, ids)| ensures Key(rows, Dropped(front, ids)[i]) < Key(rows, q[|q| - 1]) {
        assert Dropped(front, ids)[i] in front;
      }
    }
  }

  lemma {:induction false} DroppedStaysSorted(rows: QueueRows, q: seq<nat>, ids: seq<nat>)
    requires InRows(rows, q) && SortedBy(rows, q) && Distinct(q)
    ensures InRows(rows, Dropped(q, ids)) && SortedBy(rows, Dropped(q, ids)) && Distinct(Dropped(q, ids))
  {
    DroppedMembers(q, ids);
    if q != [] {
      var front := q[..|q| - 1];
      DroppedStaysSorted(rows, front, ids);
      DroppedMembers(front, ids);
      forall i | 0 <= i < |Dropped(front, ids)|
        ensures Key(rows, Dropped(front, ids)[i]) <= Key(rows, q[|q| - 1]) && Dropped(front, ids)[i] != q[|q| - 1]
      {
        assert Dropped(front, ids)[i] in front;
      }
    }
  }

  /** A strictly sorted list is determined by its elements. */
  lemma {:induction false} StrictListsAgree(rows: QueueRows, p: seq<nat>, q: seq<nat>)
    requires InRows(rows, p) && InRows(rows, q) && StrictBy(rows, p) && StrictBy(rows, q)
    requires forall x :: x in p <==> x in q
    ensures p == q
  {
    assert p != [] ==> p[0] in p;
    assert q != [] ==> q[0] in q;
    if p != [] && q != [] {
      assert p[0] in q && q[0] in p;
      assert p[0] == q[0];
      forall x ensures x in p[1..] <==> x in q[1..] {
        TailMembers(rows, p, x);
        TailMembers(rows, q, x);
      }
      StrictListsAgree(rows, p[1..], q[1..]);
      assert p == [p[0]] + p[1..] && q == [q[0]] + q[1..];
    }
  }

  lemma TailMembers(rows: QueueRows, p: seq<nat>, x: nat)
    requires p != [] && InRows(rows, p) && StrictBy(rows, p)
    ensures x in p[1..] <==> x in p && x != p[0]
  {
  }

  /** Sorting without ties is strict. */
  lemma SortedWithoutTiesIsStrict(rows: QueueRows, p: seq<nat>, q: seq<nat>)
    requires InRows(rows, p) && SortedBy(rows, p) && Distinct(p)
    requires InRows(rows, q) && StrictBy(rows, q) && forall x | x in p :: x in q
    ensures StrictBy(rows, p)
  {
    forall i, j | 0 <= i < j < |p| ensures Key(rows, p[i]) < Key(rows, p[j]) {
      assert p[i] in q && p[j] in q;
      var a :| 0 <= a < |q| && q[a] == p[i];
      var b :| 0 <= b < |q| && q[b] == p[j];
      assert a != b;
    }
  }

  // ---------------------------------------------------------------- reordering

  /** The listed ids that wait, in the order of their last mention. */
  function Mentioned(rows: QueueRows, listed: seq<nat>): seq<nat> {
    if listed == [] then []
    else
      var front, last := Mentioned(rows, listed[..|listed| - 1]), listed[|listed| - 1];
      if Waits(rows, last) then Dropped(front, [last]) + [last] else front
  }

  /** The queue moved one place towards the head or the tail. */
  function Swapped(q: seq<nat>, i: nat): seq<nat>
    requires i + 1 < |q|
  {
    q[i := q[i + 1]][i + 1 := q[i]]
  }

  function IndexOf(q: seq<nat>, id: nat): (i: nat)
    requires id in q
    ensures i < |q| && q[i] == id
  {
    if q[0] == id then 0 else
      assert forall x | x in q :: x == q[0] || x in q[1..];
      1 + IndexOf(q[1..], id)
  }

  function Moved(q: seq<nat>, id: nat, direction: string): seq<nat> {
    if id !in q then q
    else
      var i := IndexOf(q, id);
      if direction == "up" && i > 0 then Swapped(q, i - 1)
      else if direction == "down" && i + 1 < |q| then Swapped(q, i)
      else q
  }

  // ---------------------------------------------------------------- the column

  /** The rows differ only in positions. */
  ghost predicate OnlyPositionsChanged(before: QueueRows, after: QueueRows) {
    before.Keys == after.Keys && forall id | id in before :: after[id].state == before[id].state
  }

  ghost predicate IsEnumerationOfWaiting(rows: QueueRows, q: seq<nat>) {
    InRows(rows, q) && Distinct(q) && forall id :: id in q <==> Waits(rows, id)
  }

  /** Job `q[k]` stands at position `first + k`, for the first `n` of them. */
  ghost predicate Numbered(rows: QueueRows, q: seq<nat>, first: int, n: nat)
    requires n <= |q|
  {
    InRows(rows, q) && forall k | 0 <= k < n :: rows[q[k]].position == Some(first + k)
  }

  lemma RepresentsIsUnique(rows: QueueRows, p: seq<nat>, q: seq<nat>)
    requires Represents(rows, p) && Represents(rows, q)
    ensures p == q
  {
    StrictListsAgree(rows, p, q);
  }

  lemma RepresentsIsDistinct(rows: QueueRows, q: seq<nat>)
    requires Represents(rows, q)
    ensures Distinct(q) && IsEnumerationOfWaiting(rows, q)
  {
  }

  /** Any way of sorting the waiting jobs gives the queue. */
  lemma SortingGivesTheQueue(rows: QueueRows, p: seq<nat>, q: seq<nat>)
    requires Represents(rows, q) && IsEnumerationOfWaiting(rows, p) && SortedBy(rows, p)
    ensures p == q
  {
    SortedWithoutTiesIsStrict(rows, p, q);
    StrictListsAgree(rows, p, q);
  }

  lemma NumberedRepresents(rows: QueueRows, q: seq<nat>, first: int)
    requires IsEnumerationOfWaiting(rows, q) && Numbered(rows, q, first, |q|)
    ensures Represents(rows, q)
  {
  }

  lemma InsertedInOrder(rows: QueueRows, q: seq<nat>, id: nat, i: nat, longer: seq<nat>)
    requires id in rows && id !in q && InRows(rows, q) && Distinct(q) && SortedBy(rows, q) && i <= |q|
    requires forall k | 0 <= k < i :: Key(rows, q[k]) <= Key(rows, id)
    requires i < |q| ==> Key(rows, q[i]) > Key(rows, id)
    requires longer == q[..i] + [id] + q[i..]
    ensures InRows(rows, longer) && Distinct(longer) && SortedBy(rows, longer)
    ensures forall x :: x in longer <==> x in q || x == id
  {
    hide Key;
    assert forall k | 0 <= k < |longer| :: longer[k] == if k < i then q[k] else if k == i then id else q[k - 1];
    assert q == q[..i] + q[i..];
    assert forall k | i <= k < |q| :: Key(rows, id) <= Key(rows, q[k]);
    forall a, b | 0 <= a < b < |longer|
      ensures Key(rows, longer[a]) <= Key(rows, longer[b]) && longer[a] != longer[b]
    {
      assert 0 <= b - 1 < |q|;
    }
  }

  /** Deleting the job, or taking it out of the queue, shortens the list. */
  lemma QueueLoses(before: QueueRows, after: QueueRows, q: seq<nat>, id: nat)
    requires Represents(before, q)
    requires forall x | x != id :: (x in before <==> x in after) && (x in before ==> after[x] == before[x])
    requires !Waits(after, id)
    ensures Represents(after, Dropped(q, [id]))
  {
    DroppedMembers(q, [id]);
    DroppedStaysStrict(before, q, [id]);
    var w := Dropped(q, [id]);
    forall i | 0 <= i < |w| ensures w[i] in after && after[w[i]] == before[w[i]] {
      assert w[i] in w;
    }
  }

  /** A job that starts to wait behind every other goes to the end. */
  lemma QueueAppended(before: QueueRows, after: QueueRows, q: seq<nat>, id: nat)
    requires Represents(before, q) && !Waits(before, id) && Waits(after, id) && after[id].position.Some?
    requires forall x | x != id :: (x in before <==> x in after) && (x in before ==> after[x] == before[x])
    requires forall x | x in q :: Key(before, x) < Key(after, id)
    ensures Represents(after, q + [id])
  {
    var longer := q + [id];
    assert longer[|q|] == id;
    forall i | 0 <= i < |q| ensures longer[i] in before && after[longer[i]] == before[longer[i]] {
      assert longer[i] in q;
    }
  }

  /** Renumbering a sorted enumeration keeps it the queue. */
  lemma Renumbered(before: QueueRows, after: QueueRows, q: seq<nat>, first: int)
    requires IsEnumerationOfWaiting(before, q) && OnlyPositionsChanged(before, after)
    requires Numbered(after, q, first, |q|)
    ensures Represents(after, q)
  {
  }

  lemma NothingMoved(rows: QueueRows)
    ensures OnlyPositionsChanged(rows, rows)
  {
  }

  lemma WaitingMeans(rows: QueueRows, id: nat)
    ensures Waits(rows, id) <==> id in rows && rows[id].state.Pending?
  {
  }

  lemma QueueMembers(rows: QueueRows, q: seq<nat>)
    requires Represents(rows, q)
    ensures forall id :: id in q <==> Waits(rows, id)
  {
  }

  lemma EnumeratedOnce(rows: QueueRows, q: seq<nat>)
    requires IsEnumerationOfWaiting(rows, q)
    ensures InRows(rows, q) && Distinct(q)
  {
  }

  lemma PositionSet(before: QueueRows, after: QueueRows, id: nat, position: int)
    requires OnlyPositionsChanged(before, after) && id in before
    ensures id in after && OnlyPositionsChanged(before, after[id := after[id].(position := Some(position))])
  {
  }

  class JobTable {
    var rows: QueueRows
    ghost var queue: seq<nat>

    ghost predicate Valid()
      reads this
    {
      Represents(rows, queue)
    }

    constructor ()
      ensures Valid() && rows == map[] && queue == []
    {
      rows, queue := map[], [];
    }

    /** `_pending_sorted`, ties in any order. */
    method PendingSorted() returns (q: seq<nat>)
      ensures IsEnumerationOfWaiting(rows, q) && SortedBy(rows, q)
    {
      q := [];
      var left := rows.Keys;
      while left != {}
        invariant left <= rows.Keys
        invariant InRows(rows, q) && Distinct(q) && SortedBy(rows, q)
        invariant forall id :: id in q <==> Waits(rows, id) && id !in left
        decreases left
      {
        var id :| id in left;
        left := left - {id};
        if rows[id].state.Pending? {
          q := InsertByKey(id, q);
        }
      }
    }

    method InsertByKey(id: nat, q: seq<nat>) returns (longer: seq<nat>)
      requires id in rows && id !in q && InRows(rows, q) && Distinct(q) && SortedBy(rows, q)
      ensures InRows(rows, longer) && Distinct(longer) && SortedBy(rows, longer)
      ensures forall x :: x in longer <==> x in q || x == id
    {
      var i := 0;
      while i < |q| && Key(rows, q[i]) <= Key(rows, id)
        invariant i <= |q|
        invariant forall k | 0 <= k < i :: Key(rows, q[k]) <= Key(rows, id)
      {
        i := i + 1;
      }
      longer := q[..i] + [id] + q[i..];
      InsertedInOrder(rows, q, id, i, longer);
    }

    /** Writes `first`, `first + 1`, … into the rows of `q`. */
    method Number(q: seq<nat>, first: int)
      requires InRows(rows, q) && Distinct(q)
      modifies this`rows
      ensures OnlyPositionsChanged(old(rows), rows) && Numbered(rows, q, first, |q|)
      ensures forall id | id in rows && id !in q :: rows[id] == old(rows)[id]
    {
      for i := 0 to |q|
        invariant OnlyPositionsChanged(old(rows), rows) && Numbered(rows, q, first, i)
        invariant forall id | id in rows && id !in q :: rows[id] == old(rows)[id]
      {
        if rows[q[i]].position != Some(first + i) {
          rows := rows[q[i] := rows[q[i]].(position := Some(first + i))];
        }
      }
    }

    /** `_normalize_queue_positions`: whatever the positions were, the sorted jobs stand at 0, 1, 2, … */
    method Normalize() returns (ghost q: seq<nat>)
      modifies this
      ensures Valid() && queue == q && OnlyPositionsChanged(old(rows), rows) && Numbered(rows, q, 0, |q|)
      ensures IsEnumerationOfWaiting(old(rows), q) && SortedBy(old(rows), q)
    {
      var sorted := PendingSorted();
      q := sorted;
      Number(sorted, 0);
      queue := q;
      Renumbered(old(rows), rows, q, 0);
    }

    /** `next_queue_position`. */
    method NextPosition() returns (next: int)
      requires Valid()
      ensures forall id | id in queue :: Key(rows, id) < next
    {
      next := 0;
      var seen := false;
      var left := rows.Keys;
      while left != {}
        invariant left <= rows.Keys
        invariant forall id | id in queue && id !in left :: seen && Key(rows, id) < next
        decreases left
      {
        var id :| id in left;
        left := left - {id};
        if rows[id].state.Pending? && rows[id].position.Some? {
          next := if seen && next > rows[id].position.value then next else rows[id].position.value + 1;
          seen := true;
        }
      }
    }

    /** A new run, or a draft or finished run put back, waits behind all others. */
    method Enqueue(id: nat)
      requires Valid() && (id in rows ==> !rows[id].state.Pending?)
      modifies this
      ensures Valid() && queue == old(queue) + [id]
      ensures rows.Keys == old(rows).Keys + {id}
    {
      var next := NextPosition();
      rows := rows[id := QueueRow(Pending, Some(next))];
      QueueAppended(old(rows), rows, queue, id);
      queue := queue + [id];
    }

    /** A saved draft has no place in the queue. */
    method SaveDraft(id: nat)
      requires Valid() && id !in rows
      modifies this
      ensures Valid() && queue == old(queue) && rows.Keys == old(rows).Keys + {id}
    {
      rows := rows[id := QueueRow(New, None)];
    }

    /**
     * `bump_pending_after`: the job goes first, the others keep their order behind it. Named by a text
     * it is renumbered among the others first, which leaves a gap and nothing else.
     */
    method Bump(job: JobRef) returns (found: bool)
      requires Valid()
      modifies this
      ensures Valid() && OnlyPositionsChanged(old(rows), rows)
      ensures found <==> job.id in rows
      ensures queue == if Waits(old(rows), job.id) then [job.id] + Dropped(old(queue), [job.id]) else old(queue)
    {
      hide Represents, StrictBy, SortedBy, Distinct, InRows, Numbered, OnlyPositionsChanged, Dropped,
        IsEnumerationOfWaiting, Key, Waits;
      var id := job.id;
      NothingMoved(rows);
      WaitingMeans(rows, id);
      if id !in rows {
        return false;
      }
      if !rows[id].state.Pending? {
        return true;
      }
      var sorted := PendingSorted();
      SortingGivesTheQueue(rows, sorted, queue);
      QueueMembers(rows, queue);
      var others := Dropped(sorted, EqualTo(job));
      DroppedMembers(sorted, EqualTo(job));
      EnumeratedOnce(rows, sorted);
      DroppedStaysSorted(rows, sorted, EqualTo(job));
      Number(others, 1);
      ghost var numbered := rows;
      PositionSet(old(rows), rows, id, 0);
      rows := rows[id := rows[id].(position := Some(0))];
      BehindTheFront(old(rows), numbered, rows, others, id);
      OnceMoreDropped(sorted, job);
      queue := [id] + Dropped(others, [id]);
      return true;
    }

    /** "Run now": a new job at position 0 next to the old head, then renumbered and bumped to the front. */
    method RunNow(id: nat)
      requires Valid() && id !in rows
      modifies this
      ensures Valid() && queue == [id] + old(queue) && rows.Keys == old(rows).Keys + {id}
    {
      rows := rows[id := QueueRow(Pending, Some(0))];
      ghost var with := rows;
      var q := Normalize();
      OthersKeepTheirOrder(old(rows), with, old(queue), q, id);
      var found := Bump(ByNumber(id));
    }

    /** Removes a run that is not active; its row is gone and the rest close up. */
    method DeleteRecord(id: nat) returns (ok: bool)
      requires Valid()
      modifies this
      ensures Valid()
      ensures ok <==> id in old(rows) && !old(rows)[id].state.Running? && !old(rows)[id].state.Stopping?
      ensures rows.Keys == if ok then old(rows).Keys - {id} else old(rows).Keys
      ensures queue == if ok then Dropped(old(queue), [id]) else old(queue)
    {
      if id !in rows || rows[id].state.Running? || rows[id].state.Stopping? {
        return false;
      }
      rows := rows - {id};
      QueueLoses(old(rows), rows, queue, id);
      ghost var shorter := Dropped(queue, [id]);
      ghost var before := rows;
      var q := Normalize();
      SortingGivesTheQueue(before, q, shorter);
      return true;
    }

    /** Takes a waiting run out of the queue and keeps it as a draft. */
    method Dequeue(id: nat) returns (ok: bool)
      requires Valid()
      modifies this
      ensures Valid() && rows.Keys == old(rows).Keys
      ensures ok <==> Waits(old(rows), id)
      ensures ok ==> rows[id].state.New?
      ensures queue == if ok then Dropped(old(queue), [id]) else old(queue)
    {
      if !(id in rows && rows[id].state.Pending?) {
        return false;
      }
      rows := rows[id := QueueRow(New, None)];
      QueueLoses(old(rows), rows, queue, id);
      ghost var shorter := Dropped(queue, [id]);
      ghost var before := rows;
      var q := Normalize();
      SortingGivesTheQueue(before, q, shorter);
      return true;
    }

    /** The head of the queue, which starts next. */
    method Head() returns (head: Option<nat>)
      requires Valid()
      ensures head == if queue == [] then None else Some(queue[0])
    {
      var sorted := PendingSorted();
      SortingGivesTheQueue(rows, sorted, queue);
      return if sorted == [] then None else Some(sorted[0]);
    }

    /** A waiting run starts; its position stays in the row and no longer matters. */
    method Start(id: nat)
      requires Valid() && Waits(rows, id)
      modifies this
      ensures Valid() && queue == Dropped(old(queue), [id]) && rows.Keys == old(rows).Keys
    {
      rows := rows[id := rows[id].(state := Running)];
      QueueLoses(old(rows), rows, queue, id);
      queue := Dropped(queue, [id]);
    }

    /** Stopping a job without a process: it is stopped at once, and leaves the queue if it was waiting. */
    method Stop(id: nat) returns (found: bool)
      requires Valid()
      modifies this
      ensures Valid() && rows.Keys == old(rows).Keys
      ensures found <==> id in old(rows)
      ensures found ==> rows[id].state.Stopped?
      ensures forall x | x in rows && x != id :: rows[x] == old(rows)[x]
      ensures queue == Dropped(old(queue), [id])
    {
      if id !in rows {
        DroppedNothing(queue, [id]);
        return false;
      }
      rows := rows[id := rows[id].(state := Stopped)];
      QueueLoses(old(rows), rows, queue, id);
      queue := Dropped(queue, [id]);
      return true;
    }

    /** The head has no configuration file any more: it fails, and the next job becomes the head. */
    method FailHead() returns (failed: Option<nat>)
      requires Valid()
      modifies this
      ensures Valid() && rows.Keys == old(rows).Keys
      ensures failed == if old(queue) == [] then None else Some(old(queue)[0])
      ensures failed.Some? ==> rows[failed.value].state.Failed? && queue == old(queue)[1..]
      ensures failed.None? ==> queue == old(queue)
      ensures forall x | x in rows && failed != Some(x) :: rows[x] == old(rows)[x]
    {
      failed := Head();
      if failed.Some? {
        var id := failed.value;
        assert id in queue;
        rows := rows[id := rows[id].(state := Failed)];
        QueueLoses(old(rows), rows, queue, id);
        RepresentsIsDistinct(old(rows), queue);
        HeadDropped(queue);
        queue := queue[1..];
      }
    }

    /** `reorder_queue`: the listed jobs by their last mention, then the others in their old order. */
    method Reorder(listed: seq<nat>)
      requires Valid()
      modifies this
      ensures Valid() && OnlyPositionsChanged(old(rows), rows)
      ensures queue == Mentioned(old(rows), listed) + Dropped(old(queue), listed)
    {
      var pos := 0;
      for i := 0 to |listed|
        invariant OnlyPositionsChanged(old(rows), rows)
        invariant Placed(rows, Mentioned(old(rows), listed[..i]), pos)
        invariant forall id | id in rows && id !in listed[..i] :: rows[id] == old(rows)[id]
      {
        MentionOneMore(old(rows), listed, i);
        if listed[i] in rows && rows[listed[i]].state.Pending? {
          ghost var before, m := rows, Mentioned(old(rows), listed[..i]);
          rows := rows[listed[i] := rows[listed[i]].(position := Some(pos))];
          PlaceOneMore(before, rows, m, listed[i], pos);
          pos := pos + 1;
        }
      }
      assert listed[..|listed|] == listed;
      ghost var halfway := rows;
      var sorted := PendingSorted();
      var remaining := Dropped(sorted, listed);
      RestKeepsItsOrder(old(rows), rows, old(queue), sorted, listed);
      DroppedStaysSorted(rows, sorted, listed);
      Number(remaining, pos);
      ghost var first := Mentioned(old(rows), listed);
      MentionedMembers(old(rows), listed);
      DroppedMembers(sorted, listed);
      StillPlaced(halfway, rows, first, remaining, pos);
      queue := first + remaining;
      PlacedThenNumbered(rows, first, remaining, pos);
    }

    /**
     * `move_queue`: swaps the job with its neighbour; an unknown direction changes nothing, and neither
     * does a job named by a text, which is looked for among the numbers.
     */
    method Move(job: JobRef, direction: string) returns (ok: bool)
      requires Valid()
      modifies this
      ensures Valid() && OnlyPositionsChanged(old(rows), rows)
      ensures ok <==> Waits(old(rows), job.id)
      ensures queue == if job.ByNumber? then Moved(old(queue), job.id, direction) else old(queue)
    {
      if !(job.id in rows && rows[job.id].state.Pending?) {
        return false;
      }
      var pending := PendingSorted();
      SortingGivesTheQueue(rows, pending, queue);
      if EqualTo(job) == [] {
        return true;
      }
      var idx := IndexOf(pending, job.id);
      if direction == "up" && idx > 0 {
        SwapPositions(pending, idx - 1);
      } else if direction == "down" && idx + 1 < |pending| {
        SwapPositions(pending, idx);
      }
      return true;
    }

    method SwapPositions(q: seq<nat>, i: nat)
      requires Valid() && q == queue && i + 1 < |q|
      modifies this
      ensures Valid() && OnlyPositionsChanged(old(rows), rows) && queue == Swapped(q, i)
    {
      assert q[i] in q && q[i + 1] in q;
      RepresentsIsDistinct(rows, queue);
      var a, b := rows[q[i]].position, rows[q[i + 1]].position;
      rows := rows[q[i] := rows[q[i]].(position := b)];
      rows := rows[q[i + 1] := rows[q[i + 1]].(position := a)];
      queue := Swapped(q, i);
      SwapRepresents(old(rows), rows, q, i);
    }
  }

  lemma SwapRepresents(before: QueueRows, after: QueueRows, q: seq<nat>, i: nat)
    requires Represents(before, q) && Distinct(q) && i + 1 < |q|
    requires q[i] in before && q[i + 1] in before
    requires after == before[q[i] := before[q[i]].(position := before[q[i + 1]].position)]
                            [q[i + 1] := before[q[i + 1]].(position := before[q[i]].position)]
    ensures Represents(after, Swapped(q, i))
  {
    var p := Swapped(q, i);
    assert forall k | 0 <= k < |q| && k != i && k != i + 1 :: p[k] == q[k];
    assert p[i] == q[i + 1] && p[i + 1] == q[i];
    assert forall x :: x in p <==> x in q by {
      assert forall k | 0 <= k < |q| :: q[k] == p[if k == i then i + 1 else if k == i + 1 then i else k];
    }
    forall k | 0 <= k < |q| ensures p[k] in after && Key(after, p[k]) == Key(before, q[k]) {
      assert q[k] in q && before[q[k]].position.Some?;
    }
  }

  /** Ids at increasing positions below `pos`. */
  ghost predicate Placed(rows: QueueRows, m: seq<nat>, pos: int) {
    && InRows(rows, m) && StrictBy(rows, m)
    && forall id | id in m :: rows[id].position.Some? && rows[id].position.value < pos
  }

  lemma MentionOneMore(rows: QueueRows, listed: seq<nat>, i: nat)
    requires i < |listed|
    ensures Mentioned(rows, listed[..i + 1])
         == if Waits(rows, listed[i]) then Dropped(Mentioned(rows, listed[..i]), [listed[i]]) + [listed[i]]
            else Mentioned(rows, listed[..i])
  {
    assert listed[..i + 1][..i] == listed[..i];
  }

  lemma PlaceOneMore(before: QueueRows, after: QueueRows, m: seq<nat>, id: nat, pos: int)
    requires Placed(before, m, pos) && id in before
    requires after == before[id := before[id].(position := Some(pos))]
    ensures Placed(after, Dropped(m, [id]) + [id], pos + 1)
  {
    DroppedMembers(m, [id]);
    DroppedStaysStrict(before, m, [id]);
    var w := Dropped(m, [id]);
    forall k | 0 <= k < |w| ensures w[k] in m && w[k] != id && after[w[k]] == before[w[k]] {
      assert w[k] in w;
    }
  }

  lemma {:induction false} MentionedMembers(rows: QueueRows, listed: seq<nat>)
    ensures forall x :: x in Mentioned(rows, listed) <==> x in listed && Waits(rows, x)
  {
    if listed != [] {
      var front, last := listed[..|listed| - 1], listed[|listed| - 1];
      MentionedMembers(rows, front);
      DroppedMembers(Mentioned(rows, front), [last]);
      assert listed == front + [last];
    }
  }

  /** Placing the listed jobs leaves the order of the others alone. */
  lemma RestKeepsItsOrder(before: QueueRows, after: QueueRows, q: seq<nat>, sorted: seq<nat>, listed: seq<nat>)
    requires Represents(before, q) && OnlyPositionsChanged(before, after)
    requires forall id | id in after && id !in listed :: after[id] == before[id]
    requires IsEnumerationOfWaiting(after, sorted) && SortedBy(after, sorted)
    ensures Dropped(sorted, listed) == Dropped(q, listed)
  {
    DroppedMembers(sorted, listed);
    DroppedMembers(q, listed);
    DroppedStaysSorted(after, sorted, listed);
    DroppedStaysStrict(before, q, listed);
    var rest := Dropped(q, listed);
    forall k | 0 <= k < |rest| ensures rest[k] in after && after[rest[k]] == before[rest[k]] {
      assert rest[k] in rest;
    }
    SortedWithoutTiesIsStrict(after, Dropped(sorted, listed), rest);
    StrictListsAgree(after, Dropped(sorted, listed), rest);
  }

  lemma StillPlaced(before: QueueRows, after: QueueRows, m: seq<nat>, others: seq<nat>, pos: int)
    requires Placed(before, m, pos) && before.Keys == after.Keys && forall x | x in m :: x !in others
    requires forall id | id in after && id !in others :: after[id] == before[id]
    ensures Placed(after, m, pos)
  {
  }

  lemma PlacedThenNumbered(rows: QueueRows, m: seq<nat>, rest: seq<nat>, pos: int)
    requires Placed(rows, m, pos) && Numbered(rows, rest, pos, |rest|)
    requires forall x :: x in m || x in rest <==> Waits(rows, x)
    ensures Represents(rows, m + rest)
  {
  }

  // ---------------------------------------------------------------- what the list operations mean

  lemma {:induction false} MentionedIsDistinct(rows: QueueRows, listed: seq<nat>)
    ensures Distinct(Mentioned(rows, listed))
  {
    if listed != [] {
      var front, last := listed[..|listed| - 1], listed[|listed| - 1];
      MentionedIsDistinct(rows, front);
      var rest := Dropped(Mentioned(rows, front), [last]);
      DroppedIsDistinct(Mentioned(rows, front), [last]);
      DroppedMembers(Mentioned(rows, front), [last]);
      forall i | 0 <= i < |rest| ensures rest[i] != last {
        assert rest[i] in rest;
      }
    }
  }

  lemma {:induction false} DroppedIsDistinct(q: seq<nat>, ids: seq<nat>)
    requires Distinct(q)
    ensures Distinct(Dropped(q, ids))
  {
    if q != [] {
      var front := q[..|q| - 1];
      DroppedIsDistinct(front, ids);
      DroppedMembers(front, ids);
      forall i | 0 <= i < |Dropped(front, ids)| ensures Dropped(front, ids)[i] != q[|q| - 1] {
        assert Dropped(front, ids)[i] in front;
      }
    }
  }

  /** Reordering loses and invents nothing: the new queue is a permutation of the old one. */
  lemma ReorderingPermutes(rows: QueueRows, q: seq<nat>, listed: seq<nat>)
    requires Represents(rows, q)
    ensures var p := Mentioned(rows, listed) + Dropped(q, listed);
            Distinct(p) && forall x :: x in p <==> x in q
  {
    MentionedMembers(rows, listed);
    MentionedIsDistinct(rows, listed);
    DroppedMembers(q, listed);
    RepresentsIsDistinct(rows, q);
    DroppedIsDistinct(q, listed);
    var m, d := Mentioned(rows, listed), Dropped(q, listed);
    forall i, j | 0 <= i < |m| && 0 <= j < |d| ensures m[i] != d[j] {
      assert m[i] in m && d[j] in d;
    }
  }

  /** A full list without repetitions becomes the queue as it is. */
  lemma {:induction false} FullListBecomesTheQueue(rows: QueueRows, listed: seq<nat>)
    requires Distinct(listed) && forall x | x in listed :: Waits(rows, x)
    ensures Mentioned(rows, listed) == listed
    ensures forall q: seq<nat> | (forall x | x in q :: x in listed) :: Dropped(q, listed) == []
  {
    if listed != [] {
      var front, last := listed[..|listed| - 1], listed[|listed| - 1];
      FullListBecomesTheQueue(rows, front);
      DroppedNothing(front, [last]);
      assert listed == front + [last];
    }
    forall q: seq<nat> | forall x | x in q :: x in listed ensures Dropped(q, listed) == [] {
      var d := Dropped(q, listed);
      assert d != [] ==> d[0] in d;
      DroppedMembers(q, listed);
    }
  }

  lemma {:induction false} DroppedNothing(q: seq<nat>, ids: seq<nat>)
    requires forall x | x in q :: x !in ids
    ensures Dropped(q, ids) == q
  {
    if q != [] {
      DroppedNothing(q[..|q| - 1], ids);
      assert q == q[..|q| - 1] + [q[|q| - 1]];
    }
  }

  lemma {:induction false} IndexIsUnique(q: seq<nat>, i: nat)
    requires Distinct(q) && i < |q|
    ensures q[i] in q && IndexOf(q, q[i]) == i
  {
  }

  /** Up at the front, down at the back and any other direction leave the queue as it is. */
  lemma MovesStopAtTheEnds(q: seq<nat>, id: nat, direction: string)
    requires Distinct(q) && id in q
    ensures IndexOf(q, id) == 0 ==> Moved(q, id, "up") == q
    ensures IndexOf(q, id) + 1 == |q| ==> Moved(q, id, "down") == q
    ensures direction != "up" && direction != "down" ==> Moved(q, id, direction) == q
  {
    assert "up" != "down" by { assert |"up"| == 2 && |"down"| == 4; }
  }

  /** Up and down undo each other, away from the ends. */
  lemma MovesCancel(q: seq<nat>, id: nat)
    requires Distinct(q) && id in q
    ensures IndexOf(q, id) > 0 ==> Moved(Moved(q, id, "up"), id, "down") == q
    ensures IndexOf(q, id) + 1 < |q| ==> Moved(Moved(q, id, "down"), id, "up") == q
  {
    assert "up" != "down" by { assert |"up"| == 2 && |"down"| == 4; }
    var i := IndexOf(q, id);
    if i > 0 {
      var p := Swapped(q, i - 1);
      SwapIsDistinct(q, i - 1);
      IndexIsUnique(p, i - 1);
    }
    if i + 1 < |q| {
      var p := Swapped(q, i);
      SwapIsDistinct(q, i);
      IndexIsUnique(p, i + 1);
    }
  }

  lemma SwapIsDistinct(q: seq<nat>, i: nat)
    requires Distinct(q) && i + 1 < |q|
    ensures Distinct(Swapped(q, i)) && Swapped(Swapped(q, i), i) == q
  {
  }

  lemma NumberedIsStrict(rows: QueueRows, q: seq<nat>, first: int)
    requires Numbered(rows, q, first, |q|)
    ensures StrictBy(rows, q)
    ensures forall x | x in q :: rows[x].position.Some? && rows[x].position.value >= first
  {
  }

  /** A job at 0 before a strictly sorted list of later ones. */
  lemma FrontPut(rows: QueueRows, rest: seq<nat>, id: nat)
    requires Waits(rows, id) && rows[id].position == Some(0) && InRows(rows, rest) && StrictBy(rows, rest)
    requires forall x :: x in rest <==> Waits(rows, x) && x != id
    requires forall x | x in rest :: rows[x].position.Some? && rows[x].position.value >= 1
    ensures Represents(rows, [id] + rest)
  {
    var q := [id] + rest;
    assert forall k | 0 <= k < |q| :: q[k] == if k == 0 then id else rest[k - 1];
    forall i, j | 0 <= i < j < |q| ensures Key(rows, q[i]) < Key(rows, q[j]) {
      assert rest[j - 1] in rest;
    }
  }

  lemma StaysStrict(before: QueueRows, after: QueueRows, q: seq<nat>)
    requires InRows(before, q) && StrictBy(before, q)
    requires forall x | x in q :: x in after && after[x] == before[x]
    ensures InRows(after, q) && StrictBy(after, q)
  {
    forall i | 0 <= i < |q| ensures q[i] in after && after[q[i]] == before[q[i]] {
      assert q[i] in q;
    }
  }

  /** Numbered from 1 with or without the job, the others stand behind it once it stands at 0. */
  lemma BehindTheFront(before: QueueRows, numbered: QueueRows, after: QueueRows, others: seq<nat>, id: nat)
    requires Waits(before, id) && OnlyPositionsChanged(before, numbered) && Distinct(others)
    requires forall x :: x in others || x == id <==> Waits(before, x)
    requires Numbered(numbered, others, 1, |others|)
    requires after == numbered[id := numbered[id].(position := Some(0))]
    ensures Represents(after, [id] + Dropped(others, [id]))
  {
    var rest := Dropped(others, [id]);
    NumberedIsStrict(numbered, others, 1);
    DroppedMembers(others, [id]);
    DroppedStaysStrict(numbered, others, [id]);
    hide StrictBy, Numbered, InRows, Distinct, Dropped, Represents;
    StaysStrict(numbered, after, rest);
    FrontPut(after, rest, id);
  }

  /** Dropping the job from what is left of the queue drops it from the queue. */
  lemma OnceMoreDropped(q: seq<nat>, job: JobRef)
    ensures Dropped(Dropped(q, EqualTo(job)), [job.id]) == Dropped(q, [job.id])
  {
    if job.ByNumber? {
      DroppedMembers(q, [job.id]);
      DroppedNothing(Dropped(q, [job.id]), [job.id]);
    } else {
      DroppedNothing(q, []);
    }
  }

  lemma {:induction false} HeadDropped(q: seq<nat>)
    requires q != [] && Distinct(q)
    ensures Dropped(q, [q[0]]) == q[1..]
  {
    if |q| == 1 {
      assert q[..0] == [];
    } else {
      var front := q[..|q| - 1];
      HeadDropped(front);
      assert q[1..] == front[1..] + [q[|q| - 1]];
    }
  }

  /** A newcomer changes nothing about the order of the others, wherever the sort puts it. */
  lemma OthersKeepTheirOrder(before: QueueRows, with: QueueRows, q: seq<nat>, p: seq<nat>, id: nat)
    requires Represents(before, q) && id !in before && Waits(with, id)
    requires with.Keys == before.Keys + {id} && forall x | x in before :: with[x] == before[x]
    requires IsEnumerationOfWaiting(with, p) && SortedBy(with, p)
    ensures Dropped(p, [id]) == q
  {
    DroppedMembers(p, [id]);
    DroppedStaysSorted(with, p, [id]);
    assert InRows(with, q) && StrictBy(with, q);
    SortedWithoutTiesIsStrict(with, Dropped(p, [id]), q);
    StrictListsAgree(with, Dropped(p, [id]), q);
  }
}
