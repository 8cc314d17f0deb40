/** Tag-editing sessions: staged operations over a base, replayed through a cache keyed by their number. */
module TagSessions {
  import opened Values
  import Text

  type Lines = seq<string>

  type Captions = map<string, Lines>

  /**
   * A staged operation: take images out of the set, or rewrite the lines of those that stay. What an
   * operation selects or writes may depend on all captions, as tag frequencies do.
   */
  datatype Op =
    | Quarantine(select: Captions -> seq<string>)
    | Rewrite(edit: (Captions, string) -> Lines)

  function Present(keys: seq<string>, captions: Captions): seq<string> {
    if keys == [] then []
    else
      var front, last := Present(keys[..|keys| - 1], captions), keys[|keys| - 1];
      if last in captions then front + [last] else front
  }

  predicate NoRepeats(keys: seq<string>) {
    forall i, j | 0 <= i < j < |keys| :: keys[i] != keys[j]
  }

  /** `None` when applying raises: an image named twice is popped twice. */
  function Apply(captions: Captions, op: Op): Option<Captions> {
    match op
    case Quarantine(select) =>
      var keys := Present(select(captions), captions);
      if NoRepeats(keys) then Some(captions - (set k | k in keys)) else None
    case Rewrite(edit) => Some(map k | k in captions :: edit(captions, k))
  }

  /** `apply_ops`: all operations in order, from the base. */
  function Replay(base: Captions, ops: seq<Op>): Option<Captions> {
    if ops == [] then Some(base)
    else
      var before := Replay(base, ops[..|ops| - 1]);
      if before.None? then None else Apply(before.value, ops[|ops| - 1])
  }

  // ---------------------------------------------------------------- what a caption set stores

  /** `set_lines`: every line stripped, blank lines dropped. */
  function Clean(lines: Lines): Lines {
    if lines == [] then []
    else
      var front, last := Clean(lines[..|lines| - 1]), Text.Trim(lines[|lines| - 1]);
      if last == "" then front else front + [last]
  }

  /** The base after a commit of `current`: only changed images are written, and what is written is cleaned. */
  function Committed(base: Captions, current: Captions): Captions {
    map k | k in current :: if k in base && base[k] == current[k] then current[k] else Clean(current[k])
  }

  /** A line as a caption file stores it: not blank, and stripped. */
  predicate CleanLine(line: string) {
    line != "" && Text.Trim(line) == line
  }

  predicate CleanLines(lines: Lines) {
    forall i | 0 <= i < |lines| :: CleanLine(lines[i])
  }

  ghost predicate AllClean(captions: Captions) {
    forall k | k in captions :: CleanLines(captions[k])
  }

  /** A commit rewrites just the images that changed, so an untouched file keeps even what is not clean. */
  lemma OnlyChangedImagesAreRewritten(base: Captions, current: Captions, k: string)
    requires k in current
    ensures k in Committed(base, current)
    ensures k in base && base[k] == current[k] ==> Committed(base, current)[k] == base[k]
    ensures k !in base || base[k] != current[k] ==> Committed(base, current)[k] == Clean(current[k])
  {
  }

  lemma {:induction false} StoredLinesAreClean(lines: Lines)
    ensures CleanLines(Clean(lines))
  {
    if lines != [] {
      StoredLinesAreClean(lines[..|lines| - 1]);
      Text.TrimIdempotent(lines[|lines| - 1]);
    }
  }

  /** Storing leaves lines alone exactly when each of them is stripped and not blank. */
  lemma {:induction false} StoredAsTheyAreIff(lines: Lines)
    ensures Clean(lines) == lines <==> CleanLines(lines)
  {
    StoredLinesAreClean(lines);
    if lines != [] && CleanLines(lines) {
      var front := lines[..|lines| - 1];
      StoredAsTheyAreIff(front);
      assert CleanLine(lines[|lines| - 1]);
    }
  }

  /** The images an editor shows as changed. */
  function ChangedKeys(before: Captions, after: Captions): set<string> {
    set k | k in before.Keys + after.Keys && !(k in before && k in after && before[k] == after[k])
  }

  /** Changed images are those whose lines differ, and those on one side only. */
  lemma ChangedIff(before: Captions, after: Captions, k: string)
    ensures k in ChangedKeys(before, after) <==>
              (k in before && k !in after) || (k !in before && k in after)
              || (k in before && k in after && before[k] != after[k])
  {
  }

  // ---------------------------------------------------------------- replaying

  lemma {:induction false} ReplayInTwoParts(base: Captions, ops: seq<Op>, k: nat)
    requires k <= |ops|
    ensures Replay(base, ops).Some? ==> Replay(base, ops[..k]).Some?
    ensures Replay(base, ops[..k]).Some? ==> Replay(base, ops) == Replay(Replay(base, ops[..k]).value, ops[k..])
  {
    hide Apply;
    if k == |ops| {
      assert ops[..k] == ops && ops[k..] == [];
    } else {
      var front := ops[..|ops| - 1];
      ReplayInTwoParts(base, front, k);
      assert front[..k] == ops[..k];
      assert ops[k..][..|ops| - k - 1] == front[k..];
    }
  }

  /** Operations only ever take images away. */
  lemma {:induction false} ReplayNeverAddsImages(base: Captions, ops: seq<Op>)
    requires Replay(base, ops).Some?
    ensures Replay(base, ops).value.Keys <= base.Keys
  {
    if ops != [] {
      ReplayNeverAddsImages(base, ops[..|ops| - 1]);
    }
  }

  /** Operation `i` of the stack quarantines the image: it selects it among those still there. */
  ghost predicate QuarantinedBy(base: Captions, ops: seq<Op>, i: nat, k: string) {
    && i < |ops| && ops[i].Quarantine? && Replay(base, ops[..i]).Some?
    && k in ops[i].select(Replay(base, ops[..i]).value)
  }

  /** An image is gone after replaying the stack exactly when some quarantine selected it; no other goes. */
  lemma {:induction false} GoneIffQuarantined(base: Captions, ops: seq<Op>, k: string)
    requires Replay(base, ops).Some? && k in base
    ensures k !in Replay(base, ops).value <==> exists i: nat :: QuarantinedBy(base, ops, i, k)
  {
    if ops != [] {
      var last := |ops| - 1;
      var front := ops[..last];
      var before := Replay(base, front).value;
      GoneIffQuarantined(base, front, k);
      forall i: nat
        ensures QuarantinedBy(base, ops, i, k)
           <==> QuarantinedBy(base, front, i, k) || (i == last && QuarantinedBy(base, ops, i, k))
      {
        if i < last {
          assert ops[..i] == front[..i];
        }
      }
      StepTakes(before, ops[last], k);
      if k !in before {
        var i: nat :| QuarantinedBy(base, front, i, k);
        assert QuarantinedBy(base, ops, i, k);
      }
      assert k !in Apply(before, ops[last]).value && k in before ==> QuarantinedBy(base, ops, last, k);
    }
  }

  lemma {:induction false} PresentMembers(keys: seq<string>, captions: Captions)
    ensures forall k :: k in Present(keys, captions) <==> k in keys && k in captions
  {
    if keys != [] {
      PresentMembers(keys[..|keys| - 1], captions);
      assert keys == keys[..|keys| - 1] + [keys[|keys| - 1]];
    }
  }

  /** One operation: which images go, and that a quarantine leaves the captions of the others alone. */
  lemma StepTakes(captions: Captions, op: Op, k: string)
    requires Apply(captions, op).Some?
    ensures var after := Apply(captions, op).value;
            && (k in after <==> k in captions && !(op.Quarantine? && k in op.select(captions)))
            && (op.Quarantine? && k in after ==> after[k] == captions[k])
            && (op.Rewrite? && k in after ==> after[k] == op.edit(captions, k))
  {
    if op.Quarantine? {
      PresentMembers(op.select(captions), captions);
    }
  }

  /** An operation raises exactly when it quarantines an image twice that is still there. */
  lemma ApplyRaisesIff(captions: Captions, select: Captions -> seq<string>, keys: seq<string>)
    requires keys == Present(select(captions), captions)
    ensures Apply(captions, Quarantine(select)).None? <==> exists i, j :: 0 <= i < j < |keys| && keys[i] == keys[j]
    ensures forall edit :: Apply(captions, Rewrite(edit)).Some?
  {
    assert Apply(captions, Quarantine(select)).None? <==> !NoRepeats(keys);
  }

  /**
   * The disk holds what the editor showed exactly when every line shown is stripped and not blank;
   * otherwise blank lines vanish and padding is stripped.
   */
  lemma CommitStoresWhatWasShownIff(base: Captions, current: Captions)
    requires AllClean(base) && current.Keys <= base.Keys
    ensures Committed(base, current) == current <==> AllClean(current)
    ensures AllClean(Committed(base, current)) && Committed(base, current).Keys == current.Keys
  {
    hide Clean, CleanLines;
    forall k | k in current
      ensures CleanLines(Committed(base, current)[k])
      ensures Committed(base, current)[k] == current[k] <==> CleanLines(current[k])
    {
      StoredLinesAreClean(current[k]);
      StoredAsTheyAreIff(current[k]);
    }
  }

  // ---------------------------------------------------------------- the two loops of a session

  /** The quarantined images go, and every image that differs is written through `set_lines`. */
  method Written(base: Captions, current: Captions) returns (stored: Captions)
    requires current.Keys <= base.Keys
    ensures stored == Committed(base, current)
  {
    hide Clean;
    stored := base - (base.Keys - current.Keys);
    var left := current.Keys;
    while left != {}
      invariant left <= current.Keys && stored.Keys == current.Keys
      invariant forall k | k in stored && k in left :: stored[k] == base[k]
      invariant forall k | k in stored && k !in left :: stored[k] == Committed(base, current)[k]
      decreases left
    {
      var k :| k in left;
      left := left - {k};
      if stored[k] != current[k] {
        stored := stored[k := Clean(current[k])];
      }
    }
  }

  predicate Edited(before: Captions, after: Captions, k: string)
    requires k in after
  {
    k !in before || before[k] != after[k]
  }

  ghost function EditedAmong(before: Captions, after: Captions, left: set<string>): set<string> {
    set k | k in after && k !in left && Edited(before, after, k)
  }

  lemma OneFewerLeft(before: Captions, after: Captions, left: set<string>, k: string)
    requires k in left && k in after
    ensures |EditedAmong(before, after, left - {k})|
         == |EditedAmong(before, after, left)| + if Edited(before, after, k) then 1 else 0
  {
    var seen, more := EditedAmong(before, after, left), EditedAmong(before, after, left - {k});
    if Edited(before, after, k) {
      assert more == seen + {k};
    } else {
      assert more == seen;
    }
  }

  /** A changed image is edited or gone, not both. */
  lemma EditedAndGone(before: Captions, after: Captions)
    ensures |ChangedKeys(before, after)| == |EditedAmong(before, after, {})| + |before.Keys - after.Keys|
  {
    var edited, gone := EditedAmong(before, after, {}), before.Keys - after.Keys;
    assert ChangedKeys(before, after) == edited + gone && edited !! gone;
  }

  /** `count_changed`: edited images, and images that are gone, counted apart. */
  method NumberChanged(before: Captions, after: Captions) returns (n: nat)
    ensures n == |ChangedKeys(before, after)|
  {
    hide ChangedKeys, Edited;
    n := 0;
    var left := after.Keys;
    assert EditedAmong(before, after, left) == {};
    while left != {}
      invariant left <= after.Keys && n == |EditedAmong(before, after, left)|
      decreases left
    {
      var k :| k in left;
      OneFewerLeft(before, after, left, k);
      left := left - {k};
      if Edited(before, after, k) {
        n := n + 1;
      }
    }
    EditedAndGone(before, after);
    n := n + |before.Keys - after.Keys|;
  }

  // ---------------------------------------------------------------- the session

  datatype Commit = NothingStaged | Raised | Done(quarantined: set<string>)

  class TagSession {
    var base: Captions
    var ops: seq<Op>
    var cache: Option<(nat, Captions)>

    /** Although it is keyed by a length alone, the cache answers for a prefix of the stack. */
    ghost predicate Valid()
      reads this
    {
      && AllClean(base)
      && (cache.Some? ==> cache.value.0 <= |ops| && Replay(base, ops[..cache.value.0]) == Some(cache.value.1))
    }

    constructor (base: Captions)
      requires AllClean(base)
      ensures Valid() && this.base == base && ops == []
    {
      this.base, ops, cache := base, [], None;
    }

    /** `current`: cached or replayed, it is always the replay; `None` when replaying raises. */
    method Current() returns (captions: Option<Captions>)
      requires Valid()
      modifies this`cache
      ensures Valid() && captions == Replay(base, ops)
      ensures captions.Some? ==> cache == Some((|ops|, captions.value))
    {
      if cache.Some? && cache.value.0 == |ops| {
        assert ops[..|ops|] == ops;
        return Some(cache.value.1);
      }
      captions := Replay(base, ops);
      if captions.Some? {
        cache := Some((|ops|, captions.value));
        assert ops[..|ops|] == ops;
      }
    }

    /** Images staged to leave the folder. */
    method QuarantinePending() returns (keys: Option<set<string>>)
      requires Valid()
      modifies this`cache
      ensures Valid()
      ensures keys == match Replay(base, ops) case None => None case Some(c) => Some(base.Keys - c.Keys)
    {
      var current := Current();
      return if current.None? then None else Some(base.Keys - current.value.Keys);
    }

    /** Staging answers with a summary, which replays the longer stack. */
    method StageOps(more: seq<Op>) returns (shown: Option<Captions>)
      requires Valid()
      modifies this`ops, this`cache
      ensures Valid() && ops == old(ops) + more && shown == Replay(base, ops)
    {
      ghost var before := ops;
      ops := ops + more;
      assert forall k | 0 <= k <= |before| :: ops[..k] == before[..k];
      shown := Current();
    }

    /** Undo drops the last operation, and its summary renews the cache before another can be staged. */
    method Undo() returns (shown: Option<Captions>)
      requires Valid()
      modifies this`ops, this`cache
      ensures Valid() && shown == Replay(base, ops)
      ensures ops == if old(ops) == [] then [] else old(ops)[..|old(ops)| - 1]
    {
      if ops != [] {
        var shorter := ops[..|ops| - 1];
        DroppedOperation(shorter);
        ops := shorter;
        if cache.Some? && cache.value.0 > |ops| {
          shown := Replay(base, ops);
          cache := Some((|ops|, shown.value));
          assert ops[..|ops|] == ops;
          return;
        }
        assert cache.Some? ==> ops[..cache.value.0] == old(ops)[..cache.value.0];
      }
      shown := Current();
    }

    /** When the whole stack replayed, the shorter one does. */
    lemma DroppedOperation(shorter: seq<Op>)
      requires Valid() && ops != [] && shorter == ops[..|ops| - 1]
      ensures cache.Some? && cache.value.0 > |shorter| ==> Replay(base, shorter).Some?
    {
      if cache.Some? && cache.value.0 > |shorter| {
        assert ops[..|ops|] == ops;
        ReplayInTwoParts(base, ops, |shorter|);
      }
    }

    /** Snapshot, quarantine, write, and start again from the new base. */
    method CommitStaged() returns (r: Commit)
      requires Valid()
      modifies this
      ensures Valid()
      ensures r.NothingStaged? <==> old(ops) == []
      ensures r.Raised? <==> old(ops) != [] && Replay(old(base), old(ops)).None?
      ensures !r.Done? ==> base == old(base) && ops == old(ops)
      ensures r.Done? ==>
                var shown := Replay(old(base), old(ops)).value;
                && ops == [] && base == Committed(old(base), shown)
                && r.quarantined == old(base).Keys - shown.Keys
                && (base == shown <==> AllClean(shown))
    {
      if ops == [] {
        return NothingStaged;
      }
      var current := Current();
      if current.None? {
        return Raised;
      }
      ReplayNeverAddsImages(base, ops);
      CommitStoresWhatWasShownIff(base, current.value);
      hide *;
      var stored := Written(base, current.value);
      var quarantined := base.Keys - current.value.Keys;
      base, ops, cache := stored, [], None;
      return Done(quarantined);
    }

    /** The changed images counted without listing them. */
    method CountChanged() returns (count: Option<nat>)
      requires Valid()
      modifies this`cache
      ensures Valid()
      ensures count == match Replay(base, ops) case None => None case Some(c) => Some(|ChangedKeys(base, c)|)
    {
      var current := Current();
      if current.None? {
        return None;
      }
      var n := NumberChanged(base, current.value);
      return Some(n);
    }
  }
}
