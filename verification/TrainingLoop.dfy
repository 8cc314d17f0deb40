/**
 * The step-budgeted training loop. What the GPU, the saver and the operator do is scripted by one
 * `StepEvents` per step; the loop's own counters, decisions and saves are modelled as they are.
 */
module TrainingLoop {
  import opened Values
  import opened TrainingProgress

  // ---------------------------------------------------------------- OOM skips in a window

  const OOM_WINDOW := 10

  /** The skips among the last `OOM_WINDOW` steps. */
  function Recent(skips: seq<int>, step: int): seq<int> {
    if skips == [] then []
    else
      var front, last := Recent(skips[..|skips| - 1], step), skips[|skips| - 1];
      if last >= step - OOM_WINDOW + 1 then front + [last] else front
  }

  /** Dropping aged-out skips changes no later count. */
  lemma {:induction false} PruningIsInvisible(skips: seq<int>, step: int, later: int)
    requires step <= later
    ensures Recent(Recent(skips, step), later) == Recent(skips, later)
  {
    if skips != [] {
      var front := skips[..|skips| - 1];
      PruningIsInvisible(front, step, later);
      if skips[|skips| - 1] >= step - OOM_WINDOW + 1 {
        assert Recent(skips, step)[..|Recent(skips, step)| - 1] == Recent(front, step);
      }
    }
  }

  /** `oomSteps` is pruned as it is read; `skips` is what really happened since the last reset. */
  class OomSkipState {
    const maxInWindow: int
    var oomSteps: seq<int>
    ghost var skips: seq<int>
    ghost var latest: int

    ghost predicate Valid()
      reads this
    {
      forall step | step >= latest :: Recent(oomSteps, step) == Recent(skips, step)
    }

    /** The limit is the configured one. */
    ghost predicate Serves(c: RunConfig) {
      c.oomSkip.Some? ==> maxInWindow == c.oomSkip.value
    }

    constructor For(c: RunConfig, step: int)
      ensures Valid() && Serves(c) && skips == [] && latest == step
    {
      maxInWindow := if c.oomSkip.Some? then c.oomSkip.value else 0;
      oomSteps, skips, latest := [], [], step;
    }

    method RecordSkip(step: int)
      requires Valid() && step >= latest
      modifies this
      ensures Valid() && skips == old(skips) + [step] && latest == step
    {
      forall s | s >= step ensures Recent(oomSteps + [step], s) == Recent(skips + [step], s) {
        assert (oomSteps + [step])[..|oomSteps|] == oomSteps && (skips + [step])[..|skips|] == skips;
      }
      oomSteps := oomSteps + [step];
      skips := skips + [step];
      latest := step;
    }

    /** A fresh window after the block swap was raised. */
    method ResetWindow()
      modifies this
      ensures Valid() && skips == [] && latest == old(latest)
    {
      oomSteps, skips := [], [];
    }

    /** Have enough skips hit within the window? */
    method AtLimit(step: int) returns (limit: bool)
      requires Valid() && step >= latest
      modifies this
      ensures Valid() && skips == old(skips) && latest == step
      ensures limit <==> |Recent(skips, step)| >= maxInWindow
    {
      forall later | later >= step ensures Recent(Recent(oomSteps, step), later) == Recent(skips, later) {
        PruningIsInvisible(oomSteps, step, later);
      }
      oomSteps := Recent(oomSteps, step);
      latest := step;
      return |oomSteps| >= maxInWindow;
    }
  }

  // ---------------------------------------------------------------- the run

  datatype RunConfig = RunConfig(
    schedule: EpochSchedule,
    maxSteps: Option<int>,
    perStep: int,            // examples per optimizer step
    onset: Option<int>,      // WSD decay onset
    oomSkip: Option<int>,    // the window limit, when skipping is on
    bumpBlockSwap: bool,
    backoff: Option<nat>,    // how often the activation budget can still be lowered, when it can at all
    saveOnError: bool,
    worldSize: int
  ) {
    function Budget(): int {
      StepBudget(maxSteps, schedule.TotalSteps())
    }

    predicate HandlesOom() {
      oomSkip.Some? || backoff.Some?
    }
  }

  /** How the batch of a step ended on this rank: `PeerOom` is a batch another rank could not finish. */
  datatype Batch = Trained | LocalOom | PeerOom | BatchCrash

  /** Where else an exception strikes, if it does. */
  datatype Crash = NoCrash | InBoundary | InStepSaves | AfterFork

  datatype Saves = Saves(checkpointed: bool, exported: bool)

  datatype Quit = NoQuit | SaveQuit | ExportQuit

  datatype StepEvents = StepEvents(
    batch: Batch,
    swapRaised: bool,
    crash: Crash,
    boundary: Saves,       // what the saver manages at an epoch boundary
    stepSaves: Saves,      // what it manages at the end of the step
    quit: Quit,
    emergencyWorks: bool
  )

  datatype FinalEvents = FinalEvents(checkpointWorks: bool, exportMissing: bool)

  datatype Checkpoint = Checkpoint(step: int, examples: int)

  datatype Outcome =
    | Finished
    | NothingLeft
    | Stopped(code: int)
    | Failed

  /** The fork step to arm when the loop starts at `step`. */
  function ForkForResume(onset: Option<int>, step: int): Option<int> {
    if onset.None? || onset.value <= 0 || step - 1 >= onset.value then None else onset
  }

  /** The fork attempts of steps up to `last`. */
  function ForksUpTo(fork: Option<int>, last: int): seq<int> {
    if fork.Some? && fork.value <= last then [fork.value] else []
  }

  /** The fork still to come after step `last`. */
  function StillArmed(fork: Option<int>, last: int): Option<int> {
    if fork.Some? && fork.value > last then fork else None
  }

  lemma ForkPoint(fork: Option<int>, step: int)
    ensures var left := StillArmed(fork, step - 1);
            var fires := left.Some? && step >= left.value;
            && ForksUpTo(fork, step) == ForksUpTo(fork, step - 1) + (if fires then [step] else [])
            && StillArmed(fork, step) == if fires then None else left
  {
  }

  // ---------------------------------------------------------------- what the script makes of a run

  /** What is left to absorb running out of memory: retries with a lower budget, skips since the last reset. */
  datatype OomState = OomState(backoff: nat, skips: seq<int>)

  function FreshOom(c: RunConfig): OomState {
    OomState(if c.backoff.Some? then c.backoff.value else 0, [])
  }

  /** The state after a batch, or `None` when the batch ends the run. */
  function AfterBatch(c: RunConfig, e: StepEvents, oom: OomState, step: int): Option<OomState> {
    if e.batch.Trained? || (e.batch.PeerOom? && !c.HandlesOom()) then Some(oom)
    else if e.batch.BatchCrash? || !c.HandlesOom() then None
    else if oom.backoff > 0 then Some(oom.(backoff := oom.backoff - 1))
    else if c.oomSkip.None? then None
    else if |Recent(oom.skips + [step], step)| < c.oomSkip.value then Some(oom.(skips := oom.skips + [step]))
    else if c.bumpBlockSwap && e.swapRaised then Some(oom.(skips := []))
    else None
  }

  predicate PassesBoundary(c: RunConfig, e: StepEvents, oom: OomState, step: int) {
    AfterBatch(c, e, oom, step).Some? && !(c.schedule.CompletedAt(step).Some? && e.crash.InBoundary?)
  }

  predicate PassesFork(c: RunConfig, e: StepEvents, oom: OomState, step: int) {
    PassesBoundary(c, e, oom, step) && !e.crash.InStepSaves? && e.quit.NoQuit?
  }

  lemma StepPoints(c: RunConfig, e: StepEvents, oom: OomState, step: int)
    ensures PassesBoundary(c, e, oom, step)
       <==> AfterBatch(c, e, oom, step).Some? && !(c.schedule.CompletedAt(step).Some? && e.crash.InBoundary?)
    ensures PassesFork(c, e, oom, step) <==> PassesBoundary(c, e, oom, step) && !e.crash.InStepSaves? && e.quit.NoQuit?
    ensures Passed(true, step) == step && Passed(false, step) == step - 1
  {
  }

  datatype StepEnd = GoesOn(oom: OomState) | Quits(code: int) | Fails

  function EndOfStep(c: RunConfig, e: StepEvents, oom: OomState, step: int): StepEnd {
    if !PassesBoundary(c, e, oom, step) || e.crash.InStepSaves? then Fails
    else if !e.quit.NoQuit? then Quits(if e.quit.SaveQuit? && !e.stepSaves.checkpointed then 1 else 0)
    else if e.crash.AfterFork? then Fails
    else GoesOn(AfterBatch(c, e, oom, step).value)
  }

  lemma EndOfStepUnfolds(c: RunConfig, e: StepEvents, oom: OomState, step: int)
    ensures EndOfStep(c, e, oom, step)
         == if !PassesBoundary(c, e, oom, step) || e.crash.InStepSaves? then Fails
            else if !e.quit.NoQuit? then Quits(if e.quit.SaveQuit? && !e.stepSaves.checkpointed then 1 else 0)
            else if e.crash.AfterFork? then Fails
            else GoesOn(AfterBatch(c, e, oom, step).value)
  {
  }

  /** How a run ended, at which step, and the last steps whose epoch boundary and fork point it passed. */
  datatype RunEnd = RunEnd(outcome: Outcome, last: int, boundary: int, fork: int)

  function Passed(passed: bool, step: int): int {
    if passed then step else step - 1
  }

  /** The end of a run whose last step is `step`. */
  function EndAt(c: RunConfig, e: StepEvents, oom: OomState, step: int): RunEnd {
    match EndOfStep(c, e, oom, step)
    case GoesOn(_) => RunEnd(Finished, step, step, step)
    case Quits(code) => RunEnd(Stopped(code), step, step, step - 1)
    case Fails =>
      RunEnd(Failed, step, Passed(PassesBoundary(c, e, oom, step), step), Passed(PassesFork(c, e, oom, step), step))
  }

  /** The end of a run that begins step `step` in state `oom`. */
  function RunFrom(c: RunConfig, events: int -> StepEvents, oom: OomState, step: int): RunEnd
    decreases c.Budget() - step
  {
    var after := EndOfStep(c, events(step), oom, step);
    if after.GoesOn? && step < c.Budget() then RunFrom(c, events, after.oom, step + 1)
    else EndAt(c, events(step), oom, step)
  }

  lemma RunFromUnfolds(c: RunConfig, events: int -> StepEvents, oom: OomState, step: int)
    ensures var after := EndOfStep(c, events(step), oom, step);
            RunFrom(c, events, oom, step)
            == if after.GoesOn? && step < c.Budget() then RunFrom(c, events, after.oom, step + 1)
               else EndAt(c, events(step), oom, step)
    ensures EndAt(c, events(step), oom, step).last == step
    ensures EndOfStep(c, events(step), oom, step).GoesOn? ==>
              EndAt(c, events(step), oom, step) == RunEnd(Finished, step, step, step)
  {
  }

  lemma OutcomeOf(c: RunConfig, e: StepEvents, oom: OomState, step: int)
    ensures EndAt(c, e, oom, step).outcome
         == match EndOfStep(c, e, oom, step)
            case GoesOn(_) => Finished
            case Quits(code) => Stopped(code)
            case Fails => Failed
  {
  }

  /** The state in which a run from `first` begins step `step`, if every step before let it go on. */
  function OomAt(c: RunConfig, events: int -> StepEvents, first: int, step: int): OomState
    decreases step - first
  {
    if step <= first then FreshOom(c)
    else
      var before := OomAt(c, events, first, step - 1);
      var after := AfterBatch(c, events(step - 1), before, step - 1);
      if after.Some? then after.value else before
  }

  /** The step lets the run go on. */
  predicate Continues(c: RunConfig, events: int -> StepEvents, first: int, step: int) {
    EndOfStep(c, events(step), OomAt(c, events, first, step), step).GoesOn?
  }

  /** A run ends at its first step that does not let it go on, in the way that step says, or at the budget. */
  lemma {:induction false} RunEndsAtTheFirstObstacle(c: RunConfig, events: int -> StepEvents, first: int, step: int)
    requires first <= step <= c.Budget()
    ensures var end := RunFrom(c, events, OomAt(c, events, first, step), step);
            && step <= end.last <= c.Budget()
            && (forall s | step <= s < end.last :: Continues(c, events, first, s))
            && (end.outcome.Finished? <==> end.last == c.Budget() && Continues(c, events, first, end.last))
            && (end.outcome.Stopped? <==>
                  EndOfStep(c, events(end.last), OomAt(c, events, first, end.last), end.last).Quits?)
            && (end.outcome.Failed? <==>
                  EndOfStep(c, events(end.last), OomAt(c, events, first, end.last), end.last).Fails?)
            && !end.outcome.NothingLeft? && end.last - 1 <= end.fork <= end.boundary <= end.last
    decreases c.Budget() - step
  {
    hide EndOfStep, AfterBatch, PassesBoundary, PassesFork, OomAt, RunFrom;
    var oom := OomAt(c, events, first, step);
    RunFromUnfolds(c, events, oom, step);
    PassingTheForkMeansPassingTheBoundary(c, events(step), oom, step);
    if EndOfStep(c, events(step), oom, step).GoesOn? && step < c.Budget() {
      OomAfterAStep(c, events, first, step);
      RunEndsAtTheFirstObstacle(c, events, first, step + 1);
    }
  }

  lemma PassingTheForkMeansPassingTheBoundary(c: RunConfig, e: StepEvents, oom: OomState, step: int)
    ensures PassesFork(c, e, oom, step) ==> PassesBoundary(c, e, oom, step)
  {
  }

  lemma OomAfterAStep(c: RunConfig, events: int -> StepEvents, first: int, step: int)
    requires first <= step && Continues(c, events, first, step)
    ensures OomAt(c, events, first, step + 1)
         == EndOfStep(c, events(step), OomAt(c, events, first, step), step).oom
  {
    hide AfterBatch;
  }

  /** What the steps `first .. budget` must be spared for the run to finish. */
  predicate Undisturbed(c: RunConfig, events: int -> StepEvents, first: int, step: int) {
    var e := events(step);
    && e.quit.NoQuit?
    && (e.crash.NoCrash? || (e.crash.InBoundary? && c.schedule.CompletedAt(step).None?))
    && AfterBatch(c, e, OomAt(c, events, first, step), step).Some?
  }

  /**
   * A run finishes if and only if no step of it is asked to quit, is struck by an exception, or has a
   * batch that back-off, skipping and block swap cannot absorb.
   */
  lemma FinishesIffUndisturbed(c: RunConfig, events: int -> StepEvents, first: int)
    requires first <= c.Budget()
    ensures RunFrom(c, events, FreshOom(c), first).outcome.Finished?
       <==> forall s | first <= s <= c.Budget() :: Undisturbed(c, events, first, s)
  {
    hide AfterBatch, RunFrom;
    RunEndsAtTheFirstObstacle(c, events, first, first);
    assert OomAt(c, events, first, first) == FreshOom(c);
    hide OomAt;
    forall s ensures Continues(c, events, first, s) <==> Undisturbed(c, events, first, s) {
    }
    var end := RunFrom(c, events, FreshOom(c), first);
    assert Continues(c, events, first, end.last) <==> Undisturbed(c, events, first, end.last);
  }

  /** The steps from `first` up to `last` whose batch ran out of memory on some rank. */
  function OomSteps(events: int -> StepEvents, first: int, last: int): seq<int>
    decreases last - first + 1
  {
    if last < first then []
    else
      OomSteps(events, first, last - 1)
      + if events(last).batch.LocalOom? || events(last).batch.PeerOom? then [last] else []
  }

  lemma RecentAppend(skips: seq<int>, s: int, step: int)
    ensures Recent(skips + [s], step) == Recent(skips, step) + if s >= step - OOM_WINDOW + 1 then [s] else []
  {
    assert (skips + [s])[..|skips|] == skips;
  }

  /** One batch adds at most one skip to those that count, and only when it ran out of memory. */
  lemma OneBatchOneSkip(c: RunConfig, e: StepEvents, oom: OomState, step: int, now: int)
    requires AfterBatch(c, e, oom, step).Some?
    ensures var ran := e.batch.LocalOom? || e.batch.PeerOom?;
            |Recent(AfterBatch(c, e, oom, step).value.skips, now)|
            <= |Recent(oom.skips, now)| + if ran && step >= now - OOM_WINDOW + 1 then 1 else 0
  {
    RecentAppend(oom.skips, step, now);
    assert Recent([], now) == [];
  }

  lemma OomStepsUnfold(events: int -> StepEvents, first: int, last: int, now: int)
    requires first <= last
    ensures var ran := events(last).batch.LocalOom? || events(last).batch.PeerOom?;
            |Recent(OomSteps(events, first, last), now)|
            == |Recent(OomSteps(events, first, last - 1), now)|
               + if ran && last >= now - OOM_WINDOW + 1 then 1 else 0
  {
    RecentAppend(OomSteps(events, first, last - 1), last, now);
    var before := OomSteps(events, first, last - 1);
    assert before + [] == before;
  }

  /** Whatever was retried or forgotten after a raise, no more skips count than there were OOMs. */
  lemma {:induction false} SkipsAreOoms(c: RunConfig, events: int -> StepEvents, first: int, step: int, now: int)
    requires first <= step
    ensures |Recent(OomAt(c, events, first, step).skips, now)| <= |Recent(OomSteps(events, first, step - 1), now)|
    decreases step - first
  {
    hide Recent, AfterBatch;
    if step <= first {
      NothingRecent(now);
    } else {
      SkipsAreOoms(c, events, first, step - 1, now);
      OomStepsUnfold(events, first, step - 1, now);
      var before := OomAt(c, events, first, step - 1);
      if AfterBatch(c, events(step - 1), before, step - 1).Some? {
        OneBatchOneSkip(c, events(step - 1), before, step - 1, now);
      }
    }
  }

  lemma NothingRecent(now: int)
    ensures Recent([], now) == []
  {
  }

  /**
   * With skipping on, OOMs alone never end a run that has fewer of them than the limit in any ten
   * steps, wherever they fall; and they never end one whose block swap can always be raised.
   */
  lemma FewOomsNeverEndARun(c: RunConfig, events: int -> StepEvents, first: int)
    requires first <= c.Budget() && c.oomSkip.Some?
    requires forall s | first <= s <= c.Budget() ::
               events(s).quit.NoQuit? && events(s).crash.NoCrash? && !events(s).batch.BatchCrash?
    requires || (forall s | first <= s <= c.Budget() :: |Recent(OomSteps(events, first, s), s)| < c.oomSkip.value)
             || (c.bumpBlockSwap && forall s | first <= s <= c.Budget() :: events(s).swapRaised)
    ensures RunFrom(c, events, FreshOom(c), first).outcome.Finished?
  {
    hide OomAt, Recent, RunFrom;
    FinishesIffUndisturbed(c, events, first);
    forall s | first <= s <= c.Budget() ensures Undisturbed(c, events, first, s) {
      SkipsAreOoms(c, events, first, s, s);
      RecentAppend(OomAt(c, events, first, s).skips, s, s);
      OomStepsUnfold(events, first, s, s);
    }
  }

  class TrainingRun {
    var step: int
    var examples: int
    var lrSteps: int             // how often the LR scheduler has advanced
    var fork: Option<int>
    var lastCheckpoint: int
    var lastSave: int
    var backoffLeft: nat
    var batches: nat             // iterations begun
    var completed: seq<int>      // epochs handed to the saver
    var forks: seq<int>          // steps at which the fork checkpoint was attempted
    var checkpoints: seq<Checkpoint>
    var exports: seq<ModelName>

    /** The example counter that belongs to the step counter. */
    ghost predicate ExamplesMatch(c: RunConfig)
      reads this`step, this`examples
    {
      examples == step * c.perStep
    }

    /** Counters that belong to step `step`, before it is trained. */
    ghost predicate Aligned(c: RunConfig)
      reads this
    {
      && step >= 1
      && ExamplesMatch(c)
      && lrSteps == step - 1
      && fork == ForkForResume(c.onset, step)
    }

    ghost predicate Untouched()
      reads this
    {
      batches == 0 && completed == [] && forks == [] && checkpoints == [] && exports == []
      && lastCheckpoint == -1 && lastSave == -1
    }

    ghost predicate NothingRetried(c: RunConfig)
      reads this`backoffLeft
    {
      backoffLeft == if c.backoff.Some? then c.backoff.value else 0
    }

    /** A fresh run. */
    constructor Fresh(c: RunConfig)
      ensures Aligned(c) && Untouched() && NothingRetried(c) && step == 1
    {
      step, examples, lrSteps := 1, c.perStep, 0;
      fork := ForkForResume(c.onset, 1);
      lastCheckpoint, lastSave, batches := -1, -1, 0;
      backoffLeft := if c.backoff.Some? then c.backoff.value else 0;
      completed, forks, checkpoints, exports := [], [], [], [];
    }

    /** A run resumed from a checkpoint: the scheduler is fast-forwarded one step at a time. */
    constructor Resume(c: RunConfig, from: Checkpoint)
      requires from.step >= 0 && from.examples == from.step * c.perStep
      ensures Aligned(c) && Untouched() && NothingRetried(c) && step == from.step + 1
    {
      step := from.step + 1;
      examples := from.examples + c.perStep;
      fork := ForkForResume(c.onset, from.step + 1);
      lastCheckpoint, lastSave, batches := -1, -1, 0;
      backoffLeft := if c.backoff.Some? then c.backoff.value else 0;
      completed, forks, checkpoints, exports := [], [], [], [];
      lrSteps := 0;
      new;
      while lrSteps < step - 1
        invariant 0 <= lrSteps <= step - 1
        invariant Untouched() && step == from.step + 1 && examples == from.examples + c.perStep
        invariant fork == ForkForResume(c.onset, step) && NothingRetried(c)
      {
        lrSteps := lrSteps + 1;
      }
    }

    /** A resume checkpoint of step `s` is on disk. */
    ghost predicate SavedAt(s: int)
      reads this`checkpoints
    {
      exists k :: 0 <= k < |checkpoints| && checkpoints[k].step == s
    }

    /**
     * Every checkpoint is of one of the steps `first .. last` and resumes aligned, and the last one
     * counted is on disk.
     */
    ghost predicate CheckpointsOk(c: RunConfig, first: int, last: int)
      reads this`checkpoints, this`lastCheckpoint
    {
      && (forall k | 0 <= k < |checkpoints| ::
            first <= checkpoints[k].step <= last && checkpoints[k].examples == checkpoints[k].step * c.perStep)
      && (lastCheckpoint != -1 ==> SavedAt(lastCheckpoint))
    }

    method SaveCheckpoint(c: RunConfig, works: bool, ghost first: int)
      requires first <= step && CheckpointsOk(c, first, step) && ExamplesMatch(c)
      modifies this`checkpoints, this`lastCheckpoint
      ensures CheckpointsOk(c, first, step)
      ensures lastCheckpoint == if works then step else old(lastCheckpoint)
      ensures works ==> SavedAt(step)
    {
      if works {
        ghost var before := checkpoints;
        checkpoints := checkpoints + [Checkpoint(step, examples)];
        lastCheckpoint := step;
        assert checkpoints[|before|].step == step;
      }
    }

    /** The last-ditch checkpoint: never from one rank of several, never twice at one step. */
    method EmergencySave(c: RunConfig, works: bool, ghost first: int)
      requires first <= step && CheckpointsOk(c, first, step) && ExamplesMatch(c) && step >= 1
      modifies this`checkpoints, this`lastCheckpoint
      ensures CheckpointsOk(c, first, step)
      ensures c.saveOnError && c.worldSize <= 1 && works ==> SavedAt(step)
      ensures !c.saveOnError || c.worldSize > 1 || old(lastCheckpoint) == step ==> checkpoints == old(checkpoints)
    {
      if c.saveOnError && lastCheckpoint != step && c.worldSize <= 1 {
        SaveCheckpoint(c, works, first);
      }
    }

    /**
     * `train_batch` and the reaction to an OOM. A failed batch ends the run exactly when it is no OOM
     * or nobody handles it: the budget cannot be lowered any more, and skipping is off or the window
     * is full and the block swap cannot be raised.
     */
    method RunBatch(c: RunConfig, e: StepEvents, oom: OomSkipState) returns (goesOn: bool)
      requires oom.Valid() && oom.latest <= step && oom.Serves(c)
      modifies this`batches, this`lrSteps, this`backoffLeft, oom
      ensures oom.Valid() && oom.latest <= step
      ensures var after := AfterBatch(c, e, OomState(old(backoffLeft), old(oom.skips)), step);
              goesOn == after.Some? && (goesOn ==> OomState(backoffLeft, oom.skips) == after.value)
      ensures batches == old(batches) + 1
      ensures goesOn ==> lrSteps == old(lrSteps) + 1
      ensures old(lrSteps) <= lrSteps <= old(lrSteps) + 1
      ensures goesOn <==>
                || e.batch.Trained?
                || (e.batch.PeerOom? && c.oomSkip.None? && c.backoff.None?)
                || (!e.batch.BatchCrash? && (c.oomSkip.Some? || c.backoff.Some?)
                    && (|| old(backoffLeft) > 0
                        || (c.oomSkip.Some?
                            && (|Recent(old(oom.skips) + [step], step)| < oom.maxInWindow
                                || (c.bumpBlockSwap && e.swapRaised)))))
      ensures var oomed := !e.batch.Trained? && !e.batch.BatchCrash?;
              var retried := oomed && (c.oomSkip.Some? || c.backoff.Some?) && old(backoffLeft) > 0;
              backoffLeft == if retried then old(backoffLeft) - 1 else old(backoffLeft)
      ensures goesOn ==>
                oom.skips == if e.batch.Trained? || c.oomSkip.None? || old(backoffLeft) > 0 then old(oom.skips)
                             else if |Recent(old(oom.skips) + [step], step)| < oom.maxInWindow
                             then old(oom.skips) + [step] else []
    {
      batches := batches + 1;
      if e.batch.BatchCrash? || (e.batch.LocalOom? && !c.HandlesOom()) {
        return false;
      }
      if !e.batch.LocalOom? {
        lrSteps := lrSteps + 1;   // the engine steps the scheduler inside train_batch
      }
      if c.HandlesOom() && !e.batch.Trained? {
        if backoffLeft > 0 {
          backoffLeft := backoffLeft - 1;
        } else if c.oomSkip.Some? {
          oom.RecordSkip(step);
          var limit := oom.AtLimit(step);
          if limit {
            if !(c.bumpBlockSwap && e.swapRaised) {
              return false;
            }
            oom.ResetWindow();
          }
        } else {
          return false;
        }
        if e.batch.LocalOom? {
          lrSteps := lrSteps + 1; // a skipped step steps it by hand
        }
      }
      return true;
    }

    /** The saver's part at the end of an epoch. */
    method EpochBoundary(c: RunConfig, e: StepEvents, ghost first: int) returns (goesOn: bool)
      requires first <= step && CheckpointsOk(c, first, step) && ExamplesMatch(c)
      requires lastCheckpoint < step && lastSave < step
      modifies this`completed, this`checkpoints, this`lastCheckpoint, this`lastSave, this`exports
      ensures CheckpointsOk(c, first, step) && lastCheckpoint <= step && lastSave <= step
      ensures goesOn <==> !(c.schedule.CompletedAt(step).Some? && e.crash.InBoundary?)
      ensures completed == if goesOn then old(completed) + Completions(c.schedule, step, step) else old(completed)
    {
      var done := c.schedule.CompletedAt(step);
      assert Completions(c.schedule, step, step - 1) == [];
      if done.Some? {
        if e.crash.InBoundary? {
          return false;
        }
        completed := completed + [done.value];
        SaveCheckpoint(c, e.boundary.checkpointed, first);
        if e.boundary.exported {
          exports := exports + [EpochModel(done.value)];
          lastSave := step;
        }
      }
      return true;
    }

    /** The saver's part at the end of a step; a quit request ends the process. */
    method StepSaves(c: RunConfig, e: StepEvents, ghost first: int) returns (stop: Option<int>)
      requires first <= step && CheckpointsOk(c, first, step) && ExamplesMatch(c)
      requires lastCheckpoint <= step && lastSave <= step
      modifies this`checkpoints, this`lastCheckpoint, this`lastSave, this`exports
      ensures CheckpointsOk(c, first, step) && lastCheckpoint <= step && lastSave <= step
      ensures stop == if e.quit.NoQuit? then None
                      else Some(if e.quit.SaveQuit? && !e.stepSaves.checkpointed then 1 else 0)
      ensures stop == Some(0) && e.quit.SaveQuit? ==> SavedAt(step)
    {
      if e.stepSaves.exported {
        exports := exports + [StepModel(step)];
        lastSave := step;
      }
      SaveCheckpoint(c, e.stepSaves.checkpointed, first);
      if e.quit.NoQuit? {
        return None;
      }
      return Some(if e.quit.SaveQuit? && !e.stepSaves.checkpointed then 1 else 0);
    }

    /** The counters after the steps `first .. last`, when step `last + 1` has not begun. */
    ghost predicate Done(c: RunConfig, first: int, armed: Option<int>, last: int)
      reads this`lrSteps, this`batches, this`completed, this`forks, this`fork, this`lastCheckpoint, this`lastSave,
        this`checkpoints
    {
      && 1 <= first <= last + 1
      && lrSteps == last && batches == last - first + 1
      && completed == Completions(c.schedule, first, last)
      && forks == ForksUpTo(armed, last)
      && fork == StillArmed(armed, last)
      && lastCheckpoint <= last && lastSave <= last && CheckpointsOk(c, first, last)
    }

    /** Step `step` ended the run before its time, as `end` says: where everything stands. */
    ghost predicate EndedEarly(c: RunConfig, e: StepEvents, first: int, armed: Option<int>, end: RunEnd)
      reads this
    {
      && (end.outcome.Stopped? || end.outcome.Failed?)
      && CheckpointsOk(c, first, step) && batches == step - first + 1
      && step == end.last
      && completed == Completions(c.schedule, first, end.boundary)
      && forks == ForksUpTo(armed, end.fork)
      && (end.outcome.Stopped? ==>
            && lrSteps == step && !e.quit.NoQuit?
            && (end.outcome.code == 0 && e.quit.SaveQuit? ==> SavedAt(step)))
      && (end.outcome.Failed? ==>
            && step - 1 <= lrSteps <= step
            && (c.saveOnError && c.worldSize <= 1 && e.emergencyWorks ==> SavedAt(step)))
    }

    /** What a step that ends the run leaves, whatever ends it. */
    ghost predicate LeftBehind(c: RunConfig, first: int, armed: Option<int>, boundary: int, forked: int)
      reads this
    {
      && CheckpointsOk(c, first, step) && batches == step - first + 1
      && completed == Completions(c.schedule, first, boundary) && forks == ForksUpTo(armed, forked)
    }

    lemma FailsHere(c: RunConfig, e: StepEvents, first: int, armed: Option<int>, before: OomState)
      requires EndOfStep(c, e, before, step).Fails? && step - 1 <= lrSteps <= step
      requires LeftBehind(c, first, armed, Passed(PassesBoundary(c, e, before, step), step),
                          Passed(PassesFork(c, e, before, step), step))
      requires c.saveOnError && c.worldSize <= 1 && e.emergencyWorks ==> SavedAt(step)
      ensures EndedEarly(c, e, first, armed, EndAt(c, e, before, step))
    {
    }

    lemma QuitsHere(c: RunConfig, e: StepEvents, first: int, armed: Option<int>, before: OomState, code: int)
      requires EndOfStep(c, e, before, step) == Quits(code) && lrSteps == step
      requires LeftBehind(c, first, armed, step, step - 1)
      requires code == 0 && e.quit.SaveQuit? ==> SavedAt(step)
      ensures EndedEarly(c, e, first, armed, EndAt(c, e, before, step))
    {
    }

    lemma BeforeTheStep(c: RunConfig, first: int, armed: Option<int>)
      requires Done(c, first, armed, step - 1)
      ensures 1 <= first <= step && lrSteps == step - 1 && batches == step - first
      ensures completed == Completions(c.schedule, first, step - 1) && forks == ForksUpTo(armed, step - 1)
      ensures fork == StillArmed(armed, step - 1)
      ensures lastCheckpoint < step && lastSave < step && CheckpointsOk(c, first, step)
    {
    }

    lemma AfterTheStep(c: RunConfig, first: int, armed: Option<int>)
      requires 1 <= first <= step && lrSteps == step && batches == step - first + 1
      requires completed == Completions(c.schedule, first, step) && forks == ForksUpTo(armed, step)
      requires fork == StillArmed(armed, step)
      requires lastCheckpoint <= step && lastSave <= step && CheckpointsOk(c, first, step)
      ensures Done(c, first, armed, step)
    {
    }

    lemma LeavesBehind(c: RunConfig, first: int, armed: Option<int>, boundary: int, forked: int)
      requires CheckpointsOk(c, first, step) && batches == step - first + 1
      requires completed == Completions(c.schedule, first, boundary) && forks == ForksUpTo(armed, forked)
      ensures LeftBehind(c, first, armed, boundary, forked)
    {
    }

    /** One iteration, up to the budget check. `stop` is the exit code when the saver quits. */
    method OneStep(c: RunConfig, e: StepEvents, oom: OomSkipState, ghost first: int, ghost armed: Option<int>)
      returns (goesOn: bool, stop: Option<int>)
      requires ExamplesMatch(c) && step >= 1 && Done(c, first, armed, step - 1)
      requires oom.Valid() && oom.latest <= step && oom.Serves(c)
      modifies this`batches, this`lrSteps, this`backoffLeft, this`completed, this`checkpoints, this`lastCheckpoint,
        this`lastSave, this`exports, this`forks, this`fork, oom
      ensures oom.Valid() && oom.latest <= step
      ensures var before := OomState(old(backoffLeft), old(oom.skips));
              && EndOfStep(c, e, before, step)
                 == (if goesOn then GoesOn(OomState(backoffLeft, oom.skips))
                     else if stop.Some? then Quits(stop.value) else Fails)
              && (if goesOn then Done(c, first, armed, step)
                  else EndedEarly(c, e, first, armed, EndAt(c, e, before, step)))
    {
      hide *;
      stop := None;
      ghost var before := OomState(backoffLeft, oom.skips);
      StepPoints(c, e, before, step);
      EndOfStepUnfolds(c, e, before, step);
      BeforeTheStep(c, first, armed);
      goesOn := RunBatch(c, e, oom);
      if !goesOn {
        EmergencySave(c, e.emergencyWorks, first);
        LeavesBehind(c, first, armed, step - 1, step - 1);
        FailsHere(c, e, first, armed, before);
        return;
      }
      CompletionsCompose(c.schedule, first, step - 1, step);
      goesOn := EpochBoundary(c, e, first);
      if !goesOn || e.crash.InStepSaves? {
        EmergencySave(c, e.emergencyWorks, first);
        LeavesBehind(c, first, armed, if goesOn then step else step - 1, step - 1);
        FailsHere(c, e, first, armed, before);
        return false, None;
      }
      stop := StepSaves(c, e, first);
      if stop.Some? {
        LeavesBehind(c, first, armed, step, step - 1);
        QuitsHere(c, e, first, armed, before, stop.value);
        return false, stop;
      }
      ForkPoint(armed, step);
      if fork.Some? && step >= fork.value {
        forks := forks + [step];
        fork := None;
      }
      if e.crash.AfterFork? {
        EmergencySave(c, e.emergencyWorks, first);
        LeavesBehind(c, first, armed, step, step);
        FailsHere(c, e, first, armed, before);
        return false, None;
      }
      AfterTheStep(c, first, armed);
      return true, None;
    }

    /** The final resume checkpoint and model, each unless it was written at this very step. */
    method FinalSaves(c: RunConfig, final: FinalEvents, ghost first: int)
      requires ExamplesMatch(c) && step >= 1 && first <= step && CheckpointsOk(c, first, step)
      modifies this`checkpoints, this`lastCheckpoint, this`exports
      ensures CheckpointsOk(c, first, step)
      ensures SavedAt(step) || !final.checkpointWorks
      ensures old(lastCheckpoint) == step ==> checkpoints == old(checkpoints)
      ensures exports == old(exports)
        + if lastSave == step then []
          else [if c.maxSteps.Some? then StepModel(step) else EpochModel(c.schedule.epochs)]
    {
      var plan := PlanFinalSaves(
        step, lastCheckpoint, lastSave, Some(BudgetReachedTarget(c.maxSteps, c.schedule.epochs, step)));
      if plan.0 {
        SaveCheckpoint(c, final.checkpointWorks, first);
      }
      if plan.1.Some? {
        exports := exports + [plan.1.value];
      }
    }

    /** The loop. `None` means that the budget is used up. */
    method Loop(c: RunConfig, events: int -> StepEvents) returns (early: Option<Outcome>)
      requires Aligned(c) && Untouched() && NothingRetried(c) && step <= c.Budget()
      modifies this
      ensures old(step) <= step <= c.Budget() && ExamplesMatch(c)
      ensures var end := RunFrom(c, events, FreshOom(c), old(step));
              if early.None? then
                step == c.Budget() && Done(c, old(step), old(fork), step) && end == RunEnd(Finished, step, step, step)
              else
                early.value == end.outcome && EndedEarly(c, events(step), old(step), old(fork), end)
    {
      ghost var first, armed := step, fork;
      hide *;
      StartOfLoop(c);
      var oom := new OomSkipState.For(c, step);
      while true
        invariant first <= step <= c.Budget() && 1 <= step
        invariant ExamplesMatch(c) && Done(c, first, armed, step - 1)
        invariant fresh(oom) && oom.Valid() && oom.latest <= step && oom.Serves(c)
        invariant RunFrom(c, events, OomState(backoffLeft, oom.skips), step) == RunFrom(c, events, FreshOom(c), first)
        decreases c.Budget() - step
      {
        RunFromUnfolds(c, events, OomState(backoffLeft, oom.skips), step);
        ghost var before := OomState(backoffLeft, oom.skips);
        var goesOn, stop := OneStep(c, events(step), oom, first, armed);
        if !goesOn {
          OutcomeOf(c, events(step), before, step);
          return Some(if stop.Some? then Stopped(stop.value) else Failed);
        }
        if step >= c.Budget() {
          return None;
        }
        label counted:
        step := step + 1;
        examples := examples + c.perStep;
        NextExamplesMatch@counted(c);
      }
    }

    /** The whole run: the loop, unless nothing is left to train, and the final saves. */
    method Train(c: RunConfig, events: int -> StepEvents, final: FinalEvents) returns (outcome: Outcome)
      requires Aligned(c) && Untouched() && NothingRetried(c)
      modifies this
      ensures old(step) <= step <= Max(old(step), c.Budget())
      ensures ExamplesMatch(c) && CheckpointsOk(c, old(step), step)
      ensures var budget := if c.maxSteps.Some? then c.maxSteps.value
                            else Max(0, c.schedule.stepsPerEpoch) * Max(0, c.schedule.epochs);
              && (outcome.NothingLeft? <==> old(step) > budget)
              && (outcome.Finished? ==> step == budget)
      ensures outcome.NothingLeft? ==>
                batches == 0 && lrSteps == old(lrSteps) && completed == [] && forks == [] && checkpoints == []
      ensures !outcome.NothingLeft? ==>
                var end := RunFrom(c, events, FreshOom(c), old(step));
                && outcome == end.outcome && step == end.last && batches == step - old(step) + 1
                && completed == Completions(c.schedule, old(step), end.boundary)
                && forks == ForksUpTo(old(fork), end.fork)
                && (!outcome.Finished? ==> EndedEarly(c, events(step), old(step), old(fork), end))
      ensures outcome.Finished? ==>
                && step == c.Budget() && lrSteps == step
                && completed == Completions(c.schedule, old(step), step)
                && forks == ForksUpTo(old(fork), step)
                && (SavedAt(step) || !final.checkpointWorks)
    {
      if step > c.Budget() {
        if final.exportMissing {
          exports := exports + [BudgetReachedTarget(c.maxSteps, c.schedule.epochs, step - 1)];
        }
        return NothingLeft;
      }
      hide RunFrom, Completions;
      ghost var first := step;
      var early := Loop(c, events);
      if early.Some? {
        return early.value;
      }
      FinalSaves(c, final, first);
      return Finished;
    }

    lemma StartsArmed(c: RunConfig)
      requires Aligned(c)
      ensures fork == ForkForResume(c.onset, step)
    {
    }

    /** The checkpoints of a run that is over resume aligned, and its last step is among them when it must be. */
    lemma LastStepIsLeft(
      c: RunConfig, script: int -> StepEvents, final: FinalEvents, first: int, armed: Option<int>, end: RunEnd
    )
      requires CheckpointsOk(c, first, step) && step == end.last
      requires end.outcome.Finished? ==> SavedAt(step) || !final.checkpointWorks
      requires !end.outcome.Finished? ==> EndedEarly(c, script(step), first, armed, end)
      ensures forall k | 0 <= k < |checkpoints| ::
                first <= checkpoints[k].step <= step && checkpoints[k].examples == checkpoints[k].step * c.perStep
      ensures LeavesItsLastStep(c, script, final, end) ==>
                exists k :: 0 <= k < |checkpoints| && checkpoints[k].step == end.last
    {
    }

    lemma StartOfLoop(c: RunConfig)
      requires Aligned(c) && Untouched() && NothingRetried(c)
      ensures OomState(backoffLeft, []) == FreshOom(c)
      ensures step >= 1 && ExamplesMatch(c) && Done(c, step, fork, step - 1)
    {
    }

    twostate lemma NextExamplesMatch(c: RunConfig)
      requires old(ExamplesMatch(c)) && step == old(step) + 1 && examples == old(examples) + c.perStep
      ensures ExamplesMatch(c)
    {
    }
  }

  // ---------------------------------------------------------------- a run in two processes

  /** The first process stopped before its fork at the very step the second resumes from: the fork is lost. */
  predicate ForkLost(onset: Option<int>, passed: int, from: int) {
    onset == Some(from) && passed < from
  }

  /** The second process resumes from before a fork the first has written: it is written again. */
  predicate ForkRepeated(onset: Option<int>, passed: int, from: int) {
    onset.Some? && from < onset.value <= passed
  }

  /** The attempts of two processes, against those of one. */
  lemma ForkAttemptsOfTwo(onset: Option<int>, first: int, last: int, passed: int, from: int, budget: int)
    requires 1 <= first <= last <= budget && last - 1 <= passed <= last && first - 1 <= from <= last
    ensures ForksUpTo(ForkForResume(onset, first), passed) + ForksUpTo(ForkForResume(onset, from + 1), budget)
         == ForksUpTo(ForkForResume(onset, first), budget)
       <==> !ForkLost(onset, passed, from) && !ForkRepeated(onset, passed, from)
  {
  }

  /** No epoch ends between the last boundary the first process passed and the step it is resumed from. */
  predicate NoEpochBetween(s: EpochSchedule, passed: int, from: int) {
    Completions(s, Min(passed, from) + 1, Max(passed, from)) == []
  }

  lemma EpochReportsOfTwo(s: EpochSchedule, first: int, passed: int, from: int, budget: int)
    requires first - 1 <= passed <= budget && first - 1 <= from <= budget
    ensures Completions(s, first, passed) + Completions(s, from + 1, budget) == Completions(s, first, budget)
       <==> NoEpochBetween(s, passed, from)
  {
    hide Completions;
    var lo, hi := Min(passed, from), Max(passed, from);
    CompletionsCompose(s, first, lo, hi);
    CompletionsCompose(s, first, lo, budget);
    CompletionsCompose(s, lo + 1, hi, budget);
    var a, b, z := Completions(s, first, lo), Completions(s, lo + 1, hi), Completions(s, hi + 1, budget);
    assert a + (b + z) == Completions(s, first, budget);
    if passed <= from {
      assert |a + z| == |a + (b + z)| <==> b == [];
    } else {
      assert (a + b) + (b + z) == a + (b + z) ==> |b| == 0;
      assert b == [] ==> (a + b) + (b + z) == a + (b + z);
    }
  }

  /** The first process is sure to leave a checkpoint of its last step. */
  predicate LeavesItsLastStep(c: RunConfig, script: int -> StepEvents, final: FinalEvents, end: RunEnd) {
    match end.outcome
    case Finished => final.checkpointWorks
    case Stopped(code) => code == 0 && script(end.last).quit.SaveQuit?
    case Failed => c.saveOnError && c.worldSize <= 1 && script(end.last).emergencyWorks
    case NothingLeft => false
  }

  /**
   * A run in two processes. The first starts after checkpoint `start` and ends as its script makes it;
   * the second resumes from any checkpoint the first has left, or from `start` again, and ends as the
   * second script makes it. `forks` and `completed` are what the two attempted and reported, in order.
   * When the second reaches the budget, the two together attempt the fork as one process would if and
   * only if it is neither lost nor repeated, and report the epochs as one would if and only if none
   * ends between what the first reported and what the second resumed from.
   */
  method TrainInTwo(
    c: RunConfig, start: Checkpoint, script: int -> StepEvents, final: FinalEvents, pick: nat,
    secondScript: int -> StepEvents, secondFinal: FinalEvents
  )
    returns (checkpoints: seq<Checkpoint>, from: int, outcome: Outcome, forks: seq<int>, completed: seq<int>)
    requires 0 <= start.step < c.Budget() && start.examples == start.step * c.perStep
    ensures var end := RunFrom(c, script, FreshOom(c), start.step + 1);
            && (forall k | 0 <= k < |checkpoints| ::
                  start.step < checkpoints[k].step <= end.last
                  && checkpoints[k].examples == checkpoints[k].step * c.perStep)
            && (LeavesItsLastStep(c, script, final, end) ==>
                  exists k :: 0 <= k < |checkpoints| && checkpoints[k].step == end.last)
            && from == (if pick < |checkpoints| then checkpoints[pick].step else start.step)
            && start.step <= from <= end.last
    ensures var end := RunFrom(c, script, FreshOom(c), start.step + 1);
            var attempted := ForksUpTo(ForkForResume(c.onset, start.step + 1), end.fork);
            var reported := Completions(c.schedule, start.step + 1, end.boundary);
            if from == c.Budget() then
              outcome.NothingLeft? && forks == attempted && completed == reported
            else
              var second := RunFrom(c, secondScript, FreshOom(c), from + 1);
              && outcome == second.outcome
              && forks == attempted + ForksUpTo(ForkForResume(c.onset, from + 1), second.fork)
              && completed == reported + Completions(c.schedule, from + 1, second.boundary)
    ensures var end := RunFrom(c, script, FreshOom(c), start.step + 1);
            outcome.Finished? || outcome.NothingLeft? ==>
              && (forks == ForksUpTo(ForkForResume(c.onset, start.step + 1), c.Budget())
                  <==> !ForkLost(c.onset, end.fork, from) && !ForkRepeated(c.onset, end.fork, from))
              && (completed == Completions(c.schedule, start.step + 1, c.Budget())
                  <==> NoEpochBetween(c.schedule, end.boundary, from))
  {
    hide *;
    BudgetMeans(c);
    var one := new TrainingRun.Resume(c, start);
    ghost var first := one.step;
    one.StartsArmed(c);
    StartsFresh(c, script, first);
    var ended := one.Train(c, script, final);
    ghost var end := RunFrom(c, script, FreshOom(c), first);
    RunEndsAtTheFirstObstacle(c, script, first, first);
    checkpoints := one.checkpoints;
    one.LastStepIsLeft(c, script, final, first, ForkForResume(c.onset, first), end);
    var point := start;
    if pick < |checkpoints| {
      point := checkpoints[pick];
    }
    from := point.step;
    var two := new TrainingRun.Resume(c, point);
    two.StartsArmed(c);
    outcome := two.Train(c, secondScript, secondFinal);
    forks := one.forks + two.forks;
    completed := one.completed + two.completed;
    ForkAttemptsOfTwo(c.onset, first, end.last, end.fork, from, c.Budget());
    EpochReportsOfTwo(c.schedule, first, end.boundary, from, c.Budget());
    if from == c.Budget() {
      NothingPastTheBudget(c, from);
    }
  }

  lemma BudgetMeans(c: RunConfig)
    ensures c.Budget() == if c.maxSteps.Some? then c.maxSteps.value
                          else Max(0, c.schedule.stepsPerEpoch) * Max(0, c.schedule.epochs)
  {
  }

  lemma StartsFresh(c: RunConfig, events: int -> StepEvents, first: int)
    ensures OomAt(c, events, first, first) == FreshOom(c)
  {
  }

  lemma NothingPastTheBudget(c: RunConfig, from: int)
    requires from >= c.Budget()
    ensures ForksUpTo(ForkForResume(c.onset, from + 1), c.Budget()) == []
    ensures Completions(c.schedule, from + 1, c.Budget()) == []
  {
  }
}
