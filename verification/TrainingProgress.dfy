/** Epoch numbers, progress averages and the end-of-run save plan, all derived from the step. */
module TrainingProgress {
  import opened Values

  function Max(a: int, b: int): int { if a < b then b else a }

  function Min(a: int, b: int): int { if a < b then a else b }

  // ---------------------------------------------------------------- the epoch schedule

  datatype EpochSchedule = EpochSchedule(stepsPerEpoch: int, epochs: int) {

    function TotalSteps(): int {
      Max(0, stepsPerEpoch) * Max(0, epochs)
    }

    /** The 1-based epoch being trained at `step`. */
    function Current(step: int): int {
      if stepsPerEpoch <= 0 then step else Max(1, Min(epochs, (step - 1) / stepsPerEpoch + 1))
    }

    /** The epoch that finishes exactly at `step`. */
    function CompletedAt(step: int): Option<int> {
      if stepsPerEpoch <= 0 || step <= 0 || step % stepsPerEpoch != 0 then None
      else if step / stepsPerEpoch <= epochs then Some(step / stepsPerEpoch)
      else None
    }
  }

  /** The epochs reported as completed over the steps `first .. last`, in order. */
  function Completions(s: EpochSchedule, first: int, last: int): seq<int>
    decreases last - first + 1
  {
    if last < first then []
    else Completions(s, first, last - 1) + (if s.CompletedAt(last).Some? then [s.CompletedAt(last).value] else [])
  }

  function Counting(n: nat): seq<int> {
    seq(n, i requires 0 <= i < n => i + 1)
  }

  lemma DivideStep(step: int, n: int)
    requires n > 0
    ensures step % n == 0 ==> (step - 1) / n == step / n - 1
    ensures step % n != 0 ==> (step - 1) / n == step / n
  {
    var q, r := step / n, step % n;
    assert step == n * q + r;
    if r == 0 {
      QuotientIs(step - 1, n, q - 1, n - 1);
    } else {
      QuotientIs(step - 1, n, q, r - 1);
    }
  }

  lemma QuotientIs(x: int, n: int, q: int, r: int)
    requires n > 0 && 0 <= r < n && x == n * q + r
    ensures x / n == q && x % n == r
  {
    var d := x / n - q;
    assert x == n * (x / n) + x % n;
    assert n * d == r - x % n by { assert n * d == n * (x / n) - n * q; }
    SmallMultiple(n, d);
  }

  lemma SmallMultiple(n: int, d: int)
    requires n > 0 && -n < n * d < n
    ensures d == 0
  {
  }

  lemma PositiveProduct(n: int, m: int)
    requires n > 0 && n * m >= 1
    ensures m >= 1
  {
  }

  lemma MultipleIs(n: int, q: int)
    requires n > 0
    ensures (n * q) / n == q && (n * q) % n == 0
  {
    QuotientIs(n * q, n, q, 0);
  }

  lemma QuotientBelow(step: int, n: int, m: int)
    requires n > 0
    ensures step / n < m <==> step < n * m
  {
    var q := step / n;
    assert step == n * q + step % n;
    if q < m {
      ProductGrows(n, q + 1, m);
      assert n * (q + 1) == n * q + n;
    } else {
      ProductGrows(n, m, q);
    }
  }

  lemma ProductGrows(n: int, a: int, b: int)
    requires n > 0 && a <= b
    ensures n * a <= n * b
  {
  }

  /**
   * Within the budget an epoch is reported at exactly one step: the last one for which `Current`
   * gives that epoch.
   */
  lemma CompletedAtTheLastStepOfAnEpoch(s: EpochSchedule, step: int, epoch: int)
    requires s.stepsPerEpoch > 0 && 1 <= step <= s.TotalSteps()
    ensures s.CompletedAt(step) == Some(epoch)
       <==> s.Current(step) == epoch && (step == s.TotalSteps() || s.Current(step + 1) == epoch + 1)
  {
    var n := s.stepsPerEpoch;
    PositiveProduct(n, Max(0, s.epochs));
    StepInBudget(n, s.epochs, step);
    DivideStep(step + 1, n);
  }

  /** Where a step of the budget stands in its epoch. */
  lemma StepInBudget(n: int, epochs: int, step: int)
    requires n > 0 && epochs > 0 && 1 <= step <= n * epochs
    ensures 0 <= (step - 1) / n < epochs && step / n <= epochs
    ensures step % n == 0 ==> (step - 1) / n == step / n - 1
    ensures step % n != 0 ==> (step - 1) / n == step / n
    ensures step == n * epochs <==> step % n == 0 && step / n == epochs
  {
    DivideStep(step, n);
    MultipleIs(n, epochs);
    QuotientBelow(step, n, epochs);
    QuotientBelow(step - 1, n, epochs);
    QuotientNotNegative(step - 1, n);
    assert step == n * (step / n) + step % n;
  }

  lemma QuotientNotNegative(step: int, n: int)
    requires n > 0 && step >= 0
    ensures step / n >= 0
  {
  }

  /** Outside the budget nothing is reported, and after it `Current` stays at the last epoch. */
  lemma SilentOutsideTheBudget(s: EpochSchedule, step: int)
    requires !(1 <= step <= s.TotalSteps())
    ensures s.CompletedAt(step) == None
    ensures s.stepsPerEpoch > 0 && s.epochs > 0 && step > 0 ==> s.Current(step) == s.epochs
  {
    var n := s.stepsPerEpoch;
    if n > 0 && step > 0 {
      var m := Max(0, s.epochs);
      assert s.TotalSteps() == n * m;
      QuotientBelow(step - 1, n, m);
      QuotientBelow(step, n, m + 1);
      assert n * (m + 1) == n * m + n;
      DivideStep(step, n);
      QuotientNotNegative(step, n);
    }
  }

  lemma {:induction false} CompletionsSoFar(s: EpochSchedule, step: int)
    requires s.stepsPerEpoch > 0 && 0 <= step <= s.TotalSteps()
    ensures 0 <= step / s.stepsPerEpoch && Completions(s, 1, step) == Counting(step / s.stepsPerEpoch)
  {
    var n := s.stepsPerEpoch;
    QuotientNotNegative(step, n);
    if step == 0 {
      QuotientIs(0, n, 0, 0);
    } else {
      CompletionsSoFar(s, step - 1);
      DivideStep(step, n);
      QuotientNotNegative(step - 1, n);
      if step % n == 0 {
        assert s.TotalSteps() == n * Max(0, s.epochs);
        QuotientBelow(step, n, Max(0, s.epochs) + 1);
        assert n * (Max(0, s.epochs) + 1) == n * Max(0, s.epochs) + n;
        var e := step / n;
        assert Counting(e - 1) + [e] == Counting(e);
        assert s.CompletedAt(step) == Some(e);
      }
    }
  }

  /** Over the whole budget every epoch is reported exactly once, in increasing order. */
  lemma EveryEpochCompletesOnce(s: EpochSchedule)
    requires s.stepsPerEpoch > 0
    ensures Completions(s, 1, s.TotalSteps()) == Counting(Max(0, s.epochs))
  {
    CompletionsSoFar(s, s.TotalSteps());
    MultipleIs(s.stepsPerEpoch, Max(0, s.epochs));
  }

  /** An interrupted run and its continuation report what the whole run reports. */
  lemma {:induction false} CompletionsCompose(s: EpochSchedule, first: int, middle: int, last: int)
    requires first <= middle + 1 && middle <= last
    ensures Completions(s, first, last) == Completions(s, first, middle) + Completions(s, middle + 1, last)
    decreases last - middle
  {
    if middle < last {
      CompletionsCompose(s, first, middle, last - 1);
    }
  }

  // ---------------------------------------------------------------- the end-of-run plan

  /** The number of steps the loop is given: `max_steps` wins. */
  function StepBudget(maxSteps: Option<int>, totalSteps: int): int {
    if maxSteps.Some? then maxSteps.value else totalSteps
  }

  datatype ModelName = StepModel(step: int) | EpochModel(epoch: int)

  function BudgetReachedTarget(maxSteps: Option<int>, epochs: int, step: int): ModelName {
    if maxSteps.Some? then StepModel(step) else EpochModel(epochs)
  }

  /** Whether to write the resume checkpoint, and which model to export. */
  function PlanFinalSaves(
    step: int, lastCheckpoint: int, lastSave: int, finalModel: Option<ModelName>
  ): (plan: (bool, Option<ModelName>)) {
    (lastCheckpoint != step, if finalModel.Some? && lastSave != step then finalModel else None)
  }

  // ---------------------------------------------------------------- smoothed loss and step time

  function Sum(xs: seq<real>): real {
    if xs == [] then 0.0 else Sum(xs[..|xs| - 1]) + xs[|xs| - 1]
  }

  lemma {:induction false} SumDropsFirst(xs: seq<real>)
    requires xs != []
    ensures Sum(xs[1..]) == Sum(xs) - xs[0]
  {
    if |xs| > 1 {
      var front := xs[..|xs| - 1];
      SumDropsFirst(front);
      assert front[1..] == xs[1..][..|xs| - 2];
      assert xs[1..] != [];
    } else {
      assert xs[..0] == [];
      assert xs[1..] == [];
    }
  }

  /** The last `n` elements, or all when there are fewer. */
  function Last<T>(xs: seq<T>, n: nat): seq<T> {
    if |xs| <= n then xs else xs[|xs| - n..]
  }

  /** The exponential moving average, seeded by the first value. */
  function Smoothed(alpha: real, x: real, mean: Option<real>): real {
    if mean.None? then x else alpha * x + (1.0 - alpha) * mean.value
  }

  predicate AtMost(xs: seq<real>, bound: real) {
    forall x | x in xs :: x <= bound
  }

  predicate AtLeast(xs: seq<real>, bound: real) {
    forall x | x in xs :: bound <= x
  }

  /** `y` lies between the least and the greatest element. */
  ghost predicate WithinRange(xs: seq<real>, y: real) {
    forall bound: real :: (AtMost(xs, bound) ==> y <= bound) && (AtLeast(xs, bound) ==> bound <= y)
  }

  class ProgressTracker {
    const alpha: real
    const window: nat
    var buffer: seq<real>
    var lossSum: real
    var stepTime: Option<real>
    ghost var losses: seq<real>     // every finite loss recorded
    ghost var durations: seq<real>  // every positive, finite duration recorded

    ghost predicate Valid()
      reads this
    {
      && 0.0 <= alpha <= 1.0 && 1 <= window <= 1000
      && buffer == Last(losses, window)
      && lossSum == Sum(buffer)
      && (stepTime.None? <==> durations == [])
      && (stepTime.Some? ==> WithinRange(durations, stepTime.value))
    }

    constructor (emaAlpha: real, lossWindow: Option<int>)
      ensures Valid() && losses == [] && durations == []
      ensures window == Max(1, Min(if lossWindow.Some? then lossWindow.value else 50, 1000))
    {
      alpha := if emaAlpha < 0.0 then 0.0 else if emaAlpha > 1.0 then 1.0 else emaAlpha;
      window := Max(1, Min(if lossWindow.Some? then lossWindow.value else 50, 1000));
      buffer, lossSum, stepTime, losses, durations := [], 0.0, None, [], [];
    }

    /** `None` stands for a value that is not a finite number. */
    method RecordLoss(loss: Option<real>)
      requires Valid()
      modifies this`buffer, this`lossSum, this`losses
      ensures Valid()
      ensures losses == old(losses) + if loss.Some? then [loss.value] else []
    {
      if loss.None? {
        return;
      }
      if |buffer| == window {
        SumDropsFirst(buffer);
        lossSum := lossSum - buffer[0];
        buffer := buffer[1..];
      }
      ghost var before := buffer;
      buffer := buffer + [loss.value];
      lossSum := lossSum + loss.value;
      losses := losses + [loss.value];
      assert buffer[..|buffer| - 1] == before;
    }

    /** The mean of the last `window` losses, `None` before the first. */
    method LossAverage() returns (average: Option<real>)
      requires Valid()
      ensures average.None? <==> losses == []
      ensures average.Some? ==> average.value * |Last(losses, window)| as real == Sum(Last(losses, window))
    {
      if buffer == [] {
        return None;
      }
      return Some(lossSum / |buffer| as real);
    }

    method RecordStepDuration(duration: Option<real>)
      requires Valid()
      modifies this`stepTime, this`durations
      ensures Valid()
      ensures durations == old(durations) + if duration.Some? && duration.value > 0.0 then [duration.value] else []
      ensures duration.Some? && duration.value > 0.0 ==>
                stepTime == Some(Smoothed(alpha, duration.value, old(stepTime)))
    {
      if duration.None? || duration.value <= 0.0 {
        return;
      }
      BlendWithinRange(alpha, duration.value, stepTime, durations);
      durations := durations + [duration.value];
      stepTime := Some(Smoothed(alpha, duration.value, stepTime));
    }
  }

  lemma BlendWithinRange(alpha: real, x: real, mean: Option<real>, xs: seq<real>)
    requires 0.0 <= alpha <= 1.0 && (mean.Some? ==> WithinRange(xs, mean.value))
    ensures WithinRange(xs + [x], Smoothed(alpha, x, mean))
  {
    var longer, y := xs + [x], Smoothed(alpha, x, mean);
    assert x in longer && forall z | z in xs :: z in longer;
    forall bound: real
      ensures (AtMost(longer, bound) ==> y <= bound) && (AtLeast(longer, bound) ==> bound <= y)
    {
      if mean.Some? {
        assert AtMost(longer, bound) ==> AtMost(xs, bound);
        assert AtLeast(longer, bound) ==> AtLeast(xs, bound);
        Blend(alpha, x, mean.value, bound);
      }
    }
  }

  /** A weighted mean lies between its parts. */
  lemma Blend(alpha: real, x: real, y: real, bound: real)
    requires 0.0 <= alpha <= 1.0
    ensures x <= bound && y <= bound ==> alpha * x + (1.0 - alpha) * y <= bound
    ensures bound <= x && bound <= y ==> bound <= alpha * x + (1.0 - alpha) * y
  {
    assert alpha * x + (1.0 - alpha) * y - bound == alpha * (x - bound) + (1.0 - alpha) * (y - bound);
    if x <= bound && y <= bound {
      ProductNotNegative(alpha, bound - x);
      ProductNotNegative(1.0 - alpha, bound - y);
    }
    if bound <= x && bound <= y {
      ProductNotNegative(alpha, x - bound);
      ProductNotNegative(1.0 - alpha, y - bound);
    }
  }

  lemma ProductNotNegative(a: real, b: real)
    requires a >= 0.0 && b >= 0.0
    ensures a * b >= 0.0
  {
  }
}
