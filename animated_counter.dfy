/**
 * The animated counter: once its element scrolls into view, it counts
 * from 0 up to a target value on a timer, in equal steps sized so that
 * the count takes about 60 ticks, and the last tick shows the target
 * itself.
 *
 * Timing (the interval between ticks) and number formatting are not part
 * of this model; the value is an integer.
 */
module AnimatedCounter {

  /** The step added per tick: the target divided by 60, rounded up. For
      the divisor 60, Dafny's division rounds down, so negating around it
      rounds up. */
  function Step(value: int): (step: int)
    ensures 60 * (step - 1) < value <= 60 * step
  {
    -((-value) / 60)
  }

  /** A positive target gives a positive step. */
  lemma StepPositive(value: int)
    requires value > 0
    ensures Step(value) >= 1
  {
  }

  /** The number of ticks: the least tick count whose steps reach the
      target, and a single tick for a target that is not positive. */
  function TickCount(value: int): (n: int)
    ensures n >= 1
    ensures value > 0 ==> (n - 1) * Step(value) < value <= n * Step(value)
  {
    if value <= 0 then 1
    else
      var step := Step(value);
      var n := (value + step - 1) / step;
      DivisionBounds(value + step - 1, step);
      n
  }

  /** The quotient of Dafny's division, bounded by multiplication. */
  lemma DivisionBounds(x: int, d: int)
    requires d > 0
    ensures d * (x / d) <= x < d * (x / d) + d
  {
  }

  /** What tick `i` shows: the running total `(i + 1) * step`, except on
      the last tick, which shows the target. */
  function Frame(value: int, i: nat): int {
    if i + 1 < TickCount(value) then (i + 1) * Step(value) else value
  }

  /** Everything the counter shows, tick by tick. */
  function Frames(value: int): (frames: seq<int>)
    ensures |frames| == TickCount(value)
  {
    seq(TickCount(value), i requires 0 <= i => Frame(value, i))
  }

  /** Multiplying by a positive factor keeps the order. */
  lemma MulMonotone(a: int, b: int, step: int)
    requires a < b && step > 0
    ensures a * step < b * step
  {
    assert b * step - a * step == (b - a) * step;
  }

  /** Tick `i`'s running total: below the target on every tick but the
      last, at or past it on the last. This is the test the timer makes. */
  lemma TickTest(value: int, i: nat)
    requires i < TickCount(value)
    ensures i + 1 < TickCount(value) ==> (i + 1) * Step(value) < value
    ensures i + 1 == TickCount(value) ==> (i + 1) * Step(value) >= value
  {
  }

  /** The counter ends on the target. */
  lemma FramesEndOnTarget(value: int)
    ensures Frames(value)[|Frames(value)| - 1] == value
  {
  }

  /** Counting up to a positive target, the counter only goes up, and it
      never shows anything above the target or below the first step. */
  lemma FramesIncreasing(value: int)
    requires value > 0
    ensures forall i, j | 0 <= i < j < |Frames(value)| :: Frames(value)[i] < Frames(value)[j]
    ensures forall i | 0 <= i < |Frames(value)| :: Step(value) <= Frames(value)[i] <= value
  {
    var frames := Frames(value);
    var step := Step(value);
    forall i, j | 0 <= i < j < |frames|
      ensures frames[i] < frames[j]
    {
      TickTest(value, i);
      if j + 1 < |frames| {
        MulMonotone(i + 1, j + 1, step);
      }
    }
    forall i | 0 <= i < |frames|
      ensures step <= frames[i] <= value
    {
      TickTest(value, i);
      if 0 < i && i + 1 < |frames| {
        MulMonotone(1, i + 1, step);
      }
    }
  }

  /** The count finishes within 60 ticks. */
  lemma AtMostSixtyTicks(value: int)
    ensures TickCount(value) <= 60
  {
  }

  /** The four counters of the home page's statistics band: their steps and
      tick counts. */
  lemma HomePageCounters()
    ensures Step(500) == 9 && TickCount(500) == 56
    ensures Step(50) == 1 && TickCount(50) == 50
    ensures Step(36) == 1 && TickCount(36) == 36
    ensures Step(99) == 2 && TickCount(99) == 50
  {
  }

  /** The counter's effect and the timer it starts: nothing is shown until
      the element is in view (the display keeps its initial 0); once it is,
      every tick adds the step to the running total and shows it, until
      the total reaches the target, when the target is shown and the timer
      stops. Returns the values shown, in order, and the final display. */
  method Animate(isInView: bool, value: int) returns (shown: seq<int>, displayValue: int)
    ensures shown == if isInView then Frames(value) else []
    ensures displayValue == if isInView then value else 0
  {
    shown := [];
    displayValue := 0;
    if isInView {
      var start := 0;
      var end := value;
      var step := Step(end);
      var running := true;
      while running
        invariant running ==> |shown| < TickCount(value) && start == |shown| * step
        invariant running ==> shown == Frames(value)[..|shown|]
        invariant !running ==> shown == Frames(value) && displayValue == value
        decreases TickCount(value) - |shown|
      {
        TickTest(value, |shown|);
        start := start + step;
        if start >= end {
          displayValue := end;
          running := false;
        } else {
          displayValue := start;
        }
        shown := shown + [displayValue];
      }
    }
  }
}
