/** The loop timer of timer/timer.py: it remembers when it was made, when it
    last ran and the interval between its last two runs.  The clock reading
    of each call is the parameter `now`. */
module LoopTimer {
  /** The sum of a run of intervals. */
  function Sum(xs: seq<real>): real
    decreases |xs|
  {
    if |xs| == 0 then 0.0 else Sum(xs[..|xs| - 1]) + xs[|xs| - 1]
  }

  /** Adding one interval adds it to the sum. */
  lemma SumAppend(xs: seq<real>, x: real)
    ensures Sum(xs + [x]) == Sum(xs) + x
  {
    assert (xs + [x])[..|xs|] == xs;
  }

  /** With the clock never running backwards every interval is non-negative,
      and so the latest run is never before the start. */
  lemma {:induction false} SumNonNegative(xs: seq<real>)
    requires forall i :: 0 <= i < |xs| ==> xs[i] >= 0.0
    ensures Sum(xs) >= 0.0
    decreases |xs|
  {
    if |xs| > 0 {
      SumNonNegative(xs[..|xs| - 1]);
    }
  }

  class Timer {
    /** `__start`. */
    var start: real
    /** `__delta`. */
    var delta: real
    /** `__last`. */
    var last: real
    /** The intervals measured so far, one per run. */
    ghost var deltas: seq<real>

    /** The intervals add up to the time between the first and the latest
        run, and the latest one is `delta`. */
    ghost predicate Valid()
      reads this
    {
      && last == start + Sum(deltas)
      && |deltas| >= 1 && delta == deltas[|deltas| - 1]
    }

    /** `Timer()`: start and last at the clock, delta 0, and then one run,
        which measures an interval of 0. */
    constructor (now: real)
      ensures Valid()
      ensures start == now && last == now && delta == 0.0 && deltas == [0.0]
    {
      start := now;
      delta := 0.0;
      last := start;
      deltas := [];
      new;
      Run(now);
    }

    /** `run()`: the interval since the last run, and this run becomes the
        last one; the start never moves. */
    method Run(now: real)
      requires last == start + Sum(deltas)
      modifies this`delta, this`last, this`deltas
      ensures Valid()
      ensures delta == now - old(last) && last == now && deltas == old(deltas) + [delta]
    {
      delta := now - last;
      last := now;
      SumAppend(deltas, delta);
      deltas := deltas + [delta];
    }

    /** The `start` getter. */
    function Start(): real
      reads this
    {
      start
    }

    /** The `last` getter. */
    function Last(): (t: real)
      requires Valid()
      reads this
      ensures t == Start() + Sum(deltas)
    {
      last
    }

    /** The `delta` getter. */
    function Delta(): (d: real)
      requires Valid()
      reads this
      ensures d == deltas[|deltas| - 1]
    {
      delta
    }
  }
}
