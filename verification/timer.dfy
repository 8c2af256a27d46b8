/**
 * `utils::Timer`, a stop watch over `high_resolution_clock`. Its one field
 * `_start` is a time point in nanoseconds; the durations it hands out are
 * seconds (`duration<double>`, exact reals here).
 *
 * The clock is not part of the model: a clock reading `now` is a parameter
 * of every timer operation that reads the clock, and `Clock` stands for the
 * sequence of readings a run observes.
 */
module Timing {
  import opened Stats

  /** Nanoseconds as seconds. */
  function Seconds(ns: int): real
  {
    ns as real / 1000000000.0
  }

  lemma SecondsAdd(a: int, b: int)
    ensures Seconds(a) + Seconds(b) == Seconds(a + b)
  {
  }

  /** Reading `i` is strictly earlier than reading `j`. */
  ghost predicate Precedes(reading: nat -> int, i: nat, j: nat)
  {
    reading(i) < reading(j)
  }

  /** Later readings are strictly later in time. */
  ghost predicate StrictlyIncreasing(reading: nat -> int)
  {
    forall i: nat, j: nat :: i < j ==> Precedes(reading, i, j)
  }

  /**
   * The readings a run takes from the clock, in order: the `i`-th call of
   * `Now` returns `reading(i)`.
   */
  class Clock {
    const reading: nat -> int
    var ticks: nat

    constructor (reading: nat -> int)
      ensures this.reading == reading && ticks == 0
    {
      this.reading := reading;
      ticks := 0;
    }

    method Now() returns (t: int)
      modifies this
      ensures ticks == old(ticks) + 1 && t == reading(old(ticks))
    {
      t := reading(ticks);
      ticks := ticks + 1;
    }
  }

  class Timer {
    /** The reference instant, in nanoseconds; a new timer holds the clock's epoch. */
    var start: int

    constructor ()
      ensures start == 0
    {
      start := 0;
    }

    method Start(now: int)
      modifies this
      ensures start == now
    {
      start := now;
    }

    /** Time since `start`; the reference instant stays where it is. */
    method Stop(now: int) returns (elapsed: real)
      requires now >= start
      ensures elapsed == Seconds(now - start) && elapsed >= 0.0
    {
      elapsed := Seconds(now - start);
    }

    /** Time since `start` without stopping, exactly as `Stop`. */
    method Count(now: int) returns (elapsed: real)
      requires now >= start
      ensures elapsed == Seconds(now - start) && elapsed >= 0.0
    {
      elapsed := Seconds(now - start);
    }

    /** Time since `start`, restarting the timer at `now`. */
    method Round(now: int) returns (lap: real)
      requires now >= start
      modifies this
      ensures lap == Seconds(now - old(start)) && lap >= 0.0
      ensures start == now
    {
      var end := now;
      lap := Seconds(end - start);
      start := end;
    }
  }

  /** The last reading of `nows`, or `start` when there is none. */
  function Last(start: int, nows: seq<int>): int
  {
    if |nows| == 0 then start else nows[|nows| - 1]
  }

  /**
   * The laps `round` returns when it is called at each reading of `nows` in
   * turn on a timer started at `start`: one lap per call.
   */
  function Laps(start: int, nows: seq<int>): (r: seq<real>)
    ensures |r| == |nows|
  {
    if |nows| == 0 then []
    else
      var before := nows[..|nows| - 1];
      Laps(start, before) + [Seconds(nows[|nows| - 1] - Last(start, before))]
  }

  /**
   * Telescoping: the laps of consecutive rounds add up to the time from the
   * start to the last round.
   */
  lemma {:induction false} LapsTelescope(start: int, nows: seq<int>)
    ensures Sum(Laps(start, nows)) == Seconds(Last(start, nows) - start)
  {
    if |nows| > 0 {
      var before := nows[..|nows| - 1];
      var laps := Laps(start, nows);
      LapsTelescope(start, before);
      assert laps[..|laps| - 1] == Laps(start, before);
      SecondsAdd(Last(start, before) - start, nows[|nows| - 1] - Last(start, before));
    }
  }

  /** Readings taken in order from `start` on give laps that are never negative. */
  lemma {:induction false} LapsNonNegative(start: int, nows: seq<int>)
    requires forall i :: 0 <= i < |nows| ==> Last(start, nows[..i]) <= nows[i]
    ensures forall i :: 0 <= i < |Laps(start, nows)| ==> Laps(start, nows)[i] >= 0.0
  {
    if |nows| > 0 {
      var before := nows[..|nows| - 1];
      forall i | 0 <= i < |before|
        ensures Last(start, before[..i]) <= before[i]
      {
        assert before[..i] == nows[..i];
      }
      LapsNonNegative(start, before);
    }
  }
}
