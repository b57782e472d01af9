/**
 * The frame clock (game_clock): the time point of the previous tick, the
 * duration of the last frame, and the total duration since construction or
 * the last reset. Time points and durations are counts of the
 * high-resolution clock's ticks; the clock's reading is a parameter.
 */
module GameClocks {

  /** The last reading in `nows`, or `origin` when there is none. */
  function LastOr(origin: int, nows: seq<int>): int
  {
    if nows == [] then origin else nows[|nows| - 1]
  }

  /** The frame durations successive ticks at the readings `nows` measure,
      starting from the reading `origin`. */
  function Deltas(origin: int, nows: seq<int>): (ds: seq<int>)
    ensures |ds| == |nows|
    decreases |nows|
  {
    if nows == [] then []
    else
      var before := nows[..|nows| - 1];
      Deltas(origin, before) + [nows[|nows| - 1] - LastOr(origin, before)]
  }

  function Sum(s: seq<int>): int
    decreases |s|
  {
    if s == [] then 0 else Sum(s[..|s| - 1]) + s[|s| - 1]
  }

  /** The readings never go backwards, starting from `origin`. */
  ghost predicate Monotone(origin: int, nows: seq<int>)
    decreases |nows|
  {
    nows == []
    || (var before := nows[..|nows| - 1];
        Monotone(origin, before) && LastOr(origin, before) <= nows[|nows| - 1])
  }

  /** The durations telescope: their sum is the last reading minus the
      first. */
  lemma {:induction false} DeltasTelescope(origin: int, nows: seq<int>)
    ensures Sum(Deltas(origin, nows)) == LastOr(origin, nows) - origin
    decreases |nows|
  {
    if nows != [] {
      var before := nows[..|nows| - 1];
      DeltasTelescope(origin, before);
      var ds := Deltas(origin, nows);
      assert ds[..|ds| - 1] == Deltas(origin, before);
    }
  }

  /** With a time source that never goes backwards, every frame duration and
      the total are non-negative. */
  lemma {:induction false} DeltasNonNegative(origin: int, nows: seq<int>)
    requires Monotone(origin, nows)
    ensures forall k :: 0 <= k < |nows| ==> Deltas(origin, nows)[k] >= 0
    ensures origin <= LastOr(origin, nows)
    decreases |nows|
  {
    if nows != [] {
      var before := nows[..|nows| - 1];
      DeltasNonNegative(origin, before);
      var ds := Deltas(origin, nows);
      forall k | 0 <= k < |nows|
        ensures ds[k] >= 0
      {
        if k < |before| {
          assert ds[k] == Deltas(origin, before)[k];
        }
      }
    }
  }

  class GameClock {
    var timepointPrev: int
    var deltaTime: int
    var totalTime: int
    /** The reading at construction or at the last reset. */
    ghost var origin: int
    /** The readings of every tick since then. */
    ghost var ticks: seq<int>

    ghost predicate Valid()
      reads this
    {
      && timepointPrev == LastOr(origin, ticks)
      && totalTime == Sum(Deltas(origin, ticks))
      && deltaTime == (if ticks == [] then 0 else Deltas(origin, ticks)[|ticks| - 1])
    }

    /** Starts at the reading `now` with zero delta and total. */
    constructor (now: int)
      ensures Valid() && timepointPrev == now && deltaTime == 0 && totalTime == 0
      ensures origin == now && ticks == []
    {
      timepointPrev := now;
      deltaTime := 0;
      totalTime := 0;
      origin := now;
      ticks := [];
    }

    /**
     * tick: the last frame's duration is the reading minus the previous
     * one, it is added to the total, and the reading becomes the previous
     * one. The total is always the time elapsed since the origin, and it and
     * the delta are non-negative when the readings never went backwards.
     */
    method Tick(now: int)
      requires Valid()
      modifies this
      ensures Valid() && origin == old(origin) && ticks == old(ticks) + [now]
      ensures deltaTime == now - old(timepointPrev)
      ensures totalTime == old(totalTime) + deltaTime
      ensures timepointPrev == now
      ensures totalTime == timepointPrev - origin
      ensures Monotone(origin, ticks) ==> deltaTime >= 0 && totalTime >= 0
    {
      deltaTime := now - timepointPrev;
      totalTime := totalTime + deltaTime;
      timepointPrev := now;
      ticks := ticks + [now];
      assert ticks[..|ticks| - 1] == old(ticks);
      ghost var ds := Deltas(origin, ticks);
      assert ds[..|ds| - 1] == Deltas(origin, old(ticks));
      DeltasTelescope(origin, ticks);
      if Monotone(origin, ticks) {
        DeltasNonNegative(origin, ticks);
      }
    }

    /** reset: the reading becomes the new origin and delta and total are
        zero again. */
    method Reset(now: int)
      modifies this
      ensures Valid() && timepointPrev == now && deltaTime == 0 && totalTime == 0
      ensures origin == now && ticks == []
    {
      timepointPrev := now;
      deltaTime := 0;
      totalTime := 0;
      origin := now;
      ticks := [];
    }
  }
}
