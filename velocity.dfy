/**
  `createVelocityTracker` of `velocity.js`: the last `windowSize` social
  velocity samples, each clamped to [0, 100], with the current value, a
  rising-trend test over the last three samples and a first-to-last slope.
*/
module Velocity {
  import opened Js

  const DefaultWindowSize: int := 10

  datatype Sample = Sample(ts: int, v: real)

  /** The ending of `s` that is at most `n` long (nothing when `n <= 0`). */
  function LastAtMost<T>(s: seq<T>, n: int): (r: seq<T>)
    ensures |r| <= |s| && (n >= 0 ==> |r| <= n)
    ensures r == s[|s| - |r|..]
    ensures n >= 0 && |s| <= n ==> r == s
    ensures n >= 0 && |s| > n ==> |r| == n
  {
    if n <= 0 then [] else if |s| <= n then s else s[|s| - n..]
  }

  class VelocityTracker {
    const windowSize: int
    var samples: seq<Sample>

    /** Every value lies in [0, 100] and the window is never over-full. */
    ghost predicate Valid()
      reads this
    {
      windowSize >= 0
      && (forall i :: 0 <= i < |samples| ==> 0.0 <= samples[i].v <= 100.0)
      && |samples| <= windowSize
    }

    /** A negative window would make the shifting loop of `push` spin forever
        on an empty list, so the window is a natural number. */
    constructor(windowSize: int)
      requires windowSize >= 0
      ensures this.windowSize == windowSize && samples == []
      ensures Valid()
    {
      this.windowSize := windowSize;
      samples := [];
    }

    /** `push(v)` at time `now`: appends the clamped value and drops the oldest
        samples until the window fits. */
    method Push(v: real, now: int)
      requires Valid()
      modifies this
      ensures Valid()
      ensures samples == LastAtMost(old(samples) + [Sample(now, ClampReal(v, 0.0, 100.0))], windowSize)
      ensures windowSize >= 1 ==> samples[|samples| - 1] == Sample(now, ClampReal(v, 0.0, 100.0))
    {
      var n := ClampReal(v, 0.0, 100.0);
      samples := samples + [Sample(now, n)];
      ghost var all := samples;
      while |samples| > windowSize
        invariant |samples| <= |all| && samples == all[|all| - |samples|..]
        invariant samples == all || |samples| >= windowSize
        decreases |samples|
      {
        samples := samples[1..];
      }
    }

    /** `current()`: the last value, 0 with no sample. */
    function Current(): (c: real)
      reads this
      requires Valid()
      ensures samples == [] ==> c == 0.0
      ensures samples != [] ==> c == samples[|samples| - 1].v
      ensures 0.0 <= c <= 100.0
    {
      if |samples| > 0 then samples[|samples| - 1].v else 0.0
    }

    /** `isRising({ minDelta, minNow })`: the last three values do not go
        down, the newest reaches `minNow`, and they climb by `minDelta`. */
    function IsRising(minDelta: real, minNow: real): (rising: bool)
      reads this
      ensures |samples| < 3 ==> !rising
      ensures rising <==> |samples| >= 3 && var n := |samples|;
                var a, b, c := samples[n - 3].v, samples[n - 2].v, samples[n - 1].v;
                a <= b <= c && c >= minNow && c - a >= minDelta
    {
      if |samples| < 3 then false
      else
        var a := samples[|samples| - 3].v;
        var b := samples[|samples| - 2].v;
        var c := samples[|samples| - 1].v;
        c >= minNow && b >= a && c >= b && c - a >= minDelta
    }

    /** `slope()`: newest minus oldest, 0 with fewer than two samples. */
    function Slope(): (d: real)
      reads this
      requires Valid()
      ensures |samples| < 2 ==> d == 0.0
      ensures |samples| >= 2 ==> d == samples[|samples| - 1].v - samples[0].v
      ensures -100.0 <= d <= 100.0
    {
      if |samples| < 2 then 0.0 else samples[|samples| - 1].v - samples[0].v
    }
  }
}
