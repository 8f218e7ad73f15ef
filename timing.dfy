/**
 * The timing engine shared by the drivers: each measured operation is bracketed by two clock
 * readings, and a per-size accumulator adds up the brackets of the passes at or after `skip`.
 */
module Timing {

  /** Seconds to microseconds (the `1e6` of the drivers). */
  const MicrosPerSecond: real := 1000000.0

  /** The clock readings taken immediately before and immediately after one operation. */
  datatype Interval = Interval(start: real, stop: real)

  function Duration(t: Interval): real
  {
    t.stop - t.start
  }

  /** The durations of `s`, added up in order. */
  function Elapsed(s: seq<Interval>): real
  {
    if s == [] then 0.0 else Elapsed(s[..|s| - 1]) + Duration(s[|s| - 1])
  }

  /** What a warm-up-filtered accumulator holds after the passes `s`: only passes `skip` and later count. */
  function Measured(s: seq<Interval>, skip: nat): real
  {
    if skip <= |s| then Elapsed(s[skip..]) else 0.0
  }

  /** How many of `passes` passes contribute to the accumulator. */
  function MeasuredCount(passes: nat, skip: nat): nat
  {
    if skip <= passes then passes - skip else 0
  }

  /** Mean latency in microseconds: the accumulated seconds divided by the measured-iteration count. */
  function LatencyMicros(timer: real, iterations: nat): (r: real)
    requires 0 < iterations
    ensures r * iterations as real == timer * MicrosPerSecond
    ensures 0.0 <= timer ==> 0.0 <= r
  {
    timer * MicrosPerSecond / iterations as real
  }

  /** One more pass adds its duration to the accumulator exactly when it is not a warm-up pass. */
  lemma MeasuredStep(s: seq<Interval>, skip: nat, i: nat)
    requires i < |s|
    ensures Measured(s[..i + 1], skip) == Measured(s[..i], skip) + (if skip <= i then Duration(s[i]) else 0.0)
    ensures MeasuredCount(i + 1, skip) == MeasuredCount(i, skip) + (if skip <= i then 1 else 0)
  {
    if skip <= i {
      var before, after := s[..i][skip..], s[..i + 1][skip..];
      assert after == before + [s[i]];
      assert after[..|after| - 1] == before;
    }
  }

  /** A clock whose every bracket lasts `d` accumulates `|s| * d`. */
  lemma {:induction false} ElapsedUniform(s: seq<Interval>, d: real)
    requires forall i :: 0 <= i < |s| ==> Duration(s[i]) == d
    ensures Elapsed(s) == |s| as real * d
  {
    if s != [] {
      ElapsedUniform(s[..|s| - 1], d);
    }
  }

  /** With `iterations + skip` passes of length `d` after warm-up, the accumulator holds `iterations * d`. */
  lemma MeasuredUniform(s: seq<Interval>, iterations: nat, skip: nat, d: real)
    requires |s| == iterations + skip
    requires forall i :: skip <= i < |s| ==> Duration(s[i]) == d
    ensures Measured(s, skip) == iterations as real * d
  {
    var tail := s[skip..];
    forall i | 0 <= i < |tail| ensures Duration(tail[i]) == d {
      assert tail[i] == s[skip + i];
    }
    ElapsedUniform(tail, d);
  }

  /**
   * The mean latency is the per-pass time: dividing by `iterations` (not `iterations + skip`)
   * exactly undoes the filtering of the warm-up passes.
   */
  lemma LatencyUniform(s: seq<Interval>, iterations: nat, skip: nat, d: real)
    requires 0 < iterations && |s| == iterations + skip
    requires forall i :: skip <= i < |s| ==> Duration(s[i]) == d
    ensures LatencyMicros(Measured(s, skip), iterations) == d * MicrosPerSecond
  {
    MeasuredUniform(s, iterations, skip, d);
  }

  /** A clock that never runs backwards gives a non-negative accumulator. */
  lemma {:induction false} ElapsedNonnegative(s: seq<Interval>)
    requires forall i :: 0 <= i < |s| ==> s[i].start <= s[i].stop
    ensures 0.0 <= Elapsed(s)
  {
    if s != [] {
      ElapsedNonnegative(s[..|s| - 1]);
    }
  }
}
