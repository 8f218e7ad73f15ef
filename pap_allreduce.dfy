/**
 * The process-arrival-pattern allreduce driver. For each element count of the sweep, rank 0
 * first times `iterations + skip` ping-pong round trips with the last rank and broadcasts half a
 * round trip as the baseline latency. Every rank then delays each allreduce by a sleep
 * proportional to that baseline and to its imbalance factor (none on rank 0, the maximum on
 * rank 1, a random share of it elsewhere), times the allreduce itself from pass `skip` on, and
 * optionally adds the reduction's validation errors to a counter kept for the whole run.
 */
module PapAllreduce {
  import opened CRuntime
  import opened Config
  import opened Timing
  import opened Stats
  import opened Sweep

  /**
   * Half of the mean ping-pong round trip: `lat_t_total` covers all `iterations + skip` round
   * trips, warm-up included, and each round trip is two one-way messages.
   */
  function BaselineLatency(latTTotal: real, iterations: nat, skip: nat): (r: real)
    requires 0 < iterations + skip
    ensures r * (2.0 * (iterations + skip) as real) == latTTotal
  {
    latTTotal / (2.0 * (iterations + skip) as real)
  }

  /** When every round trip takes `rt` seconds, the baseline is exactly half a round trip. */
  lemma BaselineHalfRoundTrip(start: real, rt: real, iterations: nat, skip: nat)
    requires 0 < iterations + skip
    ensures BaselineLatency(Duration(Interval(start, start + (iterations + skip) as real * rt)), iterations, skip) == rt / 2.0
  {
    var n := (iterations + skip) as real;
    var r := BaselineLatency(Duration(Interval(start, start + n * rt)), iterations, skip);
    assert r * (2.0 * n) == (rt / 2.0) * (2.0 * n);
  }

  /** The imbalance factor of `rank` for one pass, `draw` being the pass's `rand()` value on ranks 2 and up. */
  function ImbalanceFactor(rank: nat, maxFactor: real, draw: Draw): (f: real)
    ensures rank == 0 ==> f == 0.0
    ensures rank == 1 ==> f == maxFactor
    ensures 0.0 <= maxFactor ==> 0.0 <= f <= maxFactor
    ensures maxFactor == 0.0 ==> f == 0.0
    ensures 2 <= rank && draw == RandMax ==> f == maxFactor
    ensures 2 <= rank && draw == 0 ==> f == 0.0
  {
    if rank == 0 then 0.0
    else if rank == 1 then maxFactor
    else
      var u := UnitFraction(draw);
      assert 0.0 <= maxFactor ==> u * maxFactor <= 1.0 * maxFactor;
      u * maxFactor
  }

  /** The pass's delay in microseconds: the baseline scaled by the factor, truncated toward zero as the int64 cast does. */
  function SleepMicros(p2pLatency: real, factor: real): (us: int)
    ensures factor == 0.0 ==> us == 0
    ensures 0.0 <= p2pLatency * factor ==>
      0 <= us && us as real <= p2pLatency * factor * MicrosPerSecond < us as real + 1.0
    ensures p2pLatency * factor < 0.0 ==> us <= 0
  {
    Trunc(p2pLatency * factor * MicrosPerSecond)
  }

  /**
   * The arrival pattern the delays produce: rank 0 never waits, nobody waits when the maximum
   * factor is 0, and with a non-negative baseline and maximum every rank's wait lies between
   * none and rank 1's, which is the longest.
   */
  lemma SleepPolicy(rank: nat, p2pLatency: real, maxFactor: real, draw: Draw)
    ensures SleepMicros(p2pLatency, ImbalanceFactor(0, maxFactor, draw)) == 0
    ensures maxFactor == 0.0 ==> SleepMicros(p2pLatency, ImbalanceFactor(rank, maxFactor, draw)) == 0
    ensures 0.0 <= p2pLatency && 0.0 <= maxFactor ==>
      0 <= SleepMicros(p2pLatency, ImbalanceFactor(rank, maxFactor, draw))
        <= SleepMicros(p2pLatency, ImbalanceFactor(1, maxFactor, draw))
  {
    assert ImbalanceFactor(0, maxFactor, draw) == 0.0;
    if maxFactor == 0.0 {
      assert ImbalanceFactor(rank, maxFactor, draw) == 0.0;
    }
    if 0.0 <= p2pLatency && 0.0 <= maxFactor {
      var f := ImbalanceFactor(rank, maxFactor, draw);
      assert ImbalanceFactor(1, maxFactor, draw) == maxFactor;
      assert 0.0 <= p2pLatency * f * MicrosPerSecond <= p2pLatency * maxFactor * MicrosPerSecond by {
        assert 0.0 <= p2pLatency * f <= p2pLatency * maxFactor;
      }
      TruncMonotone(p2pLatency * f * MicrosPerSecond, p2pLatency * maxFactor * MicrosPerSecond);
      assert SleepMicros(p2pLatency, f) == Trunc(p2pLatency * f * MicrosPerSecond);
      assert SleepMicros(p2pLatency, maxFactor) == Trunc(p2pLatency * maxFactor * MicrosPerSecond);
    }
  }

  /** The errors `validate_reduction` reports over some passes, added up. */
  function Count(s: seq<nat>): nat
  {
    if s == [] then 0 else Count(s[..|s| - 1]) + s[|s| - 1]
  }

  /**
   * One rank's pass loop for one element count: each pass computes the rank's factor and delay,
   * runs the timed allreduce, adds the validation errors when validating, and from pass `skip`
   * on adds the allreduce's bracket to `timer`; the latency is `timer` in microseconds per
   * measured pass. `draws`, `samples` and `checks` hold each pass's `rand()` value, clock
   * readings and `validate_reduction` result.
   */
  method MeasureSize(rank: nat, iterations: nat, skip: nat, p2pLatency: real, maxFactor: real, validate: bool,
                     draws: seq<Draw>, samples: seq<Interval>, checks: seq<nat>, errorsBefore: nat)
    returns (latency: real, sleeps: seq<int>, errors: nat)
    requires 0 < iterations
    requires |draws| == |samples| == |checks| == iterations + skip
    ensures latency == LatencyMicros(Measured(samples, skip), iterations)
    ensures |sleeps| == |samples|
    ensures forall i :: 0 <= i < |sleeps| ==> sleeps[i] == SleepMicros(p2pLatency, ImbalanceFactor(rank, maxFactor, draws[i]))
    ensures errors == errorsBefore + (if validate then Count(checks) else 0)
  {
    var timer := 0.0;
    sleeps := [];
    errors := errorsBefore;
    var i := 0;
    while i < iterations + skip
      invariant i <= iterations + skip && |sleeps| == i
      invariant timer == Measured(samples[..i], skip)
      invariant forall j :: 0 <= j < i ==> sleeps[j] == SleepMicros(p2pLatency, ImbalanceFactor(rank, maxFactor, draws[j]))
      invariant errors == errorsBefore + (if validate then Count(checks[..i]) else 0)
    {
      var imbalanceFactor := ImbalanceFactor(rank, maxFactor, draws[i]);
      sleeps := sleeps + [SleepMicros(p2pLatency, imbalanceFactor)];
      if validate {
        assert checks[..i + 1][..i] == checks[..i];
        errors := errors + checks[i];
      }
      MeasuredStep(samples, skip, i);
      if i >= skip {
        timer := timer + Duration(samples[i]);
      }
      i := i + 1;
    }
    assert samples[..i] == samples && checks[..i] == checks;
    latency := LatencyMicros(timer, iterations);
  }

  /** The latency a rank reports for the `k`-th element count, from that size's clock readings. */
  function SizeLatency(plan: seq<Point>, k: nat, clock: (nat, nat) -> Interval): real
    requires k < |plan| && 0 < plan[k].iterations
  {
    var p := plan[k];
    LatencyMicros(Measured(PerPass(clock, k, p.iterations + p.skip), p.skip), p.iterations)
  }

  /** The baseline broadcast for the `k`-th element count, from rank 0's ping-pong bracket. */
  function SizeBaseline(plan: seq<Point>, k: nat, pingPong: nat -> Interval): real
    requires k < |plan| && 0 < plan[k].iterations
  {
    BaselineLatency(Duration(pingPong(k)), plan[k].iterations, plan[k].skip)
  }

  /**
   * What a rank's pass loop yields for the `k`-th element count: its latency from that size's
   * clock readings, and one delay per pass from the broadcast baseline and the pass's factor.
   */
  predicate SizeOutcome(plan: seq<Point>, k: nat, rank: nat, maxFactor: real, pingPong: nat -> Interval,
                        draws: (nat, nat) -> Draw, clock: (nat, nat) -> Interval, latency: real, sizeSleeps: seq<int>)
    requires k < |plan|
  {
    && 0 < plan[k].iterations
    && latency == SizeLatency(plan, k, clock)
    && |sizeSleeps| == plan[k].iterations + plan[k].skip
    && forall i :: 0 <= i < |sizeSleeps| ==>
         sizeSleeps[i] == SleepMicros(SizeBaseline(plan, k, pingPong), ImbalanceFactor(rank, maxFactor, draws(k, i)))
  }

  /** The pass loop's results for the `k`-th element count, run on that size's inputs, are its outcome. */
  lemma MeasuredSizeOutcome(plan: seq<Point>, k: nat, rank: nat, maxFactor: real, pingPong: nat -> Interval,
                            draws: (nat, nat) -> Draw, clock: (nat, nat) -> Interval, latency: real, sizeSleeps: seq<int>)
    requires k < |plan| && 0 < plan[k].iterations
    requires var n := plan[k].iterations + plan[k].skip;
      && latency == LatencyMicros(Measured(PerPass(clock, k, n), plan[k].skip), plan[k].iterations)
      && |sizeSleeps| == n
      && forall i :: 0 <= i < n ==>
           sizeSleeps[i] == SleepMicros(SizeBaseline(plan, k, pingPong), ImbalanceFactor(rank, maxFactor, PerPass(draws, k, n)[i]))
    ensures SizeOutcome(plan, k, rank, maxFactor, pingPong, draws, clock, latency, sizeSleeps)
  {
  }

  /** The validation errors of the first `n` element counts' passes. */
  function ErrorTotal(plan: seq<Point>, checks: (nat, nat) -> nat, n: nat): nat
    requires n <= |plan|
  {
    if n == 0 then 0
    else ErrorTotal(plan, checks, n - 1) + Count(PerPass(checks, n - 1, plan[n - 1].iterations + plan[n - 1].skip))
  }

  /** `errors` is never reset: the count after more element counts is never smaller. */
  lemma {:induction false} ErrorTotalGrows(plan: seq<Point>, checks: (nat, nat) -> nat, m: nat, n: nat)
    requires m <= n <= |plan|
    ensures ErrorTotal(plan, checks, m) <= ErrorTotal(plan, checks, n)
    decreases n
  {
    if m < n {
      ErrorTotalGrows(plan, checks, m, n - 1);
    }
  }

  /**
   * One rank's size loop after the sweep is planned: each element count's pass loop runs on
   * that size's inputs with the baseline rank 0 measured for it, and the error count carries
   * over from size to size.
   */
  method MeasureSweep(plan: seq<Point>, rank: nat, maxFactor: real, validate: bool,
                      pingPong: nat -> Interval, draws: (nat, nat) -> Draw, clock: (nat, nat) -> Interval,
                      checks: (nat, nat) -> nat)
    returns (latencies: seq<real>, sleeps: seq<seq<int>>, errors: nat)
    requires forall k :: 0 <= k < |plan| ==> 0 < plan[k].iterations
    ensures |latencies| == |plan| && |sleeps| == |plan|
    ensures errors == (if validate then ErrorTotal(plan, checks, |plan|) else 0)
    ensures forall k :: 0 <= k < |plan| ==>
      SizeOutcome(plan, k, rank, maxFactor, pingPong, draws, clock, latencies[k], sleeps[k])
  {
    latencies, sleeps, errors := [], [], 0;
    var k := 0;
    while k < |plan|
      invariant k <= |plan| && |latencies| == k && |sleeps| == k
      invariant errors == (if validate then ErrorTotal(plan, checks, k) else 0)
      invariant forall j :: 0 <= j < k ==>
        SizeOutcome(plan, j, rank, maxFactor, pingPong, draws, clock, latencies[j], sleeps[j])
    {
      var p := plan[k];
      var n := p.iterations + p.skip;
      var p2pLatency := BaselineLatency(Duration(pingPong(k)), p.iterations, p.skip);
      var latency, sizeSleeps, errorsAfter := MeasureSize(rank, p.iterations, p.skip, p2pLatency, maxFactor, validate,
                                                           PerPass(draws, k, n), PerPass(clock, k, n), PerPass(checks, k, n), errors);
      MeasuredSizeOutcome(plan, k, rank, maxFactor, pingPong, draws, clock, latency, sizeSleeps);
      ghost var latenciesBefore, sleepsBefore := latencies, sleeps;
      latencies := latencies + [latency];
      sleeps := sleeps + [sizeSleeps];
      forall j | 0 <= j <= k
        ensures SizeOutcome(plan, j, rank, maxFactor, pingPong, draws, clock, latencies[j], sleeps[j])
      {
        if j < k {
          assert latencies[j] == latenciesBefore[j] && sleeps[j] == sleepsBefore[j];
        }
      }
      errors := errorsAfter;
      k := k + 1;
    }
  }

  /**
   * One rank's whole run: the start-up decision, the normalisation of the size range and the
   * buffer size, then the element-count sweep, each size's baseline being the one rank 0
   * measured from `pingPong(k)` and broadcast. The inputs are indexed by size `k` and pass `i`.
   */
  method AllreduceRun(opts: Options, po: ParseOutcome, numprocs: nat, rank: nat, maxFactor: real, validate: bool,
                      pingPong: nat -> Interval, draws: (nat, nat) -> Draw, clock: (nat, nat) -> Interval,
                      checks: (nat, nat) -> nat)
    returns (exit: Exit, warned: bool, bufsize: nat, latencies: seq<real>, sleeps: seq<seq<int>>, errors: nat)
    requires 0 < opts.iterations && 0 < opts.iterationsLarge
    modifies opts`iterations, opts`skip, opts`minMessageSize, opts`maxMessageSize
    ensures exit == CollectiveStartup(po, numprocs)
    ensures exit != Proceed ==>
      && latencies == [] && sleeps == [] && errors == 0
      && opts.iterations == old(opts.iterations) && opts.skip == old(opts.skip)
      && opts.minMessageSize == old(opts.minMessageSize) && opts.maxMessageSize == old(opts.maxMessageSize)
    ensures exit == Proceed ==>
      && warned == (old(opts.maxMessageSize) > opts.maxMemLimit)
      && opts.maxMessageSize == (if warned then opts.maxMemLimit else old(opts.maxMessageSize))
      && opts.minMessageSize == ElementMinimum(old(opts.minMessageSize))
      && bufsize == BufferBytes(opts.maxMessageSize)
    ensures exit == Proceed ==>
      var plan := Plan(Doublings(opts.minMessageSize, opts.maxMessageSize / FloatBytes),
                       old(opts.iterations), old(opts.skip), opts.iterationsLarge, opts.skipLarge);
      && |latencies| == |plan| && |sleeps| == |plan|
      && (plan == [] ==> opts.iterations == old(opts.iterations) && opts.skip == old(opts.skip))
      && (plan != [] ==> opts.iterations == plan[|plan| - 1].iterations && opts.skip == plan[|plan| - 1].skip)
      && errors == (if validate then ErrorTotal(plan, checks, |plan|) else 0)
      && forall k :: 0 <= k < |plan| ==>
           SizeOutcome(plan, k, rank, maxFactor, pingPong, draws, clock, latencies[k], sleeps[k])
  {
    exit := CollectiveStartup(po, numprocs);
    warned, bufsize, latencies, sleeps, errors := false, 0, [], [], 0;
    if exit != Proceed {
      return;
    }
    warned, bufsize := NormaliseForFloats(opts);
    ghost var iterations0, skip0 := opts.iterations, opts.skip;
    ghost var start, limit := opts.minMessageSize, opts.maxMessageSize / FloatBytes;
    var plan := Run(opts, FloatBytes);
    forall k | 0 <= k < |plan| ensures 0 < plan[k].iterations {
      SweepCounts(start, limit, iterations0, skip0, opts.iterationsLarge, opts.skipLarge, k);
    }
    latencies, sleeps, errors := MeasureSweep(plan, rank, maxFactor, validate, pingPong, draws, clock, checks);
  }
}
