/**
 * The imbalanced reduce driver. Each rank seeds the C generator from its rank, draws one value
 * `rand_val` in [0, 100], and before every timed reduce runs a synthetic compute nest whose
 * length is `rand_val` times a per-size multiplier `x`. Both the compute nest (`timer3`) and the
 * reduce (`timer`) are timed from pass `skip` on, and both are reset for every element count.
 */
module ArPap {
  import opened CRuntime
  import opened Config
  import opened Timing
  import opened Sweep

  /** The generator seed of `rank`, as passed to `srand`; the draw it yields is an input of the run. */
  function Seed(rank: nat): int
  {
    123456789 + rank * 1000
  }

  /**
   * `rand_val`: the first draw after seeding, scaled into [0, 100] and truncated. It reaches
   * 100 only for the largest draw.
   */
  function RandVal(draw: Draw): (v: int)
    ensures 0 <= v <= 100
    ensures v == 100 <==> draw == RandMax
  {
    var u := UnitFraction(draw);
    assert u < 1.0 ==> 100.0 * u < 100.0;
    Trunc(100.0 * u)
  }

  /** The multiplier the if-chain assigns to a message of `bytes` bytes, if any branch matches. */
  function Table(bytes: int): (r: Option<nat>)
    ensures r.Some? ==> 4 <= bytes <= 67108864 && 2 <= r.value <= 40000
    ensures 4 <= bytes <= 1024 ==> r == Some(2)
  {
    if 4 <= bytes && bytes <= 1024 then Some(2)
    else if 2048 <= bytes && bytes <= 4896 then Some(4)
    else if bytes == 8192 then Some(7)
    else if bytes == 16384 then Some(14)
    else if bytes == 32768 then Some(20)
    else if bytes == 65536 then Some(24)
    else if bytes == 131072 then Some(50)
    else if bytes == 262144 then Some(100)
    else if bytes == 524288 then Some(150)
    else if bytes == 1048576 then Some(260)
    else if bytes == 2097152 then Some(530)
    else if bytes == 4194304 then Some(1060)
    else if bytes == 8388608 then Some(3500)
    else if bytes == 16777216 then Some(9200)
    else if bytes == 33554432 then Some(18000)
    else if bytes == 67108864 then Some(40000)
    else None
  }

  /** Over the listed sizes the multiplier never falls as the message grows, and it is always at least 2. */
  lemma TableMonotone(b1: int, b2: int)
    requires b1 <= b2 && Table(b1).Some? && Table(b2).Some?
    ensures 2 <= Table(b1).value <= Table(b2).value
  {
  }

  /** `x` after the if-chain for a message of `bytes` bytes: the listed value, or the previous `x` when nothing matches. */
  function Multiplier(bytes: int, x: nat): (r: nat)
    ensures Table(bytes).Some? ==> r == Table(bytes).value
    ensures Table(bytes).None? ==> r == x
  {
    match Table(bytes)
    case Some(v) => v
    case None => x
  }

  /** The `x` in force at the `k`-th element count of a sweep `plan`, `x` starting at `x0`. */
  function MultiplierAt(plan: seq<Point>, k: nat, x0: nat): nat
    requires k < |plan|
  {
    var previous := if k == 0 then x0 else MultiplierAt(plan, k - 1, x0);
    Multiplier(plan[k].size * FloatBytes, previous)
  }

  /** The `x` in force is either the starting value or the listed value of a size visited so far. */
  lemma {:induction false} MultiplierOrigin(plan: seq<Point>, k: nat, x0: nat)
    requires k < |plan|
    ensures || MultiplierAt(plan, k, x0) == x0
            || exists i :: 0 <= i <= k && Table(plan[i].size * FloatBytes) == Some(MultiplierAt(plan, k, x0))
  {
    if Table(plan[k].size * FloatBytes).None? && 0 < k {
      MultiplierOrigin(plan, k - 1, x0);
    }
  }

  /**
   * Along a sweep whose sizes never shrink, `x` never falls, provided it starts no higher than
   * any listed value.
   */
  lemma {:induction false} MultiplierNondecreasing(plan: seq<Point>, x0: nat, i: nat, j: nat)
    requires i <= j < |plan|
    requires forall m, n :: 0 <= m <= n < |plan| ==> plan[m].size <= plan[n].size
    requires x0 <= 2
    ensures MultiplierAt(plan, i, x0) <= MultiplierAt(plan, j, x0)
    decreases j
  {
    if i < j {
      MultiplierNondecreasing(plan, x0, i, j - 1);
      var before := MultiplierAt(plan, j - 1, x0);
      var bytes := plan[j].size * FloatBytes;
      if Table(bytes).Some? {
        MultiplierOrigin(plan, j - 1, x0);
        if before != x0 {
          var m :| 0 <= m <= j - 1 && Table(plan[m].size * FloatBytes) == Some(before);
          assert plan[m].size * FloatBytes <= bytes;
          TableMonotone(plan[m].size * FloatBytes, bytes);
        }
      }
    }
  }

  /** In the driver's own sweep, starting from `x = 1`, the multiplier never falls from one element count to a later one. */
  lemma SweepMultiplierNondecreasing(start: nat, limit: nat, iterations: nat, skip: nat,
                                     iterationsLarge: nat, skipLarge: nat, i: nat, j: nat)
    requires 1 <= start
    requires i <= j < |Doublings(start, limit)|
    ensures var plan := Plan(Doublings(start, limit), iterations, skip, iterationsLarge, skipLarge);
      MultiplierAt(plan, i, 1) <= MultiplierAt(plan, j, 1)
  {
    var sizes := Doublings(start, limit);
    var plan := Plan(sizes, iterations, skip, iterationsLarge, skipLarge);
    forall m, n | 0 <= m <= n < |plan| ensures plan[m].size <= plan[n].size {
      DoublingsAscending(start, limit, m, n);
    }
    MultiplierNondecreasing(plan, 1, i, j);
  }

  /** The volatile counters the compute nest updates; they are never reset during the run. */
  datatype Counters = Counters(a: int, b: int, c: int, compute: int)

  /** One execution of the innermost body: `a`, `b` and `c` go up by one, then `compute` gains `a*b + c`. */
  function Step(cn: Counters): (r: Counters)
    ensures r.a == cn.a + 1 && r.b == cn.b + 1 && r.c == cn.c + 1
    ensures 0 <= cn.a && 0 <= cn.b && 0 <= cn.c ==> cn.compute < r.compute
  {
    var a, b, c := cn.a + 1, cn.b + 1, cn.c + 1;
    Counters(a, b, c, cn.compute + (a * b + c))
  }

  /** `n` executions of the innermost body. */
  function Steps(cn: Counters, n: nat): Counters
  {
    if n == 0 then cn else Step(Steps(cn, n - 1))
  }

  /** `n` executions move `a`, `b` and `c` up by exactly `n`. */
  lemma {:induction false} StepsCounts(cn: Counters, n: nat)
    ensures Steps(cn, n).a == cn.a + n && Steps(cn, n).b == cn.b + n && Steps(cn, n).c == cn.c + n
  {
    if 0 < n {
      StepsCounts(cn, n - 1);
    }
  }

  /** Running `m` bodies and then `n` more is running `m + n` bodies. */
  lemma {:induction false} StepsAdd(cn: Counters, m: nat, n: nat)
    ensures Steps(Steps(cn, m), n) == Steps(cn, m + n)
  {
    if 0 < n {
      StepsAdd(cn, m, n - 1);
    }
  }

  /** The increment of `n (n + 1) (n + 2)` from `n - 1` to `n`: three times `n * n + n`. */
  lemma CubicStep(n: nat)
    requires 0 < n
    ensures n * (n + 1) * (n + 2) == (n - 1) * n * (n + 1) + 3 * (n * n + n)
  {
    var q := n * (n + 1);
    assert n * (n + 1) * (n + 2) == q * (n + 2) == q * (n - 1) + q * 3;
    assert (n - 1) * n * (n + 1) == q * (n - 1);
  }

  /** From all-zero counters, `n` bodies leave `a = b = c = n` and `3 * compute = n (n + 1) (n + 2)`. */
  lemma {:induction false} StepsFromZero(n: nat)
    ensures var cn := Steps(Counters(0, 0, 0, 0), n);
      cn.a == n && cn.b == n && cn.c == n && 3 * cn.compute == n * (n + 1) * (n + 2)
  {
    if 0 < n {
      StepsFromZero(n - 1);
      var previous := Steps(Counters(0, 0, 0, 0), n - 1);
      assert Steps(Counters(0, 0, 0, 0), n) == Step(previous);
      CubicStep(n);
    }
  }

  /** The innermost body's count for one pass: `rand_val × 1 × 100x × 2`. */
  function BodyCount(randVal: nat, x: nat): (n: nat)
    ensures n % 200 == 0
    ensures n == 0 <==> randVal == 0 || x == 0
  {
    var passes := randVal * x;
    assert randVal * 1 * (100 * x) * 2 == 200 * passes;
    assert passes == 0 <==> randVal == 0 || x == 0 by {
      if randVal != 0 && x != 0 {
        assert passes >= x;
      }
    }
    randVal * 1 * (100 * x) * 2
  }

  /**
   * The four-level compute nest of one pass. It runs the body `BodyCount(rand_val, x)` times,
   * so `a`, `b` and `c` each grow by exactly that count.
   */
  method SyntheticCompute(randVal: nat, x: nat, before: Counters) returns (after: Counters)
    ensures after == Steps(before, BodyCount(randVal, x))
    ensures after.a == before.a + BodyCount(randVal, x)
    ensures after.b == before.b + BodyCount(randVal, x)
    ensures after.c == before.c + BodyCount(randVal, x)
  {
    var a, b, c, compute := before.a, before.b, before.c, before.compute;
    ghost var done := 0;
    var perG := 100 * x * 2;
    var perL := 1 * perG;
    var l := 0;
    while l < randVal
      invariant l <= randVal && done == l * perL
      invariant Counters(a, b, c, compute) == Steps(before, done)
    {
      var g := 0;
      while g < 1
        invariant g <= 1 && done == l * perL + g * perG
        invariant Counters(a, b, c, compute) == Steps(before, done)
      {
        var k := 0;
        while k < 100 * x
          invariant k <= 100 * x && done == l * perL + g * perG + k * 2
          invariant Counters(a, b, c, compute) == Steps(before, done)
        {
          var f := 0;
          while f < 2
            invariant f <= 2 && done == l * perL + g * perG + k * 2 + f
            invariant Counters(a, b, c, compute) == Steps(before, done)
          {
            a := a + 1;
            b := b + 1;
            c := c + 1;
            compute := compute + (a * b + c);
            done := done + 1;
            f := f + 1;
          }
          k := k + 1;
        }
        assert g * perG + 100 * x * 2 == (g + 1) * perG;
        g := g + 1;
      }
      assert l * perL + perL == (l + 1) * perL;
      l := l + 1;
    }
    assert done == BodyCount(randVal, x);
    after := Counters(a, b, c, compute);
    StepsCounts(before, done);
  }

  /**
   * One element count's pass loop: each pass runs the compute nest and then the reduce, and
   * from pass `skip` on adds the nest's bracket to `timer3` and the reduce's to `timer`; both
   * latencies are microseconds per measured pass.
   */
  method MeasureSize(randVal: nat, x: nat, iterations: nat, skip: nat,
                     computeSamples: seq<Interval>, reduceSamples: seq<Interval>, before: Counters)
    returns (latency: real, latency3: real, after: Counters)
    requires 0 < iterations
    requires |computeSamples| == |reduceSamples| == iterations + skip
    ensures latency == LatencyMicros(Measured(reduceSamples, skip), iterations)
    ensures latency3 == LatencyMicros(Measured(computeSamples, skip), iterations)
    ensures after == Steps(before, (iterations + skip) * BodyCount(randVal, x))
  {
    var timer, timer3 := 0.0, 0.0;
    after := before;
    var i := 0;
    while i < iterations + skip
      invariant i <= iterations + skip
      invariant timer == Measured(reduceSamples[..i], skip)
      invariant timer3 == Measured(computeSamples[..i], skip)
      invariant after == Steps(before, i * BodyCount(randVal, x))
    {
      ghost var previous := after;
      after := SyntheticCompute(randVal, x, after);
      StepsAdd(before, i * BodyCount(randVal, x), BodyCount(randVal, x));
      assert i * BodyCount(randVal, x) + BodyCount(randVal, x) == (i + 1) * BodyCount(randVal, x);
      MeasuredStep(computeSamples, skip, i);
      if i >= skip {
        timer3 := timer3 + Duration(computeSamples[i]);
      }
      MeasuredStep(reduceSamples, skip, i);
      if i >= skip {
        timer := timer + Duration(reduceSamples[i]);
      }
      i := i + 1;
    }
    assert reduceSamples[..i] == reduceSamples && computeSamples[..i] == computeSamples;
    latency := LatencyMicros(timer, iterations);
    latency3 := LatencyMicros(timer3, iterations);
  }

  /** The inner-body executions of the first `n` element counts of the sweep: passes times bodies per pass. */
  function WorkTotal(plan: seq<Point>, randVal: nat, n: nat): nat
    requires n <= |plan|
  {
    if n == 0 then 0
    else WorkTotal(plan, randVal, n - 1) + (plan[n - 1].iterations + plan[n - 1].skip) * BodyCount(randVal, MultiplierAt(plan, n - 1, 1))
  }

  /** What the pass loop yields for the `k`-th element count: the `x` in force and both latencies from that size's clocks. */
  predicate SizeOutcome(plan: seq<Point>, k: nat, computeClock: (nat, nat) -> Interval, reduceClock: (nat, nat) -> Interval,
                        x: nat, latency: real, latency3: real)
    requires k < |plan|
  {
    var p := plan[k];
    var n := p.iterations + p.skip;
    && 0 < p.iterations
    && x == MultiplierAt(plan, k, 1)
    && latency == LatencyMicros(Measured(PerPass(reduceClock, k, n), p.skip), p.iterations)
    && latency3 == LatencyMicros(Measured(PerPass(computeClock, k, n), p.skip), p.iterations)
  }

  /** One turn of the size loop on values: the `x` it sets, and the counters after its nests. */
  lemma SweepStep(plan: seq<Point>, randVal: nat, k: nat, x: nat)
    requires k < |plan|
    requires x == if k == 0 then 1 else MultiplierAt(plan, k - 1, 1)
    ensures var x' := Multiplier(plan[k].size * FloatBytes, x);
      var n := plan[k].iterations + plan[k].skip;
      && x' == MultiplierAt(plan, k, 1)
      && Steps(Steps(Counters(0, 0, 0, 0), WorkTotal(plan, randVal, k)), n * BodyCount(randVal, x'))
         == Steps(Counters(0, 0, 0, 0), WorkTotal(plan, randVal, k + 1))
  {
    var n := plan[k].iterations + plan[k].skip;
    var x' := Multiplier(plan[k].size * FloatBytes, x);
    assert x' == MultiplierAt(plan, k, 1);
    var body := n * BodyCount(randVal, x');
    assert WorkTotal(plan, randVal, k + 1) == WorkTotal(plan, randVal, k) + body;
    StepsAdd(Counters(0, 0, 0, 0), WorkTotal(plan, randVal, k), body);
  }

  /**
   * The size loop after the sweep is planned: `x` is carried from size to size through the
   * if-chain, the timers start afresh for each size, and the counters carry over throughout.
   */
  method MeasureSweep(plan: seq<Point>, randVal: nat, computeClock: (nat, nat) -> Interval, reduceClock: (nat, nat) -> Interval)
    returns (xs: seq<nat>, latencies: seq<real>, latencies3: seq<real>, counters: Counters)
    requires forall k :: 0 <= k < |plan| ==> 0 < plan[k].iterations
    ensures |xs| == |plan| && |latencies| == |plan| && |latencies3| == |plan|
    ensures forall k :: 0 <= k < |plan| ==> SizeOutcome(plan, k, computeClock, reduceClock, xs[k], latencies[k], latencies3[k])
    ensures counters == Steps(Counters(0, 0, 0, 0), WorkTotal(plan, randVal, |plan|))
  {
    xs, latencies, latencies3 := [], [], [];
    counters := Counters(0, 0, 0, 0);
    var x := 1;
    var k := 0;
    while k < |plan|
      invariant k <= |plan| && |xs| == k && |latencies| == k && |latencies3| == k
      invariant x == if k == 0 then 1 else MultiplierAt(plan, k - 1, 1)
      invariant forall j :: 0 <= j < k ==> SizeOutcome(plan, j, computeClock, reduceClock, xs[j], latencies[j], latencies3[j])
      invariant counters == Steps(Counters(0, 0, 0, 0), WorkTotal(plan, randVal, k))
    {
      var p := plan[k];
      var n := p.iterations + p.skip;
      SweepStep(plan, randVal, k, x);
      x := Multiplier(p.size * FloatBytes, x);
      var latency, latency3;
      latency, latency3, counters := MeasureSize(randVal, x, p.iterations, p.skip,
                                                 PerPass(computeClock, k, n), PerPass(reduceClock, k, n), counters);
      assert SizeOutcome(plan, k, computeClock, reduceClock, x, latency, latency3);
      ghost var xsBefore, latenciesBefore, latencies3Before := xs, latencies, latencies3;
      xs, latencies, latencies3 := xs + [x], latencies + [latency], latencies3 + [latency3];
      forall j | 0 <= j <= k
        ensures SizeOutcome(plan, j, computeClock, reduceClock, xs[j], latencies[j], latencies3[j])
      {
        if j < k {
          assert xs[j] == xsBefore[j] && latencies[j] == latenciesBefore[j] && latencies3[j] == latencies3Before[j];
        }
      }
      k := k + 1;
    }
  }

  /**
   * One rank's whole run: the seeded draw (taken before the start-up switch), the start-up
   * decision, the normalisation of the size range and the buffer size, then the element-count
   * sweep. `draw` is the first `rand()` value after seeding with `Seed(rank)`.
   */
  method ArPapRun(opts: Options, po: ParseOutcome, numprocs: nat, draw: Draw,
                  computeClock: (nat, nat) -> Interval, reduceClock: (nat, nat) -> Interval)
    returns (exit: Exit, randVal: nat, warned: bool, bufsize: nat,
             xs: seq<nat>, latencies: seq<real>, latencies3: seq<real>, counters: Counters)
    requires 0 < opts.iterations && 0 < opts.iterationsLarge
    modifies opts`iterations, opts`skip, opts`minMessageSize, opts`maxMessageSize
    ensures randVal == RandVal(draw)
    ensures exit == CollectiveStartup(po, numprocs)
    ensures exit != Proceed ==>
      && xs == [] && latencies == [] && latencies3 == [] && counters == Counters(0, 0, 0, 0)
      && opts.iterations == old(opts.iterations) && opts.skip == old(opts.skip)
      && opts.minMessageSize == old(opts.minMessageSize) && opts.maxMessageSize == old(opts.maxMessageSize)
    ensures exit == Proceed ==>
      && warned == (old(opts.maxMessageSize) > opts.maxMemLimit)
      && opts.maxMessageSize == (if warned then opts.maxMemLimit else old(opts.maxMessageSize))
      && opts.minMessageSize == ElementMinimum(old(opts.minMessageSize))
      && bufsize == BufferBytes(opts.maxMessageSize)
    ensures exit == Proceed ==>
      var plan := Plan(Doublings(opts.minMessageSize, opts.maxMessageSize / FloatBytes),
                       old(opts.iterations), old(opts.skip), opts.iterationsLarge, opts.skipLarge);
      && |xs| == |plan| && |latencies| == |plan| && |latencies3| == |plan|
      && (plan == [] ==> opts.iterations == old(opts.iterations) && opts.skip == old(opts.skip))
      && (plan != [] ==> opts.iterations == plan[|plan| - 1].iterations && opts.skip == plan[|plan| - 1].skip)
      && (forall k :: 0 <= k < |plan| ==> SizeOutcome(plan, k, computeClock, reduceClock, xs[k], latencies[k], latencies3[k]))
      && counters == Steps(Counters(0, 0, 0, 0), WorkTotal(plan, randVal, |plan|))
  {
    randVal := RandVal(draw);
    exit := CollectiveStartup(po, numprocs);
    warned, bufsize, xs, latencies, latencies3, counters := false, 0, [], [], [], Counters(0, 0, 0, 0);
    if exit != Proceed {
      return;
    }
    warned, bufsize := NormaliseForFloats(opts);
    ghost var iterations0, skip0 := opts.iterations, opts.skip;
    ghost var start, limit := opts.minMessageSize, opts.maxMessageSize / FloatBytes;
    var plan := Run(opts, FloatBytes);
    forall k | 0 <= k < |plan| ensures 0 < plan[k].iterations {
      SweepCounts(start, limit, iterations0, skip0, opts.iterationsLarge, opts.skipLarge, k);
    }
    xs, latencies, latencies3, counters := MeasureSweep(plan, randVal, computeClock, reduceClock);
  }
}
