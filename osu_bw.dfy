/**
 * The point-to-point bandwidth driver: two ranks, rank 0 posting `window_size` non-blocking
 * sends per pass and waiting for a short acknowledgement, rank 1 posting the matching
 * receives. The model covers its start-up decision, the buffer slots the window uses, rank 0's
 * warm-up-filtered timer with its optional kernel-launch correction, and the MB/s figure.
 */
module OsuBw {
  import opened Config
  import opened Timing
  import opened Sweep

  /** The start-up switch and the process-count check: only a clean parse on exactly two ranks proceeds. */
  function Startup(po: ParseOutcome, numprocs: nat): (r: Exit)
    ensures r == Proceed <==> po == Okay && numprocs == 2
    ensures r == Stop(true) <==> po == HelpMessage || po == VersionMessage
    ensures r == Stop(false) <==> po in {BadUsage, CudaNotAvailable, OpenAccNotAvailable} || (po == Okay && numprocs != 2)
  {
    match po
    case CudaNotAvailable | OpenAccNotAvailable | BadUsage => Stop(false)
    case HelpMessage | VersionMessage => Stop(true)
    case Okay => if numprocs != 2 then Stop(false) else Proceed
  }

  /** `options.buf_num`: one buffer pair shared by the whole window, or one pair per window slot. */
  datatype BufNum = Single | Multiple

  /** How many `s_buf`/`r_buf` slots are allocated for a buffer mode. */
  function SlotCount(bufNum: BufNum, windowSize: nat): (n: nat)
    ensures bufNum == Single ==> n == 1
    ensures 1 <= windowSize ==> 1 <= n <= windowSize
  {
    if bufNum == Multiple then windowSize else 1
  }

  /** The slot the `j`-th operation of a window sends from (rank 0) or receives into (rank 1). */
  function SlotIndex(bufNum: BufNum, j: nat): (slot: nat)
    ensures slot <= j
    ensures bufNum == Single ==> slot == 0
  {
    if bufNum == Single then 0 else j
  }

  /**
   * The slots of one window's operations, in posting order. Every one lies inside the slot
   * array; a single buffer is shared by all of them, multiple buffers are used one each.
   */
  method WindowSlots(bufNum: BufNum, windowSize: nat) returns (slots: seq<nat>)
    ensures |slots| == windowSize
    ensures forall j :: 0 <= j < windowSize ==> slots[j] < SlotCount(bufNum, windowSize)
    ensures bufNum == Single ==> forall j :: 0 <= j < windowSize ==> slots[j] == 0
    ensures bufNum == Multiple ==> forall i, j :: 0 <= i < j < windowSize ==> slots[i] < slots[j]
  {
    slots := [];
    var j := 0;
    while j < windowSize
      invariant j <= windowSize && |slots| == j
      invariant forall i :: 0 <= i < j ==> slots[i] == SlotIndex(bufNum, i)
    {
      slots := slots + [SlotIndex(bufNum, j)];
      j := j + 1;
    }
  }

  /**
   * The managed-memory override of builds with the CUDA kernel: a managed source or
   * destination forces one buffer per slot.
   */
  function ManagedOverride(bufNum: BufNum, src: char, dst: char, cudaKernel: bool): (r: BufNum)
    ensures r == Single <==> bufNum == Single && !(cudaKernel && (src == 'M' || dst == 'M'))
  {
    if cudaKernel && (src == 'M' || dst == 'M') then Multiple else bufNum
  }

  /**
   * As written, the slot arrays are sized from the parsed mode before the override runs, while the
   * window loops index them with the overridden mode: a managed run asked for a single buffer
   * then touches slots beyond the one allocated.
   */
  lemma AsWrittenSlotOverrun(src: char, dst: char, windowSize: nat)
    requires src == 'M' || dst == 'M'
    requires 1 < windowSize
    ensures var used := ManagedOverride(Single, src, dst, true);
      exists j :: 0 <= j < windowSize && SlotIndex(used, j) >= SlotCount(Single, windowSize)
  {
    assert SlotIndex(ManagedOverride(Single, src, dst, true), 1) >= SlotCount(Single, windowSize);
  }

  /** The slot count when the arrays are sized after the override: every window operation's slot is allocated. */
  function SlotsAfterOverride(bufNum: BufNum, src: char, dst: char, cudaKernel: bool, windowSize: nat): (n: nat)
    ensures forall j :: 0 <= j < windowSize ==> SlotIndex(ManagedOverride(bufNum, src, dst, cudaKernel), j) < n
    ensures n == windowSize || n == 1
  {
    SlotCount(ManagedOverride(bufNum, src, dst, cudaKernel), windowSize)
  }

  /** The kernel-launch time charged to each timed window: only for a managed destination touched on the device. */
  function Overhead(tLo: real, windowSize: nat, dst: char, mmDst: char): (r: real)
    ensures !(dst == 'M' && mmDst == 'D') ==> r == 0.0
    ensures 0.0 <= tLo ==> 0.0 <= r
    ensures windowSize == 0 ==> r == 0.0
  {
    if dst == 'M' && mmDst == 'D' then tLo * windowSize as real else 0.0
  }

  /** `calculate_total`: one timed window's bracket, less the launch overhead when it applies. */
  function CalculateTotal(tStart: real, tEnd: real, tLo: real, windowSize: nat, dst: char, mmDst: char): (t: real)
    ensures t + Overhead(tLo, windowSize, dst, mmDst) == tEnd - tStart
    ensures !(dst == 'M' && mmDst == 'D') ==> t == tEnd - tStart
  {
    if dst == 'M' && mmDst == 'D' then (tEnd - tStart) - tLo * windowSize as real else tEnd - tStart
  }

  /** What rank 0's `t_total` holds after the passes `samples`: the measured brackets, less one overhead per measured pass. */
  function WindowTotal(samples: seq<Interval>, skip: nat, tLo: real, windowSize: nat, dst: char, mmDst: char): real
  {
    Measured(samples, skip) - MeasuredCount(|samples|, skip) as real * Overhead(tLo, windowSize, dst, mmDst)
  }

  /**
   * Rank 0's pass loop: the clock is read around a pass only from pass `skip` on, and each
   * such pass adds `calculate_total` of its readings.
   */
  method AccumulateWindows(samples: seq<Interval>, skip: nat, tLo: real, windowSize: nat, dst: char, mmDst: char)
    returns (tTotal: real)
    ensures tTotal == WindowTotal(samples, skip, tLo, windowSize, dst, mmDst)
  {
    tTotal := 0.0;
    var i := 0;
    while i < |samples|
      invariant i <= |samples|
      invariant tTotal == Measured(samples[..i], skip) - MeasuredCount(i, skip) as real * Overhead(tLo, windowSize, dst, mmDst)
    {
      MeasuredStep(samples, skip, i);
      if i >= skip {
        tTotal := tTotal + CalculateTotal(samples[i].start, samples[i].stop, tLo, windowSize, dst, mmDst);
      }
      i := i + 1;
    }
    assert samples[..i] == samples;
  }

  /**
   * With `iterations` measured passes each lasting `d`, the timer holds `iterations` times the
   * per-pass time net of the overhead: the warm-up passes leave no trace.
   */
  lemma WindowTotalUniform(samples: seq<Interval>, iterations: nat, skip: nat, d: real,
                           tLo: real, windowSize: nat, dst: char, mmDst: char)
    requires |samples| == iterations + skip
    requires forall i :: skip <= i < |samples| ==> Duration(samples[i]) == d
    ensures WindowTotal(samples, skip, tLo, windowSize, dst, mmDst)
         == iterations as real * (d - Overhead(tLo, windowSize, dst, mmDst))
  {
    MeasuredUniform(samples, iterations, skip, d);
  }

  /**
   * The reported figure: megabytes moved by the measured windows per second of `t_total`.
   * A zero timer gives no finite figure.
   */
  function Bandwidth(size: nat, iterations: nat, windowSize: nat, tTotal: real): (r: Option<real>)
    ensures r == None <==> tTotal == 0.0
    ensures r.Some? ==> r.value * tTotal == size as real / MicrosPerSecond * iterations as real * windowSize as real
  {
    if tTotal == 0.0 then None
    else Some(size as real / MicrosPerSecond * iterations as real * windowSize as real / tTotal)
  }

  /**
   * On a clock where every measured window takes `d > 0` seconds and no overhead applies, the
   * figure is one window's bytes per `d`, in MB/s, whatever the iteration and warm-up counts.
   */
  lemma BandwidthUniform(size: nat, samples: seq<Interval>, iterations: nat, skip: nat, d: real,
                         tLo: real, windowSize: nat, dst: char, mmDst: char)
    requires 0 < iterations && 0.0 < d
    requires !(dst == 'M' && mmDst == 'D')
    requires |samples| == iterations + skip
    requires forall i :: skip <= i < |samples| ==> Duration(samples[i]) == d
    ensures Bandwidth(size, iterations, windowSize, WindowTotal(samples, skip, tLo, windowSize, dst, mmDst))
         == Some(size as real * windowSize as real / (MicrosPerSecond * d))
  {
    WindowTotalUniform(samples, iterations, skip, d, tLo, windowSize, dst, mmDst);
    var n, w, s := iterations as real, windowSize as real, size as real;
    var q := s * w / (MicrosPerSecond * d);
    assert q * (MicrosPerSecond * d) == s * w;
    assert q * (n * d) == s / MicrosPerSecond * n * w by {
      assert s / MicrosPerSecond * MicrosPerSecond == s;
    }
    var t := WindowTotal(samples, skip, tLo, windowSize, dst, mmDst);
    assert t == n * d && 0.0 < t;
    assert s / MicrosPerSecond * n * w / t == q;
    var b := Bandwidth(size, iterations, windowSize, t);
    assert b.Some? && b.value == q;
    assert b == Some(q);
    assert q == size as real * windowSize as real / (MicrosPerSecond * d);
  }

  /** The figure rank 0 reports for the `k`-th point of the sweep, timed by the readings `clock(k, _)`. */
  function PointBandwidth(plan: seq<Point>, k: nat, clock: (nat, nat) -> Interval,
                          tLo: nat -> real, windowSize: nat, dst: char, mmDst: char): Option<real>
    requires k < |plan|
  {
    var p := plan[k];
    var samples := PerPass(clock, k, p.iterations + p.skip);
    Bandwidth(p.size, p.iterations, windowSize, WindowTotal(samples, p.skip, tLo(k), windowSize, dst, mmDst))
  }

  /** Rank 0's size loop over a sweep `plan`: one figure per size, from that size's readings and launch time. */
  method MeasureSweep(plan: seq<Point>, windowSize: nat, tLo: nat -> real, dst: char, mmDst: char,
                      clock: (nat, nat) -> Interval)
    returns (rates: seq<Option<real>>)
    ensures |rates| == |plan|
    ensures forall k :: 0 <= k < |plan| ==> rates[k] == PointBandwidth(plan, k, clock, tLo, windowSize, dst, mmDst)
  {
    rates := [];
    var k := 0;
    while k < |plan|
      invariant k <= |plan| && |rates| == k
      invariant forall j :: 0 <= j < k ==> rates[j] == PointBandwidth(plan, j, clock, tLo, windowSize, dst, mmDst)
    {
      var p := plan[k];
      var tLoK := tLo(k);
      var tTotal := AccumulateWindows(PerPass(clock, k, p.iterations + p.skip), p.skip, tLoK, windowSize, dst, mmDst);
      rates := rates + [Bandwidth(p.size, p.iterations, windowSize, tTotal)];
      k := k + 1;
    }
  }

  /**
   * Rank 0's view of a whole run: the start-up decision, then the byte-size sweep with its
   * large-message override, each size timed over `iterations + skip` passes whose readings
   * `clock(k, i)` supplies for the `k`-th size and `i`-th pass. `tLo(k)` is the kernel-launch
   * time measured afresh for the `k`-th size (0 in builds without the CUDA kernel).
   */
  method BandwidthTest(opts: Options, po: ParseOutcome, numprocs: nat, windowSize: nat,
                       tLo: nat -> real, dst: char, mmDst: char, clock: (nat, nat) -> Interval)
    returns (exit: Exit, rates: seq<Option<real>>)
    requires 1 <= opts.minMessageSize
    modifies opts`iterations, opts`skip
    ensures exit == Startup(po, numprocs)
    ensures exit != Proceed ==> rates == [] && opts.iterations == old(opts.iterations) && opts.skip == old(opts.skip)
    ensures exit == Proceed ==>
      var plan := Plan(Doublings(opts.minMessageSize, opts.maxMessageSize / 1),
                       old(opts.iterations), old(opts.skip), opts.iterationsLarge, opts.skipLarge);
      && |rates| == |plan|
      && (forall k :: 0 <= k < |plan| ==> rates[k] == PointBandwidth(plan, k, clock, tLo, windowSize, dst, mmDst))
      && (plan == [] ==> opts.iterations == old(opts.iterations) && opts.skip == old(opts.skip))
      && (plan != [] ==> opts.iterations == plan[|plan| - 1].iterations && opts.skip == plan[|plan| - 1].skip)
  {
    exit := Startup(po, numprocs);
    rates := [];
    if exit != Proceed {
      return;
    }
    var plan := Run(opts, 1);
    rates := MeasureSweep(plan, windowSize, tLo, dst, mmDst, clock);
  }
}
