# A verified model of three OSU micro-benchmark drivers

This project models the sequential logic inside three MPI benchmark drivers of the OSU
micro-benchmark suite and proves properties of it in Dafny:

- `osu_bw` (point-to-point bandwidth). Rank 0 posts `window_size` non-blocking sends per pass and
  times each window. It reports megabytes per second for every message size.
- `bk_osu_pap_allreduce` (allreduce under an imbalanced process-arrival pattern). For each size,
  rank 0 measures a ping-pong baseline latency and broadcasts it. Each rank then sleeps for a
  rank-dependent multiple of the baseline before every timed allreduce.
- `osu_ar_pap` (reduce with synthetic imbalance). Each rank runs a compute nest before every
  timed reduce. The nest's length is a seeded random value times a per-size multiplier.

All MPI traffic is abstracted away. Clock readings (`MPI_Wtime`), `rand()` draws and
`validate_reduction` results are explicit inputs. Each is a sequence indexed by pass, or a
function of (size index, pass index) for a whole run. Reductions over ranks are minimum,
maximum and sum over a sequence of per-rank values. Doubles are modelled as exact `real`s.

Layout, one module per file:

| file | module | what it holds |
|---|---|---|
| `c_runtime.dfy` | `CRuntime` | `RAND_MAX`, the range of `rand()`, `rand()/RAND_MAX`, C's truncating double-to-integer conversion |
| `timing.dfy` | `Timing` | clock brackets, the warm-up-filtered accumulator, microseconds per measured pass |
| `stats.dfy` | `Stats` | `MPI_MIN`/`MPI_MAX`/`MPI_SUM` over ranks and the reported average |
| `config.dfy` | `Config` | the `options` fields the drivers overwrite (a class), suite constants, the collective start-up and size normalisation |
| `sweep.dfy` | `Sweep` | the doubling size loop and the sticky large-message override of `iterations`/`skip` |
| `osu_bw.dfy` | `OsuBw` | the bandwidth driver |
| `pap_allreduce.dfy` | `PapAllreduce` | the imbalanced allreduce driver |
| `ar_pap.dfy` | `ArPap` | the imbalanced reduce driver |

The suite header `osu_util.h` is not part of this model. Its constants are taken with their
values from the suite: `MIN_MESSAGE_SIZE = 1`, `LARGE_MESSAGE_SIZE = 8192`. `RAND_MAX` is the
GNU C library's `2^31 - 1`.

## Model

| member | source | states |
|---|---|---|
| CRuntime.UnitFraction | mpi/collective/bk_osu_pap_allreduce.c:151 | `rand()/RAND_MAX` lies in the closed interval [0, 1]. It is 0 exactly for draw 0 and 1 exactly for draw `RAND_MAX`. |
| CRuntime.Trunc | mpi/collective/bk_osu_pap_allreduce.c:157 | The `(int64_t)` cast drops the fraction toward zero. For r ≥ 0 the result t satisfies 0 ≤ t ≤ r < t + 1; for negative r it satisfies t - 1 < r ≤ t ≤ 0. |
| CRuntime.TruncMonotone | mpi/collective/bk_osu_pap_allreduce.c:157 | Truncation preserves the order of non-negative values. |
| Timing.MeasuredStep | mpi/collective/bk_osu_pap_allreduce.c:168-170 | One more pass adds its bracket to the accumulator, and one to the measured count, exactly when its index is at least `skip`. |
| Timing.MeasuredUniform | mpi/collective/bk_osu_pap_allreduce.c:135-172 | With `iterations + skip` passes, each measured pass lasting `d`, the accumulator holds exactly `iterations × d`. |
| Timing.LatencyMicros | mpi/collective/bk_osu_pap_allreduce.c:173 | The latency times `iterations` is the accumulator in microseconds, and it is non-negative for a non-negative accumulator. |
| Timing.LatencyUniform | mpi/collective/bk_osu_pap_allreduce.c:173 | Dividing by `iterations`, not by `iterations + skip`, gives exactly `d × 1e6` microseconds. |
| Timing.ElapsedNonnegative | mpi/collective/bk_osu_pap_allreduce.c:168-170 | A clock that never runs backwards gives a non-negative accumulator. |
| Stats.Minimum | mpi/collective/bk_osu_pap_allreduce.c:175-176 | `MPI_MIN` is one of the ranks' values and is no larger than any of them. |
| Stats.Maximum | mpi/collective/bk_osu_pap_allreduce.c:177-178 | `MPI_MAX` is one of the ranks' values and is no smaller than any of them. |
| Stats.SumBounds | mpi/collective/bk_osu_pap_allreduce.c:179-180 | A sum of n values within [lo, hi] lies within [n·lo, n·hi]. |
| Stats.MeanBounds | mpi/collective/bk_osu_pap_allreduce.c:179-181 | Values that all lie in [lo, hi], summed and divided by their number, give a result in [lo, hi]. |
| Stats.Average | mpi/collective/bk_osu_pap_allreduce.c:179-181 | `avg_time = sum / numprocs` lies between the group minimum and maximum. `osu_ar_pap.c` computes `avg_time` and `avg_time3` the same way at lines 181-188. |
| Stats.Summarize | mpi/collective/bk_osu_pap_allreduce.c:175-181 | The reported minimum ≤ average ≤ maximum. Minimum and maximum are rank values, and they bound every rank's value. |
| Stats.UniformSummary | mpi/collective/bk_osu_pap_allreduce.c:175-181 | When every rank reports the same latency, all three figures equal it. |
| Config.CollectiveStartup | mpi/collective/bk_osu_pap_allreduce.c:48-72 | Bad usage fails, and help or version succeeds. Any other outcome proceeds iff there are at least two processes; this includes the accelerator-not-available outcomes, which have no case in the switch. `osu_ar_pap.c:55-77` is identical. |
| Config.Options.ClampToMemLimit | mpi/collective/bk_osu_pap_allreduce.c:74-81 | Afterwards `max_message_size ≤ max_mem_limit`. It is unchanged when it was within the limit. The warning is issued exactly when the clamp applies. |
| Config.Options.ToElementMinimum | mpi/collective/bk_osu_pap_allreduce.c:83-86 | The new minimum is `ElementMinimum` of the old byte minimum. |
| Config.Options.ApplyLargeOverride | mpi/collective/bk_osu_pap_allreduce.c:107-110 | Above `LARGE_MESSAGE_SIZE` the large iteration and skip counts replace the current ones. Otherwise nothing changes. |
| Config.ElementMinimum | mpi/collective/bk_osu_pap_allreduce.c:83-86 | The result is at least `MIN_MESSAGE_SIZE`. Unless raised to that floor, it is the largest float count within the byte minimum. |
| Config.BufferBytes | mpi/collective/bk_osu_pap_allreduce.c:88 | `bufsize` is a multiple of `sizeof(float)`, ≤ the maximum, and within one float of it. |
| Config.NormaliseForFloats | mpi/collective/bk_osu_pap_allreduce.c:74-95 | The clamp, the element minimum and `bufsize` together, with their new values stated against the old ones. `osu_ar_pap.c:78-97` is identical. |
| Sweep.Doublings | mpi/collective/bk_osu_pap_allreduce.c:105 | The sweep is empty iff the minimum exceeds the limit. Otherwise it starts at the minimum, and doubling its last size would exceed the limit. |
| Sweep.DoublingsBounds | mpi/pt2pt/osu_bw.c:125 | Every visited size lies between the minimum and `max_message_size`. |
| Sweep.DoublingsStep | mpi/pt2pt/osu_bw.c:125 | Each visited size is exactly double the one before. |
| Sweep.DoublingsAscending | mpi/pt2pt/osu_bw.c:125 | A later size is never smaller than an earlier one. |
| Sweep.DoublingsAt | mpi/pt2pt/osu_bw.c:125 | The i-th size is `min × 2^i`. |
| Sweep.FitsIff | mpi/collective/bk_osu_pap_allreduce.c:105 | `size × sizeof(float) ≤ max` holds iff `size ≤ max / sizeof(float)`, so the loop guard is a bound on the element count. |
| Sweep.Plan | mpi/pt2pt/osu_bw.c:144-147 | The plan has one point per swept size, carrying that size. |
| Sweep.PlanSticky | mpi/pt2pt/osu_bw.c:144-147 | From the first size above the threshold on, every size runs with the large counts. |
| Sweep.PlanKeepsLarge | mpi/pt2pt/osu_bw.c:144-147 | Once the large counts are in force they stay in force. |
| Sweep.PlanKeepsBase | mpi/pt2pt/osu_bw.c:144-147 | Until a size exceeds the threshold, the starting counts stay in force. |
| Sweep.SweepCounts | mpi/pt2pt/osu_bw.c:144-147 | In the doubling sweep, a size runs with the large counts iff it exceeds `LARGE_MESSAGE_SIZE`. Otherwise it runs with the starting counts. |
| Sweep.Run | mpi/pt2pt/osu_bw.c:125-147 | The loop visits exactly the plan's points and overwrites `options.iterations`/`skip` in place. They end as the last point's counts, or unchanged for an empty sweep. |
| Sweep.SweptSizesFitBuffer | mpi/collective/bk_osu_pap_allreduce.c:88-105 | Every swept element count times `sizeof(float)` fits in `bufsize`, which is ≤ `max_message_size`. |
| OsuBw.Startup | mpi/pt2pt/osu_bw.c:82-103 | Proceed iff parsing succeeded and there are exactly two processes. Help and version exit successfully. Every other case exits with failure. |
| OsuBw.SlotCount | mpi/pt2pt/osu_bw.c:45-51 | SINGLE allocates one slot; for a non-empty window MULTIPLE allocates between 1 and `window_size` slots. |
| OsuBw.SlotIndex | mpi/pt2pt/osu_bw.c:171-176 | The `j`-th operation's slot is never beyond `j`, and is slot 0 under SINGLE. |
| OsuBw.WindowSlots | mpi/pt2pt/osu_bw.c:170-178 | Each of the `window_size` operations uses a slot inside the allocated array (the same rule at lines 199-207). Under SINGLE all use slot 0; under MULTIPLE the slots are pairwise distinct. |
| OsuBw.ManagedOverride | mpi/pt2pt/osu_bw.c:105-112 | In a CUDA-kernel build, a managed source or destination forces MULTIPLE. Otherwise the mode is kept. |
| OsuBw.AsWrittenSlotOverrun | mpi/pt2pt/osu_bw.c:45-51 | The slot arrays are sized before the override. So a managed run that asked for SINGLE indexes slot 1 of a one-slot array whenever `window_size > 1`. |
| OsuBw.SlotsAfterOverride | mpi/pt2pt/osu_bw.c:45-51 | Sized after the override, the arrays hold every slot the window indexes. |
| OsuBw.Overhead | mpi/pt2pt/osu_bw.c:325-326 | The launch correction is 0 unless the destination is managed and touched on the device, is 0 for an empty window, and is non-negative for a non-negative `t_lo`. |
| OsuBw.CalculateTotal | mpi/pt2pt/osu_bw.c:321-332 | The result plus the launch overhead is the bracket `t_end - t_start`. The overhead is `t_lo × window_size` for a managed destination touched on the device, else 0. |
| OsuBw.AccumulateWindows | mpi/pt2pt/osu_bw.c:156-192 | Rank 0's `t_total` is the sum of the brackets of passes `skip` and later, less one overhead per measured pass. |
| OsuBw.WindowTotalUniform | mpi/pt2pt/osu_bw.c:156-192 | With `iterations` measured windows each lasting `d`, `t_total = iterations × (d - overhead)`. |
| OsuBw.Bandwidth | mpi/pt2pt/osu_bw.c:221-223 | The figure times `t_total` equals `size / 1e6 × iterations × window_size`. No figure exists when `t_total` is 0. |
| OsuBw.BandwidthUniform | mpi/pt2pt/osu_bw.c:221-223 | With uniform windows of `d > 0` seconds and no launch correction in force, the figure is `size × window_size / (1e6 × d)`, whatever `t_lo` and the iteration and warm-up counts. |
| OsuBw.MeasureSweep | mpi/pt2pt/osu_bw.c:125-232 | One figure per planned size, computed from that size's own clock readings and from the `t_lo` measured for that size (lines 149-153). |
| OsuBw.BandwidthTest | mpi/pt2pt/osu_bw.c:125-232 | Rank 0's whole run: the start-up decision, then one figure per planned size from that size's clock readings and `t_lo`. `options.iterations`/`skip` end as the last size's counts, or unchanged for an empty sweep. |
| PapAllreduce.BaselineLatency | mpi/collective/bk_osu_pap_allreduce.c:119-120 | The baseline times `2 × (iterations + skip)` is `lat_t_total`: every round trip counts, warm-up included. |
| PapAllreduce.BaselineHalfRoundTrip | mpi/collective/bk_osu_pap_allreduce.c:113-120 | When every round trip takes `rt`, the baseline is exactly `rt / 2`. |
| PapAllreduce.ImbalanceFactor | mpi/collective/bk_osu_pap_allreduce.c:144-152 | Rank 0 gets 0 and rank 1 the maximum. Every rank's factor lies in [0, max] for max ≥ 0, and is 0 when max is 0. Other ranks reach 0 and the maximum at the extreme draws. |
| PapAllreduce.SleepMicros | mpi/collective/bk_osu_pap_allreduce.c:157 | A zero factor gives no sleep. A non-negative product gives the non-negative whole number of microseconds just below it; a negative product gives a sleep of at most 0, passed on unclamped. |
| PapAllreduce.SleepPolicy | mpi/collective/bk_osu_pap_allreduce.c:157-158 | Rank 0 never sleeps, and nobody sleeps when the maximum factor is 0. With a non-negative baseline and maximum, every sleep lies between 0 and rank 1's sleep `trunc(latency × max × 1e6)`. |
| PapAllreduce.MeasureSize | mpi/collective/bk_osu_pap_allreduce.c:135-173 | The latency is the warm-up-filtered accumulator divided by `iterations`, in microseconds. There is one truncated sleep per pass from that pass's factor. `errors` gains the sum of the validation results exactly when validating. |
| PapAllreduce.ErrorTotalGrows | mpi/collective/bk_osu_pap_allreduce.c:164-166 | `errors` is never reset, so the count after more sizes is never smaller. |
| PapAllreduce.MeasureSweep | mpi/collective/bk_osu_pap_allreduce.c:105-172 | Each planned size gets its latency and sleeps from its own inputs and the broadcast baseline. `errors` is the running total over all sizes. |
| PapAllreduce.AllreduceRun | mpi/collective/bk_osu_pap_allreduce.c:48-190 | One rank's whole run: the start-up decision of the option and process-count checks (device set-up assumed to succeed), the normalised range and `bufsize`, then the sweep with its per-size outcomes and the error total. `options.iterations`/`skip` end as the last size's counts, or unchanged for an empty sweep. |
| ArPap.RandVal | mpi/collective/osu_ar_pap.c:52-53 | `rand_val` lies in [0, 100] and is 100 only for the draw `RAND_MAX`. |
| ArPap.Table | mpi/collective/osu_ar_pap.c:111-142 | A matched byte size lies in [4, 2^26] and its value in [2, 40000]; every byte size in [4, 1024] gets 2. |
| ArPap.TableMonotone | mpi/collective/osu_ar_pap.c:111-142 | Over the listed byte sizes, `x` is at least 2 and never smaller for a larger size. |
| ArPap.Multiplier | mpi/collective/osu_ar_pap.c:111-142 | A listed byte size sets `x` to its table value. Any other size leaves `x` unchanged. |
| ArPap.MultiplierOrigin | mpi/collective/osu_ar_pap.c:111-142 | The `x` in force is the starting value or the table value of a size already visited. |
| ArPap.MultiplierNondecreasing | mpi/collective/osu_ar_pap.c:111-142 | Along non-shrinking sizes, `x` never falls when it starts at most 2. |
| ArPap.SweepMultiplierNondecreasing | mpi/collective/osu_ar_pap.c:105-142 | In the driver's own sweep, starting from `x = 1`, `x` is non-decreasing from size to size. |
| ArPap.StepsCounts | mpi/collective/osu_ar_pap.c:153-156 | n executions of the body raise `a`, `b` and `c` by exactly n. |
| ArPap.Step | mpi/collective/osu_ar_pap.c:153-156 | One body raises `a`, `b` and `c` by one each, and strictly raises `compute` when the counters start non-negative. |
| ArPap.BodyCount | mpi/collective/osu_ar_pap.c:150-157 | The body count of one nest is a multiple of 200, and is 0 exactly when `rand_val` or `x` is 0. |
| ArPap.StepsAdd | mpi/collective/osu_ar_pap.c:150-157 | Running m bodies and then n more is running m + n bodies: the counters carry over. |
| ArPap.StepsFromZero | mpi/collective/osu_ar_pap.c:36 | From zeroed counters, n bodies leave `a = b = c = n` and `3 × compute = n(n+1)(n+2)`. |
| ArPap.SyntheticCompute | mpi/collective/osu_ar_pap.c:150-157 | The four-level nest runs the body exactly `rand_val × 1 × 100x × 2` times. `a`, `b` and `c` each grow by that count. |
| ArPap.MeasureSize | mpi/collective/osu_ar_pap.c:144-174 | `latency` and `latency3` are the warm-up-filtered reduce and compute accumulators, reset per size and divided by `iterations`. The counters advance by `(iterations + skip)` nests. |
| ArPap.MeasureSweep | mpi/collective/osu_ar_pap.c:105-174 | Each planned size gets the `x` in force and both latencies from its own clocks. The counters equal all nests of all sizes run from zero. |
| ArPap.ArPapRun | mpi/collective/osu_ar_pap.c:48-192 | One rank's whole run: `rand_val` from the seeded draw, the start-up decision of the option and process-count checks (device set-up assumed to succeed), the normalised range and `bufsize`, then the sweep. `options.iterations`/`skip` end as the last size's counts, or unchanged for an empty sweep. |

## Left out

- MPI itself is not modelled: initialisation, sends and receives, `Waitall`, barriers, `Bcast`,
  `Reduce`, `Allreduce`, `Abort` and `Finalize`. Message delivery is not modelled, and neither
  are the ranks other than the one whose view a method gives. The group figures are
  `Stats.Summarize` and `Stats.Average` applied to the per-rank latencies of one size.
- `MPI_Wtime`, `usleep`, `rand` and `srand` are not modelled. Clock readings and draws are
  inputs. Sleeps are returned as values, not performed. The generator behind the seed
  (`osu_ar_pap.c`) and the time-derived seed (`bk_osu_pap_allreduce.c:46`) are not modelled.
- The accelerator branches of `osu_bw.c` are not modelled: `measure_kernel_lo` (its result
  `t_lo` is an input), `touch_managed_src/dst`, `init_accel` and `cleanup_accel` with their
  failure exits (lines 37-42 and 242-247). The one exception is the buffer-mode override at
  lines 105-112, kept for the finding below.
- The collective drivers' accelerator set-up and tear-down are not modelled either. After a
  clean parse with an accelerator selected, a failing `init_accel` exits with failure before
  MPI starts (mpi/collective/bk_osu_pap_allreduce.c:35-40, mpi/collective/osu_ar_pap.c:39-44).
  A failing `cleanup_accel` exits with failure after the sweep
  (mpi/collective/bk_osu_pap_allreduce.c:197-202, mpi/collective/osu_ar_pap.c:197-202). The
  `exit` that `PapAllreduce.AllreduceRun` and `ArPap.ArPapRun` return is therefore the decision
  of the option and process-count checks alone, for a run whose device calls succeed.
- Option parsing and all printing are not modelled. That includes the usage, help and version
  messages, headers, `print_stats` and the rank-0-only memory warning. Its condition is returned
  as `warned`.
- Buffer allocation, filling and freeing are not modelled: `allocate_memory_*`, `set_buffer*`,
  `free_*`, and the `MPI_Abort` on a failed allocation. `validate_reduction` is an oracle whose
  non-negative results are an input.
- IEEE-754 rounding is not modelled. All timing and bandwidth figures are exact real arithmetic.
- `timer2`, `latency2` and `avg_time2` in `osu_ar_pap.c` are declared and reset but never
  accumulated, so they are not modelled. The final `avg_time3` print (line 193) is the last size's
  `Stats.Average`.
- OsuBw.Bandwidth: a zero `t_total` gives `None` instead of the infinity or NaN that the
  division by zero would print.
- Sweep.Run: requires a minimum of at least 1. In `osu_bw.c` a minimum of 0 never leaves the
  loop, since `0 × 2 = 0`. The collective drivers always raise the minimum to at least 1 first.
- PapAllreduce.AllreduceRun: requires `iterations` and `iterations_large` to be positive. The
  latency divides by `options.iterations`, and zero would give a non-finite figure.
- ArPap.ArPapRun: the same positive-iteration requirement as AllreduceRun.
- CRuntime.Trunc: the `int64_t` range of the sleep and `usleep`'s unsigned argument are not
  modelled. A negative product yields a negative sleep value here.
- ArPap.Seed: the seed `123456789 + rank × 1000` (line 50) is written out only to document
  where each rank's draw comes from. The generator is not modelled, so the draw `ArPapRun` takes
  is an input not tied to the seed, and C `int` overflow of the seed is not modelled either.
- ArPap.SyntheticCompute: the `long` counters are unbounded integers, so `compute`'s overflow
  is not modelled. `x` is a natural number rather than a `float`; every value it takes is a
  small integer that a float holds exactly.
- ArPap.Table: `size × 4` is computed as a C `int`, and its overflow for element counts from
  2^29 on (2^29 × 4 = 2^31 exceeds `INT_MAX`) is not modelled.
- Sweep.Doublings: `size` is a C `int` in all three drivers (mpi/pt2pt/osu_bw.c:25,
  mpi/collective/bk_osu_pap_allreduce.c:15, mpi/collective/osu_ar_pap.c:14), so `size *= 2`
  overflows once `size` reaches 2^30. That happens in `osu_bw` when `max_message_size ≥ 2^30`,
  and in the collectives when it is at least 2^32 bytes. The model doubles in unbounded
  integers, so it covers only runs whose maximum stays below those bounds.

Facts about the code that the model keeps as written: the random factor
`rand()/RAND_MAX × max` ranges over the closed interval [0, max]; a negative sleep is passed on
unclamped; the slow rank is always rank 1; the collective drivers proceed on the
accelerator-not-available parse outcomes.

## Findings

| source | as written | input that shows it | evidently intended | confidence | as-written member | corrected member |
|---|---|---|---|---|---|---|
| mpi/pt2pt/osu_bw.c:45-51 | The `s_buf`/`r_buf` slot arrays are sized from `options.buf_num` before lines 105-112 force MULTIPLE for managed buffers. The window loops then index slots `0 .. window_size - 1`. | A CUDA-kernel build run with a managed source (`src = 'M'`), buffer mode SINGLE and the default `window_size` of 64. Slot 1 of a one-slot array is allocated into at line 128. | Size the slot arrays after the override, from the mode the loops use. | not executed | OsuBw.AsWrittenSlotOverrun | OsuBw.SlotsAfterOverride |
