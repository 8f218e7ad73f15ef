/**
 * The statistics aggregator: the three group reductions of each size's per-rank latency
 * (MPI_MIN, MPI_MAX and MPI_SUM to rank 0) and the average rank 0 derives from the sum.
 * The group's latencies are a sequence indexed by rank, so its length is `numprocs`.
 */
module Stats {

  /** MPI_SUM of the ranks' values. */
  function Sum(s: seq<real>): real
  {
    if s == [] then 0.0 else Sum(s[..|s| - 1]) + s[|s| - 1]
  }

  /** MPI_MIN of the ranks' values. */
  function Minimum(s: seq<real>): (m: real)
    requires s != []
    ensures m in s
    ensures forall i :: 0 <= i < |s| ==> m <= s[i]
  {
    if |s| == 1 then s[0]
    else
      var rest := Minimum(s[1..]);
      if s[0] <= rest then s[0] else rest
  }

  /** MPI_MAX of the ranks' values. */
  function Maximum(s: seq<real>): (m: real)
    requires s != []
    ensures m in s
    ensures forall i :: 0 <= i < |s| ==> s[i] <= m
  {
    if |s| == 1 then s[0]
    else
      var rest := Maximum(s[1..]);
      if rest <= s[0] then s[0] else rest
  }

  /** Values all within [lo, hi] sum to between `n * lo` and `n * hi`. */
  lemma {:induction false} SumBounds(s: seq<real>, lo: real, hi: real)
    requires forall i :: 0 <= i < |s| ==> lo <= s[i] <= hi
    ensures |s| as real * lo <= Sum(s) <= |s| as real * hi
  {
    if s != [] {
      SumBounds(s[..|s| - 1], lo, hi);
    }
  }

  /** A total between `n * lo` and `n * hi`, shared out over `n`, lies between `lo` and `hi`. */
  lemma ShareBounds(total: real, n: real, lo: real, hi: real)
    requires 0.0 < n && n * lo <= total <= n * hi
    ensures lo <= total / n <= hi
  {
    assert total / n * n == total;
  }

  /** Values all within [lo, hi], shared out over their number, average to within [lo, hi]. */
  lemma MeanBounds(s: seq<real>, lo: real, hi: real)
    requires s != []
    requires forall i :: 0 <= i < |s| ==> lo <= s[i] <= hi
    ensures lo <= Sum(s) / |s| as real <= hi
  {
    SumBounds(s, lo, hi);
    ShareBounds(Sum(s), |s| as real, lo, hi);
  }

  /** The reduced sum divided by the number of ranks (`avg_time = avg_time / numprocs`). */
  function Average(s: seq<real>): (a: real)
    requires s != []
    ensures Minimum(s) <= a <= Maximum(s)
  {
    MeanBounds(s, Minimum(s), Maximum(s));
    Sum(s) / |s| as real
  }

  /** One report line's figures. */
  datatype Summary = Summary(min: real, avg: real, max: real)

  /** What rank 0 reports for one size from the ranks' latencies. */
  function Summarize(latencies: seq<real>): (r: Summary)
    requires latencies != []
    ensures r.min <= r.avg <= r.max
    ensures r.min in latencies && r.max in latencies
    ensures forall i :: 0 <= i < |latencies| ==> r.min <= latencies[i] <= r.max
  {
    Summary(Minimum(latencies), Average(latencies), Maximum(latencies))
  }

  /** When every rank reports the same latency, the three figures coincide with it. */
  lemma UniformSummary(latencies: seq<real>, l: real)
    requires latencies != []
    requires forall i :: 0 <= i < |latencies| ==> latencies[i] == l
    ensures Summarize(latencies) == Summary(l, l, l)
  {
    assert latencies[0] == l;
    SumBounds(latencies, l, l);
  }
}
