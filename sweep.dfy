/**
 * The message-size sweep: sizes double from the minimum while they fit under the maximum,
 * and once a size exceeds the large-message threshold the options' iteration and warm-up
 * counts are overwritten with their large-message values, which then stay in force.
 */
module Sweep {
  import opened Config

  /** The sizes the doubling loop visits, starting at `start`, while they do not exceed `limit`. */
  function Doublings(start: nat, limit: nat): (r: seq<nat>)
    requires 1 <= start
    ensures r == [] <==> limit < start
    ensures r != [] ==> r[0] == start && limit < 2 * r[|r| - 1]
    decreases limit + 1 - start
  {
    if limit < start then [] else [start] + Doublings(2 * start, limit)
  }

  /** Every visited size lies between the start and the limit. */
  lemma {:induction false} DoublingsBounds(start: nat, limit: nat, i: nat)
    requires 1 <= start && i < |Doublings(start, limit)|
    ensures start <= Doublings(start, limit)[i] <= limit
    decreases i
  {
    if 0 < i {
      DoublingsBounds(2 * start, limit, i - 1);
    }
  }

  /** Each visited size is double the one before it. */
  lemma {:induction false} DoublingsStep(start: nat, limit: nat, i: nat)
    requires 1 <= start && 0 < i < |Doublings(start, limit)|
    ensures Doublings(start, limit)[i] == 2 * Doublings(start, limit)[i - 1]
    decreases i
  {
    if 1 < i {
      DoublingsStep(2 * start, limit, i - 1);
    }
  }

  /** The sweep only grows: a later size is never smaller than an earlier one. */
  lemma {:induction false} DoublingsAscending(start: nat, limit: nat, i: nat, j: nat)
    requires 1 <= start && i <= j < |Doublings(start, limit)|
    ensures Doublings(start, limit)[i] <= Doublings(start, limit)[j]
    decreases i
  {
    if 0 < i {
      DoublingsAscending(2 * start, limit, i - 1, j - 1);
    } else {
      DoublingsBounds(start, limit, j);
    }
  }

  function Pow2(k: nat): (r: nat)
    ensures 1 <= r
  {
    if k == 0 then 1 else 2 * Pow2(k - 1)
  }

  /** The `i`-th visited size is the minimum times 2^i. */
  lemma {:induction false} DoublingsAt(start: nat, limit: nat, i: nat)
    requires 1 <= start && i < |Doublings(start, limit)|
    ensures Doublings(start, limit)[i] == start * Pow2(i)
    decreases i
  {
    if 0 < i {
      var rest := Doublings(2 * start, limit);
      assert Doublings(start, limit) == [start] + rest;
      DoublingsAt(2 * start, limit, i - 1);
      var p := Pow2(i - 1);
      assert rest[i - 1] == 2 * start * p;
      assert Pow2(i) == 2 * p;
      assert 2 * start * p == start * (2 * p);
    }
  }

  /** Multiplying by the same natural number keeps the order. */
  lemma MulMonotone(a: nat, b: nat, c: nat)
    requires a <= b
    ensures a * c <= b * c
  {
    assert b * c == a * c + (b - a) * c;
  }

  /** `size * unit <= maxBytes` (the loop guard) holds exactly for the sizes up to `maxBytes / unit`. */
  lemma FitsIff(size: nat, unit: nat, maxBytes: nat)
    requires 1 <= unit
    ensures size * unit <= maxBytes <==> size <= maxBytes / unit
  {
    var q, r := maxBytes / unit, maxBytes % unit;
    assert maxBytes == q * unit + r && 0 <= r < unit;
    if size <= q {
      assert size * unit <= q * unit by {
        MulMonotone(size, q, unit);
      }
    } else {
      assert (q + 1) * unit <= size * unit by {
        MulMonotone(q + 1, size, unit);
      }
    }
  }

  /** One iteration of the size loop: a size and the counts in force for it. */
  datatype Point = Point(size: nat, iterations: nat, skip: nat)

  /**
   * The counts each of `sizes` runs with, when the loop starts with `iterations`/`skip` and
   * overwrites them with the large values at every size above the threshold.
   */
  function Plan(sizes: seq<nat>, iterations: nat, skip: nat, iterationsLarge: nat, skipLarge: nat): (r: seq<Point>)
    ensures |r| == |sizes|
    ensures forall k :: 0 <= k < |r| ==> r[k].size == sizes[k]
  {
    if sizes == [] then []
    else
      var large := sizes[0] > LargeMessageSize;
      var it := if large then iterationsLarge else iterations;
      var sk := if large then skipLarge else skip;
      [Point(sizes[0], it, sk)] + Plan(sizes[1..], it, sk, iterationsLarge, skipLarge)
  }

  /** Unfolds the plan at its first size. */
  lemma PlanCons(size: nat, rest: seq<nat>, iterations: nat, skip: nat, iterationsLarge: nat, skipLarge: nat)
    ensures var large := size > LargeMessageSize;
      var it := if large then iterationsLarge else iterations;
      var sk := if large then skipLarge else skip;
      Plan([size] + rest, iterations, skip, iterationsLarge, skipLarge)
        == [Point(size, it, sk)] + Plan(rest, it, sk, iterationsLarge, skipLarge)
  {
    assert ([size] + rest)[1..] == rest;
  }

  /** One turn of the size loop: the plan's next point is the current size with the counts after the override. */
  lemma PlanAdvance(all: seq<Point>, n: nat, size: nat, limit: nat, iterations: nat, skip: nat, iterationsLarge: nat, skipLarge: nat)
    requires 1 <= size <= limit && n <= |all|
    requires Plan(Doublings(size, limit), iterations, skip, iterationsLarge, skipLarge) == all[n..]
    ensures var large := size > LargeMessageSize;
      var it := if large then iterationsLarge else iterations;
      var sk := if large then skipLarge else skip;
      && n < |all| && all[n] == Point(size, it, sk)
      && Plan(Doublings(2 * size, limit), it, sk, iterationsLarge, skipLarge) == all[n + 1..]
  {
    var rest := Doublings(2 * size, limit);
    assert Doublings(size, limit) == [size] + rest;
    PlanCons(size, rest, iterations, skip, iterationsLarge, skipLarge);
    assert all[n + 1..] == all[n..][1..];
  }

  /** Once the large counts are in force they stay in force. */
  lemma {:induction false} PlanKeepsLarge(sizes: seq<nat>, iterationsLarge: nat, skipLarge: nat, k: nat)
    requires k < |sizes|
    ensures Plan(sizes, iterationsLarge, skipLarge, iterationsLarge, skipLarge)[k].iterations == iterationsLarge
    ensures Plan(sizes, iterationsLarge, skipLarge, iterationsLarge, skipLarge)[k].skip == skipLarge
  {
    if 0 < k {
      PlanKeepsLarge(sizes[1..], iterationsLarge, skipLarge, k - 1);
    }
  }

  /** From the first size above the threshold on, every size runs with the large counts. */
  lemma {:induction false} PlanSticky(sizes: seq<nat>, iterations: nat, skip: nat, iterationsLarge: nat, skipLarge: nat, j: nat, k: nat)
    requires j <= k < |sizes| && sizes[j] > LargeMessageSize
    ensures Plan(sizes, iterations, skip, iterationsLarge, skipLarge)[k].iterations == iterationsLarge
    ensures Plan(sizes, iterations, skip, iterationsLarge, skipLarge)[k].skip == skipLarge
  {
    if j == 0 {
      if 0 < k {
        PlanKeepsLarge(sizes[1..], iterationsLarge, skipLarge, k - 1);
      }
    } else {
      var large := sizes[0] > LargeMessageSize;
      var it := if large then iterationsLarge else iterations;
      var sk := if large then skipLarge else skip;
      PlanSticky(sizes[1..], it, sk, iterationsLarge, skipLarge, j - 1, k - 1);
    }
  }

  /** Until some size exceeds the threshold, the counts the run started with stay in force. */
  lemma {:induction false} PlanKeepsBase(sizes: seq<nat>, iterations: nat, skip: nat, iterationsLarge: nat, skipLarge: nat, k: nat)
    requires k < |sizes|
    requires forall j :: 0 <= j <= k ==> sizes[j] <= LargeMessageSize
    ensures Plan(sizes, iterations, skip, iterationsLarge, skipLarge)[k].iterations == iterations
    ensures Plan(sizes, iterations, skip, iterationsLarge, skipLarge)[k].skip == skip
  {
    if 0 < k {
      PlanKeepsBase(sizes[1..], iterations, skip, iterationsLarge, skipLarge, k - 1);
    }
  }

  /** In the doubling sweep, a size runs with the large counts exactly when it exceeds the threshold. */
  lemma SweepCounts(start: nat, limit: nat, iterations: nat, skip: nat, iterationsLarge: nat, skipLarge: nat, k: nat)
    requires 1 <= start && k < |Doublings(start, limit)|
    ensures var p := Plan(Doublings(start, limit), iterations, skip, iterationsLarge, skipLarge)[k];
      && (p.size > LargeMessageSize ==> p.iterations == iterationsLarge && p.skip == skipLarge)
      && (p.size <= LargeMessageSize ==> p.iterations == iterations && p.skip == skip)
  {
    var sizes := Doublings(start, limit);
    if sizes[k] > LargeMessageSize {
      PlanSticky(sizes, iterations, skip, iterationsLarge, skipLarge, k, k);
    } else {
      forall j | 0 <= j <= k ensures sizes[j] <= LargeMessageSize {
        DoublingsAscending(start, limit, j, k);
      }
      PlanKeepsBase(sizes, iterations, skip, iterationsLarge, skipLarge, k);
    }
  }

  /** The inputs (clock readings, draws, ...) the `n` passes of the `k`-th size read, pass by pass. */
  function PerPass<T>(inputs: (nat, nat) -> T, k: nat, n: nat): (s: seq<T>)
    ensures |s| == n
    ensures forall i :: 0 <= i < n ==> s[i] == inputs(k, i)
  {
    seq(n, i requires 0 <= i => inputs(k, i))
  }

  /** Extending a prefix of `s` by one element. */
  lemma PrefixSnoc<T>(s: seq<T>, n: nat)
    requires n < |s|
    ensures s[..n + 1] == s[..n] + [s[n]]
  {
  }

  /** One turn of the size loop on values: the plan so far grows by the next point and the rest of the plan shifts. */
  lemma RunStep(all: seq<Point>, plan: seq<Point>, size: nat, limit: nat,
                iterations: nat, skip: nat, iterationsLarge: nat, skipLarge: nat)
    requires 1 <= size <= limit && |plan| <= |all| && plan == all[..|plan|]
    requires Plan(Doublings(size, limit), iterations, skip, iterationsLarge, skipLarge) == all[|plan|..]
    ensures var large := size > LargeMessageSize;
      var it := if large then iterationsLarge else iterations;
      var sk := if large then skipLarge else skip;
      && |plan| < |all|
      && plan + [Point(size, it, sk)] == all[..|plan| + 1]
      && Plan(Doublings(2 * size, limit), it, sk, iterationsLarge, skipLarge) == all[|plan| + 1..]
  {
    PlanAdvance(all, |plan|, size, limit, iterations, skip, iterationsLarge, skipLarge);
    PrefixSnoc(all, |plan|);
  }

  /**
   * The size loop `for (size = min; size * unit <= max; size *= 2)`, `unit` being the bytes per
   * element (1 for the byte-sized point-to-point sweep, FloatBytes for the collectives). It
   * applies the large-message override in place and yields the point each loop body sees.
   */
  method Run(opts: Options, unit: nat) returns (plan: seq<Point>)
    requires 1 <= unit && 1 <= opts.minMessageSize
    modifies opts`iterations, opts`skip
    ensures plan == Plan(Doublings(opts.minMessageSize, opts.maxMessageSize / unit),
                         old(opts.iterations), old(opts.skip), opts.iterationsLarge, opts.skipLarge)
    ensures plan == [] ==> opts.iterations == old(opts.iterations) && opts.skip == old(opts.skip)
    ensures plan != [] ==> opts.iterations == plan[|plan| - 1].iterations && opts.skip == plan[|plan| - 1].skip
  {
    var maxBytes, iterationsLarge, skipLarge := opts.maxMessageSize, opts.iterationsLarge, opts.skipLarge;
    ghost var iterations0, skip0 := opts.iterations, opts.skip;
    ghost var limit := maxBytes / unit;
    ghost var all := Plan(Doublings(opts.minMessageSize, limit), iterations0, skip0, iterationsLarge, skipLarge);
    var size := opts.minMessageSize;
    plan := [];
    while size * unit <= maxBytes
      invariant 1 <= size && |plan| <= |all|
      invariant plan == all[..|plan|]
      invariant Plan(Doublings(size, limit), opts.iterations, opts.skip, iterationsLarge, skipLarge) == all[|plan|..]
      invariant plan == [] ==> opts.iterations == iterations0 && opts.skip == skip0
      invariant plan != [] ==> opts.iterations == plan[|plan| - 1].iterations && opts.skip == plan[|plan| - 1].skip
      decreases limit + 1 - size
    {
      FitsIff(size, unit, maxBytes);
      RunStep(all, plan, size, limit, opts.iterations, opts.skip, iterationsLarge, skipLarge);
      opts.ApplyLargeOverride(size);
      var point := Point(size, opts.iterations, opts.skip);
      plan := plan + [point];
      size := 2 * size;
    }
    FitsIff(size, unit, maxBytes);
    assert all[..|plan|] == all;
  }

  /** Every element count a collective sweep visits fits, as floats, in the buffer sized at start-up. */
  lemma SweptSizesFitBuffer(minElements: nat, maxBytes: nat, size: nat)
    requires 1 <= minElements
    requires size in Doublings(minElements, maxBytes / FloatBytes)
    ensures size * FloatBytes <= BufferBytes(maxBytes) <= maxBytes
  {
    var sizes := Doublings(minElements, maxBytes / FloatBytes);
    var i :| 0 <= i < |sizes| && sizes[i] == size;
    DoublingsBounds(minElements, maxBytes / FloatBytes, i);
  }
}
