/**
 * The run options the drivers read and overwrite in place (OMB's process-wide `options`
 * structure), the constants of the benchmark suite's shared header, and the start-up
 * normalisation of the message-size range that both collective drivers perform.
 */
module Config {

  /** MIN_MESSAGE_SIZE: the smallest element count a collective sweep starts from. */
  const MinMessageSize: nat := 1
  /** LARGE_MESSAGE_SIZE: above it the large-message iteration and warm-up counts apply. */
  const LargeMessageSize: nat := 8192
  /** sizeof(float): the collective drivers exchange floats. */
  const FloatBytes: nat := 4

  /** The outcomes of option parsing (the `PO_*` codes). */
  datatype ParseOutcome = Okay | BadUsage | HelpMessage | VersionMessage | CudaNotAvailable | OpenAccNotAvailable

  /** A value that may be absent, such as a figure whose formula would divide by zero. */
  datatype Option<T> = None | Some(value: T)

  /** What a driver does after start-up checks: go on to the sweep, or end with an exit status. */
  datatype Exit = Proceed | Stop(success: bool)

  /**
   * The collective drivers' start-up switch and process-count check. The switch has no case for
   * the accelerator-not-available outcomes, so those fall through to the process-count check.
   */
  function CollectiveStartup(po: ParseOutcome, numprocs: nat): (r: Exit)
    ensures r == Stop(true) <==> po == HelpMessage || po == VersionMessage
    ensures r == Stop(false) <==> po == BadUsage || (po !in {HelpMessage, VersionMessage, BadUsage} && numprocs < 2)
    ensures r == Proceed <==> po !in {HelpMessage, VersionMessage, BadUsage} && 2 <= numprocs
  {
    match po
    case BadUsage => Stop(false)
    case HelpMessage | VersionMessage => Stop(true)
    case _ => if numprocs < 2 then Stop(false) else Proceed
  }

  /** The fields of `options` that the drivers' start-up and size loop change, and the limits they read. */
  class Options {
    var iterations: nat
    var skip: nat
    var minMessageSize: nat
    var maxMessageSize: nat
    const iterationsLarge: nat
    const skipLarge: nat
    const maxMemLimit: nat

    constructor (iterations: nat, skip: nat, iterationsLarge: nat, skipLarge: nat,
                 minMessageSize: nat, maxMessageSize: nat, maxMemLimit: nat)
      ensures this.iterations == iterations && this.skip == skip
      ensures this.iterationsLarge == iterationsLarge && this.skipLarge == skipLarge
      ensures this.minMessageSize == minMessageSize && this.maxMessageSize == maxMessageSize
      ensures this.maxMemLimit == maxMemLimit
    {
      this.iterations := iterations;
      this.skip := skip;
      this.iterationsLarge := iterationsLarge;
      this.skipLarge := skipLarge;
      this.minMessageSize := minMessageSize;
      this.maxMessageSize := maxMessageSize;
      this.maxMemLimit := maxMemLimit;
    }

    /** Caps the largest message at the memory limit; `warned` says whether the cap applied. */
    method ClampToMemLimit() returns (warned: bool)
      modifies this`maxMessageSize
      ensures warned == (old(maxMessageSize) > maxMemLimit)
      ensures maxMessageSize == if warned then maxMemLimit else old(maxMessageSize)
      ensures maxMessageSize <= maxMemLimit
    {
      warned := maxMessageSize > maxMemLimit;
      if warned {
        maxMessageSize := maxMemLimit;
      }
    }

    /** Turns the minimum size from bytes into a float count, raised to at least MinMessageSize. */
    method ToElementMinimum()
      modifies this`minMessageSize
      ensures minMessageSize == ElementMinimum(old(minMessageSize))
    {
      minMessageSize := minMessageSize / FloatBytes;
      if minMessageSize < MinMessageSize {
        minMessageSize := MinMessageSize;
      }
    }

    /** Above the large-message threshold the large counts replace the current ones; otherwise nothing changes. */
    method ApplyLargeOverride(size: nat)
      modifies this`iterations, this`skip
      ensures size > LargeMessageSize ==> iterations == iterationsLarge && skip == skipLarge
      ensures size <= LargeMessageSize ==> iterations == old(iterations) && skip == old(skip)
    {
      if size > LargeMessageSize {
        iterations := iterationsLarge;
        skip := skipLarge;
      }
    }
  }

  /** The whole floats in `minBytes`, but never fewer than MinMessageSize. */
  function ElementMinimum(minBytes: nat): (r: nat)
    ensures MinMessageSize <= r
    ensures r * FloatBytes <= minBytes || r == MinMessageSize
    ensures minBytes < (r + 1) * FloatBytes
  {
    if minBytes / FloatBytes < MinMessageSize then MinMessageSize else minBytes / FloatBytes
  }

  /** `bufsize`: the largest whole number of floats' bytes within `maxBytes`. */
  function BufferBytes(maxBytes: nat): (r: nat)
    ensures r % FloatBytes == 0
    ensures r <= maxBytes < r + FloatBytes
  {
    FloatBytes * (maxBytes / FloatBytes)
  }

  /**
   * The collective drivers' start-up: clamp the maximum to the memory limit (warning once),
   * turn the minimum into a float count, and size both buffers to whole floats.
   */
  method NormaliseForFloats(opts: Options) returns (warned: bool, bufsize: nat)
    modifies opts`maxMessageSize, opts`minMessageSize
    ensures warned == (old(opts.maxMessageSize) > opts.maxMemLimit)
    ensures opts.maxMessageSize == if warned then opts.maxMemLimit else old(opts.maxMessageSize)
    ensures opts.maxMessageSize <= opts.maxMemLimit
    ensures opts.minMessageSize == ElementMinimum(old(opts.minMessageSize))
    ensures bufsize == BufferBytes(opts.maxMessageSize)
    ensures bufsize % FloatBytes == 0 && bufsize <= opts.maxMessageSize
  {
    warned := opts.ClampToMemLimit();
    opts.ToElementMinimum();
    bufsize := BufferBytes(opts.maxMessageSize);
  }
}
