/** The rate stages composed: what the down-sampler owes for a whole captured stream. */
module Cascade {
  import opened FixedPoint
  import opened RateStages

  datatype Filters = Filters(halving: HalvingFilter, smoothing: SmoothingFilter)

  predicate Supported(hz: int) {
    hz == 8000 || hz == 11025 || hz == 16000 || hz == 22050
  }

  /** The reference: the output stream for the input stream x, at 44100 Hz. */
  function Output(hz: int, f: Filters, x: seq<int16>): seq<int16>
    requires Supported(hz)
  {
    var y := Halve(x, f.halving);
    if hz == 22050 then y
    else if hz == 11025 then Halve(y, f.halving)
    else if hz == 16000 then Interpolate(y, f.smoothing)
    else Interpolate(Halve(y, f.halving), f.smoothing)
  }

  /** The samples kept between passes, in the input buffer and in the two intermediate buffers. */
  datatype Kept = Kept(input: seq<int16>, tmp: seq<int16>, tmp2: seq<int16>)

  const NOTHING_KEPT := Kept([], [], [])

  /** What must be kept after the stream x. */
  function Hold(hz: int, f: Filters, x: seq<int16>): Kept
    requires Supported(hz)
  {
    var y := Halve(x, f.halving);
    if hz == 22050 then Kept(HalveRest(x), [], [])
    else if hz == 11025 then Kept(HalveRest(x), HalveRest(y), [])
    else if hz == 16000 then Kept(HalveRest(x), InterpolateRest(y), [])
    else Kept(HalveRest(x), HalveRest(y), InterpolateRest(Halve(y, f.halving)))
  }

  /** One pass over the buffers as they stand: the samples kept afterwards, and the output it makes. */
  function Pass(hz: int, f: Filters, k: Kept): (Kept, seq<int16>)
    requires Supported(hz)
  {
    var b := k.tmp + Halve(k.input, f.halving);
    if hz == 22050 then
      (Kept(HalveRest(k.input), [], []), b)
    else if hz == 11025 then
      (Kept(HalveRest(k.input), HalveRest(b), []), k.tmp2 + Halve(b, f.halving))
    else if hz == 16000 then
      (Kept(HalveRest(k.input), InterpolateRest(b), k.tmp2), Interpolate(b, f.smoothing))
    else
      var c := k.tmp2 + Halve(b, f.halving);
      (Kept(HalveRest(k.input), HalveRest(b), InterpolateRest(c)), Interpolate(c, f.smoothing))
  }

  /** A pass that first takes in a chunk of new input. */
  function Feed(hz: int, f: Filters, k: Kept, chunk: seq<int16>): (Kept, seq<int16>)
    requires Supported(hz)
  {
    Pass(hz, f, k.(input := k.input + chunk))
  }

  lemma HoldsNothingAtFirst(hz: int, f: Filters)
    requires Supported(hz)
    ensures Hold(hz, f, []) == NOTHING_KEPT && Output(hz, f, []) == []
  {
  }

  /** A pass from what x left behind ends with what x + chunk leaves behind, and makes exactly the new output. */
  lemma FeedRefines(hz: int, f: Filters, x: seq<int16>, chunk: seq<int16>)
    requires Supported(hz)
    ensures Feed(hz, f, Hold(hz, f, x), chunk).0 == Hold(hz, f, x + chunk)
    ensures Output(hz, f, x + chunk) == Output(hz, f, x) + Feed(hz, f, Hold(hz, f, x), chunk).1
  {
    HalveSplit(x, chunk, f.halving);
    var y, y' := Halve(x, f.halving), Halve(HalveRest(x) + chunk, f.halving);
    if hz == 22050 {
      assert [] + y' == y';
    } else if hz == 11025 {
      HalveSplit(y, y', f.halving);
      var z := Halve(HalveRest(y) + y', f.halving);
      assert [] + z == z;
    } else if hz == 16000 {
      InterpolateSplit(y, y', f.smoothing);
    } else {
      HalveSplit(y, y', f.halving);
      InterpolateSplit(Halve(y, f.halving), Halve(HalveRest(y) + y', f.halving), f.smoothing);
    }
  }

  // ---------------------------------------------------------------- any chunking

  function Concat(chunks: seq<seq<int16>>): seq<int16> {
    if chunks == [] then [] else Concat(chunks[..|chunks| - 1]) + chunks[|chunks| - 1]
  }

  /** All passes over a stream cut into chunks. */
  function FeedAll(hz: int, f: Filters, chunks: seq<seq<int16>>): (Kept, seq<int16>)
    requires Supported(hz)
  {
    if chunks == [] then (NOTHING_KEPT, [])
    else
      var (k, made) := FeedAll(hz, f, chunks[..|chunks| - 1]);
      var (k', more) := Feed(hz, f, k, chunks[|chunks| - 1]);
      (k', made + more)
  }

  lemma {:induction false} FeedAllIsOutput(hz: int, f: Filters, chunks: seq<seq<int16>>)
    requires Supported(hz)
    ensures FeedAll(hz, f, chunks) == (Hold(hz, f, Concat(chunks)), Output(hz, f, Concat(chunks)))
  {
    if chunks == [] {
      HoldsNothingAtFirst(hz, f);
    } else {
      var before := chunks[..|chunks| - 1];
      FeedAllIsOutput(hz, f, before);
      FeedRefines(hz, f, Concat(before), chunks[|chunks| - 1]);
    }
  }

  /** However the same stream is cut, the output and the samples kept are the same. */
  lemma ChunkingDoesNotMatter(hz: int, f: Filters, chunks: seq<seq<int16>>, others: seq<seq<int16>>)
    requires Supported(hz) && Concat(chunks) == Concat(others)
    ensures FeedAll(hz, f, chunks) == FeedAll(hz, f, others)
  {
    FeedAllIsOutput(hz, f, chunks);
    FeedAllIsOutput(hz, f, others);
  }

  // ---------------------------------------------------------------- buffer bounds

  /** Between passes the kept samples stay few, so that the next pass fits buffers of 1024 samples. */
  lemma HoldBounds(hz: int, f: Filters, x: seq<int16>)
    requires Supported(hz)
    ensures |Hold(hz, f, x).input| <= 19 && |Hold(hz, f, x).tmp| <= 463 && |Hold(hz, f, x).tmp2| <= 463
  {
  }

  /** The fewest frames a first chunk must have for the interpolating stage to find its overlap. */
  function Enough(hz: int): nat {
    if hz == 16000 then 64 else if hz == 8000 then 146 else 1
  }

  /** What the interpolating stage finds in its buffer in a pass over the buffers as they stand. */
  function StageInput(hz: int, k: Kept): nat
    requires hz == 16000 || hz == 8000
  {
    var b := |k.tmp| + HalveCount(|k.input|);
    if hz == 16000 then b else |k.tmp2| + HalveCount(b)
  }

  /** What the interpolating stage finds in its buffer in the pass that brings the input up to n samples. */
  function Offered(hz: int, n: nat): nat {
    if hz == 8000 then HalveCount(HalveCount(n)) else HalveCount(n)
  }

  /** A first chunk serves the interpolating stage exactly from Enough frames on. */
  lemma EnoughIsExact(hz: int, n: nat)
    requires hz == 16000 || hz == 8000
    ensures OVERLAP_16KHZ <= Offered(hz, n) <==> Enough(hz) <= n
  {
  }

  /**
   * A pass can start safely when the stream so far is empty and the chunk is long enough, or when the stream
   * so far already was long enough: the interpolating stage finds its overlap and no buffer overflows.
   */
  lemma PassIsSafe(hz: int, f: Filters, x: seq<int16>, chunk: seq<int16>)
    requires Supported(hz)
    requires Enough(hz) <= |x| || (x == [] && Enough(hz) <= |chunk|)
    ensures var k := Hold(hz, f, x).(input := Hold(hz, f, x).input + chunk);
            hz == 16000 || hz == 8000 ==> OVERLAP_16KHZ <= StageInput(hz, k)
  {
    if hz == 16000 || hz == 8000 {
      EnoughIsExact(hz, |x|);
      EnoughIsExact(hz, |chunk|);
    }
  }

  // ---------------------------------------------------------------- progress

  function OutputCount(hz: int, n: nat): nat {
    if hz == 22050 then HalveCount(n)
    else if hz == 11025 then HalveCount(HalveCount(n))
    else if hz == 16000 then SAMPLES_OUT * Blocks(HalveCount(n))
    else SAMPLES_OUT * Blocks(HalveCount(HalveCount(n)))
  }

  lemma OutputLength(hz: int, f: Filters, x: seq<int16>)
    requires Supported(hz)
    ensures |Output(hz, f, x)| == OutputCount(hz, |x|)
  {
  }

  function HalveNeed(c: nat): nat {
    2 * c + OVERLAP_22KHZ
  }

  function BlockNeed(b: nat): nat {
    SAMPLES_IN * b + OVERLAP_16KHZ
  }

  lemma HalveNeedIsExact(c: nat, n: nat)
    requires c > 0
    ensures c <= HalveCount(n) <==> HalveNeed(c) <= n
  {
  }

  lemma BlockNeedIsExact(b: nat, n: nat)
    requires b > 0
    ensures b <= Blocks(n) <==> BlockNeed(b) <= n
  {
  }

  /** The input length at which the cascade makes its next output. */
  function Due(hz: int, n: nat): nat {
    if hz == 22050 then HalveNeed(HalveCount(n) + 1)
    else if hz == 11025 then HalveNeed(HalveNeed(HalveCount(HalveCount(n)) + 1))
    else if hz == 16000 then HalveNeed(BlockNeed(Blocks(HalveCount(n)) + 1))
    else HalveNeed(HalveNeed(BlockNeed(Blocks(HalveCount(HalveCount(n))) + 1)))
  }

  /** Output comes exactly when the input reaches Due, and until then Due stays where it is. */
  lemma DueIsExact(hz: int, n: nat, n': nat)
    requires Supported(hz) && n <= n'
    ensures n < Due(hz, n)
    ensures OutputCount(hz, n) < OutputCount(hz, n') <==> Due(hz, n) <= n'
    ensures n' < Due(hz, n) ==> Due(hz, n') == Due(hz, n)
  {
    var h, h' := HalveCount(n), HalveCount(n');
    if hz == 22050 {
      HalveNeedIsExact(h + 1, n');
      HalveNeedIsExact(h + 1, n);
    } else if hz == 11025 {
      HalveNeedIsExact(HalveCount(h) + 1, h');
      HalveNeedIsExact(HalveCount(h) + 1, h);
    } else if hz == 16000 {
      BlockNeedIsExact(Blocks(h) + 1, h');
      BlockNeedIsExact(Blocks(h) + 1, h);
    } else {
      var d, d' := HalveCount(h), HalveCount(h');
      BlockNeedIsExact(Blocks(d) + 1, d');
      BlockNeedIsExact(Blocks(d) + 1, d);
      HalveNeedIsExact(BlockNeed(Blocks(d) + 1), h');
    }
  }

  /** How much more input the cascade needs before its next output. */
  function Missing(hz: int, n: nat): nat
    requires Supported(hz)
  {
    DueIsExact(hz, n, n);
    Due(hz, n) - n
  }

  /** A pass that takes in something but makes nothing brings the next output nearer. */
  lemma SilentPassProgress(hz: int, f: Filters, x: seq<int16>, x': seq<int16>)
    requires Supported(hz) && x <= x' && |x| < |x'|
    requires |Output(hz, f, x)| == |Output(hz, f, x')|
    ensures Missing(hz, |x'|) < Missing(hz, |x|)
  {
    OutputLength(hz, f, x);
    OutputLength(hz, f, x');
    DueIsExact(hz, |x|, |x'|);
  }
}
