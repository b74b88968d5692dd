/** The two rate stages as the code runs them: on arrays, consuming their input in place. */
module Resampler {
  import opened FixedPoint
  import opened RateStages

  /** memmove of count samples to the front of the array. */
  method MoveToFront(a: array<int16>, from: nat, count: nat)
    requires from + count <= a.Length
    modifies a
    ensures a[..count] == old(a[from..from + count])
    ensures a[count..] == old(a[count..])
  {
    for i := 0 to count
      invariant a[..i] == old(a[from..from + i])
      invariant forall k :: i <= k < a.Length ==> a[k] == old(a[k])
    {
      a[i] := a[from + i];
    }
  }

  /** Output m of the halving stage for the first n samples of input. */
  method FilterPair(input: array<int16>, ghost n: nat, i: nat, taps: HalvingFilter, ghost m: nat) returns (y: int16)
    requires Light(taps) && n <= input.Length && i == 2 * m && m < HalveCount(n)
    ensures y == Halve(input[..n], taps)[m]
  {
    ghost var x := input[..n];
    assert input[i..i + NUM_22KHZ] == x[2 * m..2 * m + NUM_22KHZ];
    var sum := FirConvolve(input, i, taps);
    y := Clip(sum);
    assert y == HalveAt(x, taps, m);
  }

  /** Every second filtered sample of the first n samples of input, written to output at the given position. */
  method FilterPairs(input: array<int16>, ghost n: nat, samples: nat, output: array<int16>, at: nat,
                     taps: HalvingFilter)
    requires input != output && n <= input.Length
    requires Light(taps)
    requires samples == 2 * HalveCount(n) && at + HalveCount(n) <= output.Length
    modifies output
    ensures forall k :: 0 <= k < at || at + HalveCount(n) <= k < output.Length ==> output[k] == old(output[k])
    ensures forall k :: 0 <= k < HalveCount(n) ==> output[at + k] == Halve(input[..n], taps)[k]
  {
    ghost var x := input[..n];
    ghost var m := 0;
    var i := 0;
    while i < samples
      invariant i == 2 * m && m <= HalveCount(n) && input[..n] == x
      invariant forall k :: 0 <= k < at || at + m <= k < output.Length ==> output[k] == old(output[k])
      invariant forall k :: 0 <= k < m ==> output[at + k] == Halve(x, taps)[k]
    {
      var y := FilterPair(input, n, i, taps, m);
      assert i / 2 == m && y == Halve(x, taps)[m];
      output[at + i / 2] := y;
      i, m := i + 2, m + 1;
    }
  }

  /**
   * resample_2_1. Halves the first n samples of input into output at the given position and leaves the
   * samples still needed at the front of input.
   */
  method Halver(input: array<int16>, n: nat, output: array<int16>, at: nat, taps: HalvingFilter)
    returns (left: nat, made: nat)
    requires input != output && n <= input.Length
    requires Light(taps)
    requires at + HalveCount(n) <= output.Length
    modifies input, output
    ensures made == HalveCount(n) && left == n - 2 * made
    ensures output[..at] == old(output[..at])
    ensures forall k :: at + made <= k < output.Length ==> output[k] == old(output[k])
    ensures output[at..at + made] == Halve(old(input[..n]), taps)
    ensures input[..left] == HalveRest(old(input[..n]))
  {
    if n < NUM_22KHZ {
      assert HalveRest(input[..n]) == input[..n];
      return n, 0;
    }
    var odd := n % 2;
    var samples := n - odd - OVERLAP_22KHZ;
    assert samples == 2 * HalveCount(n);
    FilterPairs(input, n, samples, output, at, taps);
    MoveToFront(input, samples, OVERLAP_22KHZ + odd);
    assert HalveRest(old(input[..n])) == old(input[samples..n]);
    made := samples / 2;
    left := OVERLAP_22KHZ + odd;
  }

  /** The block count as the code computes it: the subtraction is done in an unsigned 32-bit type. */
  function RawBlocks(n: nat): nat {
    (n - OVERLAP_16KHZ) % 0x1_0000_0000 / SAMPLES_IN
  }

  /** The computed block count is the intended one exactly when at least the overlap is there. */
  lemma RawBlocksExact(n: nat)
    requires n < 0x8000_0000
    ensures RawBlocks(n) == Blocks(n) <==> OVERLAP_16KHZ <= n
    ensures n < OVERLAP_16KHZ ==> RawBlocks(n) == 9_739_154
  {
    if n < OVERLAP_16KHZ {
      assert (n - OVERLAP_16KHZ) % 0x1_0000_0000 == 0x1_0000_0000 + n - OVERLAP_16KHZ;
    }
  }

  /** One block's 441 filtered samples, unclipped. */
  method Smoothen(input: array<int16>, at: nat, taps: SmoothingFilter) returns (tmp: array<int32>)
    requires at + SAMPLES_IN + OVERLAP_16KHZ <= input.Length
    requires Light(taps)
    ensures fresh(tmp) && tmp.Length == SAMPLES_IN
    ensures forall j :: 0 <= j < SAMPLES_IN ==> tmp[j] == Fir(input[at + j..at + j + NUM_16KHZ], taps)
  {
    tmp := new int32[SAMPLES_IN];
    for j := 0 to SAMPLES_IN
      invariant forall k :: 0 <= k < j ==> tmp[k] == Fir(input[at + k..at + k + NUM_16KHZ], taps)
    {
      tmp[j] := FirConvolve(input, at + j, taps);
    }
  }

  /** One interpolated sample, every step in 32-bit arithmetic. */
  method BlendSamples(s1: int32, s2: int32, frac: int32) returns (y: int16)
    requires -0x8000_0000 <= s2 - s1 < 0x8000_0000
    requires -0x8000_0000 <= (s2 - s1) * frac < 0x8000_0000
    requires -0x8000_0000 <= s1 + (s2 - s1) * frac / 0x8000 < 0x8000_0000
    ensures y == Blend(s1, s2, frac)
  {
    var difference: int32 := s2 - s1;
    var product: int32 := difference * frac;
    var sum: int32 := s1 + product / 0x8000;
    y := Clip(sum);
  }

  lemma OutputPosition(b: nat, j: nat)
    requires j < SAMPLES_OUT
    ensures Whole(SAMPLES_OUT * b + j) == SAMPLES_IN * b + j * STEP / 0x8000
    ensures Frac(SAMPLES_OUT * b + j) == j * STEP % 0x8000
    ensures j * STEP / 0x8000 + 1 <= SAMPLES_IN - 1
  {
    assert (SAMPLES_OUT * b + j) / SAMPLES_OUT == b && (SAMPLES_OUT * b + j) % SAMPLES_OUT == j;
  }

  /** Output j of block b of the stream x, from the block's filtered samples. */
  method OneOutput(tmp: array<int32>, position: nat, ghost x: seq<int16>, ghost b: nat, ghost j: nat,
                   ghost taps: SmoothingFilter)
    returns (y: int16)
    requires Smooth(taps) && position == j * STEP
    requires b < Blocks(|x|) && j < SAMPLES_OUT
    requires tmp.Length == SAMPLES_IN
    requires forall i :: 0 <= i < SAMPLES_IN ==>
               tmp[i] == Fir(x[SAMPLES_IN * b + i..SAMPLES_IN * b + i + NUM_16KHZ], taps)
    ensures y == Interpolate(x, taps)[SAMPLES_OUT * b + j]
  {
    OutputPosition(b, j);
    var whole, frac := position / 0x8000, position % 0x8000;
    ghost var k := SAMPLES_IN * b + whole;
    ghost var w := x[k..k + NUM_16KHZ + 1];
    assert w[..NUM_16KHZ] == x[k..k + NUM_16KHZ];
    assert w[1..] == x[k + 1..k + 1 + NUM_16KHZ];
    InterpolationFits(w, taps, frac);
    y := BlendSamples(tmp[whole], tmp[whole + 1], frac);
    assert y == InterpolateAt(x, taps, SAMPLES_OUT * b + j);
  }

  /** The 320 outputs of block b of the first n samples of input, written at the block's place in output. */
  method ConvertBlock(input: array<int16>, n: nat, output: array<int16>, b: nat, taps: SmoothingFilter)
    requires input != output && n <= input.Length
    requires Light(taps) && Smooth(taps)
    requires b < Blocks(n) && SAMPLES_OUT * Blocks(n) <= output.Length
    modifies output
    ensures forall q :: 0 <= q < SAMPLES_OUT * b || SAMPLES_OUT * (b + 1) <= q < output.Length ==>
              output[q] == old(output[q])
    ensures forall q :: SAMPLES_OUT * b <= q < SAMPLES_OUT * (b + 1) ==> output[q] == Interpolate(input[..n], taps)[q]
  {
    ghost var x := input[..n];
    var first := SAMPLES_OUT * b;
    var tmp := Smoothen(input, SAMPLES_IN * b, taps);
    forall i | 0 <= i < SAMPLES_IN
      ensures tmp[i] == Fir(x[SAMPLES_IN * b + i..SAMPLES_IN * b + i + NUM_16KHZ], taps)
    {
      var k := SAMPLES_IN * b + i;
      assert x[k..k + NUM_16KHZ] == input[k..k + NUM_16KHZ];
    }
    var position := 0;  // 17.15 fixed point
    for j := 0 to SAMPLES_OUT
      invariant position == j * STEP
      invariant forall i :: 0 <= i < SAMPLES_IN ==>
                  tmp[i] == Fir(x[SAMPLES_IN * b + i..SAMPLES_IN * b + i + NUM_16KHZ], taps)
      invariant forall q :: 0 <= q < first || first + j <= q < output.Length ==> output[q] == old(output[q])
      invariant forall q :: first <= q < first + j ==> output[q] == Interpolate(x, taps)[q]
    {
      output[first + j] := OneOutput(tmp, position, x, b, j, taps);
      position := position + STEP;
    }
  }

  /**
   * resample_441_320. Converts the whole blocks of the first n samples of input into output and leaves the
   * samples still needed at the front of input.
   */
  method BlockConverter(input: array<int16>, n: nat, output: array<int16>, taps: SmoothingFilter)
    returns (left: nat, made: nat)
    requires input != output && n <= input.Length && n < 0x8000_0000
    requires OVERLAP_16KHZ <= n  // the block count wraps around otherwise: see RawBlocksExact
    requires Light(taps) && Smooth(taps)
    requires SAMPLES_OUT * Blocks(n) <= output.Length
    modifies input, output
    ensures made == SAMPLES_OUT * Blocks(n) && left == n - SAMPLES_IN * Blocks(n)
    ensures output[..made] == Interpolate(old(input[..n]), taps)
    ensures forall q :: made <= q < output.Length ==> output[q] == old(output[q])
    ensures input[..left] == InterpolateRest(old(input[..n]))
  {
    RawBlocksExact(n);
    var blocks := RawBlocks(n);
    ghost var x := input[..n];
    if blocks < 1 {
      assert InterpolateRest(x) == x;
      return n, 0;
    }
    for b := 0 to blocks
      invariant input[..n] == x
      invariant forall q :: 0 <= q < SAMPLES_OUT * b ==> output[q] == Interpolate(x, taps)[q]
      invariant forall q :: SAMPLES_OUT * b <= q < output.Length ==> output[q] == old(output[q])
    {
      ConvertBlock(input, n, output, b, taps);
    }
    var consumed := blocks * SAMPLES_IN;
    MoveToFront(input, consumed, n - consumed);
    assert InterpolateRest(x) == input[..n - consumed];
    left := n - consumed;
    made := SAMPLES_OUT * blocks;
  }
}
