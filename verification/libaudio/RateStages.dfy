/** What the rate stages compute over a whole stream, however the stream is cut into calls. */
module RateStages {
  import opened FixedPoint

  type HalvingFilter = t: seq<int32> | |t| == NUM_22KHZ witness seq(NUM_22KHZ, _ => 0)
  type SmoothingFilter = t: seq<int32> | |t| == NUM_16KHZ witness seq(NUM_16KHZ, _ => 0)

  const OVERLAP_22KHZ := 18
  const OVERLAP_16KHZ := 23
  const SAMPLES_IN := 441
  const SAMPLES_OUT := 320
  const STEP := 45158  // 441/320 in 17.15 fixed point, as the float computation rounds it

  // ---------------------------------------------------------------- halving

  /** How many samples the halving stage has produced after n samples. */
  function HalveCount(n: nat): nat {
    if n < NUM_22KHZ then 0 else (n - OVERLAP_22KHZ) / 2
  }

  function HalveAt(x: seq<int16>, taps: HalvingFilter, m: nat): int16
    requires 2 * m + NUM_22KHZ <= |x|
  {
    Clip(Fir(x[2 * m..2 * m + NUM_22KHZ], taps))
  }

  /** Every second position of the filtered stream, clipped. */
  function Halve(x: seq<int16>, taps: HalvingFilter): (y: seq<int16>)
    ensures |y| == HalveCount(|x|)
  {
    seq(HalveCount(|x|), m requires 0 <= m < HalveCount(|x|) => HalveAt(x, taps, m))
  }

  /** The samples the halving stage still needs: the ones no finished window starts at. */
  function HalveRest(x: seq<int16>): (r: seq<int16>)
    ensures |r| == |x| - 2 * HalveCount(|x|)
  {
    x[2 * HalveCount(|x|)..]
  }

  lemma HalveCountSplit(n: nat, k: nat)
    ensures HalveCount(n + k) == HalveCount(n) + HalveCount(n - 2 * HalveCount(n) + k)
  {
  }

  lemma HalveAtShift(x: seq<int16>, z: seq<int16>, taps: HalvingFilter, h: nat, m: nat)
    requires 2 * h <= |z| && x == z[2 * h..]
    requires 2 * m + NUM_22KHZ <= |x|
    ensures HalveAt(z, taps, m + h) == HalveAt(x, taps, m)
  {
    assert x[2 * m..2 * m + NUM_22KHZ] == z[2 * (m + h)..2 * (m + h) + NUM_22KHZ];
  }

  lemma HalveAtPrefix(x: seq<int16>, z: seq<int16>, taps: HalvingFilter, m: nat)
    requires x <= z && 2 * m + NUM_22KHZ <= |x|
    ensures HalveAt(z, taps, m) == HalveAt(x, taps, m)
  {
    assert x[2 * m..2 * m + NUM_22KHZ] == z[2 * m..2 * m + NUM_22KHZ];
  }

  /** Cutting the stream anywhere changes neither the outputs nor the samples kept. */
  lemma HalveSplit(x: seq<int16>, y: seq<int16>, taps: HalvingFilter)
    ensures Halve(x + y, taps) == Halve(x, taps) + Halve(HalveRest(x) + y, taps)
    ensures HalveRest(x + y) == HalveRest(HalveRest(x) + y)
  {
    var h := HalveCount(|x|);
    var rest := HalveRest(x) + y;
    HalveCountSplit(|x|, |y|);
    assert rest == (x + y)[2 * h..];
    forall m | 0 <= m < HalveCount(|x + y|)
      ensures Halve(x + y, taps)[m] == (Halve(x, taps) + Halve(rest, taps))[m]
    {
      if m < h {
        HalveAtPrefix(x, x + y, taps, m);
      } else {
        HalveAtShift(rest, x + y, taps, h, m - h);
      }
    }
  }

  // ---------------------------------------------------------------- 441 in, 320 out

  /** How many blocks of 441 samples the interpolating stage has consumed after n samples. */
  function Blocks(n: nat): nat {
    if n < OVERLAP_16KHZ then 0 else (n - OVERLAP_16KHZ) / SAMPLES_IN
  }

  /** Where in the stream output q takes its two filtered samples. */
  function Whole(q: nat): nat {
    q / SAMPLES_OUT * SAMPLES_IN + q % SAMPLES_OUT * STEP / 0x8000
  }

  function Frac(q: nat): nat {
    q % SAMPLES_OUT * STEP % 0x8000
  }

  /** The windows of a block's outputs end within the samples that must follow the block. */
  lemma WindowInside(n: nat, q: nat)
    requires q < SAMPLES_OUT * Blocks(n)
    ensures q % SAMPLES_OUT * STEP / 0x8000 + 1 <= SAMPLES_IN - 1
    ensures Whole(q) + NUM_16KHZ + 1 <= n
  {
    assert q % SAMPLES_OUT * STEP <= 319 * STEP;
    assert q / SAMPLES_OUT < Blocks(n);
  }

  function InterpolateAt(x: seq<int16>, taps: SmoothingFilter, q: nat): int16
    requires Whole(q) + NUM_16KHZ + 1 <= |x|
  {
    var k := Whole(q);
    Blend(Fir(x[k..k + NUM_16KHZ], taps), Fir(x[k + 1..k + 1 + NUM_16KHZ], taps), Frac(q))
  }

  /** The stream low-pass filtered, then read at steps of 441/320 by linear interpolation, restarting at each block. */
  function Interpolate(x: seq<int16>, taps: SmoothingFilter): (y: seq<int16>)
    ensures |y| == SAMPLES_OUT * Blocks(|x|)
  {
    seq(SAMPLES_OUT * Blocks(|x|), q requires 0 <= q < SAMPLES_OUT * Blocks(|x|) =>
      WindowInside(|x|, q);
      InterpolateAt(x, taps, q))
  }

  function InterpolateRest(x: seq<int16>): (r: seq<int16>)
    ensures |r| == |x| - SAMPLES_IN * Blocks(|x|)
  {
    x[SAMPLES_IN * Blocks(|x|)..]
  }

  lemma BlocksSplit(n: nat, k: nat)
    ensures Blocks(n + k) == Blocks(n) + Blocks(n - SAMPLES_IN * Blocks(n) + k)
  {
  }

  lemma InterpolateAtShift(x: seq<int16>, z: seq<int16>, taps: SmoothingFilter, b: nat, q: nat)
    requires SAMPLES_IN * b <= |z| && x == z[SAMPLES_IN * b..]
    requires Whole(q) + NUM_16KHZ + 1 <= |x|
    ensures Whole(q + SAMPLES_OUT * b) == Whole(q) + SAMPLES_IN * b
    ensures InterpolateAt(z, taps, q + SAMPLES_OUT * b) == InterpolateAt(x, taps, q)
  {
    var q' := q + SAMPLES_OUT * b;
    assert q' / SAMPLES_OUT == q / SAMPLES_OUT + b && q' % SAMPLES_OUT == q % SAMPLES_OUT;
    var k := Whole(q);
    var k' := k + SAMPLES_IN * b;
    assert x[k..k + NUM_16KHZ] == z[k'..k' + NUM_16KHZ];
    assert x[k + 1..k + 1 + NUM_16KHZ] == z[k' + 1..k' + 1 + NUM_16KHZ];
  }

  lemma InterpolateAtPrefix(x: seq<int16>, z: seq<int16>, taps: SmoothingFilter, q: nat)
    requires x <= z
    requires Whole(q) + NUM_16KHZ + 1 <= |x|
    ensures InterpolateAt(z, taps, q) == InterpolateAt(x, taps, q)
  {
    var k := Whole(q);
    assert x[k..k + NUM_16KHZ] == z[k..k + NUM_16KHZ];
    assert x[k + 1..k + 1 + NUM_16KHZ] == z[k + 1..k + 1 + NUM_16KHZ];
  }

  lemma InterpolateSplitAt(x: seq<int16>, y: seq<int16>, taps: SmoothingFilter, q: nat)
    requires q < SAMPLES_OUT * Blocks(|x + y|)
    ensures Blocks(|x + y|) == Blocks(|x|) + Blocks(|InterpolateRest(x) + y|)
    ensures Interpolate(x + y, taps)[q] ==
            if q < SAMPLES_OUT * Blocks(|x|) then Interpolate(x, taps)[q]
            else Interpolate(InterpolateRest(x) + y, taps)[q - SAMPLES_OUT * Blocks(|x|)]
  {
    var b, rest := Blocks(|x|), InterpolateRest(x) + y;
    BlocksSplit(|x|, |y|);
    if q < SAMPLES_OUT * b {
      WindowInside(|x|, q);
      InterpolateAtPrefix(x, x + y, taps, q);
    } else {
      assert rest == (x + y)[SAMPLES_IN * b..];
      WindowInside(|rest|, q - SAMPLES_OUT * b);
      InterpolateAtShift(rest, x + y, taps, b, q - SAMPLES_OUT * b);
    }
  }

  /** Cutting the stream anywhere changes neither the outputs nor the samples kept. */
  lemma InterpolateSplit(x: seq<int16>, y: seq<int16>, taps: SmoothingFilter)
    ensures Interpolate(x + y, taps) == Interpolate(x, taps) + Interpolate(InterpolateRest(x) + y, taps)
    ensures InterpolateRest(x + y) == InterpolateRest(InterpolateRest(x) + y)
  {
    BlocksSplit(|x|, |y|);
    assert InterpolateRest(x) + y == (x + y)[SAMPLES_IN * Blocks(|x|)..];
    forall q | 0 <= q < SAMPLES_OUT * Blocks(|x + y|)
      ensures Interpolate(x + y, taps)[q] == (Interpolate(x, taps) + Interpolate(InterpolateRest(x) + y, taps))[q]
    {
      InterpolateSplitAt(x, y, taps, q);
    }
  }
}
