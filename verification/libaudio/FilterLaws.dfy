/**
 * What the filters and rate stages do to a signal, said without them: each output is a rounded sum of samples times
 * taps, at the right place in the stream, and a constant signal comes through at its level.
 */
module FilterLaws {
  import opened FixedPoint
  import opened RateStages
  import opened Cascade

  // ---------------------------------------------------------------- one sum of products

  predicate SilentBut(x: seq<int16>, p: nat) {
    forall j :: 0 <= j < |x| && j != p ==> x[j] == 0
  }

  predicate Constant(x: seq<int16>, v: int16) {
    forall j :: 0 <= j < |x| ==> x[j] == v
  }

  /** Every sample of w is the sum of those of u and v. */
  predicate Mixes(w: seq<int16>, u: seq<int16>, v: seq<int16>) {
    |w| == |u| == |v| && forall j :: 0 <= j < |w| ==> u[j] as int + v[j] as int == w[j] as int
  }

  /** A single sample meets its own tap and no other. */
  lemma {:induction false} DotImpulse(w: seq<int16>, taps: seq<int32>, p: nat, n: nat)
    requires SilentBut(w, p) && n <= |w| && n <= |taps|
    ensures Dot(w, taps, n) == if p < n then w[p] * Tap(taps[p]) else 0
  {
    if n > 0 {
      DotImpulse(w, taps, p, n - 1);
    }
  }

  /** Signals are filtered independently: the sum of two signals gives the sum of what they give. */
  lemma {:induction false} DotMixes(w: seq<int16>, u: seq<int16>, v: seq<int16>, taps: seq<int32>, n: nat)
    requires Mixes(w, u, v) && n <= |w| && n <= |taps|
    ensures Dot(w, taps, n) == Dot(u, taps, n) + Dot(v, taps, n)
  {
    if n > 0 {
      DotMixes(w, u, v, taps, n - 1);
      Distributes(u[n - 1], v[n - 1], Tap(taps[n - 1]));
    }
  }

  lemma Distributes(x: int, y: int, c: int)
    ensures (x + y) * c == x * c + y * c
  {
  }

  function TapSum(taps: seq<int32>, n: nat): int
    requires n <= |taps|
  {
    if n == 0 then 0 else TapSum(taps, n - 1) + Tap(taps[n - 1])
  }

  lemma {:induction false} DotConstant(w: seq<int16>, taps: seq<int32>, v: int16, n: nat)
    requires Constant(w, v) && n <= |w| && n <= |taps|
    ensures Dot(w, taps, n) == v * TapSum(taps, n)
  {
    if n > 0 {
      DotConstant(w, taps, v, n - 1);
      Distributes(TapSum(taps, n - 1), Tap(taps[n - 1]), v);
    }
  }

  lemma TapSumStep(taps: seq<int32>, n: nat, a: int, b: int, c: int, d: int)
    requires n + 4 <= |taps|
    requires Tap(taps[n]) == a && Tap(taps[n + 1]) == b && Tap(taps[n + 2]) == c && Tap(taps[n + 3]) == d
    ensures TapSum(taps, n + 4) == TapSum(taps, n) + a + b + c + d
  {
    assert TapSum(taps, n + 2) == TapSum(taps, n) + a + b;
  }

  lemma TapSum22(t: seq<int32>)
    requires Shifted22(t)
    ensures TapSum(t, 20) == 16390
  {
    TapSumStep(t, 0, 31, 44, -89, -160);
    TapSumStep(t, 4, 290, 466, -771, -1244);
    TapSumStep(t, 8, 2327, 7301, 7301, 2327);
    TapSumStep(t, 12, -1244, -771, 466, 290);
    TapSumStep(t, 16, -160, -89, 44, 31);
  }

  lemma TapSum16(t: seq<int32>)
    requires Shifted16(t)
    ensures TapSum(t, 24) == 16386
  {
    TapSumStep(t, 0, 31, -46, 28, 66);
    TapSumStep(t, 4, -224, 282, -25, -588);
    TapSumStep(t, 8, 1191, -1043, -902, 9423);
    TapSumStep(t, 12, 9423, -902, -1043, 1191);
    TapSumStep(t, 16, -588, -25, 282, -224);
    TapSumStep(t, 20, 66, 28, -46, 31);
  }

  // ---------------------------------------------------------------- clipping and blending

  /** Clipping gives the nearest 16-bit sample: no other is as near. */
  lemma ClipIsNearest(x: int, v: int16)
    ensures Abs(x - Clip(x)) <= Abs(x - v)
    ensures Abs(x - v) == Abs(x - Clip(x)) ==> v == Clip(x)
    ensures -0x8000 <= x < 0x8000 ==> Clip(x) == x
  {
  }

  /** Interpolation lies between its two samples, at most one step below the straight line, and is then clipped. */
  lemma BlendIsBetween(s1: int, s2: int, frac: nat) returns (e: int)
    requires frac < 0x8000
    ensures Blend(s1, s2, frac) == Clip(e)
    ensures s1 <= e <= s2 || s2 <= e <= s1
    ensures 0 <= 0x8000 * s1 + (s2 - s1) * frac - 0x8000 * e < 0x8000
  {
    e := s1 + (s2 - s1) * frac / 0x8000;
    if s1 <= s2 {
      Scaled(s2 - s1, frac);
    } else {
      Scaled(s1 - s2, frac);
      assert (s2 - s1) * frac == -((s1 - s2) * frac);
    }
  }

  lemma Scaled(d: nat, frac: nat)
    requires frac < 0x8000
    ensures 0 <= d * frac <= d * 0x8000
  {
  }

  // ---------------------------------------------------------------- the halving stage

  /** Is y the integer nearest to p / 2^14, clipped to a sample? */
  ghost predicate Scales(y: int16, p: int) {
    exists r :: RoundsTo(r, p) && y == Clip(r)
  }

  lemma FirScales(w: seq<int16>, taps: seq<int32>)
    requires |w| == |taps|
    ensures Scales(Clip(Fir(w, taps)), Dot(w, taps, |taps|))
  {
    assert RoundsTo(Fir(w, taps), Dot(w, taps, |taps|));
  }

  /** A single sample at p reaches exactly the outputs whose window it is in, each scaled by the tap it meets. */
  lemma HalveImpulse(x: seq<int16>, taps: HalvingFilter, p: nat, m: nat)
    requires SilentBut(x, p) && p < |x| && m < HalveCount(|x|)
    ensures Scales(Halve(x, taps)[m], if 2 * m <= p < 2 * m + NUM_22KHZ then x[p] * Tap(taps[p - 2 * m]) else 0)
  {
    var w := x[2 * m..2 * m + NUM_22KHZ];
    var q := if 2 * m <= p then p - 2 * m else NUM_22KHZ;
    assert SilentBut(w, q);
    DotImpulse(w, taps, q, NUM_22KHZ);
    FirScales(w, taps);
  }

  // ---------------------------------------------------------------- the interpolating stage

  /** Step by step the reading position stays nearest to 441/320 samples, in units of 2^-15. */
  lemma StepIsNearest(n: int)
    ensures Abs(SAMPLES_OUT * STEP - SAMPLES_IN * 0x8000) <= Abs(SAMPLES_OUT * n - SAMPLES_IN * 0x8000)
    ensures n != STEP ==> Abs(SAMPLES_OUT * STEP - SAMPLES_IN * 0x8000) < Abs(SAMPLES_OUT * n - SAMPLES_IN * 0x8000)
  {
  }

  /** Output q is read where it belongs, at 441/320 * q, or before that by less than 1/256 of a sample. */
  lemma ReadInPlace(q: nat)
    ensures Frac(q) < 0x8000
    ensures 0 <= SAMPLES_IN * 0x8000 * q - SAMPLES_OUT * (0x8000 * Whole(q) + Frac(q))
    ensures 256 * (SAMPLES_IN * 0x8000 * q - SAMPLES_OUT * (0x8000 * Whole(q) + Frac(q))) < SAMPLES_OUT * 0x8000
  {
    var b, j := q / SAMPLES_OUT, q % SAMPLES_OUT;
    assert q == SAMPLES_OUT * b + j;
    assert 0x8000 * (j * STEP / 0x8000) + j * STEP % 0x8000 == j * STEP;
  }

  /** The sum of products of the filter for the window at k, when all of x but sample p is silent. */
  function Met(x: seq<int16>, taps: seq<int32>, p: nat, k: nat): int
    requires p < |x|
  {
    if k <= p < k + |taps| then x[p] * Tap(taps[p - k]) else 0
  }

  /** Output q lies between the two filter outputs at its place in the stream. */
  lemma InterpolateImpulse(x: seq<int16>, taps: SmoothingFilter, p: nat, q: nat) returns (s1: int, s2: int, e: int)
    requires SilentBut(x, p) && p < |x| && q < SAMPLES_OUT * Blocks(|x|)
    ensures RoundsTo(s1, Met(x, taps, p, Whole(q))) && RoundsTo(s2, Met(x, taps, p, Whole(q) + 1))
    ensures s1 <= e <= s2 || s2 <= e <= s1
    ensures 0 <= 0x8000 * s1 + (s2 - s1) * Frac(q) - 0x8000 * e < 0x8000
    ensures Interpolate(x, taps)[q] == Clip(e)
  {
    WindowInside(|x|, q);
    var k := Whole(q);
    s1 := ImpulseAt(x, taps, p, k);
    s2 := ImpulseAt(x, taps, p, k + 1);
    e := BlendIsBetween(s1, s2, Frac(q));
  }

  lemma ImpulseAt(x: seq<int16>, taps: SmoothingFilter, p: nat, k: nat) returns (r: int)
    requires SilentBut(x, p) && p < |x| && k + NUM_16KHZ <= |x|
    ensures r == Fir(x[k..k + NUM_16KHZ], taps) && RoundsTo(r, Met(x, taps, p, k))
  {
    var w := x[k..k + NUM_16KHZ];
    var q := if k <= p then p - k else NUM_16KHZ;
    assert SilentBut(w, q);
    DotImpulse(w, taps, q, NUM_16KHZ);
    r := Fir(w, taps);
  }

  // ---------------------------------------------------------------- a constant signal

  const FILTERS := Filters(TAPS_22KHZ, TAPS_16KHZ)

  /** y is v amplified by (2^14 + excess) / 2^14, rounded to the nearest integer and clipped. */
  ghost predicate Amplifies(y: int16, v: int16, excess: int) {
    Scales(y, v * (0x4000 + excess))
  }

  lemma HalveConstant(x: seq<int16>, taps: HalvingFilter, v: int16) returns (y: int16)
    requires Constant(x, v) && TapSum(taps, NUM_22KHZ) == 0x4000 + 6
    ensures Amplifies(y, v, 6) && Constant(Halve(x, taps), y)
  {
    var w := seq(NUM_22KHZ, _ => v);
    y := Clip(Fir(w, taps));
    DotConstant(w, taps, v, NUM_22KHZ);
    FirScales(w, taps);
    forall m | 0 <= m < HalveCount(|x|) ensures Halve(x, taps)[m] == y {
      assert x[2 * m..2 * m + NUM_22KHZ] == w;
    }
  }

  lemma InterpolateConstant(x: seq<int16>, taps: SmoothingFilter, v: int16) returns (y: int16)
    requires Constant(x, v) && TapSum(taps, NUM_16KHZ) == 0x4000 + 2
    ensures Amplifies(y, v, 2) && Constant(Interpolate(x, taps), y)
  {
    var w := seq(NUM_16KHZ, _ => v);
    y := Clip(Fir(w, taps));
    DotConstant(w, taps, v, NUM_16KHZ);
    FirScales(w, taps);
    forall q | 0 <= q < SAMPLES_OUT * Blocks(|x|) ensures Interpolate(x, taps)[q] == y {
      WindowInside(|x|, q);
      var k := Whole(q);
      assert x[k..k + NUM_16KHZ] == w && x[k + 1..k + 1 + NUM_16KHZ] == w;
    }
  }

  /** How far a stage can move a constant: away from zero, by at most its excess at full scale. */
  lemma AmplifiedBy(y: int16, v: int16, excess: nat)
    requires Amplifies(y, v, excess) && 0 < excess <= 6
    ensures v >= 0 ==> v <= y <= v + 2 * excess
    ensures v <= 0 ==> v - 2 * excess <= y <= v
    ensures y == v <==> -0x2000 <= excess * v < 0x2000 || v == 0x7FFF || v == -0x8000
  {
  }

  /** By how much a constant may come out larger, at each rate. */
  function Drift(hz: int): nat {
    if hz == 22050 then 12 else if hz == 11025 then 24 else if hz == 16000 then 16 else 28
  }

  /**
   * A constant signal comes out constant at every rate: exactly at its level if and only if that is within 1365 or
   * at full scale, and otherwise a little further from zero.
   */
  lemma ConstantComesThrough(hz: int, x: seq<int16>, v: int16) returns (y: int16)
    requires Supported(hz) && Constant(x, v)
    ensures Constant(Output(hz, FILTERS, x), y)
    ensures v >= 0 ==> v <= y <= v + Drift(hz)
    ensures v <= 0 ==> v - Drift(hz) <= y <= v
    ensures y == v <==> Abs(v) <= 1365 || v == 0x7FFF || v == -0x8000
    ensures hz == 22050 ==> Amplifies(y, v, 6)
  {
    ShiftedTaps22();
    TapSum22(TAPS_22KHZ);
    ShiftedTaps16();
    TapSum16(TAPS_16KHZ);
    y := HalveConstant(x, TAPS_22KHZ, v);
    AmplifiedBy(y, v, 6);
    var z := y;
    var s := Halve(x, TAPS_22KHZ);
    if hz == 11025 || hz == 8000 {
      y := HalveConstant(s, TAPS_22KHZ, z);
      AmplifiedBy(y, z, 6);
      s := Halve(s, TAPS_22KHZ);
    }
    if hz == 16000 || hz == 8000 {
      z := y;
      y := InterpolateConstant(s, TAPS_16KHZ, z);
      AmplifiedBy(y, z, 2);
    }
  }

  // ---------------------------------------------------------------- the rates

  /** How far the output may lag behind the rate, in units of one input frame times one output frame. */
  function Lag(hz: int): nat {
    if hz == 22050 then 19 * 22050
    else if hz == 11025 then 57 * 11025
    else if hz == 16000 then 945 * 16000
    else 1909 * 8000
  }

  /** Of each second of input, 44100 frames, the cascade makes hz frames of output: never more, and soon as many. */
  lemma RateIsKept(hz: int, n: nat)
    requires Supported(hz)
    ensures 0 <= hz * n - 44100 * OutputCount(hz, n) <= Lag(hz)
  {
  }
}
