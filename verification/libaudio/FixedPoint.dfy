/** The 16-bit samples, the 32-bit arithmetic and the two FIR filters of the capture path. */
module FixedPoint {

  type int16 = x: int | -0x8000 <= x < 0x8000
  type int32 = x: int | -0x8000_0000 <= x < 0x8000_0000

  // 44100 -> 22050, or any other halving (2.30 fixed point).
  const TAPS_22KHZ: seq<int32> := [
    2089257, 2898328, -5820678, -10484531,
    19038724, 30542725, -50469415, -81505260,
    152544464, 478517512, 478517512, 152544464,
    -81505260, -50469415, 30542725, 19038724,
    -10484531, -5820678, 2898328, 2089257
  ]

  // 22050 -> 16000, or 11025 -> 8000 (2.30 fixed point).
  const TAPS_16KHZ: seq<int32> := [
    2057290, -2973608, 1880478, 4362037,
    -14639744, 18523609, -1609189, -38502470,
    78073125, -68353935, -59103896, 617555440,
    617555440, -59103896, -68353935, 78073125,
    -38502470, -1609189, 18523609, -14639744,
    4362037, 1880478, -2973608, 2057290
  ]

  const NUM_22KHZ := 20
  const NUM_16KHZ := 24

  /** Arithmetic right shift by 16: a floor, for negative coefficients too. */
  function Tap(b: int32): (t: int)
    ensures -0x8000 <= t < 0x8000
    ensures 0x1_0000 * t <= b < 0x1_0000 * (t + 1)
  {
    b / 0x1_0000
  }

  function Abs(x: int): nat {
    if x < 0 then -x else x
  }

  /** The first n products of the convolution. */
  function Dot(w: seq<int16>, taps: seq<int32>, n: nat): int
    requires n <= |w| && n <= |taps|
  {
    if n == 0 then 0 else Dot(w, taps, n - 1) + w[n - 1] * Tap(taps[n - 1])
  }

  /** Is r the integer nearest to p / 2^14? Halves go up. */
  predicate RoundsTo(r: int, p: int) {
    -0x2000 < 0x4000 * r - p <= 0x2000
  }

  /** One filter output for the window w: rounded, in 16.16 fixed point, not clipped. */
  function Fir(w: seq<int16>, taps: seq<int32>): (r: int)
    requires |w| == |taps|
    ensures RoundsTo(r, Dot(w, taps, |taps|))
  {
    (0x2000 + Dot(w, taps, |taps|)) / 0x4000
  }

  function Clip(x: int): int16 {
    if x < -0x8000 then -0x8000 else if x > 0x7FFF then 0x7FFF else x
  }

  /** The sum of the magnitudes of the first n taps. */
  function Weight(taps: seq<int32>, n: nat): nat
    requires n <= |taps|
  {
    if n == 0 then 0 else Weight(taps, n - 1) + Abs(Tap(taps[n - 1]))
  }

  /** |c0| + |c1 - c0| + ... + |c(n-1) - c(n-2)|. */
  function Variation(taps: seq<int32>, n: nat): nat
    requires 1 <= n <= |taps|
  {
    if n == 1 then Abs(Tap(taps[0]))
    else Variation(taps, n - 1) + Abs(Tap(taps[n - 1]) - Tap(taps[n - 2]))
  }

  lemma MulMonotone(a: int, b: int, f: nat)
    requires a <= b
    ensures a * f <= b * f
  {
  }

  lemma ProductBound(x: int16, c: int)
    ensures Abs(x * c) <= 0x8000 * Abs(c)
  {
    var f := Abs(c);
    MulMonotone(-0x8000, x, f);
    MulMonotone(x, 0x8000, f);
    assert x * c == if c >= 0 then x * f else -(x * f);
  }

  /** Every partial sum is bounded by the weight of the taps used so far. */
  lemma {:induction false} DotBound(w: seq<int16>, taps: seq<int32>, n: nat)
    requires n <= |w| && n <= |taps|
    ensures Abs(Dot(w, taps, n)) <= 0x8000 * Weight(taps, n)
  {
    if n > 0 {
      DotBound(w, taps, n - 1);
      ProductBound(w[n - 1], Tap(taps[n - 1]));
    }
  }

  lemma {:induction false} WeightMonotone(taps: seq<int32>, m: nat, n: nat)
    requires m <= n <= |taps|
    ensures Weight(taps, m) <= Weight(taps, n)
  {
    if m < n { WeightMonotone(taps, m, n - 1); }
  }

  lemma WeightStep(taps: seq<int32>, n: nat, a: int, b: int, c: int, d: int)
    requires n + 4 <= |taps|
    requires Tap(taps[n]) == a && Tap(taps[n + 1]) == b && Tap(taps[n + 2]) == c && Tap(taps[n + 3]) == d
    ensures Weight(taps, n + 4) == Weight(taps, n) + Abs(a) + Abs(b) + Abs(c) + Abs(d)
  {
    assert Weight(taps, n + 2) == Weight(taps, n) + Abs(a) + Abs(b);
  }

  lemma VariationStep(taps: seq<int32>, n: nat, z: int, a: int, b: int, c: int, d: int)
    requires 1 <= n && n + 4 <= |taps|
    requires Tap(taps[n - 1]) == z
    requires Tap(taps[n]) == a && Tap(taps[n + 1]) == b && Tap(taps[n + 2]) == c && Tap(taps[n + 3]) == d
    ensures Variation(taps, n + 4) == Variation(taps, n) + Abs(a - z) + Abs(b - a) + Abs(c - b) + Abs(d - c)
  {
    assert Variation(taps, n + 2) == Variation(taps, n) + Abs(a - z) + Abs(b - a);
  }

  // The coefficients as the convolution uses them, shifted right by 16.
  predicate Shifted22(t: seq<int32>) {
    && |t| == 20
    && Tap(t[0]) == 31 && Tap(t[1]) == 44 && Tap(t[2]) == -89 && Tap(t[3]) == -160
    && Tap(t[4]) == 290 && Tap(t[5]) == 466 && Tap(t[6]) == -771 && Tap(t[7]) == -1244
    && Tap(t[8]) == 2327 && Tap(t[9]) == 7301 && Tap(t[10]) == 7301 && Tap(t[11]) == 2327
    && Tap(t[12]) == -1244 && Tap(t[13]) == -771 && Tap(t[14]) == 466 && Tap(t[15]) == 290
    && Tap(t[16]) == -160 && Tap(t[17]) == -89 && Tap(t[18]) == 44 && Tap(t[19]) == 31
  }

  predicate Shifted16(t: seq<int32>) {
    && |t| == 24
    && Tap(t[0]) == 31 && Tap(t[1]) == -46 && Tap(t[2]) == 28 && Tap(t[3]) == 66
    && Tap(t[4]) == -224 && Tap(t[5]) == 282 && Tap(t[6]) == -25 && Tap(t[7]) == -588
    && Tap(t[8]) == 1191 && Tap(t[9]) == -1043 && Tap(t[10]) == -902 && Tap(t[11]) == 9423
    && Tap(t[12]) == 9423 && Tap(t[13]) == -902 && Tap(t[14]) == -1043 && Tap(t[15]) == 1191
    && Tap(t[16]) == -588 && Tap(t[17]) == -25 && Tap(t[18]) == 282 && Tap(t[19]) == -224
    && Tap(t[20]) == 66 && Tap(t[21]) == 28 && Tap(t[22]) == -46 && Tap(t[23]) == 31
  }

  lemma ShiftedTaps22()
    ensures Shifted22(TAPS_22KHZ)
  {
  }

  lemma ShiftedTaps16Left()
    ensures |TAPS_16KHZ| == 24
    ensures Tap(TAPS_16KHZ[0]) == 31 && Tap(TAPS_16KHZ[1]) == -46
    ensures Tap(TAPS_16KHZ[2]) == 28 && Tap(TAPS_16KHZ[3]) == 66
    ensures Tap(TAPS_16KHZ[4]) == -224 && Tap(TAPS_16KHZ[5]) == 282
    ensures Tap(TAPS_16KHZ[6]) == -25 && Tap(TAPS_16KHZ[7]) == -588
    ensures Tap(TAPS_16KHZ[8]) == 1191 && Tap(TAPS_16KHZ[9]) == -1043
    ensures Tap(TAPS_16KHZ[10]) == -902 && Tap(TAPS_16KHZ[11]) == 9423
  {
  }

  lemma ShiftedTaps16Right()
    ensures |TAPS_16KHZ| == 24
    ensures Tap(TAPS_16KHZ[12]) == 9423 && Tap(TAPS_16KHZ[13]) == -902
    ensures Tap(TAPS_16KHZ[14]) == -1043 && Tap(TAPS_16KHZ[15]) == 1191
    ensures Tap(TAPS_16KHZ[16]) == -588 && Tap(TAPS_16KHZ[17]) == -25
    ensures Tap(TAPS_16KHZ[18]) == 282 && Tap(TAPS_16KHZ[19]) == -224
    ensures Tap(TAPS_16KHZ[20]) == 66 && Tap(TAPS_16KHZ[21]) == 28
    ensures Tap(TAPS_16KHZ[22]) == -46 && Tap(TAPS_16KHZ[23]) == 31
  {
  }

  lemma ShiftedTaps16()
    ensures Shifted16(TAPS_16KHZ)
  {
    ShiftedTaps16Left();
    ShiftedTaps16Right();
  }

  lemma Weight22(t: seq<int32>)
    requires Shifted22(t)
    ensures Weight(t, 20) == 25446
  {
    WeightStep(t, 0, 31, 44, -89, -160);
    WeightStep(t, 4, 290, 466, -771, -1244);
    WeightStep(t, 8, 2327, 7301, 7301, 2327);
    WeightStep(t, 12, -1244, -771, 466, 290);
    WeightStep(t, 16, -160, -89, 44, 31);
  }

  lemma Weight16(t: seq<int32>)
    requires Shifted16(t)
    ensures Weight(t, 24) == 27698
  {
    WeightStep(t, 0, 31, -46, 28, 66);
    WeightStep(t, 4, -224, 282, -25, -588);
    WeightStep(t, 8, 1191, -1043, -902, 9423);
    WeightStep(t, 12, 9423, -902, -1043, 1191);
    WeightStep(t, 16, -588, -25, 282, -224);
    WeightStep(t, 20, 66, 28, -46, 31);
  }

  lemma Variation16(t: seq<int32>)
    requires Shifted16(t)
    ensures Variation(t, 24) + Abs(Tap(t[23])) == 32730
  {
    assert Variation(t, 2) == 31 + 77;
    assert Variation(t, 4) == 220;
    VariationStep(t, 4, 66, -224, 282, -25, -588);
    VariationStep(t, 8, -588, 1191, -1043, -902, 9423);
    VariationStep(t, 12, 9423, 9423, -902, -1043, 1191);
    VariationStep(t, 16, 1191, -588, -25, 282, -224);
    VariationStep(t, 20, -224, 66, 28, -46, 31);
  }

  /** The whole table of taps is light enough for every partial sum to fit 32 bits. */
  predicate Light(taps: seq<int32>) {
    Weight(taps, |taps|) <= 0xFFFF
  }

  /** Light enough, and smooth enough from tap to tap, for interpolating between neighbouring outputs. */
  predicate Smooth(taps: seq<int32>) {
    && |taps| == NUM_16KHZ
    && Weight(taps, NUM_16KHZ) <= 27698
    && Variation(taps, NUM_16KHZ) + Abs(Tap(taps[NUM_16KHZ - 1])) <= 32730
  }

  lemma FiltersFit()
    ensures |TAPS_22KHZ| == NUM_22KHZ && Light(TAPS_22KHZ)
    ensures Light(TAPS_16KHZ) && Smooth(TAPS_16KHZ)
  {
    ShiftedTaps22();
    Weight22(TAPS_22KHZ);
    ShiftedTaps16();
    Weight16(TAPS_16KHZ);
    Variation16(TAPS_16KHZ);
  }

  /** No partial sum and no product of the convolution leaves 32 bits, whatever the samples. */
  lemma PartialSumsFit(w: seq<int16>, taps: seq<int32>, n: nat)
    requires n <= |w| && n <= |taps| && Light(taps)
    ensures -0x8000_0000 <= 0x2000 + Dot(w, taps, n) < 0x8000_0000
    ensures n < |w| && n < |taps| ==> -0x8000_0000 <= w[n] * Tap(taps[n]) < 0x8000_0000
  {
    DotBound(w, taps, n);
    WeightMonotone(taps, n, |taps|);
    if n < |w| && n < |taps| {
      ProductBound(w[n], Tap(taps[n]));
    }
  }

  /** Convolves the samples of a at the given offset with the taps, in 32-bit arithmetic. */
  method FirConvolve(a: array<int16>, at: nat, taps: seq<int32>) returns (r: int32)
    requires at + |taps| <= a.Length
    requires Light(taps)
    ensures r == Fir(a[at..at + |taps|], taps)
  {
    ghost var w := a[at..at + |taps|];
    var sum: int32 := 0x2000;
    for i := 0 to |taps|
      invariant sum == 0x2000 + Dot(w, taps, i)
    {
      PartialSumsFit(w, taps, i);
      PartialSumsFit(w, taps, i + 1);
      var product: int32 := a[at + i] * Tap(taps[i]);
      sum := sum + product;
    }
    r := sum / 0x4000;
  }

  // ---------------------------------------------------------------- interpolation

  /** The sample frac / 2^15 of the way from s1 to s2, clipped. */
  function Blend(s1: int, s2: int, frac: int): int16 {
    Clip(s1 + (s2 - s1) * frac / 0x8000)
  }

  /**
   * Sliding the window by one sample: all but the outermost products of the two convolutions pair up, and
   * each pair contributes one sample times the difference of two neighbouring taps.
   */
  lemma {:induction false} SlideBound(w: seq<int16>, taps: seq<int32>, n: nat)
    requires 1 <= n <= |taps| < |w|
    ensures Abs(Dot(w[1..], taps, n) - Dot(w, taps, n) - w[n] * Tap(taps[n - 1])) <= 0x8000 * Variation(taps, n)
  {
    var d := Tap(taps[n - 1]);
    assert Dot(w, taps, n) == Dot(w, taps, n - 1) + w[n - 1] * d;
    assert w[1..][n - 1] == w[n];
    assert Dot(w[1..], taps, n) == Dot(w[1..], taps, n - 1) + w[n] * d;
    if n == 1 {
      ProductBound(w[0], d);
    } else {
      SlideBound(w, taps, n - 1);
      var c := Tap(taps[n - 2]);
      Distribute(w[n - 1], c, d);
      ProductBound(w[n - 1], c - d);
    }
  }

  lemma Distribute(x: int, c: int, d: int)
    ensures x * (c - d) == x * c - x * d
  {
  }

  lemma {:induction false} DotPrefix(w: seq<int16>, v: seq<int16>, taps: seq<int32>, n: nat)
    requires n <= |w| && n <= |v| && n <= |taps|
    requires w[..n] == v[..n]
    ensures Dot(w, taps, n) == Dot(v, taps, n)
  {
    if n > 0 {
      assert w[n - 1] == w[..n][n - 1] == v[n - 1];
      assert w[..n - 1] == w[..n][..n - 1];
      assert v[..n - 1] == v[..n][..n - 1];
      DotPrefix(w, v, taps, n - 1);
    }
  }

  /** Neighbouring outputs of the 16 kHz filter differ by at most 65461. */
  lemma NeighbourBound(w: seq<int16>, taps: seq<int32>)
    requires Smooth(taps) && |w| == NUM_16KHZ + 1
    ensures Abs(Fir(w[1..], taps) - Fir(w[..NUM_16KHZ], taps)) <= 65461
  {
    SlideBound(w, taps, NUM_16KHZ);
    ProductBound(w[NUM_16KHZ], Tap(taps[NUM_16KHZ - 1]));
    DotPrefix(w, w[..NUM_16KHZ], taps, NUM_16KHZ);
  }

  lemma FirBound(w: seq<int16>, taps: seq<int32>)
    requires Smooth(taps) && |w| == NUM_16KHZ
    ensures Abs(Fir(w, taps)) <= 55397
  {
    DotBound(w, taps, NUM_16KHZ);
  }

  /** No step of the interpolation leaves 32 bits, for any 25 neighbouring samples and any fraction. */
  lemma InterpolationFits(w: seq<int16>, taps: seq<int32>, frac: int)
    requires Smooth(taps) && |w| == NUM_16KHZ + 1
    requires 0 <= frac < 0x8000
    ensures var s1, s2 := Fir(w[..NUM_16KHZ], taps), Fir(w[1..], taps);
            && -0x8000_0000 <= s2 - s1 < 0x8000_0000
            && -0x8000_0000 <= (s2 - s1) * frac < 0x8000_0000
            && -0x8000_0000 <= s1 + (s2 - s1) * frac / 0x8000 < 0x8000_0000
  {
    var s1, s2 := Fir(w[..NUM_16KHZ], taps), Fir(w[1..], taps);
    NeighbourBound(w, taps);
    FirBound(w[..NUM_16KHZ], taps);
    ScaledBound(s2 - s1, frac);
  }

  lemma ScaledBound(d: int, frac: int)
    requires Abs(d) <= 65461 && 0 <= frac <= 0x7FFF
    ensures -65461 * 0x7FFF <= d * frac <= 65461 * 0x7FFF
  {
    MulMonotone(d, 65461, frac);
    MulMonotone(-65461, d, frac);
  }
}
