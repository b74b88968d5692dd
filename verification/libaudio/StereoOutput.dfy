/** How DownSampler::resample writes its frames to the caller's buffer when there are two channels. */
module StereoOutput {
  import opened FixedPoint
  import opened RateStages
  import opened Cascade
  import opened Capture

  /** The buffer after a pass that found n frames written: interleaved frames, and the copy made for one channel. */
  function Written(out: seq<int16>, n: nat, left: seq<int16>, right: seq<int16>): (r: seq<int16>)
    requires |left| == |right| && 2 * (n + |left|) <= |out|
    ensures |r| == |out|
  {
    seq(|out|, k requires 0 <= k < |out| =>
      if 2 * n <= k < 2 * (n + |left|) then (if k % 2 == 0 then left[k / 2 - n] else right[k / 2 - n])
      else if n <= k < n + |left| then left[k - n]
      else out[k])
  }

  /** The two loops at the end of a pass: first as for one channel, then interleaved. */
  method WriteFrames(out: array<int16>, n: nat, left: array<int16>, right: array<int16>, frames: nat)
    requires out != left && out != right && frames <= left.Length && frames <= right.Length
    requires 2 * (n + frames) <= out.Length
    modifies out
    ensures out[..] == Written(old(out[..]), n, left[..frames], right[..frames])
    ensures forall k :: 2 * n <= k < 2 * (n + frames) ==>
              out[k] == if k % 2 == 0 then left[k / 2 - n] else right[k / 2 - n]
    ensures forall k :: 0 <= k < n || 2 * (n + frames) <= k < out.Length ==> out[k] == old(out[k])
  {
    for i := 0 to frames
      invariant forall k :: 0 <= k < out.Length ==>
                  out[k] == (if n <= k < n + i then left[k - n] else old(out[k]))
    {
      out[n + i] := left[i];
    }
    for i := 0 to frames
      invariant forall k :: 0 <= k < out.Length ==>
                  out[k] == (if 2 * n <= k < 2 * (n + i) then (if k % 2 == 0 then left[k / 2 - n] else right[k / 2 - n])
                             else if n <= k < n + frames then left[k - n] else old(out[k]))
    {
      out[(n + i) * 2] := left[i];
      out[(n + i) * 2 + 1] := right[i];
    }
  }

  // ---------------------------------------------------------------- a whole call

  /** The frames of one pass, or those that were pending when the call began. */
  datatype Part = Part(left: seq<int16>, right: seq<int16>)

  predicate Sized(parts: seq<Part>, sizes: seq<nat>) {
    |parts| == |sizes| && forall k :: 0 <= k < |parts| ==> |parts[k].left| == |parts[k].right| == sizes[k]
  }

  function Sum(sizes: seq<nat>): nat {
    if sizes == [] then 0 else Sum(sizes[..|sizes| - 1]) + sizes[|sizes| - 1]
  }

  /** The buffer after a call that has found these parts, one after the other. */
  function AfterCall(out: seq<int16>, parts: seq<Part>, sizes: seq<nat>): (r: seq<int16>)
    requires Sized(parts, sizes) && 2 * Sum(sizes) <= |out|
    ensures |r| == |out|
  {
    if parts == [] then out
    else
      var n := |parts| - 1;
      Written(AfterCall(out, parts[..n], sizes[..n]), Sum(sizes[..n]), parts[n].left, parts[n].right)
  }

  function Pairs(part: Part): seq<int16>
    requires |part.left| == |part.right|
  {
    seq(2 * |part.left|, k requires 0 <= k < 2 * |part.left| =>
      if k % 2 == 0 then part.left[k / 2] else part.right[k / 2])
  }

  /** What the caller should find: all the frames, left and right in turn. */
  function Interleaved(parts: seq<Part>, sizes: seq<nat>): (r: seq<int16>)
    requires Sized(parts, sizes)
    ensures |r| == 2 * Sum(sizes)
  {
    if parts == [] then []
    else
      var n := |parts| - 1;
      Interleaved(parts[..n], sizes[..n]) + Pairs(parts[n])
  }

  predicate Delivers(out: seq<int16>, parts: seq<Part>, sizes: seq<nat>)
    requires Sized(parts, sizes) && 2 * Sum(sizes) <= |out|
  {
    AfterCall(out, parts, sizes)[..2 * Sum(sizes)] == Interleaved(parts, sizes)
  }

  /** The caller finds what it should, whatever the samples are. */
  ghost predicate AlwaysDelivers(sizes: seq<nat>) {
    forall out: seq<int16>, parts: seq<Part> ::
      Sized(parts, sizes) && 2 * Sum(sizes) <= |out| ==> Delivers(out, parts, sizes)
  }

  predicate OnePart(sizes: seq<nat>) {
    forall j, k :: 0 <= j < k < |sizes| ==> sizes[j] == 0 || sizes[k] == 0
  }

  lemma {:induction false} SumIsZero(sizes: seq<nat>)
    ensures Sum(sizes) == 0 <==> forall k :: 0 <= k < |sizes| ==> sizes[k] == 0
  {
    if sizes != [] {
      SumIsZero(sizes[..|sizes| - 1]);
    }
  }

  lemma NothingWritten(out: seq<int16>, n: nat, part: Part)
    requires part.left == part.right == [] && 2 * n <= |out|
    ensures Written(out, n, part.left, part.right) == out && Pairs(part) == []
  {
  }

  lemma EmptyPartChangesNothing(out: seq<int16>, parts: seq<Part>, sizes: seq<nat>)
    requires Sized(parts, sizes) && parts != [] && sizes[|sizes| - 1] == 0 && 2 * Sum(sizes) <= |out|
    ensures var n := |parts| - 1;
            Sum(sizes) == Sum(sizes[..n]) && Delivers(out, parts, sizes) == Delivers(out, parts[..n], sizes[..n])
  {
    var n := |parts| - 1;
    NothingWritten(AfterCall(out, parts[..n], sizes[..n]), Sum(sizes[..n]), parts[n]);
  }

  lemma WrittenFirst(out: seq<int16>, part: Part)
    requires |part.left| == |part.right| && 2 * |part.left| <= |out|
    ensures Written(out, 0, part.left, part.right)[..2 * |part.left|] == Pairs(part)
  {
  }

  lemma {:induction false} OnePartIsDelivered(out: seq<int16>, parts: seq<Part>, sizes: seq<nat>)
    requires Sized(parts, sizes) && 2 * Sum(sizes) <= |out| && OnePart(sizes)
    ensures Delivers(out, parts, sizes)
  {
    if parts != [] {
      var n := |parts| - 1;
      var front, before := parts[..n], sizes[..n];
      if sizes[n] == 0 {
        OnePartIsDelivered(out, front, before);
        EmptyPartChangesNothing(out, parts, sizes);
      } else {
        assert forall k :: 0 <= k < n ==> before[k] == sizes[k] == 0;
        SumIsZero(before);
        WrittenFirst(AfterCall(out, front, before), parts[n]);
      }
    }
  }

  function Silence(sizes: seq<nat>): (parts: seq<Part>)
    ensures Sized(parts, sizes)
  {
    seq(|sizes|, k requires 0 <= k < |sizes| => Part(seq(sizes[k], _ => 0), seq(sizes[k], _ => 0)))
  }

  lemma {:induction false} SilenceIsZero(sizes: seq<nat>)
    ensures forall k :: 0 <= k < 2 * Sum(sizes) ==> Interleaved(Silence(sizes), sizes)[k] == 0
  {
    if sizes != [] {
      var n := |sizes| - 1;
      SilenceIsZero(sizes[..n]);
      assert Silence(sizes)[..n] == Silence(sizes[..n]);
    }
  }

  /** Frames that differ from the silence before them: one of them lands in its midst. */
  lemma SecondPartOverwrites(before: seq<nat>, size: nat) returns (out: seq<int16>, parts: seq<Part>)
    requires Sum(before) > 0 && size > 0
    ensures var sizes := before + [size];
            Sized(parts, sizes) && 2 * Sum(sizes) <= |out| && !Delivers(out, parts, sizes)
  {
    var sizes, n := before + [size], Sum(before);
    var ones: seq<int16> := seq(size, _ => 1);
    assert sizes[..|before|] == before;
    out := seq(2 * (n + size), _ => 0);
    parts := Silence(before) + [Part(ones, ones)];
    assert parts[..|before|] == Silence(before);
    SilenceIsZero(before);
    assert AfterCall(out, parts, sizes)[..2 * Sum(sizes)][n] == 1 && Interleaved(parts, sizes)[n] == 0;
  }

  lemma EmptyPartDoesNotHelp(out: seq<int16>, front: seq<Part>, before: seq<nat>)
    requires Sized(front, before) && 2 * Sum(before) <= |out| && !Delivers(out, front, before)
    ensures var parts, sizes := front + [Part([], [])], before + [0];
            Sized(parts, sizes) && 2 * Sum(sizes) <= |out| && !Delivers(out, parts, sizes)
  {
    var parts, sizes := front + [Part([], [])], before + [0];
    assert parts[..|front|] == front && sizes[..|before|] == before;
    EmptyPartChangesNothing(out, parts, sizes);
  }

  lemma {:induction false} TwoPartsAreNot(sizes: seq<nat>) returns (out: seq<int16>, parts: seq<Part>)
    requires !OnePart(sizes)
    ensures Sized(parts, sizes) && 2 * Sum(sizes) <= |out| && !Delivers(out, parts, sizes)
  {
    var n := |sizes| - 1;
    var before := sizes[..n];
    assert sizes == before + [sizes[n]];
    if sizes[n] == 0 {
      assert !OnePart(before);
      var front;
      out, front := TwoPartsAreNot(before);
      EmptyPartDoesNotHelp(out, front, before);
      parts := front + [Part([], [])];
    } else {
      SumIsZero(before);
      out, parts := SecondPartOverwrites(before, sizes[n]);
    }
  }

  /**
   * One would expect the caller to find all the frames, left and right in turn. It does so exactly when they all come
   * in one part: the copy that a later pass makes for one channel lands on frames already interleaved.
   */
  lemma CallDeliversIff(sizes: seq<nat>)
    ensures AlwaysDelivers(sizes) <==> OnePart(sizes)
  {
    if OnePart(sizes) {
      forall out: seq<int16>, parts: seq<Part> | Sized(parts, sizes) && 2 * Sum(sizes) <= |out|
        ensures Delivers(out, parts, sizes)
      {
        OnePartIsDelivered(out, parts, sizes);
      }
    } else {
      var out, parts := TwoPartsAreNot(sizes);
    }
  }

  // ---------------------------------------------------------------- in the caller's terms

  /** The sizes of the parts, when so many frames are wanted, and this is pending and then made pass by pass. */
  function Sizes(wanted: nat, made: seq<nat>): (sizes: seq<nat>)
    ensures |sizes| == |made|
  {
    if made == [] then []
    else
      var frames := if wanted > made[0] then made[0] else wanted;
      [frames] + Sizes(wanted - frames, made[1..])
  }

  /** The first pass that makes anything, or what was pending. */
  function First(made: seq<nat>): nat {
    if made == [] then 0 else if made[0] > 0 then made[0] else First(made[1..])
  }

  lemma {:induction false} SumFirst(head: nat, rest: seq<nat>)
    ensures Sum([head] + rest) == head + Sum(rest)
  {
    var all := [head] + rest;
    if rest != [] {
      SumFirst(head, rest[..|rest| - 1]);
      assert all[..|all| - 1] == [head] + rest[..|rest| - 1];
    } else {
      assert all[..0] == [];
    }
  }

  lemma {:induction false} SizesAdd(wanted: nat, made: seq<nat>)
    ensures Sum(Sizes(wanted, made)) == if wanted > Sum(made) then Sum(made) else wanted
  {
    if made != [] {
      var frames := if wanted > made[0] then made[0] else wanted;
      SizesAdd(wanted - frames, made[1..]);
      SumFirst(frames, Sizes(wanted - frames, made[1..]));
      SumFirst(made[0], made[1..]);
      assert made == [made[0]] + made[1..];
    }
  }

  lemma OnePartOf(head: nat, rest: seq<nat>)
    ensures OnePart([head] + rest) <==> if head == 0 then OnePart(rest) else Sum(rest) == 0
  {
    SumIsZero(rest);
    var all := [head] + rest;
    assert forall k :: 1 <= k < |all| ==> all[k] == rest[k - 1];
    if OnePart(all) {
      forall k | 0 <= k < |rest| ensures head == 0 || rest[k] == 0 {
        assert rest[k] == all[k + 1] && all[0] == head;
      }
      forall j, k | 0 <= j < k < |rest| ensures rest[j] == 0 || rest[k] == 0 {
        assert rest[j] == all[j + 1] && rest[k] == all[k + 1];
      }
    }
  }

  lemma {:induction false} OnePartIff(wanted: nat, made: seq<nat>)
    ensures OnePart(Sizes(wanted, made)) <==> wanted <= First(made) || Sum(made) == First(made)
  {
    if made != [] {
      var head, rest := made[0], made[1..];
      var frames := if wanted > head then head else wanted;
      OnePartOf(frames, Sizes(wanted - frames, rest));
      SizesAdd(wanted - frames, rest);
      OnePartIff(wanted - frames, rest);
      SumFirst(head, rest);
      assert made == [head] + rest;
    }
  }

  lemma MetInOnePartIff(wanted: nat, pending: nat, made: seq<nat>)
    requires wanted <= pending + Sum(made)
    ensures AlwaysDelivers(Sizes(wanted, [pending] + made))
            <==> wanted <= pending || (pending == 0 && wanted <= First(made))
  {
    var all := [pending] + made;
    assert all[1..] == made;
    SumFirst(pending, made);
    OnePartIff(wanted, all);
    CallDeliversIff(Sizes(wanted, all));
  }

  // ---------------------------------------------------------------- in terms of the input

  lemma CountGrows(hz: int, n: nat, chunk: nat)
    requires Supported(hz)
    ensures OutputCount(hz, n) <= OutputCount(hz, n + chunk)
  {
  }

  /** What each pass makes, after n frames of input, from the chunk it takes in. */
  function Made(hz: int, n: nat, chunks: seq<nat>): seq<nat>
    requires Supported(hz)
    decreases |chunks|
  {
    if chunks == [] then []
    else
      CountGrows(hz, n, chunks[0]);
      [OutputCount(hz, n + chunks[0]) - OutputCount(hz, n)] + Made(hz, n + chunks[0], chunks[1..])
  }

  /** That is what a pass of the cascade makes of any samples, so it is the same for both channels. */
  lemma PassMakes(hz: int, f: Filters, x: seq<int16>, chunk: seq<int16>)
    requires Supported(hz)
    ensures Made(hz, |x|, [|chunk|]) == [|Feed(hz, f, Hold(hz, f, x), chunk).1|]
  {
    FeedRefines(hz, f, x, chunk);
    OutputLength(hz, f, x);
    OutputLength(hz, f, x + chunk);
  }

  /**
   * A call with two channels that is met in full hands out the frames it should if and only if it is met from what
   * was pending or, with nothing pending, asks for no more than the first pass that makes anything.
   */
  lemma StereoCallIff(hz: int, n: nat, wanted: nat, pending: nat, chunks: seq<nat>)
    requires Supported(hz) && wanted <= pending + Sum(Made(hz, n, chunks))
    ensures var made := Made(hz, n, chunks);
            AlwaysDelivers(Sizes(wanted, [pending] + made))
            <==> wanted <= pending || (pending == 0 && wanted <= First(made))
  {
    MetInOnePartIff(wanted, pending, Made(hz, n, chunks));
  }

  lemma FirstMakes()
    ensures OutputCount(22050, PERIOD) == 503 && OutputCount(11025, PERIOD) == 242 && OutputCount(16000, PERIOD) == 320
    ensures forall hz :: Supported(hz) ==> OutputCount(hz, 0) == 0
  {
  }

  lemma AtMostOneBlock(n: nat, chunk: nat)
    requires chunk <= PERIOD
    ensures var more := OutputCount(8000, n + chunk) - OutputCount(8000, n); more == 0 || more == 320
  {
    var h, h' := HalveCount(n), HalveCount(n + chunk);
    assert h <= h' <= h + 512;
    var d, d' := HalveCount(h), HalveCount(h');
    assert d <= d' <= d + 256;
    assert Blocks(d) <= Blocks(d') <= Blocks(d) + 1;
  }

  /** At 8000 Hz the leading passes make nothing, and the first one that makes anything makes one block. */
  lemma {:induction false} FirstIsOneBlock(n: nat, chunks: seq<nat>)
    requires forall k :: 0 <= k < |chunks| ==> chunks[k] <= PERIOD
    ensures var made := Made(8000, n, chunks); First(made) == if Sum(made) == 0 then 0 else 320
    decreases |chunks|
  {
    if chunks != [] {
      AtMostOneBlock(n, chunks[0]);
      FirstIsOneBlock(n + chunks[0], chunks[1..]);
      SumFirst(OutputCount(8000, n + chunks[0]) - OutputCount(8000, n), Made(8000, n + chunks[0], chunks[1..]));
    }
  }

  /**
   * So it goes for the first call after the input was opened, with the periods of the capture stream: its first pass
   * has a full one to work on.
   */
  lemma FreshCallIff(hz: int, wanted: nat, chunks: seq<nat>)
    requires Supported(hz) && chunks != [] && chunks[0] == PERIOD
    requires forall k :: 0 <= k < |chunks| ==> chunks[k] <= PERIOD
    requires wanted <= Sum(Made(hz, 0, chunks))
    ensures AlwaysDelivers(Sizes(wanted, [0] + Made(hz, 0, chunks)))
            <==> wanted <= if hz == 22050 then 503 else if hz == 11025 then 242 else 320
  {
    FirstMakes();
    StereoCallIff(hz, 0, wanted, 0, chunks);
    if hz == 8000 {
      FirstIsOneBlock(0, chunks);
    } else {
      assert Made(hz, 0, chunks)[0] == OutputCount(hz, PERIOD);
    }
  }
}
