/** The capture stream as a buffer provider, and the mixer that turns its stereo frames into mono in place. */
module Capture {
  import opened FixedPoint

  const PERIOD := 1024  // AUDIO_HW_IN_PERIOD_SZ, in frames
  const NO_ERROR := 0
  const NO_INIT := -19
  const BAD_VALUE := -22

  /** What the driver answers to one read of a period of interleaved stereo frames. */
  datatype ReadResult = Failed(status: int) | Read(samples: seq<int16>)

  predicate Possible(r: ReadResult) {
    match r
    case Failed(status) => status != 0
    case Read(samples) => |samples| == 2 * PERIOD
  }

  /** What the driver's answers from one read to another bring in, in order. */
  function Heard(driver: nat -> ReadResult, from: nat, to: nat): seq<int16>
    requires from <= to
  {
    if from == to then []
    else Heard(driver, from, to - 1) + (match driver(to - 1) case Failed(_) => [] case Read(samples) => samples)
  }

  /** Is m half of left + right, rounded toward zero? */
  predicate Halfway(m: int16, left: int16, right: int16) {
    && (left + right >= 0 ==> 0 <= left + right - 2 * m <= 1)
    && (left + right <= 0 ==> -1 <= left + right - 2 * m <= 0)
  }

  /** C division: rounds toward zero. */
  function Average(left: int16, right: int16): (m: int16)
    ensures Halfway(m, left, right)
  {
    if left + right >= 0 then (left + right) / 2 else -(-(left + right) / 2)
  }

  /** Neither channel counts for more, equal channels come through, and the result lies between the two. */
  lemma AverageIsFair(left: int16, right: int16)
    ensures Average(left, right) == Average(right, left)
    ensures Average(left, left) == left
    ensures left <= right ==> left <= Average(left, right) <= right
  {
  }

  /** Each sample is halfway between the two of its pair. */
  predicate AllHalfway(mono: seq<int16>, stereo: seq<int16>) {
    && 2 * |mono| <= |stereo|
    && forall k :: 0 <= k < |mono| ==> Halfway(mono[k], stereo[2 * k], stereo[2 * k + 1])
  }

  /** The mono stream of an interleaved stereo stream. */
  function Mono(stereo: seq<int16>): (m: seq<int16>)
    ensures |m| == |stereo| / 2
  {
    seq(|stereo| / 2, i requires 0 <= i < |stereo| / 2 => Average(stereo[2 * i], stereo[2 * i + 1]))
  }

  /** AudioStreamInALSA, as far as it hands out captured frames. */
  class CaptureStream {
    const driver: nat -> ReadResult  // what the driver answers to its k-th read
    const pcmIn: array<int16>

    var asked: nat
    var pcmOpen: bool
    var inPcmInBuf: nat
    var readStatus: int
    ghost var since: nat            // the first read since the stream was opened
    ghost var captured: seq<int16>  // every sample read since then
    ghost var taken: nat            // how many frames of it were handed out and released

    /** The unread part of the buffer, without its first lent frames, still is what the driver delivered. */
    ghost predicate Intact(lent: nat)
      reads this, pcmIn
    {
      && pcmIn.Length == 2 * PERIOD
      && since <= asked && captured == Heard(driver, since, asked)
      && (forall k :: Possible(driver(k)))
      && lent <= inPcmInBuf <= PERIOD
      && |captured| == 2 * (taken + inPcmInBuf)
      && pcmIn[2 * (PERIOD - inPcmInBuf + lent)..] == captured[2 * (taken + lent)..]
    }

    ghost predicate Valid()
      reads this, pcmIn
    {
      Intact(0)
    }

    constructor (driver: nat -> ReadResult)
      requires forall k :: Possible(driver(k))
      ensures Valid() && fresh(pcmIn) && !pcmOpen && captured == [] && taken == 0
      ensures asked == since == 0 && inPcmInBuf == 0
      ensures this.driver == driver
    {
      this.driver := driver;
      pcmIn := new int16[2 * PERIOD];
      asked, pcmOpen, inPcmInBuf, readStatus := 0, false, 0, NO_ERROR;
      since, captured, taken := 0, [], 0;
    }

    /**
     * open_l, as far as the buffer goes. Only a stream with a down-sampler discards what it still had, and only
     * once the PCM has been opened.
     */
    method Open(downSampling: bool, opens: bool) returns (status: int)
      requires Valid()
      modifies this`pcmOpen, this`inPcmInBuf, this`since, this`captured, this`taken
      ensures Valid() && pcmOpen == opens && status == if opens then NO_ERROR else NO_INIT
      ensures opens && downSampling ==> inPcmInBuf == 0 && since == asked && captured == [] && taken == 0
      ensures !opens || !downSampling ==>
                inPcmInBuf == old(inPcmInBuf) && since == old(since) && captured == old(captured) && taken == old(taken)
    {
      pcmOpen := opens;
      if !opens {
        return NO_INIT;
      }
      if downSampling {
        inPcmInBuf := 0;
        since, captured, taken := asked, [], 0;
      }
      status := NO_ERROR;
    }

    /** close_l. */
    method Close()
      requires Valid()
      modifies this`pcmOpen
      ensures Valid() && !pcmOpen
    {
      pcmOpen := false;
    }

    /** read() clears the status before it asks for frames, and stops asking once it is set. */
    method BeginRead()
      modifies this`readStatus
      ensures readStatus == NO_ERROR
    {
      readStatus := NO_ERROR;
    }

    lemma ValidIsIntact(lent: nat)
      requires Valid() && lent <= inPcmInBuf
      ensures Intact(lent)
    {
      var s, at := pcmIn[..], 2 * (PERIOD - inPcmInBuf);
      assert s[at..] == pcmIn[at..] == captured[2 * taken..];
      DropBoth(s, at, captured, 2 * taken, 2 * lent);
      assert s[at + 2 * lent..] == pcmIn[at + 2 * lent..];
    }

    /** What pcm_read does to the buffer. */
    method Store(samples: seq<int16>)
      requires |samples| == pcmIn.Length
      modifies pcmIn
      ensures pcmIn[..] == samples
    {
      for i := 0 to |samples|
        invariant pcmIn[..i] == samples[..i]
      {
        pcmIn[i] := samples[i];
      }
    }

    /** Reads the next period into the empty buffer. */
    method Refill()
      requires Valid() && inPcmInBuf == 0
      modifies this`asked, this`inPcmInBuf, this`readStatus, this`captured, pcmIn
      ensures Valid() && asked == old(asked) + 1
      ensures match driver(old(asked))
              case Failed(s) => readStatus == s && inPcmInBuf == 0 && captured == old(captured)
              case Read(samples) =>
                readStatus == NO_ERROR && inPcmInBuf == PERIOD && captured == old(captured) + samples
    {
      var result := driver(asked);
      assert Possible(result);
      asked := asked + 1;
      match result {
        case Failed(s) =>
          readStatus := s;
          assert captured + [] == captured;
        case Read(samples) =>
          Store(samples);
          assert pcmIn[..] == samples == (captured + samples)[2 * taken..];
          readStatus := NO_ERROR;
          inPcmInBuf := PERIOD;
          captured := captured + samples;
      }
    }

    /**
     * How requests have ended that began with the status clear and before reads made: with a failure exactly if the
     * driver has failed the last read made for them, and then its status is left, or if there was no PCM.
     */
    ghost predicate Outcome(ok: bool, before: nat)
      reads this
    {
      && before <= asked && (ok <==> readStatus == NO_ERROR)
      && (forall k :: before <= k < asked - (if ok then 0 else 1) ==> driver(k).Read?)
      && (!ok && pcmOpen ==> before < asked && driver(asked - 1) == Failed(readStatus))
    }

    /** Does the next request find no frames: no PCM, or an empty buffer and a driver that fails? */
    predicate Starved()
      reads this
    {
      !pcmOpen || (inPcmInBuf == 0 && driver(asked).Failed?)
    }

    /** Sees to it that there are frames in the buffer, if there is a PCM and the driver does not fail. */
    method Provide() returns (ok: bool)
      requires Valid()
      modifies this`asked, this`inPcmInBuf, this`readStatus, this`captured, pcmIn
      ensures Valid() && (ok <==> !old(Starved()))
      ensures asked == old(asked) + if pcmOpen && old(inPcmInBuf) == 0 then 1 else 0
      ensures readStatus ==
              if !pcmOpen then NO_INIT
              else if old(inPcmInBuf) > 0 then old(readStatus)
              else match driver(old(asked)) case Failed(s) => s case Read(_) => NO_ERROR
      ensures old(readStatus) == NO_ERROR ==> Outcome(ok, old(asked))
      ensures old(captured) <= captured && (!ok ==> captured == old(captured))
      ensures inPcmInBuf == if ok && old(inPcmInBuf) == 0 then PERIOD else old(inPcmInBuf)
    {
      ok := pcmOpen;
      if !pcmOpen {
        readStatus := NO_INIT;
      } else if inPcmInBuf == 0 {
        Refill();
        ok := readStatus == NO_ERROR;
      }
    }

    /** The frames in the buffer are the next captured ones. */
    lemma BufferedIsCaptured(at: nat, count: nat)
      requires Valid() && at == 2 * (PERIOD - inPcmInBuf) && count <= inPcmInBuf
      ensures forall j :: at <= j < at + 2 * count ==> pcmIn[j] == captured[2 * taken + j - at]
    {
      var lent, seen := pcmIn[at..], captured[2 * taken..];
      assert forall j :: at <= j < at + 2 * count ==> pcmIn[j] == lent[j - at] == seen[j - at];
    }

    /** The count frames at at are the next captured ones. */
    ghost predicate Lends(at: nat, count: nat)
      reads this, pcmIn
    {
      && at + 2 * count <= pcmIn.Length && 2 * (taken + count) <= |captured|
      && forall j :: at <= j < at + 2 * count ==> pcmIn[j] == captured[2 * taken + j - at]
    }

    /** Where the next frames are, at most as many as asked for. */
    method Serve(frames: nat) returns (at: nat, count: nat)
      requires Valid()
      ensures at == 2 * (PERIOD - inPcmInBuf) && count == if frames > inPcmInBuf then inPcmInBuf else frames
      ensures Lends(at, count)
    {
      at, count := (PERIOD - inPcmInBuf) * 2, if frames > inPcmInBuf then inPcmInBuf else frames;
      BufferedIsCaptured(at, count);
    }

    /** A request served from the buffer returns the status as it is, also one that an earlier failure has left. */
    method GetNextBuffer(frames: nat) returns (status: int, raw: array?<int16>, at: nat, count: nat)
      requires Valid()
      modifies this`asked, this`inPcmInBuf, this`readStatus, this`captured, pcmIn
      ensures Valid() && status == readStatus
      ensures asked == old(asked) + if pcmOpen && old(inPcmInBuf) == 0 then 1 else 0
      ensures readStatus ==
              if !pcmOpen then NO_INIT
              else if old(inPcmInBuf) > 0 then old(readStatus)
              else match driver(old(asked)) case Failed(s) => s case Read(_) => NO_ERROR
      ensures raw == null <==> old(Starved())
      ensures old(readStatus) == NO_ERROR ==> Outcome(raw != null, old(asked))
      ensures raw == null ==> captured == old(captured) && inPcmInBuf == old(inPcmInBuf)
      ensures raw != null ==>
                && raw == pcmIn && at == 2 * (PERIOD - inPcmInBuf) && Lends(at, count)
                && count == (if frames > inPcmInBuf then inPcmInBuf else frames)
                && inPcmInBuf == (if old(inPcmInBuf) == 0 then PERIOD else old(inPcmInBuf))
                && old(captured) <= captured
    {
      var ok := Provide();
      raw, at, count := null, 0, 0;
      if ok {
        at, count := Serve(frames);
        raw := pcmIn;
      }
      status := readStatus;
    }

    method ReleaseBuffer(count: nat)
      requires Intact(count)
      modifies this`inPcmInBuf, this`taken
      ensures Valid() && inPcmInBuf == old(inPcmInBuf) - count && taken == old(taken) + count
    {
      inPcmInBuf := inPcmInBuf - count;
      taken := taken + count;
    }
  }

  lemma DropBoth(a: seq<int16>, i: nat, b: seq<int16>, j: nat, n: nat)
    requires i + n <= |a| && j + n <= |b| && a[i..] == b[j..]
    ensures a[i + n..] == b[j + n..]
  {
    assert a[i + n..] == a[i..][n..] && b[j + n..] == b[j..][n..];
  }

  /** The count samples at at are the averages of the pairs behind the first taken ones. */
  ghost predicate Mixed(a: array<int16>, at: nat, count: nat, captured: seq<int16>, taken: nat)
    reads a
  {
    && at + count <= a.Length && 2 * (taken + count) <= |captured|
    && forall j :: at <= j < at + count ==>
         a[j] == Average(captured[2 * (taken + j - at)], captured[2 * (taken + j - at) + 1])
  }

  lemma AveragesAreMono(mono: seq<int16>, stereo: seq<int16>)
    requires |stereo| == 2 * |mono|
    requires forall j :: 0 <= j < |mono| ==> mono[j] == Average(stereo[2 * j], stereo[2 * j + 1])
    ensures mono == Mono(stereo) && AllHalfway(mono, stereo)
  {
  }

  lemma MixedIsMono(a: array<int16>, at: nat, count: nat, captured: seq<int16>, taken: nat)
    requires Mixed(a, at, count, captured, taken)
    ensures a[at..at + count] == Mono(captured[2 * taken..2 * (taken + count)])
    ensures AllHalfway(a[at..at + count], captured[2 * taken..2 * (taken + count)])
  {
    var stereo, mono := captured[2 * taken..2 * (taken + count)], a[at..at + count];
    forall j | 0 <= j < count ensures mono[j] == Average(stereo[2 * j], stereo[2 * j + 1]) {
      assert mono[j] == a[at + j];
    }
    AveragesAreMono(mono, stereo);
  }

  /** ChannelMixer: mono frames, mixed inside the stereo buffer of its provider. */
  class ChannelMixer {
    const provider: CaptureStream
    const outChannelCount: int
    const channelCount: int
    var status: int

    constructor (outChannelCount: int, channelCount: int, provider: CaptureStream)
      ensures this.provider == provider
      ensures status == NO_ERROR <==> outChannelCount == 1 && channelCount == 2
    {
      this.provider, this.outChannelCount, this.channelCount := provider, outChannelCount, channelCount;
      status := if outChannelCount != 1 || channelCount != 2 then NO_INIT else NO_ERROR;
    }

    /**
     * Mixes count frames in place. Each write lands at or before the pair just read, so no pair still to be
     * read, and nothing behind the frames of this request, is touched.
     */
    static method MixInPlace(a: array<int16>, at: nat, count: nat, ghost captured: seq<int16>, ghost taken: nat)
      requires at + 2 * count <= a.Length && 2 * (taken + count) <= |captured|
      requires forall j :: at <= j < at + 2 * count ==> a[j] == captured[2 * taken + j - at]
      modifies a
      ensures Mixed(a, at, count, captured, taken)
      ensures AllHalfway(a[at..at + count], captured[2 * taken..2 * (taken + count)])
      ensures forall k :: 0 <= k < at || at + 2 * count <= k < a.Length ==> a[k] == old(a[k])
    {
      for i := 0 to count
        invariant Mixed(a, at, i, captured, taken)
        invariant forall k :: 0 <= k < at || at + 2 * i <= k < a.Length ==> a[k] == old(a[k])
      {
        a[at + i] := Average(a[at + 2 * i], a[at + 2 * i + 1]);
      }
      MixedIsMono(a, at, count, captured, taken);
    }

    /** Mixes the frames about to be lent; the frames behind them stay as the driver delivered them. */
    method MixLent(at: nat, count: nat)
      requires provider.Valid() && count <= provider.inPcmInBuf
      requires at == 2 * (PERIOD - provider.inPcmInBuf)
      modifies provider.pcmIn
      ensures provider.Intact(count)
      ensures Mixed(provider.pcmIn, at, count, provider.captured, provider.taken)
    {
      provider.ValidIsIntact(count);
      provider.BufferedIsCaptured(at, count);
      ghost var behind := provider.pcmIn[at + 2 * count..];
      MixInPlace(provider.pcmIn, at, count, provider.captured, provider.taken);
      assert provider.pcmIn[at + 2 * count..] == behind;
    }

    /**
     * The frames are mixed when the status is clear. When an earlier failure has left one, and the buffer still has
     * frames, they are lent as they are, in stereo.
     */
    method GetNextBuffer(frames: nat) returns (ret: int, raw: array?<int16>, at: nat, count: nat)
      requires provider.Valid()
      modifies provider`asked, provider`inPcmInBuf, provider`readStatus, provider`captured, provider.pcmIn
      ensures ret == provider.readStatus
      ensures raw == null <==> old(provider.Starved())
      ensures raw == null ==> ret != NO_ERROR
      ensures old(provider.readStatus) == NO_ERROR ==> provider.Outcome(raw != null, old(provider.asked))
      ensures raw != null && ret != NO_ERROR <==>
                provider.pcmOpen && old(provider.inPcmInBuf) > 0 && old(provider.readStatus) != NO_ERROR
      ensures ret != NO_ERROR ==>
                && provider.Valid() && provider.captured == old(provider.captured)
                && provider.inPcmInBuf == old(provider.inPcmInBuf)
      ensures ret == NO_ERROR ==>
                && raw == provider.pcmIn && at + count <= provider.pcmIn.Length
                && provider.Intact(count) && old(provider.captured) <= provider.captured
                && count == (if frames > provider.inPcmInBuf then provider.inPcmInBuf else frames)
                && provider.inPcmInBuf == (if old(provider.inPcmInBuf) == 0 then PERIOD else old(provider.inPcmInBuf))
                && Mixed(provider.pcmIn, at, count, provider.captured, provider.taken)
    {
      ret, raw, at, count := provider.GetNextBuffer(frames);
      if ret == NO_ERROR {
        MixLent(at, count);
      }
    }

    method ReleaseBuffer(count: nat)
      requires provider.Intact(count)
      modifies provider`inPcmInBuf, provider`taken
      ensures provider.Valid() && provider.taken == old(provider.taken) + count
      ensures provider.inPcmInBuf == old(provider.inPcmInBuf) - count
    {
      provider.ReleaseBuffer(count);
    }

    /** Averages count frames of the provider's buffer into the caller's, after the at frames it already has. */
    static method MixOut(a: array<int16>, from: nat, count: nat, ghost captured: seq<int16>, ghost taken: nat,
                         out: array<int16>, at: nat)
      requires a != out && from + 2 * count <= a.Length && at + count <= out.Length
      requires 2 * (taken + count) <= |captured|
      requires forall j :: from <= j < from + 2 * count ==> a[j] == captured[2 * taken + j - from]
      modifies out
      ensures forall k :: 0 <= k < at || at + count <= k < out.Length ==> out[k] == old(out[k])
      ensures Mixed(out, at, count, captured, taken)
    {
      for i := 0 to count
        invariant forall k :: 0 <= k < at || at + count <= k < out.Length ==> out[k] == old(out[k])
        invariant Mixed(out, at, i, captured, taken)
      {
        out[at + i] := Average(a[from + 2 * i], a[from + 2 * i + 1]);
      }
    }

    /** Averages the frames just lent into the caller's buffer and releases them. */
    method MixAndRelease(from: nat, count: nat, out: array<int16>, at: nat)
      requires provider.Valid() && count <= provider.inPcmInBuf
      requires from == 2 * (PERIOD - provider.inPcmInBuf)
      requires out != provider.pcmIn && at + count <= out.Length
      modifies provider`inPcmInBuf, provider`taken, out
      ensures provider.Valid() && provider.taken == old(provider.taken) + count
      ensures forall k :: 0 <= k < at || at + count <= k < out.Length ==> out[k] == old(out[k])
      ensures Mixed(out, at, count, provider.captured, old(provider.taken))
    {
      provider.BufferedIsCaptured(from, count);
      MixOut(provider.pcmIn, from, count, provider.captured, provider.taken, out, at);
      provider.ValidIsIntact(count);
      provider.ReleaseBuffer(count);
    }

    /** One round of mix: takes the next frames from the provider, if there are any. */
    method MixNext(out: array<int16>, at: nat, wanted: nat) returns (ret: int, count: nat)
      requires provider.Valid()
      requires out != provider.pcmIn && 0 < wanted && at + wanted <= out.Length
      modifies provider, provider.pcmIn, out
      ensures provider.Valid() && ret == provider.readStatus
      ensures count <= wanted && (count > 0 <==> ret == NO_ERROR)
      ensures provider.taken == old(provider.taken) + count
      ensures old(provider.captured) <= provider.captured && provider.since == old(provider.since)
      ensures forall k :: 0 <= k < at || at + count <= k < out.Length ==> out[k] == old(out[k])
      ensures Mixed(out, at, count, provider.captured, old(provider.taken))
    {
      var raw, from;
      ret, raw, from, count := provider.GetNextBuffer(wanted);
      if ret != NO_ERROR || raw == null {
        count := 0;
      } else {
        MixAndRelease(from, count, out, at);
      }
    }

    /** A further round of a mix that started when start frames were taken and has delivered at frames. */
    method MixMore(out: array<int16>, at: nat, wanted: nat, ghost start: nat) returns (ret: int, count: nat)
      requires provider.Valid()
      requires out != provider.pcmIn && 0 < wanted && at + wanted <= out.Length
      requires provider.taken == start + at && Mixed(out, 0, at, provider.captured, start)
      modifies provider, provider.pcmIn, out
      ensures provider.Valid() && ret == provider.readStatus
      ensures count <= wanted && (count > 0 <==> ret == NO_ERROR)
      ensures provider.taken == old(provider.taken) + count
      ensures old(provider.captured) <= provider.captured && provider.since == old(provider.since)
      ensures Mixed(out, 0, at + count, provider.captured, start)
      ensures forall k :: at + count <= k < out.Length ==> out[k] == old(out[k])
    {
      ret, count := MixNext(out, at, wanted);
    }

    method MixLoop(out: array<int16>, frames: nat) returns (ret: int, made: nat)
      requires provider.Valid()
      requires out != provider.pcmIn && frames <= out.Length
      modifies provider, provider.pcmIn, out
      ensures provider.Valid() && made <= frames && (made == frames <==> ret == NO_ERROR)
      ensures frames > 0 ==> ret == provider.readStatus
      ensures provider.taken == old(provider.taken) + made
      ensures old(provider.captured) <= provider.captured && provider.since == old(provider.since)
      ensures Mixed(out, 0, made, provider.captured, old(provider.taken))
      ensures forall k :: made <= k < out.Length ==> out[k] == old(out[k])
    {
      ghost var start, before := provider.taken, provider.captured;
      var remaining := frames;
      made, ret := 0, NO_ERROR;
      while remaining != 0 && ret == NO_ERROR
        invariant provider.Valid() && ((remaining == frames && ret == NO_ERROR) || provider.readStatus == ret)
        invariant made + remaining == frames && provider.taken == start + made
        invariant ret != NO_ERROR ==> remaining > 0
        invariant before <= provider.captured && provider.since == old(provider.since)
        invariant Mixed(out, 0, made, provider.captured, start)
        invariant forall k :: made <= k < out.Length ==> out[k] == old(out[k])
        decreases remaining, ret == NO_ERROR
      {
        var count;
        ret, count := MixMore(out, made, remaining, start);
        made, remaining := made + count, remaining - count;
      }
    }

    method MixAll(out: array<int16>, frames: nat) returns (ret: int, made: nat)
      requires provider.Valid()
      requires out != provider.pcmIn && frames <= out.Length
      modifies provider, provider.pcmIn, out
      ensures provider.Valid() && made <= frames && (made == frames <==> ret == NO_ERROR)
      ensures frames > 0 ==> ret == provider.readStatus
      ensures provider.taken == old(provider.taken) + made
      ensures old(provider.captured) <= provider.captured && provider.since == old(provider.since)
      ensures out[..made] == Mono(provider.captured[2 * old(provider.taken)..2 * provider.taken])
      ensures AllHalfway(out[..made], provider.captured[2 * old(provider.taken)..2 * provider.taken])
      ensures forall k :: made <= k < out.Length ==> out[k] == old(out[k])
    {
      ghost var start := provider.taken;
      ret, made := MixLoop(out, frames);
      MixedIsMono(out, 0, made, provider.captured, start);
      assert out[0..made] == out[..made];
    }

    /** mix: the next frames of the capture stream, averaged, in order and once each, until the driver fails. */
    method Mix(out: array?<int16>, frames: nat) returns (ret: int, made: nat)
      requires provider.Valid()
      requires out != null ==> out != provider.pcmIn && frames <= out.Length
      modifies provider, provider.pcmIn
      modifies if out == null then {} else {out}
      ensures provider.Valid()
      ensures status != NO_ERROR ==> ret == status && made == frames && unchanged(provider)
      ensures status == NO_ERROR && out == null ==> ret == BAD_VALUE && made == frames && unchanged(provider)
      ensures status == NO_ERROR && out != null ==>
                && made <= frames <= out.Length && (made == frames <==> ret == NO_ERROR)
                && provider.taken == old(provider.taken) + made
                && old(provider.captured) <= provider.captured && provider.since == old(provider.since)
                && (frames > 0 ==> ret == provider.readStatus)
                && out[..made] == Mono(provider.captured[2 * old(provider.taken)..2 * provider.taken])
                && AllHalfway(out[..made], provider.captured[2 * old(provider.taken)..2 * provider.taken])
                && (forall k :: made <= k < out.Length ==> out[k] == old(out[k]))
    {
      made := frames;
      if status != NO_ERROR {
        ret := status;
      } else if out == null {
        ret := BAD_VALUE;
      } else {
        ret, made := MixAll(out, frames);
      }
    }
  }
}
