/** AudioHardware::DownSampler for one channel. */
module DownSamplers {
  import opened FixedPoint
  import opened RateStages
  import opened Cascade
  import opened Resampler
  import opened BufferProviders
  import opened Capture

  class DownSampler {
    const provider: BufferProvider
    const sampleRate: int
    const filters: Filters
    const inLeft: array<int16>
    const tmpLeft: array<int16>
    const tmp2Left: array<int16>
    const outLeft: array<int16>

    var status: int
    var inInBuf: nat
    var inTmpBuf: nat
    var inTmp2Buf: nat
    var outBufPos: nat
    var inOutBuf: nat

    // The specification, as functions of the input since the last reset: the whole output, and what stays buffered.
    ghost const owed: seq<int16> -> seq<int16>
    ghost const held: seq<int16> -> Kept

    ghost var base: nat               // where this stream starts in what the provider has given
    ghost var delivered: seq<int16>   // what resample has handed out since the last reset

    /** The specification is the reference cascade. (Triggered only where the cascade itself is mentioned.) */
    ghost predicate Specified()
      requires Supported(sampleRate)
    {
      && (forall x {:trigger Output(sampleRate, filters, x)} :: owed(x) == Output(sampleRate, filters, x))
      && (forall x {:trigger Hold(sampleRate, filters, x)} :: held(x) == Hold(sampleRate, filters, x))
    }

    ghost predicate Shape() {
      && Supported(sampleRate) && Specified()
      && Light(filters.halving) && Light(filters.smoothing) && Smooth(filters.smoothing)
      && inLeft.Length == tmpLeft.Length == tmp2Left.Length == outLeft.Length == PERIOD
      && inLeft != tmpLeft && inLeft != tmp2Left && inLeft != outLeft
      && tmpLeft != tmp2Left && tmpLeft != outLeft && tmp2Left != outLeft
      && inLeft !in provider.Footprint() && tmpLeft !in provider.Footprint()
      && tmp2Left !in provider.Footprint() && outLeft !in provider.Footprint()
    }

    /** A buffer of the caller's, not one of the sampler's or its provider's. */
    ghost predicate Foreign(out: array?<int16>) {
      out !in {inLeft, tmpLeft, tmp2Left, outLeft} && out !in provider.Footprint()
    }

    function OutBuffer(): array<int16> {
      if sampleRate == 22050 then tmpLeft else if sampleRate == 8000 then outLeft else tmp2Left
    }

    ghost predicate Counters()
      reads this
    {
      Shape() && inInBuf <= PERIOD && inTmpBuf <= PERIOD && inTmp2Buf <= PERIOD && outBufPos + inOutBuf <= PERIOD
    }

    ghost function Buffered(): Kept
      requires Counters()
      reads this, inLeft, tmpLeft, tmp2Left
    {
      Kept(inLeft[..inInBuf], tmpLeft[..inTmpBuf], tmp2Left[..inTmp2Buf])
    }

    /** Converted output that no call has taken yet. */
    ghost function Pending(): seq<int16>
      requires Counters()
      reads this, tmpLeft, tmp2Left, outLeft
    {
      OutBuffer()[outBufPos..outBufPos + inOutBuf]
    }

    /** The input since the last reset. */
    ghost function Input(): seq<int16>
      requires base <= |provider.given|
      reads this, provider
    {
      provider.given[base..]
    }

    /** Between calls: the buffers hold what the stream so far leaves behind, and no output is lost or repeated. */
    ghost predicate Ready()
      reads this, provider, provider.Footprint(), inLeft, tmpLeft, tmp2Left, outLeft
    {
      && Counters() && status == NO_ERROR
      && base <= |provider.given| && provider.handed == []
      && provider.Linked() && (provider.mixer != null ==> base == provider.openedAt)
      && provider.Delivers(Enough(sampleRate))
      && (if Input() == [] then provider.opening else Enough(sampleRate) <= |Input()|)
      && Buffered() == held(Input())
      && delivered + Pending() == owed(Input())
    }

    /** What Ready says in terms of the reference cascade: what was handed out is a prefix of what is owed. */
    lemma ReadyMeansPrefix()
      requires Ready()
      ensures delivered <= Output(sampleRate, filters, Input())
      ensures delivered + Pending() == Output(sampleRate, filters, Input())
      ensures Buffered() == Hold(sampleRate, filters, Input())
    {
      assert owed(Input()) == Output(sampleRate, filters, Input());
      assert delivered + Pending() == Output(sampleRate, filters, Input());
    }

    /**
     * With the mixer and its capture stream: what was handed out is a prefix of the reference cascade of the
     * averages of the stereo frames that the driver has delivered since the open.
     */
    lemma EndToEnd()
      requires Ready() && provider.mixer != null
      ensures var stream := provider.mixer.provider;
              && stream.captured == Heard(stream.driver, provider.openedFrom, stream.asked)
              && 2 * stream.taken <= |stream.captured|
              && delivered <= Output(sampleRate, filters, Mono(stream.captured[..2 * stream.taken]))
    {
      ReadyMeansPrefix();
      var stream := provider.mixer.provider;
      AveragesMean(provider.given, provider.openedAt, provider.handed, stream.captured, stream.taken);
    }

    constructor (hz: int, provider: BufferProvider)
      ensures this.provider == provider && sampleRate == hz
      ensures filters == Filters(TAPS_22KHZ, TAPS_16KHZ)
      ensures status == NO_ERROR <==> Supported(hz)
      ensures Supported(hz) ==> Shape()
      ensures fresh(inLeft) && fresh(tmpLeft) && fresh(tmp2Left) && fresh(outLeft)
    {
      FiltersFit();
      ghost var footprint := provider.Footprint();
      this.provider, sampleRate, filters := provider, hz, Filters(TAPS_22KHZ, TAPS_16KHZ);
      inLeft, tmpLeft := new int16[PERIOD], new int16[PERIOD];
      tmp2Left, outLeft := new int16[PERIOD], new int16[PERIOD];
      owed := (x: seq<int16>) => if Supported(hz) then Output(hz, Filters(TAPS_22KHZ, TAPS_16KHZ), x) else [];
      held := (x: seq<int16>) => if Supported(hz) then Hold(hz, Filters(TAPS_22KHZ, TAPS_16KHZ), x) else NOTHING_KEPT;
      status := if Supported(hz) then NO_ERROR else NO_INIT;
      new;
      assert inLeft !in footprint && tmpLeft !in footprint && tmp2Left !in footprint && outLeft !in footprint;
    }

    lemma NothingOwedAtFirst()
      requires Shape()
      ensures owed([]) == [] && held([]) == NOTHING_KEPT
    {
      HoldsNothingAtFirst(sampleRate, filters);
      assert owed([]) == Output(sampleRate, filters, []) && held([]) == Hold(sampleRate, filters, []);
    }

    /** Called when the capture stream has just been opened. */
    method Reset()
      requires Shape() && status == NO_ERROR
      requires provider.opening && provider.handed == [] && provider.Delivers(Enough(sampleRate)) && provider.Linked()
      modifies this
      ensures Ready() && status == old(status)
      ensures Input() == [] && delivered == []
    {
      inInBuf, inTmpBuf, inTmp2Buf, outBufPos, inOutBuf := 0, 0, 0, 0, 0;
      base, delivered := |provider.given|, [];
      NothingOwedAtFirst();
      assert Input() == [] && Buffered() == NOTHING_KEPT && Pending() == [];
    }

    /** Appends the provider's next buffer, if there is one, to the input buffer. */
    method Fill(ghost enough: nat) returns (ret: int, ok: bool, ghost chunk: seq<int16>)
      requires Counters() && inInBuf < PERIOD
      requires provider.Linked() && provider.Clear() && provider.handed == [] && provider.Delivers(enough)
      modifies this`inInBuf, inLeft
      modifies provider`asked, provider`opening, provider`handed, provider`given
      modifies provider`failures, provider`lastFailure
      modifies provider.Footprint()
      ensures Counters() && provider.Linked() && provider.handed == []
      ensures Buffered() == old(Buffered()).(input := old(Buffered()).input + chunk)
      ensures provider.given == old(provider.given) + chunk
      ensures ok <==> chunk != []
      ensures ok ==> !provider.opening && provider.failures == old(provider.failures)
      ensures ok && old(provider.opening) ==> enough <= |chunk| || inInBuf == PERIOD
      ensures !ok ==> provider.opening == old(provider.opening) && provider.failures == old(provider.failures) + 1
      ensures !ok ==> ret == provider.lastFailure
      ensures provider.Outcome(ok, old(provider.Asked()))
      ensures provider.Connected() == old(provider.Connected())
    {
      var raw, at, count;
      ret, raw, at, count := provider.GetNextBuffer(PERIOD - inInBuf, enough);
      if raw == null {
        return ret, false, [];
      }
      ok, chunk := true, raw[at..at + count];
      Accept(raw, at, count, old(provider.Asked()));
    }

    /** Takes over the frames that the provider has lent. */
    method Accept(raw: array<int16>, at: nat, count: nat, ghost before: nat)
      requires Counters() && raw != inLeft && raw != tmpLeft && raw != tmp2Left
      requires inInBuf + count <= PERIOD && at + count <= raw.Length
      requires provider.Linked() && !provider.opening && provider.handed == raw[at..at + count]
      requires provider.Outcome(true, before)
      modifies this`inInBuf, inLeft
      modifies provider`handed, provider`given, provider.Streams()`inPcmInBuf, provider.Streams()`taken
      ensures Counters() && inInBuf == old(inInBuf) + count && provider.Linked() && provider.handed == []
      ensures Buffered() == old(Buffered()).(input := old(Buffered()).input + old(raw[at..at + count]))
      ensures provider.given == old(provider.given) + old(raw[at..at + count])
      ensures provider.Outcome(true, before) && provider.Connected() == old(provider.Connected())
    {
      Append(raw, at, count);
      provider.ReleaseBuffer(count);
    }

    /** Copies count frames into the input buffer. */
    method Append(raw: array<int16>, at: nat, count: nat)
      requires Counters() && raw != inLeft && raw != tmpLeft && raw != tmp2Left
      requires inInBuf + count <= PERIOD && at + count <= raw.Length
      modifies this`inInBuf, inLeft
      ensures Counters() && inInBuf == old(inInBuf) + count
      ensures Buffered() == old(Buffered()).(input := old(Buffered()).input + raw[at..at + count])
    {
      var start := inInBuf;
      for i := 0 to count
        modifies inLeft
        invariant inLeft[..start] == old(inLeft[..inInBuf])
        invariant inLeft[start..start + i] == raw[at..at + i]
      {
        inLeft[start + i] := raw[at + i];
      }
      inInBuf := start + count;
      assert inLeft[..inInBuf] == inLeft[..start] + inLeft[start..inInBuf];
    }

    /** 44100 -> 22050. */
    method ConvertInput()
      requires Shape() && inInBuf <= PERIOD && inTmpBuf <= 463
      modifies this`inInBuf, this`inTmpBuf, this`inOutBuf, inLeft, tmpLeft
      ensures inInBuf <= PERIOD && inTmpBuf <= PERIOD
      ensures inLeft[..inInBuf] == HalveRest(old(inLeft[..inInBuf]))
      ensures tmpLeft[..inTmpBuf] == old(tmpLeft[..inTmpBuf]) + Halve(old(inLeft[..inInBuf]), filters.halving)
      ensures inOutBuf == HalveCount(old(inInBuf)) == inTmpBuf - old(inTmpBuf)
    {
      var left, made := Halver(inLeft, inInBuf, tmpLeft, inTmpBuf, filters.halving);
      inInBuf, inTmpBuf, inOutBuf := left, inTmpBuf + made, made;
    }

    /** 22050 -> 11025. */
    method ConvertTmp()
      requires Shape() && inTmpBuf <= PERIOD && inTmp2Buf <= 463
      modifies this`inTmpBuf, this`inTmp2Buf, this`inOutBuf, tmpLeft, tmp2Left
      ensures inTmpBuf <= PERIOD && inTmp2Buf <= PERIOD
      ensures tmpLeft[..inTmpBuf] == HalveRest(old(tmpLeft[..inTmpBuf]))
      ensures tmp2Left[..inTmp2Buf] == old(tmp2Left[..inTmp2Buf]) + Halve(old(tmpLeft[..inTmpBuf]), filters.halving)
      ensures inOutBuf == HalveCount(old(inTmpBuf)) == inTmp2Buf - old(inTmp2Buf)
    {
      var left, made := Halver(tmpLeft, inTmpBuf, tmp2Left, inTmp2Buf, filters.halving);
      inTmpBuf, inTmp2Buf, inOutBuf := left, inTmp2Buf + made, made;
    }

    /** 22050 -> 11025, and from there to 8000. */
    method ConvertLow()
      requires Shape() && (sampleRate == 11025 || sampleRate == 8000)
      requires inTmpBuf <= PERIOD && inTmp2Buf <= 463 && (sampleRate == 11025 ==> inTmp2Buf == 0)
      requires sampleRate == 8000 ==> OVERLAP_16KHZ <= inTmp2Buf + HalveCount(inTmpBuf)
      modifies this`inTmpBuf, this`inTmp2Buf, this`inOutBuf, tmpLeft, tmp2Left, outLeft
      ensures inTmpBuf <= PERIOD && inTmp2Buf <= PERIOD && inOutBuf <= PERIOD
      ensures tmpLeft[..inTmpBuf] == HalveRest(old(tmpLeft[..inTmpBuf]))
      ensures var c := old(tmp2Left[..inTmp2Buf]) + Halve(old(tmpLeft[..inTmpBuf]), filters.halving);
              && tmp2Left[..inTmp2Buf] == (if sampleRate == 8000 then InterpolateRest(c) else [])
              && OutBuffer()[..inOutBuf] == (if sampleRate == 8000 then Interpolate(c, filters.smoothing) else c)
    {
      ConvertTmp();
      if sampleRate == 8000 {
        var left, made := BlockConverter(tmp2Left, inTmp2Buf, outLeft, filters.smoothing);
        inTmp2Buf, inOutBuf := left, made;
      } else {
        inTmp2Buf := 0;
      }
    }

    /** Runs the rate stages over the buffers. */
    method Convert()
      requires Counters()
      requires inTmpBuf <= 463 && inTmp2Buf <= 463
      requires sampleRate == 22050 ==> inTmpBuf == 0
      requires sampleRate != 8000 ==> inTmp2Buf == 0
      requires sampleRate == 16000 || sampleRate == 8000 ==> OVERLAP_16KHZ <= StageInput(sampleRate, Buffered())
      modifies this`inInBuf, this`inTmpBuf, this`inTmp2Buf, this`inOutBuf, inLeft, tmpLeft, tmp2Left, outLeft
      ensures inInBuf <= PERIOD && inTmpBuf <= PERIOD && inTmp2Buf <= PERIOD && inOutBuf <= PERIOD
      ensures Kept(inLeft[..inInBuf], tmpLeft[..inTmpBuf], tmp2Left[..inTmp2Buf])
              == Pass(sampleRate, filters, old(Buffered())).0
      ensures OutBuffer()[..inOutBuf] == Pass(sampleRate, filters, old(Buffered())).1
    {
      ConvertInput();
      if sampleRate == 11025 || sampleRate == 8000 {
        ConvertLow();
      } else if sampleRate == 16000 {
        var left, made := BlockConverter(tmpLeft, inTmpBuf, tmp2Left, filters.smoothing);
        inTmpBuf, inOutBuf := left, made;
      } else {
        inTmpBuf := 0;
      }
    }

    /** Copies n converted frames to the caller's buffer. */
    static method CopyOut(source: array<int16>, from: nat, out: array<int16>, at: nat, n: nat)
      requires out != source
      requires at + n <= out.Length && from + n <= source.Length
      modifies out
      ensures out[..at] == old(out[..at])
      ensures out[at..at + n] == source[from..from + n]
      ensures forall k :: at + n <= k < out.Length ==> out[k] == old(out[k])
    {
      for i := 0 to n
        invariant out[..at] == old(out[..at])
        invariant out[at..at + i] == source[from..from + i]
        invariant forall k :: at + i <= k < out.Length ==> out[k] == old(out[k])
      {
        out[at + i] := source[from + i];
      }
    }

    static lemma Associates(a: seq<int16>, b: seq<int16>, c: seq<int16>)
      ensures (a + b) + c == a + (b + c)
    {
    }

    /** Hands n pending frames to the caller. */
    method Deliver(out: array<int16>, at: nat, n: nat)
      requires Counters() && n <= inOutBuf
      requires out != tmpLeft && out != tmp2Left && out != outLeft
      requires at + n <= out.Length
      modifies this`outBufPos, this`inOutBuf, this`delivered, out
      ensures Counters() && inOutBuf == old(inOutBuf) - n
      ensures delivered == old(delivered) + out[at..at + n]
      ensures delivered + Pending() == old(delivered + Pending())
      ensures out[..at] == old(out[..at])
      ensures forall k :: at + n <= k < out.Length ==> out[k] == old(out[k])
    {
      var source := OutBuffer();
      ghost var taken := source[outBufPos..outBufPos + n];
      ghost var rest := source[outBufPos + n..outBufPos + inOutBuf];
      assert Pending() == taken + rest;
      CopyOut(source, outBufPos, out, at, n);
      assert out[at..at + n] == taken && source[outBufPos + n..outBufPos + inOutBuf] == rest;
      Associates(delivered, taken, rest);
      delivered := delivered + taken;
      outBufPos, inOutBuf := outBufPos + n, inOutBuf - n;
      assert Pending() == rest;
    }

    /** The reference cascade, pass by pass. */
    lemma PassMeetsSpecification(x: seq<int16>, chunk: seq<int16>)
      requires Shape()
      requires Enough(sampleRate) <= |x| || (x == [] && Enough(sampleRate) <= |chunk|)
      ensures var k := held(x).(input := held(x).input + chunk);
              && Pass(sampleRate, filters, k).0 == held(x + chunk)
              && owed(x + chunk) == owed(x) + Pass(sampleRate, filters, k).1
              && |k.tmp| <= 463 && |k.tmp2| <= 463
              && (sampleRate == 22050 ==> k.tmp == [])
              && (sampleRate != 8000 ==> k.tmp2 == [])
              && (sampleRate == 16000 || sampleRate == 8000 ==> OVERLAP_16KHZ <= StageInput(sampleRate, k))
    {
      assert held(x) == Hold(sampleRate, filters, x) && held(x + chunk) == Hold(sampleRate, filters, x + chunk);
      HoldBounds(sampleRate, filters, x);
      PassIsSafe(sampleRate, filters, x, chunk);
      FeedRefines(sampleRate, filters, x, chunk);
    }

    /** Converts the chunk just taken in, the stream before it being x, when nothing is pending. */
    method ConvertChunk(ghost x: seq<int16>, ghost chunk: seq<int16>)
      requires Counters()
      requires Enough(sampleRate) <= |x| || (x == [] && Enough(sampleRate) <= |chunk|)
      requires Buffered() == held(x).(input := held(x).input + chunk)
      requires delivered == owed(x)
      modifies this`inInBuf, this`inTmpBuf, this`inTmp2Buf, this`outBufPos, this`inOutBuf
      modifies inLeft, tmpLeft, tmp2Left, outLeft
      ensures Counters()
      ensures Buffered() == held(x + chunk)
      ensures delivered + Pending() == owed(x + chunk)
    {
      PassMeetsSpecification(x, chunk);
      ghost var k := Buffered();
      Convert();
      outBufPos := 0;
      assert Buffered() == Pass(sampleRate, filters, k).0 && Pending() == Pass(sampleRate, filters, k).1;
    }

    /** A chunk has come in after the stream x, all of whose output has been handed out, and is not converted yet. */
    ghost predicate TakenIn(x: seq<int16>, chunk: seq<int16>)
      reads this, provider, provider.Footprint(), inLeft, tmpLeft, tmp2Left
    {
      && Counters() && status == NO_ERROR && delivered == owed(x)
      && base <= |provider.given| && provider.handed == []
      && provider.Linked() && (provider.mixer != null ==> base == provider.openedAt)
      && provider.Delivers(Enough(sampleRate))
      && Input() == x + chunk && chunk != []
      && (Enough(sampleRate) <= |x| || (x == [] && Enough(sampleRate) <= |chunk|))
      && Buffered() == held(x).(input := held(x).input + chunk)
    }

    /** Takes in the next buffer of the provider, if there is one, when nothing is pending. */
    method Gather() returns (ret: int, ok: bool, ghost chunk: seq<int16>)
      requires Ready() && inOutBuf == 0 && provider.Clear()
      modifies this`inInBuf, inLeft, provider.Footprint()
      modifies provider`asked, provider`opening, provider`handed, provider`given
      modifies provider`failures, provider`lastFailure
      ensures provider.given == old(provider.given) + chunk && (ok <==> chunk != [])
      ensures if ok then TakenIn(old(Input()), chunk) else Ready()
      ensures provider.failures == old(provider.failures) + if ok then 0 else 1
      ensures provider.Outcome(ok, old(provider.Asked()))
      ensures provider.Connected() == old(provider.Connected())
      ensures !ok ==> ret == provider.lastFailure
    {
      ghost var x := Input();
      assert |held(x).input| <= 19 by { HoldBounds(sampleRate, filters, x); }
      ret, ok, chunk := Fill(Enough(sampleRate));
      assert Input() == x + chunk;
      if !ok {
        assert x + chunk == x;
      }
    }

    /** Converts the chunk that has just come in after the stream x. */
    method Settle(ghost x: seq<int16>, ghost chunk: seq<int16>)
      requires TakenIn(x, chunk)
      modifies this`inInBuf, this`inTmpBuf, this`inTmp2Buf, this`outBufPos, this`inOutBuf
      modifies inLeft, tmpLeft, tmp2Left, outLeft
      ensures Ready()
    {
      ConvertChunk(x, chunk);
    }

    /** One pass: takes in a buffer and converts it, when nothing is pending. */
    method TakeIn() returns (ret: int, ok: bool, ghost chunk: seq<int16>)
      requires Ready() && inOutBuf == 0 && provider.Clear()
      modifies this`inInBuf, this`inTmpBuf, this`inTmp2Buf, this`outBufPos, this`inOutBuf
      modifies inLeft, tmpLeft, tmp2Left, outLeft, provider.Footprint()
      modifies provider`asked, provider`opening, provider`handed, provider`given
      modifies provider`failures, provider`lastFailure
      ensures Ready()
      ensures provider.given == old(provider.given) + chunk && (ok <==> chunk != [])
      ensures provider.failures == old(provider.failures) + if ok then 0 else 1
      ensures provider.Outcome(ok, old(provider.Asked()))
      ensures provider.Connected() == old(provider.Connected())
      ensures !ok ==> ret == provider.lastFailure
      ensures !ok ==> inOutBuf == 0
    {
      ghost var x := Input();
      ret, ok, chunk := Gather();
      if ok {
        Settle(x, chunk);
      }
    }

    /** One pass of the loop: it fails, makes output, or brings the next output nearer. */
    method NextPass(ghost start: nat) returns (ret: int, ok: bool)
      requires Ready() && inOutBuf == 0 && provider.Clear() && provider.Outcome(true, start)
      modifies this`inInBuf, this`inTmpBuf, this`inTmp2Buf, this`outBufPos, this`inOutBuf
      modifies inLeft, tmpLeft, tmp2Left, outLeft, provider.Footprint()
      modifies provider`asked, provider`opening, provider`handed, provider`given
      modifies provider`failures, provider`lastFailure
      ensures Ready()
      ensures old(provider.given) <= provider.given
      ensures provider.failures == old(provider.failures) + if ok then 0 else 1
      ensures provider.Outcome(ok, start)
      ensures provider.Connected() == old(provider.Connected())
      ensures !ok ==> ret == provider.lastFailure
      ensures !ok ==> inOutBuf == 0
      ensures ok && inOutBuf == 0 ==> Missing(sampleRate, |Input()|) < old(Missing(sampleRate, |Input()|))
    {
      ghost var x := Input();
      ghost var chunk;
      ret, ok, chunk := TakeIn();
      if ok && inOutBuf == 0 {
        assert Input() == x + chunk;
        assert owed(x) == delivered == owed(Input());
        SilentPassProgress(sampleRate, filters, x, Input());
      }
    }

    /** Hands the caller as many pending frames as it still wants, after the at frames it already has. */
    method HandOver(out: array<int16>, at: nat, wanted: nat, ghost before: seq<int16>) returns (n: nat)
      requires Ready() && at + wanted <= out.Length
      requires Foreign(out)
      requires delivered == before + out[..at]
      modifies this`outBufPos, this`inOutBuf, this`delivered, out
      ensures Ready()
      ensures n <= wanted && (n < wanted ==> inOutBuf == 0)
      ensures old(inOutBuf) > 0 && wanted > 0 ==> n > 0
      ensures delivered == before + out[..at + n]
      ensures forall k :: at + n <= k < out.Length ==> out[k] == old(out[k])
    {
      n := if wanted > inOutBuf then inOutBuf else wanted;
      ghost var head := out[..at];
      Deliver(out, at, n);
      ghost var tail := out[at..at + n];
      assert out[..at + n] == head + tail;
      Associates(before, head, tail);
    }

    /** One round of the loop: a pass, then its output, after at frames. */
    method Round(out: array<int16>, at: nat, wanted: nat, ghost before: seq<int16>, ghost start: nat)
      returns (ret: int, ok: bool, n: nat)
      requires Ready() && inOutBuf == 0 && provider.Clear() && provider.Outcome(true, start)
      requires 0 < wanted && at + wanted <= out.Length
      requires Foreign(out)
      requires delivered == before + out[..at]
      modifies this, inLeft, tmpLeft, tmp2Left, outLeft, provider.Footprint(), out
      modifies provider`asked, provider`opening, provider`handed, provider`given
      modifies provider`failures, provider`lastFailure
      ensures Ready() && base == old(base) && old(provider.given) <= provider.given
      ensures n <= wanted && (n < wanted ==> inOutBuf == 0)
      ensures delivered == before + out[..at + n]
      ensures forall k :: at + n <= k < out.Length ==> out[k] == old(out[k])
      ensures provider.failures == old(provider.failures) + if ok then 0 else 1
      ensures provider.Outcome(ok, start)
      ensures provider.Connected() == old(provider.Connected())
      ensures !ok ==> ret == provider.lastFailure
      ensures !ok ==> n == 0
      ensures ok && n == 0 ==> Missing(sampleRate, |Input()|) < old(Missing(sampleRate, |Input()|))
    {
      ret, ok := NextPass(start);
      n := 0;
      if ok {
        n := HandOver(out, at, wanted, before);
      }
    }

    /** The loop of resample, after the first at frames: rounds until all are there or the provider fails. */
    method Rounds(out: array<int16>, at: nat, wanted: nat, ghost before: seq<int16>) returns (ret: int, made: nat)
      requires Ready() && provider.Clear() && at + wanted <= out.Length && (wanted != 0 ==> inOutBuf == 0)
      requires Foreign(out)
      requires delivered == before + out[..at]
      modifies this, inLeft, tmpLeft, tmp2Left, outLeft, provider.Footprint(), out
      modifies provider`asked, provider`opening, provider`handed, provider`given
      modifies provider`failures, provider`lastFailure
      ensures Ready() && base == old(base) && old(provider.given) <= provider.given
      ensures at <= made <= at + wanted
      ensures delivered == before + out[..made]
      ensures forall k :: made <= k < out.Length ==> out[k] == old(out[k])
      ensures provider.failures == old(provider.failures) + if made < at + wanted then 1 else 0
      ensures ret == if made < at + wanted then provider.lastFailure else 0
      ensures provider.Outcome(made == at + wanted, old(provider.Asked()))
      ensures provider.Connected() == old(provider.Connected())
    {
      ghost var start := provider.Asked();
      made, ret := at, 0;
      var remaining := wanted;
      while remaining != 0
        invariant Ready() && base == old(base) && old(provider.given) <= provider.given
        invariant at <= made && made + remaining == at + wanted
        invariant remaining != 0 ==> inOutBuf == 0
        invariant delivered == before + out[..made]
        invariant forall k :: made <= k < out.Length ==> out[k] == old(out[k])
        invariant provider.failures == old(provider.failures)
        invariant provider.Clear() && provider.Outcome(true, start) && provider.Connected() == old(provider.Connected())
        decreases remaining, Missing(sampleRate, |Input()|)
      {
        var r, ok, n := Round(out, made, remaining, before, start);
        if !ok {
          return r, made;
        }
        made, remaining := made + n, remaining - n;
      }
    }

    /** The body of resample, once its arguments are known to be good. */
    method Run(out: array<int16>, frames: nat) returns (ret: int, made: nat)
      requires Ready() && provider.Clear() && frames <= out.Length
      requires Foreign(out)
      modifies this, inLeft, tmpLeft, tmp2Left, outLeft, provider.Footprint(), out
      modifies provider`asked, provider`opening, provider`handed, provider`given
      modifies provider`failures, provider`lastFailure
      ensures Ready() && base == old(base) && old(provider.given) <= provider.given
      ensures made <= frames
      ensures delivered == old(delivered) + out[..made]
      ensures forall k :: made <= k < out.Length ==> out[k] == old(out[k])
      ensures provider.failures == old(provider.failures) + if made < frames then 1 else 0
      ensures ret == if made < frames then provider.lastFailure else 0
      ensures provider.Outcome(made == frames, old(provider.Asked()))
      ensures provider.Connected() == old(provider.Connected())
    {
      ghost var before := delivered;
      var n := 0;
      if inOutBuf != 0 {
        n := HandOver(out, 0, frames, before);
      }
      ret, made := Rounds(out, n, frames - n, before);
    }

    /**
     * Fills the caller's buffer with the next frames of the output stream. The call is cut short exactly when
     * the provider fails, and whatever was converted by then is not lost.
     */
    method Resample(out: array?<int16>, frames: nat) returns (ret: int, made: nat)
      requires status == NO_ERROR && out != null ==> Ready() && provider.Clear() && frames <= out.Length
      requires Foreign(out)
      modifies this, inLeft, tmpLeft, tmp2Left, outLeft, provider.Footprint()
      modifies provider`asked, provider`opening, provider`handed, provider`given
      modifies provider`failures, provider`lastFailure
      modifies if out == null then {} else {out}
      ensures status != NO_ERROR ==> ret == status && made == frames && unchanged(this) && unchanged(provider)
      ensures status == NO_ERROR && out == null ==>
                ret == BAD_VALUE && made == frames && unchanged(this) && unchanged(provider)
      ensures status == NO_ERROR && out != null ==>
                && Ready() && base == old(base) && old(provider.given) <= provider.given
                && made <= frames <= out.Length
                && delivered == old(delivered) + out[..made]
                && (forall k :: made <= k < out.Length ==> out[k] == old(out[k]))
                && provider.failures == old(provider.failures) + (if made < frames then 1 else 0)
                && ret == (if made < frames then provider.lastFailure else NO_ERROR)
                && provider.Outcome(made == frames, old(provider.Asked()))
                && provider.Connected() == old(provider.Connected())
    {
      if status != NO_ERROR {
        return status, frames;
      }
      if out == null {
        return BAD_VALUE, frames;
      }
      ret, made := Run(out, frames);
    }
  }
}
