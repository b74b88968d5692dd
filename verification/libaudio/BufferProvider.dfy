/**
 * Where the down-sampler gets its input: the channel mixer on its capture stream, or any other provider that delivers
 * at least one frame or fails.
 */
module BufferProviders {
  import opened FixedPoint
  import opened Capture

  datatype Reply = Failure(status: int) | Chunk(samples: seq<int16>)

  /** What was given since the open, and then what is handed out, are the averages of the captured frames, in order. */
  ghost predicate Averages(given: seq<int16>, from: nat, handed: seq<int16>, captured: seq<int16>, taken: nat) {
    && from <= |given| && |given| - from == taken && 2 * (taken + |handed|) <= |captured|
    && (forall j :: from <= j < |given| ==> given[j] == Average(captured[2 * (j - from)], captured[2 * (j - from) + 1]))
    && (forall j :: 0 <= j < |handed| ==>
          handed[j] == Average(captured[2 * (taken + j)], captured[2 * (taken + j) + 1]))
  }

  lemma AveragesMean(given: seq<int16>, from: nat, handed: seq<int16>, captured: seq<int16>, taken: nat)
    requires Averages(given, from, handed, captured, taken)
    ensures given[from..] == Mono(captured[..2 * taken])
  {
  }

  lemma AveragesLent(given: seq<int16>, from: nat, seen: seq<int16>, now: seq<int16>, taken: nat,
                     a: array<int16>, at: nat, count: nat)
    requires Averages(given, from, [], seen, taken) && seen <= now && Mixed(a, at, count, now, taken)
    ensures Averages(given, from, a[at..at + count], now, taken)
  {
    var lent := a[at..at + count];
    assert forall j :: 0 <= j < count ==> lent[j] == a[at + j];
  }

  lemma AveragesReleased(given: seq<int16>, from: nat, handed: seq<int16>, captured: seq<int16>, taken: nat)
    requires Averages(given, from, handed, captured, taken)
    ensures Averages(given + handed, from, [], captured, taken + |handed|)
  {
  }

  class BufferProvider {
    const mixer: ChannelMixer?
    // Another provider: what its request k meets before the first delivery since it was opened, and afterwards.
    const first: nat -> Reply
    const later: nat -> Reply

    var asked: nat
    var opening: bool
    ghost var given: seq<int16>   // all the frames released so far
    ghost var handed: seq<int16>  // the frames handed out and not yet released
    ghost var openedAt: nat       // how many frames were given when it was last opened
    ghost var openedFrom: nat     // the first read of the capture stream since
    ghost var failures: nat
    ghost var lastFailure: int    // the status of the latest failure

    constructor Other(first: nat -> Reply, later: nat -> Reply)
      ensures this.first == first && this.later == later && mixer == null
      ensures opening && given == [] && handed == []
    {
      this.first, this.later, mixer := first, later, null;
      asked, opening, openedAt, openedFrom := 0, true, 0, 0;
      given, handed, failures, lastFailure := [], [], 0, 0;
    }

    /** The mixer on a capture stream that is not open yet. */
    constructor OfMixer(mixer: ChannelMixer)
      requires mixer.provider.Valid() && mixer.provider.taken == 0 && mixer.provider.inPcmInBuf == 0
      ensures this.mixer == mixer && given == [] && handed == []
      ensures Linked() && opening && openedAt == 0
    {
      this.mixer, first, later := mixer, _ => Failure(-1), _ => Failure(-1);
      asked, opening, openedAt, openedFrom := 0, true, 0, mixer.provider.since;
      given, handed, failures, lastFailure := [], [], 0, 0;
    }

    ghost function Footprint(): set<object> {
      if mixer == null then {} else {mixer.provider, mixer.provider.pcmIn}
    }

    ghost function Streams(): set<CaptureStream> {
      if mixer == null then {} else {mixer.provider}
    }

    /** Since the last open the frames given and handed out are the averages of the captured ones, in order. */
    ghost predicate Linked()
      reads this`given, this`handed, this`openedAt, this`openedFrom, this`opening, Footprint()
    {
      mixer != null ==>
        var stream := mixer.provider;
        && stream.Intact(|handed|) && stream.since == openedFrom
        && Averages(given, openedAt, handed, stream.captured, stream.taken)
        && (opening ==> |given| == openedAt && handed == [] && stream.inPcmInBuf == 0)
    }

    /** Successful replies are never empty, and the first one has at least the given number of frames. */
    ghost predicate Delivers(enough: nat) {
      if mixer != null then
        enough <= PERIOD
      else
        && (forall k :: first(k).Chunk? ==> first(k).samples != [] && enough <= |first(k).samples|)
        && (forall k :: later(k).Chunk? ==> later(k).samples != [])
    }

    /** No earlier failure has left its status behind: read() sees to that. */
    ghost predicate Clear()
      reads Footprint()
    {
      mixer != null ==> mixer.provider.readStatus == NO_ERROR
    }

    /** A capture stream with an open PCM. */
    ghost predicate Connected()
      reads Footprint()
    {
      mixer != null && mixer.provider.pcmOpen
    }

    /** How many reads of the driver have been made. */
    ghost function Asked(): nat
      reads Footprint()
    {
      if mixer == null then 0 else mixer.provider.asked
    }

    /** With the mixer, a request fails exactly if the driver fails the last read made for it, or there is no PCM. */
    ghost predicate Outcome(ok: bool, before: nat)
      reads Footprint()
    {
      mixer != null ==> mixer.provider.Outcome(ok, before)
    }

    /** open_l of the capture stream, for a stream with a down-sampler; another provider just starts again. */
    method Reopen(opens: bool) returns (status: int)
      requires Linked() && handed == []
      modifies this`opening, this`openedAt, this`openedFrom, Footprint()
      ensures Linked() && Clear() == old(Clear())
      ensures status == NO_ERROR ==> opening && openedAt == |given|
      ensures mixer != null ==> mixer.provider.asked == old(mixer.provider.asked)
      ensures status == NO_ERROR && mixer != null ==> openedFrom == mixer.provider.asked
      ensures status == if mixer == null || opens then NO_ERROR else NO_INIT
      ensures status != NO_ERROR ==> opening == old(opening) && openedAt == old(openedAt)
      ensures Connected() <==> mixer != null && opens
    {
      status := NO_ERROR;
      if mixer != null {
        status := mixer.provider.Open(true, opens);
        openedFrom := mixer.provider.since;
      }
      if status == NO_ERROR {
        opening, openedAt := true, |given|;
      }
    }

    /** close_l of the capture stream. */
    method Close()
      requires mixer != null && Linked() && handed == []
      modifies mixer.provider`pcmOpen
      ensures Linked() && !Connected()
    {
      mixer.provider.Close();
    }

    method GetNextBuffer(frames: nat, ghost enough: nat) returns (status: int, raw: array?<int16>, at: nat, count: nat)
      requires Linked() && Clear() && handed == [] && 0 < frames && Delivers(enough)
      modifies this`asked, this`opening, this`handed, this`failures, this`lastFailure, Footprint()
      ensures Linked() && Connected() == old(Connected()) && Outcome(raw != null, old(Asked()))
      ensures raw == null ==> opening == old(opening) && handed == []
      ensures raw == null ==> failures == old(failures) + 1 && lastFailure == status
      ensures raw != null ==> !opening && failures == old(failures) && status == 0
      ensures raw != null ==> (fresh(raw) || raw in Footprint())
      ensures raw != null ==> 0 < count <= frames && at + count <= raw.Length && handed == raw[at..at + count]
      ensures raw != null && old(opening) ==> enough <= count || frames <= count
    {
      if mixer == null {
        status, raw, at, count := AskOther(frames, enough);
      } else {
        status, raw, at, count := AskMixer(frames, enough);
      }
    }

    method AskOther(frames: nat, ghost enough: nat) returns (status: int, raw: array?<int16>, at: nat, count: nat)
      requires mixer == null && handed == [] && 0 < frames && Delivers(enough)
      modifies this`asked, this`opening, this`handed, this`failures, this`lastFailure
      ensures raw == null ==> opening == old(opening) && handed == []
      ensures raw == null ==> failures == old(failures) + 1 && lastFailure == status
      ensures raw != null ==> !opening && failures == old(failures) && status == 0
      ensures raw != null ==> fresh(raw)
      ensures raw != null ==> 0 < count <= frames && at + count <= raw.Length && handed == raw[at..at + count]
      ensures raw != null && old(opening) ==> enough <= count || frames <= count
    {
      var reply := if opening then first(asked) else later(asked);
      asked := asked + 1;
      match reply
      case Failure(s) =>
        failures, lastFailure := failures + 1, s;
        return s, null, 0, 0;
      case Chunk(samples) =>
        at, count := 0, if frames < |samples| then frames else |samples|;
        raw := new int16[count](i requires 0 <= i < |samples| => samples[i]);
        opening := false;
        handed := raw[..count];
        status := 0;
    }

    /** The mixer's answer when no earlier status is left: mixed frames, or none. */
    method ClearFrames(frames: nat) returns (status: int, raw: array?<int16>, at: nat, count: nat)
      requires mixer != null && mixer.provider.Valid() && Clear() && 0 < frames
      modifies mixer.provider`asked, mixer.provider`inPcmInBuf, mixer.provider`readStatus, mixer.provider`captured
      modifies mixer.provider.pcmIn
      ensures Outcome(raw != null, old(Asked()))
      ensures var stream := mixer.provider;
              if raw == null then
                stream.Valid() && stream.captured == old(stream.captured) && stream.inPcmInBuf == old(stream.inPcmInBuf)
              else
                && status == 0 && raw == stream.pcmIn && 0 < count <= frames
                && stream.Intact(count) && old(stream.captured) <= stream.captured
                && Mixed(stream.pcmIn, at, count, stream.captured, stream.taken)
                && (old(stream.inPcmInBuf) == 0 ==> count == if frames > PERIOD then PERIOD else frames)
    {
      status, raw, at, count := mixer.GetNextBuffer(frames);
    }

    /** Frames that the mixer has just lent, the capture stream having been at seen before. */
    method Lend(ghost at: nat, ghost count: nat, ghost seen: seq<int16>)
      requires mixer != null && mixer.provider.Intact(count) && 0 < count && mixer.provider.since == openedFrom
      requires seen <= mixer.provider.captured && Averages(given, openedAt, [], seen, mixer.provider.taken)
      requires var stream := mixer.provider; Mixed(stream.pcmIn, at, count, stream.captured, stream.taken)
      modifies this`opening, this`handed
      ensures Linked() && !opening && handed == mixer.provider.pcmIn[at..at + count]
    {
      ghost var stream := mixer.provider;
      AveragesLent(given, openedAt, seen, stream.captured, stream.taken, stream.pcmIn, at, count);
      opening, handed := false, stream.pcmIn[at..at + count];
    }

    /** A request that the mixer could not meet changes nothing but its status. */
    method Miss(status: int)
      requires Linked() && handed == []
      modifies this`failures, this`lastFailure
      ensures Linked() && failures == old(failures) + 1 && lastFailure == status
    {
      failures, lastFailure := failures + 1, status;
    }

    method AskMixer(frames: nat, ghost enough: nat) returns (status: int, raw: array?<int16>, at: nat, count: nat)
      requires mixer != null && Linked() && Clear() && handed == [] && 0 < frames && enough <= PERIOD
      modifies this`opening, this`handed, this`failures, this`lastFailure, Footprint()
      ensures Linked() && mixer.provider.pcmOpen == old(mixer.provider.pcmOpen) && Outcome(raw != null, old(Asked()))
      ensures raw == null ==> opening == old(opening) && handed == []
      ensures raw == null ==> failures == old(failures) + 1 && lastFailure == status
      ensures raw != null ==> !opening && failures == old(failures) && status == 0 && raw in Footprint()
      ensures raw != null ==> 0 < count <= frames && at + count <= raw.Length && handed == raw[at..at + count]
      ensures raw != null && old(opening) ==> enough <= count || frames <= count
    {
      ghost var seen := mixer.provider.captured;
      status, raw, at, count := ClearFrames(frames);
      if raw == null {
        Miss(status);
      } else {
        Lend(at, count, seen);
      }
    }

    /** Frames that have been released. */
    method Give()
      requires !opening
      requires mixer != null ==> mixer.provider.Valid() && mixer.provider.since == openedFrom
      requires mixer != null ==>
                 Averages(given + handed, openedAt, [], mixer.provider.captured, mixer.provider.taken)
      modifies this`given, this`handed
      ensures Linked() && given == old(given) + old(handed) && handed == []
    {
      given, handed := given + handed, [];
    }

    method ReleaseBuffer(count: nat)
      requires Linked() && count == |handed| && !opening
      modifies this`given, this`handed, Streams()`inPcmInBuf, Streams()`taken
      ensures Linked() && given == old(given) + old(handed) && handed == []
    {
      if mixer != null {
        AveragesReleased(given, openedAt, handed, mixer.provider.captured, mixer.provider.taken);
        mixer.ReleaseBuffer(count);
      }
      Give();
    }
  }
}
