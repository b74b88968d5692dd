/** Mono capture at work: the driver, the capture stream, the mixer and the down-sampler plugged together. */
module CaptureSessions {
  import opened FixedPoint
  import opened Cascade
  import opened Capture
  import opened BufferProviders
  import opened DownSamplers

  /** A down-sampler with a provider between two requests, whether the PCM is open or not. */
  ghost predicate AtRest(sampler: DownSampler)
    reads sampler, sampler.provider, sampler.provider.Footprint()
  {
    sampler.status == NO_ERROR && sampler.provider.Linked() && sampler.provider.handed == []
  }

  /** set(), for one channel at one of the lower rates. */
  method Assemble(driver: nat -> ReadResult, hz: int) returns (sampler: DownSampler)
    requires Supported(hz) && forall k :: Possible(driver(k))
    ensures fresh(sampler) && fresh(sampler.provider) && fresh(sampler.provider.Footprint())
    ensures sampler.Shape() && sampler.provider.mixer != null && AtRest(sampler)
    ensures fresh(sampler.inLeft) && fresh(sampler.tmpLeft) && fresh(sampler.tmp2Left) && fresh(sampler.outLeft)
    ensures sampler.sampleRate == hz && sampler.filters == Filters(TAPS_22KHZ, TAPS_16KHZ)
    ensures sampler.provider.mixer.provider.driver == driver && sampler.provider.mixer.provider.asked == 0
    ensures !sampler.provider.Connected() && sampler.provider.mixer.status == NO_ERROR
  {
    var provider := AssembleProvider(driver);
    sampler := new DownSampler(hz, provider);
  }

  method AssembleProvider(driver: nat -> ReadResult) returns (provider: BufferProvider)
    requires forall k :: Possible(driver(k))
    ensures fresh(provider) && fresh(provider.Footprint())
    ensures provider.mixer != null && provider.Linked() && provider.handed == []
    ensures provider.mixer.provider.driver == driver && provider.mixer.provider.asked == 0 && !provider.Connected()
    ensures provider.mixer.status == NO_ERROR
  {
    var stream := new CaptureStream(driver);
    var mixer := new ChannelMixer(1, 2, stream);
    provider := new BufferProvider.OfMixer(mixer);
  }

  /** open_l: a full period will come first, and that is enough for every rate. */
  method Open(sampler: DownSampler, opens: bool) returns (status: int)
    requires sampler.Shape() && sampler.provider.mixer != null && AtRest(sampler)
    modifies sampler, sampler.provider, sampler.provider.Footprint()
    ensures status == if opens then NO_ERROR else NO_INIT
    ensures opens ==> sampler.Ready() && sampler.delivered == []
    ensures !opens ==> AtRest(sampler)
    ensures sampler.provider.mixer.provider.asked == old(sampler.provider.mixer.provider.asked)
    ensures opens ==> sampler.provider.openedFrom == sampler.provider.mixer.provider.asked
    ensures sampler.provider.Connected() <==> opens
  {
    status := sampler.provider.Reopen(opens);
    if !opens {
      return;
    }
    sampler.Reset();
  }

  /** A read that has made the driver's reads from one to another fails exactly if the last of them has failed. */
  predicate Served(driver: nat -> ReadResult, from: nat, to: nat, status: int) {
    && from <= to
    && if status == NO_ERROR then forall k :: from <= k < to ==> driver(k).Read?
       else from < to && driver(to - 1) == Failed(status) && forall k :: from <= k < to - 1 ==> driver(k).Read?
  }

  /**
   * The loop of read around resample, which runs once: either all the frames are there, or the driver has failed
   * and left its status.
   */
  method Fetch(sampler: DownSampler, out: array<int16>, frames: nat) returns (made: nat)
    requires sampler.Ready() && sampler.provider.mixer != null && sampler.Foreign(out) && frames <= out.Length
    modifies sampler, sampler.inLeft, sampler.tmpLeft, sampler.tmp2Left, sampler.outLeft, out
    modifies sampler.provider, sampler.provider.Footprint()
    ensures sampler.Ready() && sampler.provider.openedFrom == old(sampler.provider.openedFrom)
    ensures made <= frames && (made == frames <==> sampler.provider.mixer.provider.readStatus == NO_ERROR)
    ensures sampler.delivered == old(sampler.delivered) + out[..made]
    ensures sampler.provider.Connected() == old(sampler.provider.Connected())
    ensures var stream := sampler.provider.mixer.provider;
            old(sampler.provider.Connected()) ==>
              Served(stream.driver, old(sampler.provider.Asked()), stream.asked, stream.readStatus)
  {
    sampler.provider.mixer.provider.BeginRead();
    var ret;
    ret, made := sampler.Resample(out, frames);
  }

  // ---------------------------------------------------------------- what the application has got

  /**
   * What one stream, from an open to the next, has given to the application, and which reads of the driver it spans;
   * taken is how many of their frames have gone into the down-sampler.
   */
  datatype Segment = Segment(from: nat, to: nat, taken: nat, got: seq<int16>)

  ghost predicate Follows(driver: nat -> ReadResult, hz: int, filters: Filters, s: Segment)
    requires Supported(hz)
  {
    && s.from <= s.to && 2 * s.taken <= |Heard(driver, s.from, s.to)|
    && s.got <= Output(hz, filters, Mono(Heard(driver, s.from, s.to)[..2 * s.taken]))
  }

  /** The latest comes last. */
  datatype List<T> = Nothing | Then(before: List<T>, last: T)

  function Count<T>(list: List<T>): nat {
    match list case Nothing => 0 case Then(before, _) => Count(before) + 1
  }

  /** Every stream follows the reference, and ends before the next one begins. */
  ghost predicate AllFollow(driver: nat -> ReadResult, hz: int, filters: Filters, streams: List<Segment>, asked: nat)
    requires Supported(hz)
  {
    match streams
    case Nothing => true
    case Then(before, last) =>
      && Follows(driver, hz, filters, last) && last.to <= asked
      && AllFollow(driver, hz, filters, before, last.from)
  }

  /** What the application sees of a stream: how many reads of the driver came before it, and what it has given. */
  datatype Piece = Piece(from: nat, got: seq<int16>)

  function Outline(streams: List<Segment>): List<Piece> {
    match streams
    case Nothing => Nothing
    case Then(before, last) => Then(Outline(before), Piece(last.from, last.got))
  }

  function Joined(pieces: List<Piece>): seq<int16> {
    match pieces case Nothing => [] case Then(before, last) => Joined(before) + last.got
  }

  /** An open that succeeds begins a piece. */
  function Begun(pieces: List<Piece>, opens: bool, at: nat): List<Piece> {
    if opens then Then(pieces, Piece(at, [])) else pieces
  }

  /** Frames that are returned belong to the last piece. */
  function Extended(pieces: List<Piece>, more: seq<int16>): List<Piece> {
    match pieces
    case Nothing => Nothing
    case Then(before, last) => Then(before, Piece(last.from, last.got + more))
  }

  lemma ExtendedByNothing(pieces: List<Piece>)
    ensures Extended(pieces, []) == pieces
  {
    if pieces.Then? { assert pieces.last.got + [] == pieces.last.got; }
  }

  /** What the application has seen, and the streams it came from. */
  datatype Log = Log(pieces: List<Piece>, streams: List<Segment>)

  ghost predicate Recorded(driver: nat -> ReadResult, hz: int, filters: Filters, log: Log, asked: nat)
    requires Supported(hz)
  {
    AllFollow(driver, hz, filters, log.streams, asked) && log.pieces == Outline(log.streams)
  }

  function Opened(log: Log, at: nat): Log {
    Log(Begun(log.pieces, true, at), Then(log.streams, Segment(at, at, 0, [])))
  }

  function Grown(log: Log, s: Segment, more: seq<int16>): Log {
    Log(Extended(log.pieces, more), if log.streams.Then? then Then(log.streams.before, s) else Nothing)
  }

  lemma RecordOpened(driver: nat -> ReadResult, hz: int, filters: Filters, log: Log, at: nat)
    requires Supported(hz) && Recorded(driver, hz, filters, log, at)
    ensures Recorded(driver, hz, filters, Opened(log, at), at)
  {
    assert Follows(driver, hz, filters, Segment(at, at, 0, []));
  }

  lemma RecordGrown(driver: nat -> ReadResult, hz: int, filters: Filters, log: Log, asked: nat,
                    s: Segment, more: seq<int16>)
    requires Supported(hz) && log.pieces.Then? && Recorded(driver, hz, filters, log, asked)
    requires Follows(driver, hz, filters, s)
    requires s.from == log.pieces.last.from && s.got == log.pieces.last.got + more
    ensures Recorded(driver, hz, filters, Grown(log, s, more), s.to)
  {
  }

  // ---------------------------------------------------------------- the capture stream as its caller sees it

  /** What can happen to an input; opens says whether pcm_open succeeds, should it be called. */
  datatype Event =
    | Request(frames: nat, opens: bool)  // the application reads
    | Standby                            // standby() or setParameters() from elsewhere
    | Reopen(opens: bool)                // write() wakes the output, and closes and opens the input on its way

  datatype Answer = Frames(frames: seq<int16>) | Error(status: int) | Done

  /** Is the input active after the event e, answered by a, if it was before? */
  predicate Awake(active: bool, e: Event, a: Answer) {
    match e
    case Request(_, _) => a.Frames?
    case Standby => false
    case Reopen(opens) => active && opens
  }

  /** Does the event open the PCM? */
  predicate Starts(active: bool, e: Event) {
    match e
    case Request(_, opens) => !active && opens
    case Standby => false
    case Reopen(opens) => active && opens
  }

  /** The answer an event has, according to the reads it makes: all the frames asked for, or an error and none. */
  predicate Suits(driver: nat -> ReadResult, active: bool, e: Event, a: Answer, from: nat, to: nat) {
    match e
    case Request(frames, opens) =>
      if !active && !opens then a == Error(NO_INIT) && from == to
      else if a.Frames? then |a.frames| == frames && Served(driver, from, to, NO_ERROR)
      else a.Error? && a.status != NO_ERROR && Served(driver, from, to, a.status)
    case _ => a.Done? && from == to
  }

  function Got(a: Answer): seq<int16> {
    if a.Frames? then a.frames else []
  }

  predicate AwakeAfter(events: seq<Event>, answers: seq<Answer>)
    requires |events| == |answers|
  {
    if events == [] then false
    else
      var n := |events| - 1;
      Awake(AwakeAfter(events[..n], answers[..n]), events[n], answers[n])
  }

  /** Does the event, with its answer, leave an active input active? */
  predicate Spares(e: Event, a: Answer) {
    !e.Standby? && (e.Request? ==> a.Frames?) && (e.Reopen? ==> e.opens)
  }

  /** The input is active exactly if some read has returned frames, and nothing since has put it in standby. */
  lemma {:induction false} AwakeIff(events: seq<Event>, answers: seq<Answer>)
    requires |events| == |answers|
    ensures AwakeAfter(events, answers) <==>
              exists k :: 0 <= k < |events| && events[k].Request? && answers[k].Frames?
                && forall j :: k < j < |events| ==> Spares(events[j], answers[j])
  {
    if events != [] {
      var n := |events| - 1;
      AwakeIff(events[..n], answers[..n]);
      if k :| 0 <= k < n && events[..n][k].Request? && answers[..n][k].Frames?
              && (forall j :: k < j < n ==> Spares(events[..n][j], answers[..n][j])) && Spares(events[n], answers[n]) {
        assert forall j :: k < j < |events| ==>
                 (j < n ==> Spares(events[..n][j], answers[..n][j])) && Spares(events[j], answers[j]);
        assert events[k].Request? && answers[k].Frames?;
      }
      if k :| 0 <= k < |events| && events[k].Request? && answers[k].Frames?
              && forall j :: k < j < |events| ==> Spares(events[j], answers[j]) {
        if k < n {
          assert events[..n][k].Request? && answers[..n][k].Frames?;
          assert forall j :: k < j < n ==> Spares(events[j], answers[j]) && Spares(events[..n][j], answers[..n][j]);
        }
      }
    }
  }

  /** How often the PCM was opened. */
  function StartsIn(events: seq<Event>, answers: seq<Answer>): nat
    requires |events| == |answers|
  {
    if events == [] then 0
    else
      var n := |events| - 1;
      StartsIn(events[..n], answers[..n]) + if Starts(AwakeAfter(events[..n], answers[..n]), events[n]) then 1 else 0
  }

  /** marks has how many reads had been made before each event, and in the end. */
  predicate AllSuit(driver: nat -> ReadResult, events: seq<Event>, answers: seq<Answer>, marks: seq<nat>)
    requires |events| == |answers| && |marks| == |events| + 1
  {
    events == [] ||
      var n := |events| - 1;
      && AllSuit(driver, events[..n], answers[..n], marks[..n + 1])
      && Suits(driver, AwakeAfter(events[..n], answers[..n]), events[n], answers[n], marks[n], marks[n + 1])
  }

  /**
   * The pieces that the answers make: an event that opens the PCM begins one, after the reads made so far, and what is
   * returned until the next such event belongs to it.
   */
  function Pieces(events: seq<Event>, answers: seq<Answer>, marks: seq<nat>): List<Piece>
    requires |events| == |answers| && |marks| == |events| + 1
  {
    if events == [] then Nothing
    else
      var n := |events| - 1;
      var before := Pieces(events[..n], answers[..n], marks[..n + 1]);
      var opens := Starts(AwakeAfter(events[..n], answers[..n]), events[n]);
      Extended(Begun(before, opens, marks[n]), Got(answers[n]))
  }

  function AllGot(answers: seq<Answer>): seq<int16> {
    if answers == [] then [] else AllGot(answers[..|answers| - 1]) + Got(answers[|answers| - 1])
  }

  /** What the answers say about the state they have led to. */
  predicate Tallies(driver: nat -> ReadResult, events: seq<Event>, answers: seq<Answer>, marks: seq<nat>,
                    active: bool, log: Log, asked: nat) {
    && |answers| == |events| && |marks| == |events| + 1 && marks[|events|] == asked
    && active == AwakeAfter(events, answers) && AllSuit(driver, events, answers, marks)
    && log.pieces == Pieces(events, answers, marks)
  }

  lemma TallyNext(driver: nat -> ReadResult, events: seq<Event>, answers: seq<Answer>, marks: seq<nat>,
                  was: bool, before: Log, from: nat, a: Answer, active: bool, log: Log, to: nat)
    requires events != []
    requires var n := |events| - 1;
             && Tallies(driver, events[..n], answers, marks, was, before, from)
             && Suits(driver, was, events[n], a, from, to) && active == Awake(was, events[n], a)
             && log.pieces == Extended(Begun(before.pieces, Starts(was, events[n]), from), Got(a))
    ensures Tallies(driver, events, answers + [a], marks + [to], active, log, to)
  {
    var n := |events| - 1;
    assert (answers + [a])[..n] == answers && (marks + [to])[..n + 1] == marks;
  }

  /** A log of these pieces, from streams that follow what has been heard so far. */
  ghost predicate Entry(driver: nat -> ReadResult, hz: int, filters: Filters, log: Log, asked: nat, pieces: List<Piece>)
    requires Supported(hz)
  {
    Recorded(driver, hz, filters, log, asked) && log.pieces == pieces
  }

  /** At the start and after each event, the log has the pieces that the answers so far make. */
  ghost predicate Chronicle(driver: nat -> ReadResult, hz: int, filters: Filters, events: seq<Event>,
                            answers: seq<Answer>, marks: seq<nat>, logs: seq<Log>)
    requires Supported(hz)
  {
    && |answers| == |events| && |marks| == |logs| == |events| + 1
    && Entry(driver, hz, filters, logs[|events|], marks[|events|], Pieces(events, answers, marks))
    && (events != [] ==>
          var n := |events| - 1;
          Chronicle(driver, hz, filters, events[..n], answers[..n], marks[..n + 1], logs[..n + 1]))
  }

  lemma ChronicleNext(driver: nat -> ReadResult, hz: int, filters: Filters, events: seq<Event>, answers: seq<Answer>,
                      marks: seq<nat>, logs: seq<Log>, a: Answer, to: nat, log: Log)
    requires Supported(hz) && events != []
    requires Chronicle(driver, hz, filters, events[..|events| - 1], answers, marks, logs)
    requires Entry(driver, hz, filters, log, to, Pieces(events, answers + [a], marks + [to]))
    ensures Chronicle(driver, hz, filters, events, answers + [a], marks + [to], logs + [log])
  {
    var n := |events| - 1;
    assert (answers + [a])[..n] == answers && (marks + [to])[..n + 1] == marks && (logs + [log])[..n + 1] == logs;
  }

  class CaptureSession {
    const sampler: DownSampler
    var standby: bool
    ghost var log: Log
    ghost const recorded: (Log, nat) -> bool  // Recorded, of this driver, rate and filters

    /** What never changes. (Triggered only where the record itself is mentioned.) */
    ghost predicate Shape() {
      && sampler.Shape() && sampler.provider.mixer != null
      && var driver, hz, filters := sampler.provider.mixer.provider.driver, sampler.sampleRate, sampler.filters;
         forall l, n {:trigger Recorded(driver, hz, filters, l, n)} ::
           recorded(l, n) == Recorded(driver, hz, filters, l, n)
    }

    ghost function Asked(): nat
      requires sampler.provider.mixer != null
      reads sampler.provider.mixer.provider
    {
      sampler.provider.mixer.provider.asked
    }

    ghost function Last(): Piece
      requires log.pieces.Then?
      reads this`log
    {
      log.pieces.last
    }

    /** While the input is active its last stream is the one the down-sampler is at work on. */
    ghost predicate Valid()
      requires Shape()
      reads this, sampler, sampler.provider, sampler.provider.Footprint()
      reads sampler.inLeft, sampler.tmpLeft, sampler.tmp2Left, sampler.outLeft
    {
      && recorded(log, Asked()) && (standby <==> !sampler.provider.Connected())
      && if standby then AtRest(sampler)
         else
           && sampler.Ready() && log.pieces.Then?
           && Last().from == sampler.provider.openedFrom && Last().got == sampler.delivered
    }

    constructor (sampler: DownSampler)
      requires sampler.Shape() && sampler.provider.mixer != null
      requires AtRest(sampler) && !sampler.provider.Connected()
      ensures this.sampler == sampler && Shape() && Valid() && standby && log == Log(Nothing, Nothing)
    {
      this.sampler, standby, log := sampler, true, Log(Nothing, Nothing);
      ghost var stream := sampler.provider.mixer.provider;
      recorded := (l: Log, n: nat) => Recorded(stream.driver, sampler.sampleRate, sampler.filters, l, n);
      new;
      assert Recorded(stream.driver, sampler.sampleRate, sampler.filters, log, stream.asked);
    }

    /** open_l, and what its callers do about its outcome. */
    method Start(opens: bool) returns (status: int)
      requires Shape() && recorded(log, Asked()) && AtRest(sampler)
      modifies this`standby, this`log, sampler, sampler.provider, sampler.provider.Footprint()
      ensures Valid() && standby == !opens && status == if opens then NO_ERROR else NO_INIT
      ensures Asked() == old(Asked())
      ensures log.pieces == Begun(old(log.pieces), opens, Asked())
    {
      ghost var next := Opened(log, Asked());
      NewStream();
      status := Open(sampler, opens);
      standby := !opens;
      if opens {
        log := next;
      }
    }

    lemma NewStream()
      requires Shape() && recorded(log, Asked())
      ensures recorded(Opened(log, Asked()), Asked())
    {
      var driver, hz, filters := sampler.provider.mixer.provider.driver, sampler.sampleRate, sampler.filters;
      assert Recorded(driver, hz, filters, log, Asked());
      RecordOpened(driver, hz, filters, log, Asked());
    }

    /** doStandby_l. */
    method Sleep()
      requires Shape() && recorded(log, Asked()) && AtRest(sampler)
      modifies this`standby, sampler.provider.mixer.provider`pcmOpen
      ensures Valid() && standby
    {
      sampler.provider.Close();
      standby := true;
    }

    /** Writes down what the stream at work has come to, with more for the application. */
    ghost method Grow(before: nat, more: seq<int16>)
      requires Shape() && sampler.Ready() && log.pieces.Then? && recorded(log, before)
      requires Last().from == sampler.provider.openedFrom && Last().got + more <= sampler.delivered
      modifies this`log
      ensures recorded(log, Asked())
      ensures log.pieces == Extended(old(log.pieces), more)
      ensures Last().from == sampler.provider.openedFrom && Last().got == old(Last().got) + more
    {
      LastFollows(more);
      var stream := sampler.provider.mixer.provider;
      var s := Segment(Last().from, stream.asked, stream.taken, Last().got + more);
      assert Recorded(stream.driver, sampler.sampleRate, sampler.filters, log, before);
      RecordGrown(stream.driver, sampler.sampleRate, sampler.filters, log, before, s, more);
      log := Grown(log, s, more);
      assert Recorded(stream.driver, sampler.sampleRate, sampler.filters, log, stream.asked);
    }

    lemma LastFollows(more: seq<int16>)
      requires Shape() && sampler.Ready() && log.pieces.Then?
      requires Last().from == sampler.provider.openedFrom && Last().got + more <= sampler.delivered
      ensures var stream := sampler.provider.mixer.provider;
              Follows(stream.driver, sampler.sampleRate, sampler.filters,
                      Segment(Last().from, stream.asked, stream.taken, Last().got + more))
    {
      sampler.EndToEnd();
    }

    /** Fetches the frames of one read. */
    method Take(out: array<int16>, frames: nat) returns (status: int)
      requires Shape() && Valid() && !standby && sampler.Foreign(out) && frames <= out.Length
      modifies this`log, sampler, sampler.inLeft, sampler.tmpLeft, sampler.tmp2Left, sampler.outLeft, out
      modifies sampler.provider, sampler.provider.Footprint()
      ensures recorded(log, Asked()) && AtRest(sampler)
      ensures status == NO_ERROR ==> Valid()
      ensures log.pieces == Extended(old(log.pieces), if status == NO_ERROR then out[..frames] else [])
      ensures Served(sampler.provider.mixer.provider.driver, old(Asked()), Asked(), status)
    {
      ghost var before := Asked();
      var made := Fetch(sampler, out, frames);
      status := sampler.provider.mixer.provider.readStatus;
      Grow(before, if status == NO_ERROR then out[..frames] else []);
    }

    /** read, of an input that is active: all the frames or, after a failure, none, and then standby. */
    method ReadActive(out: array<int16>, frames: nat) returns (status: int)
      requires Shape() && Valid() && !standby && sampler.Foreign(out) && frames <= out.Length
      modifies this, sampler, sampler.inLeft, sampler.tmpLeft, sampler.tmp2Left, sampler.outLeft, out
      modifies sampler.provider, sampler.provider.Footprint()
      ensures Valid() && (standby <==> status != NO_ERROR)
      ensures log.pieces == Extended(old(log.pieces), if status == NO_ERROR then out[..frames] else [])
      ensures Served(sampler.provider.mixer.provider.driver, old(Asked()), Asked(), status)
    {
      status := Take(out, frames);
      if status != NO_ERROR {
        Sleep();
      }
    }

    /** read: opens the input if it is in standby. */
    method Read(out: array<int16>, frames: nat, opens: bool) returns (status: int)
      requires Shape() && Valid() && sampler.Foreign(out) && frames <= out.Length
      modifies this, sampler, sampler.inLeft, sampler.tmpLeft, sampler.tmp2Left, sampler.outLeft, out
      modifies sampler.provider, sampler.provider.Footprint()
      ensures Valid() && (standby <==> status != NO_ERROR)
      ensures var begun := Begun(old(log.pieces), old(standby) && opens, old(Asked()));
              log.pieces == Extended(begun, if status == NO_ERROR then out[..frames] else [])
      ensures if old(standby) && !opens then status == NO_INIT && Asked() == old(Asked())
              else Served(sampler.provider.mixer.provider.driver, old(Asked()), Asked(), status)
    {
      if standby {
        status := Start(opens);
        if status != NO_ERROR {
          Sleep();
          ExtendedByNothing(log.pieces);
          return;
        }
      }
      status := ReadActive(out, frames);
    }

    /** write, on its way: the input has been closed and is opened again, or left in standby. */
    method Renew(opens: bool)
      requires Shape() && Valid() && !standby
      modifies this`standby, this`log, sampler, sampler.provider, sampler.provider.Footprint()
      ensures Valid() && standby == !opens && Asked() == old(Asked())
      ensures log.pieces == Begun(old(log.pieces), opens, Asked())
    {
      sampler.provider.Close();
      var _ := Start(opens);
    }

    method Ask(frames: nat, opens: bool) returns (a: Answer)
      requires Shape() && Valid()
      modifies this, sampler, sampler.inLeft, sampler.tmpLeft, sampler.tmp2Left, sampler.outLeft
      modifies sampler.provider, sampler.provider.Footprint()
      ensures Valid() && (standby <==> !a.Frames?)
      ensures Suits(sampler.provider.mixer.provider.driver, !old(standby), Request(frames, opens), a,
                    old(Asked()), Asked())
      ensures log.pieces == Extended(Begun(old(log.pieces), old(standby) && opens, old(Asked())), Got(a))
    {
      var out := new int16[frames];
      var status := Read(out, frames, opens);
      a := if status == NO_ERROR then Frames(out[..frames]) else Error(status);
    }

    method Handle(e: Event) returns (a: Answer)
      requires Shape() && Valid()
      modifies this, sampler, sampler.inLeft, sampler.tmpLeft, sampler.tmp2Left, sampler.outLeft
      modifies sampler.provider, sampler.provider.Footprint()
      ensures Valid() && !standby == Awake(!old(standby), e, a)
      ensures Suits(sampler.provider.mixer.provider.driver, !old(standby), e, a, old(Asked()), Asked())
      ensures log.pieces == Extended(Begun(old(log.pieces), Starts(!old(standby), e), old(Asked())), Got(a))
    {
      match e
      case Request(frames, opens) =>
        a := Ask(frames, opens);
      case Standby =>
        ExtendedByNothing(log.pieces);
        Sleep();
        a := Done;
      case Reopen(opens) =>
        if !standby {
          Renew(opens);
        }
        ExtendedByNothing(log.pieces);
        a := Done;
    }

    lemma LogIsRecorded()
      requires Shape() && recorded(log, Asked())
      ensures Recorded(sampler.provider.mixer.provider.driver, sampler.sampleRate, sampler.filters, log, Asked())
    {
    }

    /** Any number of events, one after the other. */
    method HandleAll(events: seq<Event>)
      returns (answers: seq<Answer>, ghost marks: seq<nat>, ghost logs: seq<Log>)
      requires Shape() && Valid() && standby && log == Log(Nothing, Nothing)
      modifies this, sampler, sampler.inLeft, sampler.tmpLeft, sampler.tmp2Left, sampler.outLeft
      modifies sampler.provider, sampler.provider.Footprint()
      ensures Valid() && marks != [] && marks[0] == old(Asked())
      ensures Tallies(sampler.provider.mixer.provider.driver, events, answers, marks, !standby, log, Asked())
      ensures Chronicle(sampler.provider.mixer.provider.driver, sampler.sampleRate, sampler.filters,
                        events, answers, marks, logs)
      decreases |events|
    {
      ghost var driver := sampler.provider.mixer.provider.driver;
      if events == [] {
        LogIsRecorded();
        return [], [Asked()], [log];
      }
      var n := |events| - 1;
      answers, marks, logs := HandleAll(events[..n]);
      ghost var was, before, from := !standby, log, Asked();
      var a := Handle(events[n]);
      TallyNext(driver, events, answers, marks, was, before, from, a, !standby, log, Asked());
      LogIsRecorded();
      ChronicleNext(driver, sampler.sampleRate, sampler.filters, events, answers, marks, logs, a, Asked(), log);
      answers, marks, logs := answers + [a], marks + [Asked()], logs + [log];
    }
  }

  /** The pieces have all that was returned, and there is one for each open. */
  lemma {:induction false} PiecesAreAll(driver: nat -> ReadResult, events: seq<Event>, answers: seq<Answer>,
                                        marks: seq<nat>)
    requires |events| == |answers| && |marks| == |events| + 1 && AllSuit(driver, events, answers, marks)
    ensures var pieces := Pieces(events, answers, marks);
            && Joined(pieces) == AllGot(answers) && Count(pieces) == StartsIn(events, answers)
            && (AwakeAfter(events, answers) ==> pieces.Then?)
  {
    if events != [] {
      var n := |events| - 1;
      PiecesAreAll(driver, events[..n], answers[..n], marks[..n + 1]);
      var before := Pieces(events[..n], answers[..n], marks[..n + 1]);
      var begun := Begun(before, Starts(AwakeAfter(events[..n], answers[..n]), events[n]), marks[n]);
      JoinedExtended(begun, Got(answers[n]));
    }
  }

  lemma JoinedExtended(pieces: List<Piece>, more: seq<int16>)
    ensures Count(Extended(pieces, more)) == Count(pieces)
    ensures pieces.Then? || more == [] ==> Joined(Extended(pieces, more)) == Joined(pieces) + more
  {
    if pieces.Then? {
      var front, got := Joined(pieces.before), pieces.last.got;
      assert (front + got) + more == front + (got + more);
    }
  }

  /**
   * From the driver to the application: for any driver and rate, and any reads, standbys and reopenings with any
   * outcomes, after each event what the reads have returned from one successful open to the next is a prefix of the
   * reference cascade of the averages of the stereo frames that the driver has delivered in between. A read fails, and
   * returns nothing, exactly if the driver has failed it.
   */
  method CaptureAll(driver: nat -> ReadResult, hz: int, events: seq<Event>)
    returns (answers: seq<Answer>, ghost marks: seq<nat>, ghost logs: seq<Log>)
    requires Supported(hz) && forall k :: Possible(driver(k))
    ensures |answers| == |events| && |marks| == |logs| == |events| + 1 && marks[0] == 0
    ensures AllSuit(driver, events, answers, marks)
    ensures Chronicle(driver, hz, Filters(TAPS_22KHZ, TAPS_16KHZ), events, answers, marks, logs)
    ensures var pieces := Pieces(events, answers, marks);
            Joined(pieces) == AllGot(answers) && Count(pieces) == StartsIn(events, answers)
  {
    var sampler := Assemble(driver, hz);
    var session := new CaptureSession(sampler);
    answers, marks, logs := session.HandleAll(events);
    PiecesAreAll(driver, events, answers, marks);
  }

  /** With a driver that never fails every read of an input that is or can be opened returns all its frames. */
  lemma {:induction false} AllServed(driver: nat -> ReadResult, events: seq<Event>, answers: seq<Answer>,
                                     marks: seq<nat>, i: nat)
    requires |events| == |answers| && |marks| == |events| + 1 && AllSuit(driver, events, answers, marks)
    requires forall k :: driver(k).Read?
    requires i < |events| && events[i].Request? && (AwakeAfter(events[..i], answers[..i]) || events[i].opens)
    ensures answers[i].Frames? && |answers[i].frames| == events[i].frames
  {
    var n := |events| - 1;
    if i < n {
      assert events[..n][..i] == events[..i] && answers[..n][..i] == answers[..i];
      AllServed(driver, events[..n], answers[..n], marks[..n + 1], i);
    }
  }

  /** How many of the driver's first n reads fail. */
  function Failures(driver: nat -> ReadResult, n: nat): nat {
    if n == 0 then 0 else Failures(driver, n - 1) + if driver(n - 1).Failed? then 1 else 0
  }

  lemma {:induction false} NoFailures(driver: nat -> ReadResult, n: nat)
    ensures Failures(driver, n) == 0 <==> forall j :: 0 <= j < n ==> driver(j).Read?
  {
    if n > 0 { NoFailures(driver, n - 1); }
  }

  lemma {:induction false} FailuresServed(driver: nat -> ReadResult, from: nat, to: nat)
    requires from <= to && forall k :: from <= k < to ==> driver(k).Read?
    ensures Failures(driver, to) == Failures(driver, from)
  {
    if from < to { FailuresServed(driver, from, to - 1); }
  }

  /**
   * To an application that only reads, of an input that always opens, every failure of the driver but one in its last
   * read begins a new stream, and nothing else does. So all it gets is one stream, from the driver's first read on, if
   * and only if the driver has not failed before the last read.
   */
  lemma {:induction false} OneStreamIff(driver: nat -> ReadResult, events: seq<Event>, answers: seq<Answer>,
                                        marks: seq<nat>)
    requires events != [] && |answers| == |events| && |marks| == |events| + 1 && marks[0] == 0
    requires AllSuit(driver, events, answers, marks)
    requires forall k :: 0 <= k < |events| ==> events[k].Request? && events[k].opens
    ensures Count(Pieces(events, answers, marks)) == 1 + Failures(driver, marks[|events| - 1])
    ensures Pieces(events, answers, marks) == Then(Nothing, Piece(0, AllGot(answers)))
            <==> forall j :: 0 <= j < marks[|events| - 1] ==> driver(j).Read?
  {
    StartsAreFailures(driver, events, answers, marks);
    PiecesAreAll(driver, events, answers, marks);
    NoFailures(driver, marks[|events| - 1]);
    FirstPiece(driver, events, answers, marks);
    var pieces := Pieces(events, answers, marks);
    if pieces.before.Nothing? { assert [] + pieces.last.got == pieces.last.got; }
  }

  lemma {:induction false} StartsAreFailures(driver: nat -> ReadResult, events: seq<Event>, answers: seq<Answer>,
                                             marks: seq<nat>)
    requires events != [] && |answers| == |events| && |marks| == |events| + 1 && marks[0] == 0
    requires AllSuit(driver, events, answers, marks)
    requires forall k :: 0 <= k < |events| ==> events[k].Request? && events[k].opens
    ensures StartsIn(events, answers) == 1 + Failures(driver, marks[|events| - 1])
  {
    var n := |events| - 1;
    if n > 0 {
      StartsAreFailures(driver, events[..n], answers[..n], marks[..n + 1]);
      var from, to := marks[n - 1], marks[n];
      if answers[n - 1].Frames? {
        FailuresServed(driver, from, to);
      } else {
        FailuresServed(driver, from, to - 1);
      }
    }
  }

  /** A single piece has everything, and begins where the first read found the driver. */
  lemma {:induction false} FirstPiece(driver: nat -> ReadResult, events: seq<Event>, answers: seq<Answer>,
                                      marks: seq<nat>)
    requires events != [] && |answers| == |events| && |marks| == |events| + 1 && marks[0] == 0
    requires AllSuit(driver, events, answers, marks) && events[0].Request? && events[0].opens
    ensures var pieces := Pieces(events, answers, marks);
            pieces.Then? && (pieces.before.Nothing? ==> pieces.last.from == 0)
  {
    var n := |events| - 1;
    if n > 0 {
      FirstPiece(driver, events[..n], answers[..n], marks[..n + 1]);
    }
  }
}
