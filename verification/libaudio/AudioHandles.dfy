/**
 * The shared PCM and mixer handles of AudioHardware with their reference counts, and the streams that hold
 * them: opening, closing and standby. The driver's answers are parameters.
 */
module AudioHandles {

  datatype Handles = Handles(pcmOpen: bool, pcmCnt: nat, mixerOpen: bool, mixerCnt: nat)

  /** openPcmOut_l: the handles afterwards, and whether the caller got one. */
  function OpenPcm(h: Handles, driver: bool): (Handles, bool) {
    if h.pcmCnt == 0 then
      if h.pcmOpen then (h, false)
      else if driver then (h.(pcmOpen := true, pcmCnt := 1), true)
      else (h, false)
    else (h.(pcmCnt := h.pcmCnt + 1), h.pcmOpen)
  }

  function ClosePcm(h: Handles): Handles {
    if h.pcmCnt == 0 then h
    else if h.pcmCnt == 1 then h.(pcmOpen := false, pcmCnt := 0)
    else h.(pcmCnt := h.pcmCnt - 1)
  }

  function OpenMixer(h: Handles, driver: bool): (Handles, bool) {
    if h.mixerCnt == 0 then
      if h.mixerOpen then (h, false)
      else if driver then (h.(mixerOpen := true, mixerCnt := 1), true)
      else (h, false)
    else (h.(mixerCnt := h.mixerCnt + 1), h.mixerOpen)
  }

  function CloseMixer(h: Handles): Handles {
    if h.mixerCnt == 0 then h
    else if h.mixerCnt == 1 then h.(mixerOpen := false, mixerCnt := 0)
    else h.(mixerCnt := h.mixerCnt - 1)
  }

  /** The same, as the object runs it: the counters and handles change in place. */
  class AudioHardware {
    var pcmOpen: bool
    var pcmOpenCnt: nat
    var mixerOpen: bool
    var mixerOpenCnt: nat

    ghost function Value(): Handles
      reads this
    {
      Handles(pcmOpen, pcmOpenCnt, mixerOpen, mixerOpenCnt)
    }

    constructor ()
      ensures Value() == Handles(false, 0, false, 0)
    {
      pcmOpen, pcmOpenCnt, mixerOpen, mixerOpenCnt := false, 0, false, 0;
    }

    method OpenPcmOut(driver: bool) returns (got: bool)
      modifies this
      ensures (Value(), got) == OpenPcm(old(Value()), driver)
    {
      pcmOpenCnt := pcmOpenCnt + 1;
      if pcmOpenCnt == 1 {
        if pcmOpen {
          pcmOpenCnt := pcmOpenCnt - 1;
          return false;
        }
        pcmOpen := true;
        if !driver {
          pcmOpenCnt := pcmOpenCnt - 1;
          pcmOpen := false;
        }
      }
      return pcmOpen;
    }

    method ClosePcmOut()
      modifies this
      ensures Value() == ClosePcm(old(Value()))
    {
      if pcmOpenCnt == 0 {
        return;
      }
      pcmOpenCnt := pcmOpenCnt - 1;
      if pcmOpenCnt == 0 {
        pcmOpen := false;
      }
    }

    method AcquireMixer(driver: bool) returns (got: bool)
      modifies this
      ensures (Value(), got) == OpenMixer(old(Value()), driver)
    {
      mixerOpenCnt := mixerOpenCnt + 1;
      if mixerOpenCnt == 1 {
        if mixerOpen {
          mixerOpenCnt := mixerOpenCnt - 1;
          return false;
        }
        mixerOpen := driver;
        if !mixerOpen {
          mixerOpenCnt := mixerOpenCnt - 1;
          return false;
        }
      }
      return mixerOpen;
    }

    method ReleaseMixer()
      modifies this
      ensures Value() == CloseMixer(old(Value()))
    {
      if mixerOpenCnt == 0 {
        return;
      }
      mixerOpenCnt := mixerOpenCnt - 1;
      if mixerOpenCnt == 0 {
        mixerOpen := false;
      }
    }
  }

  // ---------------------------------------------------------------- streams

  /** What a stream keeps about its state: standby, how often it went there, and the handles it holds. */
  datatype Stream = Stream(standby: bool, cnt: nat, pcm: bool, mixer: bool)

  /** The hardware with its open streams. inCall says whether call mode holds its own pair of handles. */
  datatype Hw = Hw(handles: Handles, inCall: bool, calling: bool, hasOut: bool, out: Stream, ins: seq<Stream>)

  /** How the driver answers the opens of one operation. */
  datatype Driver = Driver(pcm: bool, mixer: bool, inPcm: bool, inMixer: bool)

  /** AudioStreamOutALSA::close_l. */
  function CloseOut(hw: Hw): Hw {
    var h1 := if hw.out.mixer then CloseMixer(hw.handles) else hw.handles;
    var h2 := if hw.out.pcm then ClosePcm(h1) else h1;
    hw.(handles := h2, out := hw.out.(pcm := false, mixer := false))
  }

  /** AudioStreamOutALSA::open_l. It failed if the stream has no PCM afterwards. */
  function OpenOut(hw: Hw, d: Driver): Hw {
    var (h1, pcm) := OpenPcm(hw.handles, d.pcm);
    if !pcm then hw.(handles := h1, out := hw.out.(pcm := false))
    else
      var (h2, mixer) := OpenMixer(h1, d.mixer);
      hw.(handles := h2, out := hw.out.(pcm := true, mixer := mixer))
  }

  /** AudioStreamOutALSA::doStandby_l. */
  function StandbyOut(hw: Hw): Hw {
    CloseOut(hw.(out := hw.out.(cnt := hw.out.cnt + 1, standby := true)))
  }

  function SetIn(hw: Hw, i: nat, s: Stream): Hw
    requires i < |hw.ins|
  {
    hw.(ins := hw.ins[i := s])
  }

  function CloseIn(hw: Hw, i: nat): Hw
    requires i < |hw.ins|
  {
    var h1 := if hw.ins[i].mixer then CloseMixer(hw.handles) else hw.handles;
    SetIn(hw.(handles := h1), i, hw.ins[i].(pcm := false, mixer := false))
  }

  /** AudioStreamInALSA::open_l: a PCM of its own, and the shared mixer. */
  function OpenIn(hw: Hw, i: nat, d: Driver): Hw
    requires i < |hw.ins|
  {
    if !d.inPcm then SetIn(hw, i, hw.ins[i].(pcm := false))
    else
      var (h1, mixer) := OpenMixer(hw.handles, d.inMixer);
      SetIn(hw.(handles := h1), i, hw.ins[i].(pcm := true, mixer := mixer))
  }

  function StandbyIn(hw: Hw, i: nat): Hw
    requires i < |hw.ins|
  {
    CloseIn(SetIn(hw, i, hw.ins[i].(cnt := hw.ins[i].cnt + 1, standby := true)), i)
  }

  /** getActiveInput_l: the first input that is not in standby. */
  function FirstActive(ins: seq<Stream>, from: nat): (r: int)
    requires from <= |ins|
    ensures r == -1 || (from <= r < |ins| && !ins[r].standby)
    ensures forall k :: from <= k < (if r == -1 then |ins| else r) ==> ins[k].standby
    decreases |ins| - from
  {
    if from == |ins| then -1 else if !ins[from].standby then from else FirstActive(ins, from + 1)
  }

  function ActiveInput(hw: Hw): (r: int)
    ensures r == -1 || (0 <= r < |hw.ins| && !hw.ins[r].standby)
  {
    FirstActive(hw.ins, 0)
  }

  // ---------------------------------------------------------------- the accounts

  function Unit(b: bool): nat {
    if b then 1 else 0
  }

  function InMixers(ins: seq<Stream>): nat {
    if ins == [] then 0 else Unit(ins[0].mixer) + InMixers(ins[1..])
  }

  lemma {:induction false} InMixersUpdate(ins: seq<Stream>, i: nat, s: Stream)
    requires i < |ins|
    ensures InMixers(ins[i := s]) == InMixers(ins) - Unit(ins[i].mixer) + Unit(s.mixer)
  {
    if i == 0 {
      assert ins[0 := s][1..] == ins[1..];
    } else {
      assert ins[i := s][1..] == ins[1..][i - 1 := s];
      InMixersUpdate(ins[1..], i - 1, s);
    }
  }

  /** A stream in standby holds nothing, and one without a PCM holds no mixer. */
  predicate Sound(s: Stream) {
    (s.standby ==> !s.pcm) && (!s.pcm ==> !s.mixer)
  }

  /** The counts are exactly what the streams and call mode hold, and a handle is open exactly while counted. */
  predicate Accounts(hw: Hw) {
    && hw.handles.pcmCnt == Unit(hw.out.pcm) + Unit(hw.inCall)
    && hw.handles.mixerCnt == Unit(hw.out.mixer) + Unit(hw.inCall) + InMixers(hw.ins)
    && (hw.handles.pcmOpen <==> hw.handles.pcmCnt > 0)
    && (hw.handles.mixerOpen <==> hw.handles.mixerCnt > 0)
  }

  /** The accounts, and every stream is sound. */
  predicate Balanced(hw: Hw) {
    Accounts(hw) && Sound(hw.out) && forall i :: 0 <= i < |hw.ins| ==> Sound(hw.ins[i])
  }

  lemma InMixersHas(ins: seq<Stream>, i: nat)
    requires i < |ins| && ins[i].mixer
    ensures InMixers(ins) > 0
  {
    InMixersUpdate(ins, i, ins[i].(mixer := false));
    assert ins[i := ins[i].(mixer := false)][i := ins[i]] == ins;
  }

  lemma CloseOutAccounts(hw: Hw)
    requires Accounts(hw)
    ensures Accounts(CloseOut(hw))
  {
  }

  lemma OpenOutAccounts(hw: Hw, d: Driver)
    requires Accounts(hw) && !hw.out.pcm && !hw.out.mixer
    ensures Accounts(OpenOut(hw, d))
  {
  }

  lemma StandbyOutAccounts(hw: Hw)
    requires Accounts(hw)
    ensures Accounts(StandbyOut(hw))
  {
  }

  lemma CloseInAccounts(hw: Hw, i: nat)
    requires Accounts(hw) && i < |hw.ins|
    ensures Accounts(CloseIn(hw, i))
  {
    var s := hw.ins[i].(pcm := false, mixer := false);
    InMixersUpdate(hw.ins, i, s);
    if hw.ins[i].mixer { InMixersHas(hw.ins, i); }
  }

  /** Opening an input that holds no mixer keeps the accounts. */
  lemma OpenInAccounts(hw: Hw, i: nat, d: Driver)
    requires Accounts(hw) && i < |hw.ins| && !hw.ins[i].mixer
    ensures Accounts(OpenIn(hw, i, d))
  {
    InMixersUpdate(hw.ins, i, OpenIn(hw, i, d).ins[i]);
  }

  lemma StandbyInAccounts(hw: Hw, i: nat)
    requires Accounts(hw) && i < |hw.ins|
    ensures Accounts(StandbyIn(hw, i))
  {
    var s := hw.ins[i].(cnt := hw.ins[i].cnt + 1, standby := true);
    InMixersUpdate(hw.ins, i, s);
    CloseInAccounts(SetIn(hw, i, s), i);
  }

  // ---------------------------------------------------------------- call mode

  /** The part of setMode that enters call mode, with the streams it holds. */
  function EnterCall(hw: Hw, holdsOut: bool, holdsIn: int, d: Driver): Hw
    requires holdsIn < |hw.ins|
  {
    var hw1 := if holdsOut then StandbyOut(hw) else hw;
    var hw2 := if holdsIn >= 0 then StandbyIn(hw1, holdsIn) else hw1;
    var (h1, pcm) := OpenPcm(hw2.handles, d.pcm);
    var (h2, mixer) := OpenMixer(h1, d.mixer);
    hw2.(handles := h2, inCall := true)
  }

  /** Did both of call mode's own opens give a handle? */
  predicate CallOpens(hw: Hw, holdsOut: bool, holdsIn: int, d: Driver)
    requires holdsIn < |hw.ins|
  {
    var hw1 := if holdsOut then StandbyOut(hw) else hw;
    var hw2 := if holdsIn >= 0 then StandbyIn(hw1, holdsIn) else hw1;
    OpenPcm(hw2.handles, d.pcm).1 && OpenMixer(hw2.handles, d.mixer).1
  }

  function LeaveCall(hw: Hw, holdsOut: bool, holdsIn: int): Hw
    requires holdsIn < |hw.ins|
  {
    var hw1 := hw.(handles := ClosePcm(CloseMixer(hw.handles)), inCall := false);
    var hw2 := if holdsOut then StandbyOut(hw1) else hw1;
    if holdsIn >= 0 then StandbyIn(hw2, holdsIn) else hw2
  }

  lemma StandbysAccount(hw: Hw, holdsOut: bool, holdsIn: int)
    requires Accounts(hw) && holdsIn < |hw.ins|
    ensures var hw1 := if holdsOut then StandbyOut(hw) else hw;
            && |hw1.ins| == |hw.ins|
            && Accounts(if holdsIn >= 0 then StandbyIn(hw1, holdsIn) else hw1)
  {
    if holdsOut { StandbyOutAccounts(hw); }
    var hw1 := if holdsOut then StandbyOut(hw) else hw;
    if holdsIn >= 0 { StandbyInAccounts(hw1, holdsIn); }
  }

  lemma CallCounts(hw: Hw, d: Driver)
    requires Accounts(hw) && !hw.inCall
    ensures var (h1, pcm) := OpenPcm(hw.handles, d.pcm);
            var (h2, mixer) := OpenMixer(h1, d.mixer);
            Accounts(hw.(handles := h2, inCall := true)) <==> pcm && OpenMixer(hw.handles, d.mixer).1
  {
  }

  /**
   * Entering call mode keeps the accounts exactly when both of its opens succeed: a failed one is not counted,
   * yet the mode is entered all the same and will close what it never opened.
   */
  lemma EnterCallAccountsIff(hw: Hw, holdsOut: bool, holdsIn: int, d: Driver)
    requires Accounts(hw) && !hw.inCall && holdsIn < |hw.ins|
    ensures Accounts(EnterCall(hw, holdsOut, holdsIn, d)) <==> CallOpens(hw, holdsOut, holdsIn, d)
  {
    StandbysAccount(hw, holdsOut, holdsIn);
    var hw1 := if holdsOut then StandbyOut(hw) else hw;
    CallCounts(if holdsIn >= 0 then StandbyIn(hw1, holdsIn) else hw1, d);
  }

  /** With nothing open and a driver that refuses, call mode is entered all the same and the counts are short. */
  lemma FailedOpenMiscounts()
    ensures exists hw: Hw, d: Driver :: Balanced(hw) && !hw.inCall && !Accounts(EnterCall(hw, false, -1, d))
  {
    var hw := Hw(Handles(false, 0, false, 0), false, false, false, Stream(true, 0, false, false), []);
    var d := Driver(false, false, false, false);
    assert Balanced(hw) && !CallOpens(hw, false, -1, d);
    EnterCallAccountsIff(hw, false, -1, d);
  }

  lemma LeaveCallAccounts(hw: Hw, holdsOut: bool, holdsIn: int)
    requires Accounts(hw) && hw.inCall && holdsIn < |hw.ins|
    ensures Accounts(LeaveCall(hw, holdsOut, holdsIn))
  {
    var hw1 := hw.(handles := ClosePcm(CloseMixer(hw.handles)), inCall := false);
    assert Accounts(hw1);
    StandbysAccount(hw1, holdsOut, holdsIn);
  }
}
