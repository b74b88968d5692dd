/** What each operation does to the streams, the counts and the mode, at the steps that change them, in every run. */
module HandshakeLaws {
  import opened AudioHandles
  import opened Handshake
  import opened HandshakeProofs
  import opened HandshakeTheorems
  import opened HandshakeAccounts

  // ---------------------------------------------------------------- setMode

  predicate HoldsNothing(s: Stream) {
    s.standby && !s.pcm && !s.mixer
  }

  /** The first active input is silenced and has given back what it held, and so has the output if out says so. */
  predicate Silenced(hw: Hw, hw': Hw, out: bool) {
    && |hw'.ins| == |hw.ins| && hw'.hasOut == hw.hasOut
    && (if out then HoldsNothing(hw'.out) else hw'.out == hw.out)
    && forall k :: 0 <= k < |hw.ins| ==>
         if k == ActiveInput(hw) then HoldsNothing(hw'.ins[k]) else hw'.ins[k] == hw.ins[k]
  }

  /** How many users the PCM and the mixer have left, once the output, if out says so, and the input have let go. */
  function PcmsLeft(hw: Hw, out: bool): int {
    hw.handles.pcmCnt - Unit(out && hw.out.pcm)
  }

  function MixersLeft(hw: Hw, out: bool): int {
    var i := ActiveInput(hw);
    hw.handles.mixerCnt - Unit(out && hw.out.mixer) - Unit(i >= 0 && hw.ins[i].mixer)
  }

  /** Call mode takes a PCM and a mixer, if the driver opens them or they are in use, and gives back one of each. */
  predicate Counted(hw: Hw, hw': Hw, out: bool, call: bool, d: Driver) {
    var pcms, mixers := PcmsLeft(hw, out), MixersLeft(hw, out);
    if call then
      && hw'.handles.pcmCnt == pcms + Unit(pcms > 0 || d.pcm)
      && hw'.handles.mixerCnt == mixers + Unit(mixers > 0 || d.mixer)
    else
      hw'.handles.pcmCnt == pcms - 1 && hw'.handles.mixerCnt == mixers - 1
  }

  lemma StandbyOutGivesBack(hw: Hw)
    requires Accounts(hw)
    ensures var hw' := StandbyOut(hw);
            && Accounts(hw') && HoldsNothing(hw'.out) && hw'.ins == hw.ins && hw'.hasOut == hw.hasOut
            && hw'.handles.pcmCnt == hw.handles.pcmCnt - Unit(hw.out.pcm)
            && hw'.handles.mixerCnt == hw.handles.mixerCnt - Unit(hw.out.mixer)
  {
    StandbyOutAccounts(hw);
  }

  lemma StandbyInGivesBack(hw: Hw, i: nat)
    requires Accounts(hw) && i < |hw.ins|
    ensures var hw' := StandbyIn(hw, i);
            && Accounts(hw') && hw'.out == hw.out && hw'.hasOut == hw.hasOut
            && hw'.ins == hw.ins[i := hw'.ins[i]] && HoldsNothing(hw'.ins[i])
            && hw'.handles.pcmCnt == hw.handles.pcmCnt
            && hw'.handles.mixerCnt == hw.handles.mixerCnt - Unit(hw.ins[i].mixer)
  {
    StandbyInAccounts(hw, i);
    if hw.ins[i].mixer { InMixersHas(hw.ins, i); }
  }

  lemma SilencingIs(hw: Hw, l: Local, d: Driver)
    requires Fits(hw, l) && l.at.MBody? && l.call != hw.inCall
    ensures var hw' := ChangeMode(hw, l, d, true);
            hw'.inCall == l.call && hw'.calling == l.call && Silenced(hw, hw', l.holdsOut)
  {
  }

  /** The hardware without the output, if it is held, and the first active input. */
  lemma LettingGo(hw: Hw, out: bool) returns (hw': Hw)
    requires Accounts(hw)
    ensures var hw1 := if out then StandbyOut(hw) else hw;
            && |hw1.ins| == |hw.ins| && ActiveInput(hw1) == ActiveInput(hw)
            && hw' == if ActiveInput(hw) >= 0 then StandbyIn(hw1, ActiveInput(hw)) else hw1
    ensures Accounts(hw') && hw'.handles.pcmCnt == PcmsLeft(hw, out) && hw'.handles.mixerCnt == MixersLeft(hw, out)
  {
    StandbyOutGivesBack(hw);
    hw' := if out then StandbyOut(hw) else hw;
    if ActiveInput(hw) >= 0 {
      StandbyInGivesBack(hw', ActiveInput(hw));
      hw' := StandbyIn(hw', ActiveInput(hw));
    }
  }

  /** Call mode's own opens. */
  lemma CallOpensCount(h: Handles, d: Driver)
    requires (h.pcmOpen <==> h.pcmCnt > 0) && (h.mixerOpen <==> h.mixerCnt > 0)
    ensures var h' := OpenMixer(OpenPcm(h, d.pcm).0, d.mixer).0;
            && h'.pcmCnt == h.pcmCnt + Unit(h.pcmCnt > 0 || d.pcm)
            && h'.mixerCnt == h.mixerCnt + Unit(h.mixerCnt > 0 || d.mixer)
  {
  }

  lemma EnteringCounts(hw: Hw, l: Local, d: Driver)
    requires Fits(hw, l) && l.at.MBody? && l.call && !hw.inCall && Accounts(hw)
    ensures Counted(hw, ChangeMode(hw, l, d, true), l.holdsOut, true, d)
  {
    var hw2 := LettingGo(hw.(calling := true), l.holdsOut);
    CallOpensCount(hw2.handles, d);
    assert ChangeMode(hw, l, d, true).handles == OpenMixer(OpenPcm(hw2.handles, d.pcm).0, d.mixer).0;
  }

  lemma LeavingCounts(hw: Hw, l: Local, d: Driver)
    requires Fits(hw, l) && l.at.MBody? && !l.call && hw.inCall && Accounts(hw)
    ensures Counted(hw, ChangeMode(hw, l, d, true), l.holdsOut, false, d)
  {
    var hw1 := hw.(calling := false, handles := ClosePcm(CloseMixer(hw.handles)), inCall := false);
    assert Accounts(hw1);
    var hw2 := LettingGo(hw1, l.holdsOut);
  }

  /**
   * In every run, if the base class accepts the mode it is the one asked for, and call mode is on exactly for calls.
   * When that turns it on or off, the first active input is silenced, and the output exactly if setMode saw it active;
   * with right counts, call mode takes or gives back one PCM and one mixer. Otherwise the streams and counts stay.
   */
  lemma ModeChanges(s: State, actions: seq<Action>, t: Thread, c: Choice)
    requires Quiet(s) && t in Run(s, actions).locals && Run(s, actions).locals[t].at.MBody?
    requires Run(s, actions).locals[t].i < |Run(s, actions).hw.ins|
    ensures var hw, hw', call := Run(s, actions).hw, Step(Run(s, actions), t, c).hw, Run(s, actions).locals[t].call;
            && (!c.flag ==> hw' == hw)
            && (c.flag ==> hw'.calling == call && hw'.inCall == call)
            && (c.flag && call == hw.inCall ==> hw' == hw.(calling := call))
            && (c.flag && call != hw.inCall ==>
                  && Silenced(hw, hw', OutputSeen(s, actions, t))
                  && (Accounts(hw) ==> Counted(hw, hw', OutputSeen(s, actions, t), call, c.driver)))
  {
    var s' := Run(s, actions);
    var hw, l := s'.hw, s'.locals[t];
    RunKeepsInv(s, actions);
    assert Fits(hw, l);
    RunHoldsSeen(s, actions, t);
    ChangeStep(s', t, c);
    if c.flag && l.call != hw.inCall {
      SilencingIs(hw, l, c.driver);
      if Accounts(hw) {
        if l.call { EnteringCounts(hw, l, c.driver); } else { LeavingCounts(hw, l, c.driver); }
      }
    }
  }

  /** So when a call ends the output ends in standby exactly if it was or was seen active, and the inputs alike. */
  lemma CallEnds(s: State, actions: seq<Action>, t: Thread, c: Choice)
    requires Quiet(s) && t in Run(s, actions).locals && Run(s, actions).locals[t].at.MBody?
    requires !Run(s, actions).locals[t].call && Run(s, actions).hw.inCall && c.flag
    requires Run(s, actions).locals[t].i < |Run(s, actions).hw.ins|
    ensures var hw, hw' := Run(s, actions).hw, Step(Run(s, actions), t, c).hw;
            && !hw'.inCall && !hw'.calling && OnlyFirstSilenced(hw, hw')
            && (hw'.out.standby <==> hw.out.standby || OutputSeen(s, actions, t))
            && (AllSilent(hw'.ins) <==> forall k :: 0 <= k < |hw.ins| && k != ActiveInput(hw) ==> hw.ins[k].standby)
  {
    ModeChanges(s, actions, t, c);
    AllSilentIff(Run(s, actions).hw, Step(Run(s, actions), t, c).hw);
  }

  lemma StepIsWork(s: State, t: Thread, c: Choice)
    requires t in s.locals && s.locals[t].i < |s.hw.ins| && Wanted(s.locals[t]).Nothing? && !s.locals[t].at.Idle?
    ensures var s', w := Step(s, t, c), Work(s.hw, s.locals[t], c);
            t in s'.locals && s'.hw == w.0 && s'.locals[t] == w.1
  {
  }

  // ---------------------------------------------------------------- write

  /** Back from waiting for an input: that still is the first active one, and has not been in standby. */
  predicate InputMatches(hw: Hw, l: Local) {
    l.at.WSection2? && 0 <= l.i < |hw.ins| && ActiveInput(hw) == l.i && l.cnt == hw.ins[l.i].cnt
  }

  /** At most stream i of the inputs has changed. */
  predicate OthersStay(hw: Hw, hw': Hw, i: int) {
    |hw'.ins| == |hw.ins| && forall k :: 0 <= k < |hw.ins| && k != i ==> hw'.ins[k] == hw.ins[k]
  }

  /** The input has been closed and opened again: it is awake with a PCM, or in standby without one. */
  predicate OpenedAgain(s: Stream, opens: bool) {
    s.pcm == opens && s.standby == !opens
  }

  /** write goes to wait for the input that it has found active. */
  predicate WaitsFor(hw: Hw, hw': Hw, l': Local, i: int) {
    hw' == hw && l'.at.WIn? && 0 <= i < |hw.ins| && l'.i == i && l'.cnt == hw.ins[i].cnt
  }

  /** write has opened the output, and plays, or has not, and goes to standby; the input it closed is open again. */
  predicate WokeOut(hw: Hw, hw': Hw, l': Local, d: Driver) {
    var i := ActiveInput(hw);
    && (l'.at.WPlay? || l'.at.SOut?)
    && (l'.at.WPlay? <==> hw'.out.pcm) && (l'.at.WPlay? <==> !hw'.out.standby)
    && (Accounts(hw) ==> (l'.at.WPlay? <==> d.pcm || hw.inCall))
    && OthersStay(hw, hw', i) && (i >= 0 ==> OpenedAgain(hw'.ins[i], d.inPcm))
    && hw'.inCall == hw.inCall && hw'.calling == hw.calling && hw'.hasOut == hw.hasOut
  }

  lemma WakingWithoutInput(hw: Hw, l: Local, d: Driver)
    requires Sound(hw.out) && hw.out.standby && ActiveInput(hw) == -1
    ensures WokeOut(hw, WakeOut(hw, l, d).0, WakeOut(hw, l, d).1, d)
  {
    OutputOpens(hw, d);
  }

  lemma OutputOpens(hw: Hw, d: Driver)
    requires Sound(hw.out) && hw.out.standby
    ensures var hw' := OpenOut(hw, d);
            && hw'.out.standby && hw'.ins == hw.ins && hw'.inCall == hw.inCall && hw'.calling == hw.calling
            && hw'.hasOut == hw.hasOut && (Accounts(hw) ==> (hw'.out.pcm <==> d.pcm || hw.inCall))
            && (Accounts(hw) && hw'.out.pcm ==> (hw'.out.mixer <==> d.mixer || hw.handles.mixerCnt > 0))
  {
  }

  lemma InputCloses(hw: Hw, i: nat)
    requires i < |hw.ins|
    ensures var hw' := CloseIn(hw, i);
            && hw'.out == hw.out && hw'.inCall == hw.inCall && hw'.calling == hw.calling && hw'.hasOut == hw.hasOut
            && hw'.ins == hw.ins[i := hw.ins[i].(pcm := false, mixer := false)] && (Accounts(hw) ==> Accounts(hw'))
  {
    if Accounts(hw) { CloseInAccounts(hw, i); }
  }

  lemma InputReopens(hw: Hw, i: nat, d: Driver)
    requires i < |hw.ins| && !hw.ins[i].standby
    ensures var hw' := Reopened(hw, i, d);
            && hw'.out == hw.out && hw'.inCall == hw.inCall && hw'.calling == hw.calling && hw'.hasOut == hw.hasOut
            && OthersStay(hw, hw', i) && OpenedAgain(hw'.ins[i], d.inPcm)
  {
  }

  /** The output is opened while the input is closed. */
  lemma OutputOpensBetween(hw: Hw, i: nat, d: Driver) returns (hw': Hw)
    requires Sound(hw.out) && hw.out.standby && i < |hw.ins| && !hw.ins[i].standby
    ensures hw' == Reopened(OpenOut(CloseIn(hw, i), d), i, d)
    ensures hw'.out.standby && (Accounts(hw) ==> (hw'.out.pcm <==> d.pcm || hw.inCall))
    ensures OthersStay(hw, hw', i) && OpenedAgain(hw'.ins[i], d.inPcm)
    ensures hw'.inCall == hw.inCall && hw'.calling == hw.calling && hw'.hasOut == hw.hasOut
  {
    var hw1 := CloseIn(hw, i);
    InputCloses(hw, i);
    var hw2 := OpenOut(hw1, d);
    OutputOpens(hw1, d);
    InputReopens(hw2, i, d);
    hw' := Reopened(hw2, i, d);
  }

  /** The end of the critical section, with the output opened or not. */
  function Woken(hw: Hw, l: Local): (Hw, Local) {
    if hw.out.pcm then (hw.(out := hw.out.(standby := false)), l.(at := WPlay)) else (hw, START.(at := SOut))
  }

  lemma RetryIsWoken(hw: Hw, l: Local, d: Driver)
    requires InputMatches(hw, l)
    ensures WriteRetry(hw, l, d) == Woken(Reopened(OpenOut(CloseIn(hw, l.i), d), l.i, d), l)
  {
  }

  lemma WokenIs(hw: Hw, hw1: Hw, l: Local, d: Driver)
    requires hw1.out.standby && (Accounts(hw) ==> (hw1.out.pcm <==> d.pcm || hw.inCall))
    requires OthersStay(hw, hw1, ActiveInput(hw))
    requires ActiveInput(hw) >= 0 ==> OpenedAgain(hw1.ins[ActiveInput(hw)], d.inPcm)
    requires hw1.inCall == hw.inCall && hw1.calling == hw.calling && hw1.hasOut == hw.hasOut
    ensures WokeOut(hw, Woken(hw1, l).0, Woken(hw1, l).1, d)
  {
  }

  lemma WakingWithInput(hw: Hw, l: Local, d: Driver)
    requires Sound(hw.out) && hw.out.standby && InputMatches(hw, l)
    ensures WokeOut(hw, WriteRetry(hw, l, d).0, WriteRetry(hw, l, d).1, d)
  {
    var hw1 := OutputOpensBetween(hw, l.i, d);
    RetryIsWoken(hw, l, d);
    WokenIs(hw, hw1, l, d);
  }

  /**
   * write's critical section, in every run: as long as some input is active that it has not waited for, it goes to
   * wait for the first such; otherwise it opens the output, which succeeds, with right counts, if the driver opens it
   * or a call is on, and an input it had to close is opened again.
   */
  lemma WriteSection(s: State, actions: seq<Action>, t: Thread, c: Choice)
    requires Quiet(s) && Steady(s.hw) && t in Run(s, actions).locals
    requires Run(s, actions).locals[t].at.WSection? || Run(s, actions).locals[t].at.WSection2?
    requires Run(s, actions).locals[t].i < |Run(s, actions).hw.ins|
    ensures var hw, l := Run(s, actions).hw, Run(s, actions).locals[t];
            var s'' := Step(Run(s, actions), t, c);
            t in s''.locals && WriteLeads(hw, l, s''.hw, s''.locals[t], c.driver)
  {
    RunSteady(s, actions);
    RunKeepsInv(s, actions);
    var hw, l := Run(s, actions).hw, Run(s, actions).locals[t];
    assert Fits(hw, l);
    WriteWork(hw, l, c);
    StepIsWork(Run(s, actions), t, c);
  }

  predicate WriteLeads(hw: Hw, l: Local, hw': Hw, l': Local, d: Driver) {
    if ActiveInput(hw) >= 0 && !InputMatches(hw, l) then WaitsFor(hw, hw', l', ActiveInput(hw))
    else WokeOut(hw, hw', l', d)
  }

  lemma WriteWork(hw: Hw, l: Local, c: Choice)
    requires Fits(hw, l) && Steady(hw) && (l.at.WSection? || l.at.WSection2?)
    ensures var (hw', l') := Work(hw, l, c); WriteLeads(hw, l, hw', l', c.driver)
  {
    if InputMatches(hw, l) {
      WakingWithInput(hw, l, c.driver);
    } else if ActiveInput(hw) == -1 {
      WakingWithoutInput(hw, l, c.driver);
    }
  }

  // ---------------------------------------------------------------- read

  /** Back from waiting for the output: that has not been in standby. */
  predicate OutputMatches(hw: Hw, l: Local) {
    l.at.RSection2? && l.cnt == hw.out.cnt
  }

  /** read has opened its input, and captures, or has not, and goes to standby; the output it closed is open again. */
  predicate WokeIn(hw: Hw, hw': Hw, l: Local, l': Local, d: Driver)
    requires 0 <= l.i < |hw.ins| == |hw'.ins|
  {
    && l'.i == l.i && l'.at == (if d.inPcm then RCapture else TIn)
    && hw'.ins[l.i].pcm == d.inPcm && hw'.ins[l.i].standby == (hw.ins[l.i].standby && !d.inPcm)
    && OthersStay(hw, hw', l.i)
    && (if OutputMatches(hw, l) then
          OpenedAgain(hw'.out, hw'.out.pcm) && (Accounts(hw) ==> (hw'.out.pcm <==> d.pcm || hw.inCall))
        else hw'.out == hw.out)
    && hw'.inCall == hw.inCall && hw'.calling == hw.calling && hw'.hasOut == hw.hasOut
  }

  lemma OutputReopens(hw: Hw, d: Driver) returns (hw': Hw)
    requires !hw.out.standby
    ensures var hw1 := OpenOut(CloseOut(hw), d); hw' == if hw1.out.pcm then hw1 else StandbyOut(hw1)
    ensures hw'.ins == hw.ins && hw'.inCall == hw.inCall && hw'.calling == hw.calling && hw'.hasOut == hw.hasOut
    ensures OpenedAgain(hw'.out, hw'.out.pcm) && (Accounts(hw) ==> (hw'.out.pcm <==> d.pcm || hw.inCall))
  {
    var hw1 := OpenOut(CloseOut(hw), d);
    hw' := if hw1.out.pcm then hw1 else StandbyOut(hw1);
  }

  lemma InputWakes(hw: Hw, l: Local, d: Driver)
    requires 0 <= l.i < |hw.ins|
    ensures var (hw', l') := WakeIn(hw, l, d);
            && l'.i == l.i && l'.at == (if d.inPcm then RCapture else TIn) && |hw'.ins| == |hw.ins|
            && hw'.ins[l.i].pcm == d.inPcm && hw'.ins[l.i].standby == (hw.ins[l.i].standby && !d.inPcm)
            && OthersStay(hw, hw', l.i) && hw'.out == hw.out
            && (Accounts(hw) && d.inPcm ==> (hw'.ins[l.i].mixer <==> d.inMixer || hw.handles.mixerCnt > 0))
            && hw'.inCall == hw.inCall && hw'.calling == hw.calling && hw'.hasOut == hw.hasOut
  {
  }

  predicate ReadLeads(hw: Hw, l: Local, hw': Hw, l': Local, d: Driver) {
    && 0 <= l.i < |hw.ins| == |hw'.ins|
    && if hw.hasOut && !hw.out.standby && !OutputMatches(hw, l) then
         hw' == hw && l' == l.(at := ROut, cnt := hw.out.cnt)
       else WokeIn(hw, hw', l, l', d)
  }

  lemma ReadWork(hw: Hw, l: Local, c: Choice)
    requires Fits(hw, l) && (l.at.RSection? || l.at.RSection2?)
    ensures var (hw', l') := Work(hw, l, c); ReadLeads(hw, l, hw', l', c.driver)
  {
    if OutputMatches(hw, l) {
      var hw1 := OutputReopens(hw, c.driver);
      InputWakes(hw1, l, c.driver);
    } else if !hw.hasOut || hw.out.standby {
      InputWakes(hw, l, c.driver);
    }
  }

  /**
   * read's critical section, in every run: as long as the output is active and it has not waited for that, it goes to
   * wait for it; otherwise it opens its input, which succeeds if the driver opens it, and an output it had to close is
   * opened again or left in standby.
   */
  lemma ReadSection(s: State, actions: seq<Action>, t: Thread, c: Choice)
    requires Quiet(s) && t in Run(s, actions).locals
    requires Run(s, actions).locals[t].at.RSection? || Run(s, actions).locals[t].at.RSection2?
    requires Run(s, actions).locals[t].i < |Run(s, actions).hw.ins|
    ensures var hw, l := Run(s, actions).hw, Run(s, actions).locals[t];
            var s'' := Step(Run(s, actions), t, c);
            t in s''.locals && ReadLeads(hw, l, s''.hw, s''.locals[t], c.driver)
  {
    RunKeepsInv(s, actions);
    var hw, l := Run(s, actions).hw, Run(s, actions).locals[t];
    assert Fits(hw, l);
    ReadWork(hw, l, c);
    StepIsWork(Run(s, actions), t, c);
  }

  // ---------------------------------------------------------------- standby and setParameters

  /** setParameters sends its stream to standby only for a new device, and never during a call; standby always does. */
  predicate Sleeps(hw: Hw, l: Local, c: Choice) {
    !l.params || (!hw.calling && c.flag)
  }

  /** In every run the stream that is sent to standby ends there and holds nothing, and no other stream changes. */
  lemma StandbySection(s: State, actions: seq<Action>, t: Thread, c: Choice)
    requires Quiet(s) && t in Run(s, actions).locals && Run(s, actions).locals[t].i < |Run(s, actions).hw.ins|
    requires Run(s, actions).locals[t].at.SSection? || Run(s, actions).locals[t].at.TSection?
    ensures var hw, l := Run(s, actions).hw, Run(s, actions).locals[t];
            var s'' := Step(Run(s, actions), t, c);
            t in s''.locals && s''.locals[t].at.Idle? && SleepLeads(hw, l, s''.hw, Sleeps(hw, l, c))
  {
    RunKeepsInv(s, actions);
    var hw, l := Run(s, actions).hw, Run(s, actions).locals[t];
    assert Fits(hw, l);
    StandbyWork(hw, l, c);
    StepIsWork(Run(s, actions), t, c);
  }

  predicate SleepLeads(hw: Hw, l: Local, hw': Hw, sleeps: bool) {
    if !sleeps then hw' == hw
    else if l.at.SSection? then HoldsNothing(hw'.out) && hw'.ins == hw.ins
    else
      && 0 <= l.i < |hw.ins| == |hw'.ins|
      && hw'.out == hw.out && HoldsNothing(hw'.ins[l.i]) && OthersStay(hw, hw', l.i)
  }

  lemma StandbyWork(hw: Hw, l: Local, c: Choice)
    requires Fits(hw, l) && (l.at.SSection? || l.at.TSection?)
    ensures SleepLeads(hw, l, Work(hw, l, c).0, Sleeps(hw, l, c)) && Work(hw, l, c).1 == START
  {
  }

  /** A write or read that the driver fails goes on to put its stream in standby; one that succeeds is over. */
  lemma FailedTransferSleeps(s: State, actions: seq<Action>, t: Thread, c: Choice)
    requires Quiet(s) && t in Run(s, actions).locals && Run(s, actions).locals[t].i < |Run(s, actions).hw.ins|
    requires Run(s, actions).locals[t].at.WPlay? || Run(s, actions).locals[t].at.RCapture?
    ensures var l := Run(s, actions).locals[t];
            var s'' := Step(Run(s, actions), t, c);
            && t in s''.locals && s''.hw == Run(s, actions).hw
            && (c.flag ==> s''.locals[t].at.Idle?)
            && (!c.flag ==>
                  && s''.locals[t].at == (if l.at.WPlay? then SOut else TIn) && !s''.locals[t].params
                  && (l.at.RCapture? ==> s''.locals[t].i == l.i))
  {
    StepIsWork(Run(s, actions), t, c);
  }
}
