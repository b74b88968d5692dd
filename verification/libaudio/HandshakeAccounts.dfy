/**
 * What the streams hold: a PCM exactly while active, and the shared handles are counted exactly as they are held.
 * Two things spoil that, and nothing else. A failed open of setMode's own spoils the counts. A second reader that opens
 * an input another reader has woken, while it waited for the output, spoils the counts if its open succeeds and the
 * input has the mixer, and leaves the input active without a PCM if it fails.
 */
module HandshakeAccounts {
  import opened AudioHandles
  import opened Handshake
  import opened HandshakeProofs

  // ---------------------------------------------------------------- active streams have a PCM

  predicate Powered(s: Stream) {
    s.standby <==> !s.pcm
  }

  predicate AllPowered(hw: Hw) {
    Powered(hw.out) && forall i :: 0 <= i < |hw.ins| ==> Powered(hw.ins[i])
  }

  lemma StandbysPower(hw: Hw)
    requires AllPowered(hw)
    ensures AllPowered(StandbyOut(hw))
    ensures forall i :: 0 <= i < |hw.ins| ==> AllPowered(StandbyIn(hw, i))
  {
  }

  lemma WriteLoopPowers(hw: Hw, l: Local, d: Driver)
    requires AllPowered(hw) && hw.out.standby
    ensures AllPowered(WriteLoop(hw, l, d).0)
  {
  }

  lemma ReopenPowers(hw: Hw, hw1: Hw, i: nat, d: Driver)
    requires AllPowered(hw) && i < |hw.ins| && |hw1.ins| == |hw.ins| && !hw1.ins[i].standby
    requires hw1.ins == hw.ins[i := hw1.ins[i]]
    ensures var hw2 := Reopened(hw1, i, d);
            |hw2.ins| == |hw.ins| && hw2.out == hw1.out && forall k :: 0 <= k < |hw2.ins| ==> Powered(hw2.ins[k])
  {
  }

  lemma WriteRetryPowers(hw: Hw, l: Local, d: Driver)
    requires AllPowered(hw) && hw.out.standby && 0 <= l.i < |hw.ins|
    ensures AllPowered(WriteRetry(hw, l, d).0)
  {
    if ActiveInput(hw) == l.i && l.cnt == hw.ins[l.i].cnt {
      var hw1 := OpenOut(CloseIn(hw, l.i), d);
      assert hw1.ins == hw.ins[l.i := hw1.ins[l.i]] && !hw1.ins[l.i].standby && hw1.out.standby;
      ReopenPowers(hw, hw1, l.i, d);
    } else {
      WriteLoopPowers(hw, l, d);
    }
  }

  /** read, back from waiting for the output, opens its input although somebody has woken that meanwhile. */
  predicate OpensAwake(hw: Hw, l: Local)
    requires l.i < |hw.ins|
  {
    l.at.RSection2? && 0 <= l.i && (l.cnt == hw.out.cnt || !hw.hasOut || hw.out.standby) && !hw.ins[l.i].standby
  }

  /** An open that fails takes the PCM from an input that is awake. */
  lemma WakeInPowersIff(hw: Hw, l: Local, d: Driver)
    requires AllPowered(hw) && 0 <= l.i < |hw.ins|
    ensures AllPowered(WakeIn(hw, l, d).0) <==> hw.ins[l.i].standby || d.inPcm
  {
    var hw' := WakeIn(hw, l, d).0;
    assert hw'.out == hw.out && hw'.ins == hw.ins[l.i := hw'.ins[l.i]];
    assert Powered(hw'.ins[l.i]) <==> hw.ins[l.i].standby || d.inPcm;
  }

  lemma ReadRetryPowersIff(hw: Hw, l: Local, d: Driver)
    requires AllPowered(hw) && l.at.RSection2? && 0 <= l.i < |hw.ins|
    requires l.cnt == hw.out.cnt ==> !hw.out.standby
    ensures AllPowered(ReadRetry(hw, l, d).0) <==> !(OpensAwake(hw, l) && !d.inPcm)
  {
    if l.cnt == hw.out.cnt {
      var hw1 := OpenOut(CloseOut(hw), d);
      WakeInPowersIff(if hw1.out.pcm then hw1 else StandbyOut(hw1), l, d);
    } else if !hw.hasOut || hw.out.standby {
      WakeInPowersIff(hw, l, d);
    }
  }

  lemma ChangeModePowers(hw: Hw, l: Local, d: Driver, ok: bool)
    requires AllPowered(hw) && l.i < |hw.ins|
    ensures AllPowered(ChangeMode(hw, l, d, ok))
  {
  }

  predicate OpensWell(hw: Hw, l: Local, c: Choice)
    requires l.i < |hw.ins|
  {
    !(OpensAwake(hw, l) && !c.driver.inPcm)
  }

  lemma WorkPowersIff(hw: Hw, l: Local, c: Choice)
    requires Fits(hw, l) && AllPowered(hw)
    ensures AllPowered(Work(hw, l, c).0) <==> OpensWell(hw, l, c)
  {
    if l.at.WSection? {
      WriteLoopPowers(hw, l, c.driver);
    } else if l.at.WSection2? {
      WriteRetryPowers(hw, l, c.driver);
    } else if l.at.RSection? {
      if !hw.hasOut || hw.out.standby { WakeInPowersIff(hw, l, c.driver); }
    } else if l.at.RSection2? {
      ReadRetryPowersIff(hw, l, c.driver);
    } else if l.at.MBody? {
      ChangeModePowers(hw, l, c.driver, c.flag);
    } else {
      StandbysPower(hw);
    }
  }

  /** Has no read of this run had its open of an input that was awake fail? */
  predicate AllOpenWell(s: State, actions: seq<Action>) {
    actions == [] ||
      var before, a := Run(s, actions[..|actions| - 1]), actions[|actions| - 1];
      && AllOpenWell(s, actions[..|actions| - 1])
      && (a.t in before.locals && before.locals[a.t].i < |before.hw.ins| ==>
            OpensWell(before.hw, before.locals[a.t], a.c))
  }

  predicate AlwaysPowered(s: State, actions: seq<Action>) {
    AllPowered(Run(s, actions).hw) && (actions == [] || AlwaysPowered(s, actions[..|actions| - 1]))
  }

  lemma StepPowersIff(s: State, t: Thread, c: Choice)
    requires Inv(s) && AllPowered(s.hw) && t in s.locals && s.locals[t].i < |s.hw.ins|
    ensures AllPowered(Step(s, t, c).hw) <==> OpensWell(s.hw, s.locals[t], c)
  {
    assert Fits(s.hw, s.locals[t]);
    WorkPowersIff(s.hw, s.locals[t], c);
  }

  /** All through a run a stream has a PCM exactly while it is active, if and only if no such open fails. */
  lemma {:induction false} RunPowersIff(s: State, actions: seq<Action>)
    requires Quiet(s) && AllPowered(s.hw)
    ensures AlwaysPowered(s, actions) <==> AllOpenWell(s, actions)
  {
    if actions != [] {
      var first, a := actions[..|actions| - 1], actions[|actions| - 1];
      var before := Run(s, first);
      RunPowersIff(s, first);
      RunKeepsInv(s, first);
      if AllPowered(before.hw) && a.t in before.locals && before.locals[a.t].i < |before.hw.ins| {
        StepPowersIff(before, a.t, a.c);
      }
    }
  }

  lemma WakeOutPowersOutput(hw: Hw, l: Local, d: Driver)
    requires hw.out.standby && Powered(hw.out)
    ensures Powered(WakeOut(hw, l, d).0.out)
  {
  }

  lemma WriteRetryPowersOutput(hw: Hw, l: Local, d: Driver)
    requires hw.out.standby && Powered(hw.out) && 0 <= l.i < |hw.ins|
    ensures Powered(WriteRetry(hw, l, d).0.out)
  {
    if ActiveInput(hw) == l.i && l.cnt == hw.ins[l.i].cnt {
      var hw1 := OpenOut(CloseIn(hw, l.i), d);
      assert hw1.out.standby;
      var hw2 := OpenIn(hw1, l.i, d);
      assert hw2.out == hw1.out;
    } else {
      WakeOutPowersOutput(hw, l, d);
    }
  }

  lemma ReadRetryPowersOutput(hw: Hw, l: Local, d: Driver)
    requires Powered(hw.out) && 0 <= l.i < |hw.ins| && (l.cnt == hw.out.cnt ==> !hw.out.standby)
    ensures Powered(ReadRetry(hw, l, d).0.out)
  {
  }

  lemma ChangeModePowersOutput(hw: Hw, l: Local, d: Driver, ok: bool)
    requires Powered(hw.out) && l.i < |hw.ins|
    ensures Powered(ChangeMode(hw, l, d, ok).out)
  {
  }

  lemma OutputStays(hw: Hw, l: Local, c: Choice)
    requires Exists(hw, l) && !l.at.WSection? && !l.at.WSection2? && !l.at.RSection2? && !l.at.MBody? && !l.at.SSection?
    ensures Work(hw, l, c).0.out == hw.out
  {
  }

  lemma WorkPowersOutput(hw: Hw, l: Local, c: Choice)
    requires Fits(hw, l) && Powered(hw.out)
    ensures Powered(Work(hw, l, c).0.out)
  {
    if l.at.WSection? {
      WakeOutPowersOutput(hw, l, c.driver);
    } else if l.at.WSection2? {
      WriteRetryPowersOutput(hw, l, c.driver);
    } else if l.at.RSection2? {
      ReadRetryPowersOutput(hw, l, c.driver);
    } else if l.at.MBody? {
      ChangeModePowersOutput(hw, l, c.driver, c.flag);
    } else if !l.at.SSection? {
      OutputStays(hw, l, c);
    }
  }

  /** The output always does, however many readers there are. */
  lemma {:induction false} RunPowersOutput(s: State, actions: seq<Action>)
    requires Quiet(s) && Powered(s.hw.out)
    ensures Powered(Run(s, actions).hw.out)
  {
    if actions != [] {
      var before, a := Run(s, actions[..|actions| - 1]), actions[|actions| - 1];
      RunPowersOutput(s, actions[..|actions| - 1]);
      RunKeepsInv(s, actions[..|actions| - 1]);
      if a.t in before.locals {
        assert Fits(before.hw, before.locals[a.t]);
        WorkPowersOutput(before.hw, before.locals[a.t], a.c);
      }
    }
  }

  /** A thread that has got as far as pcm_write has the output's mutex, and the output has a PCM. */
  lemma PlaysWithPcm(s: State, actions: seq<Action>, t: Thread)
    requires Quiet(s) && Powered(s.hw.out) && t in Run(s, actions).locals && Run(s, actions).locals[t].at.WPlay?
    ensures var s' := Run(s, actions); OutLock in s'.locks && s'.locks[OutLock] == t && s'.hw.out.pcm
  {
    var s' := Run(s, actions);
    RunKeepsInv(s, actions);
    RunPowersOutput(s, actions);
    var l := s'.locals[t];
    assert Fits(s'.hw, l) && Owns(s'.locks, t, l);
    assert Holds(l, OutLock);
  }

  /** The same of pcm_read and the input, as long as no open of an input that was awake has failed. */
  lemma CapturesWithPcm(s: State, actions: seq<Action>, t: Thread)
    requires Quiet(s) && AllPowered(s.hw) && AllOpenWell(s, actions)
    requires t in Run(s, actions).locals && Run(s, actions).locals[t].at.RCapture?
    ensures var s' := Run(s, actions); var i := s'.locals[t].i;
            0 <= i < |s'.hw.ins| && InLock(i) in s'.locks && s'.locks[InLock(i)] == t && s'.hw.ins[i].pcm
  {
    var s' := Run(s, actions);
    RunKeepsInv(s, actions);
    RunPowersIff(s, actions);
    var l := s'.locals[t];
    assert Fits(s'.hw, l) && Owns(s'.locks, t, l);
    assert Holds(l, InLock(l.i));
  }

  // ---------------------------------------------------------------- what a stream in standby holds

  /** The output is sound, and an input in standby holds no mixer. */
  predicate Steady(hw: Hw) {
    Sound(hw.out) && forall k :: 0 <= k < |hw.ins| && hw.ins[k].standby ==> !hw.ins[k].mixer
  }

  /** At most input i differs, and it is sound. */
  predicate OneSound(hw: Hw, hw': Hw, i: int) {
    |hw'.ins| == |hw.ins| && forall k :: 0 <= k < |hw.ins| ==> hw'.ins[k] == hw.ins[k] || (k == i && Sound(hw'.ins[k]))
  }

  /** An active input that was closed is sound when it has been opened again or put in standby. */
  lemma ReopenedIsSound(hw: Hw, i: nat, d: Driver)
    requires i < |hw.ins| && !hw.ins[i].standby && !hw.ins[i].mixer
    ensures OneSound(hw, Reopened(hw, i, d), i) && Reopened(hw, i, d).out == hw.out
  {
  }

  lemma MatchedRetryLeaves(hw: Hw, l: Local, d: Driver)
    requires Sound(hw.out) && hw.out.standby && 0 <= l.i < |hw.ins|
    requires ActiveInput(hw) == l.i && l.cnt == hw.ins[l.i].cnt
    ensures Sound(WriteRetry(hw, l, d).0.out) && OneSound(hw, WriteRetry(hw, l, d).0, l.i)
  {
    var hw0 := CloseIn(hw, l.i);
    var hw1 := OpenOut(hw0, d);
    assert hw1.ins == hw0.ins && !hw1.ins[l.i].standby;
    var hw2 := Reopened(hw1, l.i, d);
    ReopenedIsSound(hw1, l.i, d);
    assert OneSound(hw, hw2, l.i);
  }

  /** What write does to the streams on its way. */
  lemma WriteRetryLeaves(hw: Hw, l: Local, d: Driver)
    requires Sound(hw.out) && hw.out.standby && 0 <= l.i < |hw.ins|
    ensures Sound(WriteRetry(hw, l, d).0.out) && OneSound(hw, WriteRetry(hw, l, d).0, l.i)
  {
    if ActiveInput(hw) == l.i && l.cnt == hw.ins[l.i].cnt {
      MatchedRetryLeaves(hw, l, d);
    }
  }

  lemma WriteLoopSteady(hw: Hw, l: Local, d: Driver)
    requires Steady(hw) && hw.out.standby
    ensures Steady(WriteLoop(hw, l, d).0)
  {
  }

  lemma WakeInSteady(hw: Hw, l: Local, d: Driver)
    requires Steady(hw) && 0 <= l.i < |hw.ins|
    ensures Steady(WakeIn(hw, l, d).0)
  {
  }

  lemma ReadLoopSteady(hw: Hw, l: Local, d: Driver)
    requires Steady(hw) && 0 <= l.i < |hw.ins|
    ensures Steady(ReadLoop(hw, l, d).0)
  {
    WakeInSteady(hw, l, d);
  }

  lemma StandbysSteady(hw: Hw)
    requires Steady(hw)
    ensures Steady(StandbyOut(hw)) && forall i :: 0 <= i < |hw.ins| ==> Steady(StandbyIn(hw, i))
  {
  }

  lemma WriteRetrySteady(hw: Hw, l: Local, d: Driver)
    requires Steady(hw) && hw.out.standby && 0 <= l.i < |hw.ins|
    ensures Steady(WriteRetry(hw, l, d).0)
  {
    WriteRetryLeaves(hw, l, d);
  }

  lemma ReadRetrySteady(hw: Hw, l: Local, d: Driver)
    requires Steady(hw) && 0 <= l.i < |hw.ins| && (l.cnt == hw.out.cnt ==> !hw.out.standby)
    ensures Steady(ReadRetry(hw, l, d).0)
  {
    if l.cnt == hw.out.cnt {
      var hw1 := OpenOut(CloseOut(hw), d);
      var hw2 := if hw1.out.pcm then hw1 else StandbyOut(hw1);
      assert hw2.ins == hw.ins && Sound(hw2.out);
      WakeInSteady(hw2, l, d);
    } else {
      ReadLoopSteady(hw, l, d);
    }
  }

  lemma ChangeModeSteady(hw: Hw, l: Local, c: Choice)
    requires Steady(hw) && l.i < |hw.ins|
    ensures Steady(ChangeMode(hw, l, c.driver, c.flag))
  {
  }

  lemma WorkSteady(hw: Hw, l: Local, c: Choice)
    requires Fits(hw, l) && Steady(hw)
    ensures Steady(Work(hw, l, c).0)
  {
    if l.at.WSection? {
      WriteLoopSteady(hw, l, c.driver);
    } else if l.at.WSection2? {
      WriteRetrySteady(hw, l, c.driver);
    } else if l.at.RSection? {
      ReadLoopSteady(hw, l, c.driver);
    } else if l.at.RSection2? {
      ReadRetrySteady(hw, l, c.driver);
    } else if l.at.MBody? {
      ChangeModeSteady(hw, l, c);
    } else {
      StandbysSteady(hw);
    }
  }

  /** That is so in every run, however the driver answers and however many readers there are. */
  lemma {:induction false} RunSteady(s: State, actions: seq<Action>)
    requires Quiet(s) && Steady(s.hw)
    ensures Steady(Run(s, actions).hw)
  {
    if actions != [] {
      var before, a := Run(s, actions[..|actions| - 1]), actions[|actions| - 1];
      RunSteady(s, actions[..|actions| - 1]);
      RunKeepsInv(s, actions[..|actions| - 1]);
      if a.t in before.locals {
        assert Fits(before.hw, before.locals[a.t]);
        WorkSteady(before.hw, before.locals[a.t], a.c);
      }
    }
  }

  // ---------------------------------------------------------------- the counts

  lemma WakeOutCounts(hw: Hw, l: Local, d: Driver)
    requires Accounts(hw) && Sound(hw.out) && hw.out.standby
    ensures Accounts(WakeOut(hw, l, d).0)
  {
    OpenOutAccounts(hw, d);
  }

  /** Input i, closed, is opened again, or goes to standby. */
  lemma ReopenCounts(hw: Hw, i: nat, d: Driver)
    requires Accounts(hw) && i < |hw.ins| && !hw.ins[i].mixer
    ensures Accounts(Reopened(hw, i, d))
  {
    var hw1 := OpenIn(hw, i, d);
    OpenInAccounts(hw, i, d);
    if !hw1.ins[i].pcm { StandbyInAccounts(hw1, i); }
  }

  lemma WriteRetryCounts(hw: Hw, l: Local, d: Driver)
    requires Accounts(hw) && Sound(hw.out) && hw.out.standby && 0 <= l.i < |hw.ins|
    ensures Accounts(WriteRetry(hw, l, d).0)
  {
    if ActiveInput(hw) == l.i && l.cnt == hw.ins[l.i].cnt {
      var hw0 := CloseIn(hw, l.i);
      CloseInAccounts(hw, l.i);
      var hw1 := OpenOut(hw0, d);
      OpenOutAccounts(hw0, d);
      assert hw1.ins == hw0.ins;
      ReopenCounts(hw1, l.i, d);
    } else {
      WakeOutCounts(hw, l, d);
    }
  }

  /** Opening an input that has the mixer counts it twice, if its PCM opens. */
  lemma WakeInCountsIff(hw: Hw, l: Local, d: Driver)
    requires Accounts(hw) && 0 <= l.i < |hw.ins|
    ensures Accounts(WakeIn(hw, l, d).0) <==> !(hw.ins[l.i].mixer && d.inPcm)
  {
    var hw1, hw2 := OpenIn(hw, l.i, d), WakeIn(hw, l, d).0;
    InMixersUpdate(hw.ins, l.i, hw1.ins[l.i]);
    if d.inPcm { InMixersUpdate(hw1.ins, l.i, hw2.ins[l.i]); }
    if hw.ins[l.i].mixer { InMixersHas(hw.ins, l.i); } else { OpenInAccounts(hw, l.i, d); }
  }

  lemma ReadRetryCountsIff(hw: Hw, l: Local, d: Driver)
    requires Accounts(hw) && Steady(hw) && l.at.RSection2? && 0 <= l.i < |hw.ins|
    requires l.cnt == hw.out.cnt ==> !hw.out.standby
    ensures Accounts(ReadRetry(hw, l, d).0) <==> !(OpensAwake(hw, l) && hw.ins[l.i].mixer && d.inPcm)
  {
    if l.cnt == hw.out.cnt {
      var hw0 := CloseOut(hw);
      CloseOutAccounts(hw);
      var hw1 := OpenOut(hw0, d);
      OpenOutAccounts(hw0, d);
      var hw2 := if hw1.out.pcm then hw1 else StandbyOut(hw1);
      StandbyOutAccounts(hw1);
      assert hw2.ins == hw.ins;
      WakeInCountsIff(hw2, l, d);
    } else if !hw.hasOut || hw.out.standby {
      WakeInCountsIff(hw, l, d);
    }
  }

  /** If this step enters call mode, do both of its own opens succeed? */
  predicate EntersWell(hw: Hw, l: Local, c: Choice)
    requires l.i < |hw.ins|
  {
    l.at.MBody? && c.flag && l.call && !hw.inCall ==>
      CallOpens(hw, l.holdsOut, if l.holdsIn then l.i else -1, c.driver)
  }

  lemma CallOpensLater(hw: Hw, calling: bool, holdsOut: bool, holdsIn: int, d: Driver)
    requires holdsIn < |hw.ins|
    ensures CallOpens(hw.(calling := calling), holdsOut, holdsIn, d) == CallOpens(hw, holdsOut, holdsIn, d)
  {
  }

  lemma ChangeModeCountsIff(hw: Hw, l: Local, c: Choice)
    requires Accounts(hw) && l.at.MBody? && l.i < |hw.ins|
    ensures Accounts(ChangeMode(hw, l, c.driver, c.flag)) <==> EntersWell(hw, l, c)
  {
    var d, hw1, input := c.driver, hw.(calling := l.call), if l.holdsIn then l.i else -1;
    assert Accounts(hw1);
    if c.flag && l.call && !hw.inCall {
      assert ChangeMode(hw, l, d, c.flag) == EnterCall(hw1, l.holdsOut, input, d);
      EnterCallAccountsIff(hw1, l.holdsOut, input, d);
      CallOpensLater(hw, l.call, l.holdsOut, input, d);
    } else if c.flag && !l.call && hw.inCall {
      LeaveCallAccounts(hw1, l.holdsOut, input);
    }
  }

  /** The two ways a step can spoil the accounts. */
  predicate KeepsAccounts(hw: Hw, l: Local, c: Choice)
    requires l.i < |hw.ins|
  {
    EntersWell(hw, l, c) && !(OpensAwake(hw, l) && hw.ins[l.i].mixer && c.driver.inPcm)
  }

  lemma WritersKeepAccounts(hw: Hw, l: Local, c: Choice)
    requires Fits(hw, l) && Accounts(hw) && Steady(hw) && (l.at.WSection? || l.at.WSection2?)
    ensures Accounts(Work(hw, l, c).0) && KeepsAccounts(hw, l, c)
  {
    if l.at.WSection? {
      WakeOutCounts(hw, l, c.driver);
    } else {
      WriteRetryCounts(hw, l, c.driver);
    }
  }

  lemma ReadersCountIff(hw: Hw, l: Local, c: Choice)
    requires Fits(hw, l) && Accounts(hw) && Steady(hw) && (l.at.RSection? || l.at.RSection2?)
    ensures Accounts(Work(hw, l, c).0) <==> KeepsAccounts(hw, l, c)
  {
    if l.at.RSection? {
      WakeInCountsIff(hw, l, c.driver);
    } else {
      ReadRetryCountsIff(hw, l, c.driver);
    }
  }

  lemma WorkCountsIff(hw: Hw, l: Local, c: Choice)
    requires Fits(hw, l) && Accounts(hw) && Steady(hw)
    ensures Accounts(Work(hw, l, c).0) <==> KeepsAccounts(hw, l, c)
  {
    if l.at.WSection? || l.at.WSection2? {
      WritersKeepAccounts(hw, l, c);
    } else if l.at.RSection? || l.at.RSection2? {
      ReadersCountIff(hw, l, c);
    } else if l.at.MBody? {
      ChangeModeCountsIff(hw, l, c);
    } else if l.at.SSection? {
      StandbyOutAccounts(hw);
    } else if l.at.TSection? {
      StandbyInAccounts(hw, l.i);
    }
  }

  predicate AllKeepAccounts(s: State, actions: seq<Action>) {
    actions == [] ||
      var before, a := Run(s, actions[..|actions| - 1]), actions[|actions| - 1];
      && AllKeepAccounts(s, actions[..|actions| - 1])
      && (a.t in before.locals && before.locals[a.t].i < |before.hw.ins| ==>
            KeepsAccounts(before.hw, before.locals[a.t], a.c))
  }

  lemma StepCountsIff(s: State, t: Thread, c: Choice)
    requires Inv(s) && Accounts(s.hw) && Steady(s.hw) && t in s.locals && s.locals[t].i < |s.hw.ins|
    ensures Accounts(Step(s, t, c).hw) <==> KeepsAccounts(s.hw, s.locals[t], c)
  {
    assert Fits(s.hw, s.locals[t]);
    WorkCountsIff(s.hw, s.locals[t], c);
  }

  /** The counts are what is held, at the start of the run and after each of its steps. */
  predicate AlwaysAccounts(s: State, actions: seq<Action>) {
    Accounts(Run(s, actions).hw) && (actions == [] || AlwaysAccounts(s, actions[..|actions| - 1]))
  }

  /**
   * The counts are what is held all through a run exactly when no entry into call mode had an open fail and no read
   * opened, with success, an input that was awake and had the mixer.
   */
  lemma {:induction false} RunCountsIff(s: State, actions: seq<Action>)
    requires Quiet(s) && Accounts(s.hw) && Steady(s.hw)
    ensures AlwaysAccounts(s, actions) <==> AllKeepAccounts(s, actions)
  {
    if actions != [] {
      var first, a := actions[..|actions| - 1], actions[|actions| - 1];
      var before := Run(s, first);
      RunCountsIff(s, first);
      RunSteady(s, first);
      RunKeepsInv(s, first);
      if Accounts(before.hw) && a.t in before.locals && before.locals[a.t].i < |before.hw.ins| {
        StepCountsIff(before, a.t, a.c);
      }
    }
  }

  // ---------------------------------------------------------------- the counts, and sound streams

  predicate InputsSound(hw: Hw) {
    forall k :: 0 <= k < |hw.ins| ==> Sound(hw.ins[k])
  }

  /** An open that fails leaves an input that is awake with the mixer and without a PCM. */
  lemma WakeInSoundIff(hw: Hw, l: Local, d: Driver)
    requires InputsSound(hw) && 0 <= l.i < |hw.ins|
    ensures InputsSound(WakeIn(hw, l, d).0) <==> !(hw.ins[l.i].mixer && !d.inPcm)
  {
    var hw' := WakeIn(hw, l, d).0;
    assert hw'.ins == hw.ins[l.i := hw'.ins[l.i]];
    assert Sound(hw'.ins[l.i]) <==> !(hw.ins[l.i].mixer && !d.inPcm);
  }

  lemma ReadRetrySoundIff(hw: Hw, l: Local, d: Driver)
    requires InputsSound(hw) && l.at.RSection2? && 0 <= l.i < |hw.ins| && (l.cnt == hw.out.cnt ==> !hw.out.standby)
    ensures InputsSound(ReadRetry(hw, l, d).0) <==> !(OpensAwake(hw, l) && hw.ins[l.i].mixer && !d.inPcm)
  {
    if l.cnt == hw.out.cnt {
      var hw1 := OpenOut(CloseOut(hw), d);
      WakeInSoundIff(if hw1.out.pcm then hw1 else StandbyOut(hw1), l, d);
    } else if !hw.hasOut || hw.out.standby {
      WakeInSoundIff(hw, l, d);
    }
  }

  lemma WriteRetrySound(hw: Hw, l: Local, d: Driver)
    requires InputsSound(hw) && Sound(hw.out) && hw.out.standby && 0 <= l.i < |hw.ins|
    ensures InputsSound(WriteRetry(hw, l, d).0)
  {
    WriteRetryLeaves(hw, l, d);
  }

  lemma ChangeModeSound(hw: Hw, l: Local, c: Choice)
    requires InputsSound(hw) && l.i < |hw.ins|
    ensures InputsSound(ChangeMode(hw, l, c.driver, c.flag))
  {
  }

  lemma StandbysSound(hw: Hw)
    requires InputsSound(hw)
    ensures InputsSound(StandbyOut(hw)) && forall i :: 0 <= i < |hw.ins| ==> InputsSound(StandbyIn(hw, i))
  {
  }

  lemma WorkSoundIff(hw: Hw, l: Local, c: Choice)
    requires Fits(hw, l) && InputsSound(hw) && Sound(hw.out)
    ensures InputsSound(Work(hw, l, c).0) <==> !(OpensAwake(hw, l) && hw.ins[l.i].mixer && !c.driver.inPcm)
  {
    if l.at.WSection? {
      assert Work(hw, l, c).0.ins == hw.ins;
    } else if l.at.WSection2? {
      WriteRetrySound(hw, l, c.driver);
    } else if l.at.RSection? {
      if !hw.hasOut || hw.out.standby { WakeInSoundIff(hw, l, c.driver); }
    } else if l.at.RSection2? {
      ReadRetrySoundIff(hw, l, c.driver);
    } else if l.at.MBody? {
      ChangeModeSound(hw, l, c);
    } else {
      StandbysSound(hw);
    }
  }

  /** And the two ways to spoil the accounts or leave a stream that is not sound. */
  predicate KeepsBalance(hw: Hw, l: Local, c: Choice)
    requires l.i < |hw.ins|
  {
    EntersWell(hw, l, c) && !(OpensAwake(hw, l) && hw.ins[l.i].mixer)
  }

  lemma StepBalancesIff(s: State, t: Thread, c: Choice)
    requires Inv(s) && Balanced(s.hw) && t in s.locals && s.locals[t].i < |s.hw.ins|
    ensures Balanced(Step(s, t, c).hw) <==> KeepsBalance(s.hw, s.locals[t], c)
  {
    var hw, l := s.hw, s.locals[t];
    assert Fits(hw, l) && Steady(hw) && InputsSound(hw);
    StepCountsIff(s, t, c);
    WorkSteady(hw, l, c);
    WorkSoundIff(hw, l, c);
  }

  predicate AllKeepBalance(s: State, actions: seq<Action>) {
    actions == [] ||
      var before, a := Run(s, actions[..|actions| - 1]), actions[|actions| - 1];
      && AllKeepBalance(s, actions[..|actions| - 1])
      && (a.t in before.locals && before.locals[a.t].i < |before.hw.ins| ==>
            KeepsBalance(before.hw, before.locals[a.t], a.c))
  }

  predicate AlwaysBalanced(s: State, actions: seq<Action>) {
    Balanced(Run(s, actions).hw) && (actions == [] || AlwaysBalanced(s, actions[..|actions| - 1]))
  }

  /**
   * For the counts together with sound streams the open of an input that is awake and has the mixer need not
   * succeed: if it fails, the input is left with the mixer and without a PCM.
   */
  lemma {:induction false} RunBalancesIff(s: State, actions: seq<Action>)
    requires Quiet(s) && Balanced(s.hw)
    ensures AlwaysBalanced(s, actions) <==> AllKeepBalance(s, actions)
  {
    if actions != [] {
      var first, a := actions[..|actions| - 1], actions[|actions| - 1];
      var before := Run(s, first);
      RunBalancesIff(s, first);
      RunKeepsInv(s, first);
      if Balanced(before.hw) && a.t in before.locals && before.locals[a.t].i < |before.hw.ins| {
        StepBalancesIff(before, a.t, a.c);
      }
    }
  }

  // ---------------------------------------------------------------- one reader of each input

  predicate OneReader(locals: map<Thread, Local>) {
    forall t, u :: t in locals && u in locals && t != u && locals[t].i >= 0 ==>
      !(Reads(locals[t], locals[t].i) && Reads(locals[u], locals[t].i))
  }

  /** No two threads ever read the same input at a time. */
  predicate OneReaderRun(s: State, actions: seq<Action>) {
    OneReader(Run(s, actions).locals) && (actions == [] || OneReaderRun(s, actions[..|actions| - 1]))
  }

  /** Between having seen its input in standby and waking it. */
  predicate Waking(l: Local) {
    l.at.RHw? || l.at.RSection? || l.at.ROut? || l.at.RIn2? || l.at.RHw2? || l.at.RSection2?
  }

  predicate Asleep(hw: Hw, l: Local) {
    Waking(l) ==> 0 <= l.i < |hw.ins| && hw.ins[l.i].standby
  }

  lemma ReadLoopKeepsAsleep(hw: Hw, l: Local, d: Driver)
    requires 0 <= l.i < |hw.ins| && hw.ins[l.i].standby
    ensures Asleep(ReadLoop(hw, l, d).0, ReadLoop(hw, l, d).1)
  {
  }

  lemma WakeInEnds(hw: Hw, l: Local, d: Driver)
    requires 0 <= l.i < |hw.ins|
    ensures !Waking(WakeIn(hw, l, d).1)
  {
  }

  lemma ReadRetryKeepsAsleep(hw: Hw, l: Local, d: Driver)
    requires 0 <= l.i < |hw.ins| && hw.ins[l.i].standby
    ensures Asleep(ReadRetry(hw, l, d).0, ReadRetry(hw, l, d).1)
  {
    if l.cnt == hw.out.cnt {
      var hw1 := OpenOut(CloseOut(hw), d);
      WakeInEnds(if hw1.out.pcm then hw1 else StandbyOut(hw1), l, d);
    } else {
      ReadLoopKeepsAsleep(hw, l, d);
    }
  }

  lemma ModeStaysAtMode(hw: Hw, l: Local)
    ensures AtMode(ModeLoop(hw, l).at) && AtMode(ModeRetryOut(hw, l).at)
    ensures 0 <= l.i < |hw.ins| ==> AtMode(ModeRetryIn(hw, l).at)
  {
  }

  lemma LookStaysAtMode(hw: Hw, l: Local, c: Choice)
    requires Exists(hw, l) && (l.at.MSection? || l.at.MSection2? || l.at.MSection3?)
    ensures AtMode(Work(hw, l, c).1.at)
  {
    ModeStaysAtMode(hw, l);
  }

  lemma ChangeEnds(hw: Hw, l: Local, c: Choice)
    requires Exists(hw, l) && l.at.MBody?
    ensures Work(hw, l, c).1 == START
  {
  }

  lemma ModeDoesNotWakeInputs(hw: Hw, l: Local, c: Choice)
    requires Exists(hw, l) && Wanted(l).Nothing? && AtMode(l.at)
    ensures !Waking(Work(hw, l, c).1)
  {
    if l.at.MBody? { ChangeEnds(hw, l, c); } else { LookStaysAtMode(hw, l, c); }
  }

  lemma OthersDoNotWakeInputs(hw: Hw, l: Local, c: Choice)
    requires Exists(hw, l) && Wanted(l).Nothing? && !l.at.Idle? && !AtMode(l.at) && !l.at.WSection? && !l.at.WSection2?
    requires !l.at.RTest? && !l.at.RSection? && !l.at.RSection2?
    ensures !Waking(Work(hw, l, c).1)
  {
  }

  lemma WorkKeepsAsleep(hw: Hw, l: Local, c: Choice)
    requires Fits(hw, l) && Asleep(hw, l) && Wanted(l).Nothing? && !l.at.Idle?
    ensures Asleep(Work(hw, l, c).0, Work(hw, l, c).1)
  {
    if l.at.RSection? {
      ReadLoopKeepsAsleep(hw, l, c.driver);
    } else if l.at.RSection2? {
      ReadRetryKeepsAsleep(hw, l, c.driver);
    } else if l.at.WSection? || l.at.WSection2? {
      WritersLead(hw, l, c);
    } else if AtMode(l.at) {
      ModeDoesNotWakeInputs(hw, l, c);
    } else if !l.at.RTest? {
      OthersDoNotWakeInputs(hw, l, c);
    }
  }

  lemma GrantKeepsAsleep(hw: Hw, l: Local)
    requires Asleep(hw, l) && Wanted(l).Wants?
    ensures Asleep(hw, l.(at := Granted(l.at)))
  {
  }

  lemma BeginIsAwake(hw: Hw, task: Task)
    ensures !Waking(Begin(hw, task))
  {
  }

  lemma OtherStaysAsleep(hw: Hw, l: Local, c: Choice, m: Local)
    requires Fits(hw, l) && Wanted(l).Nothing? && !l.at.Idle? && Asleep(hw, m)
    requires !(m.i >= 0 && Reads(l, m.i) && Reads(m, m.i))
    ensures Asleep(Work(hw, l, c).0, m)
  {
    WorkIsGood(hw, l, c);
  }

  predicate AllAsleep(hw: Hw, locals: map<Thread, Local>) {
    forall u :: u in locals ==> Asleep(hw, locals[u])
  }

  lemma WorkKeepsAllAsleep(s: State, t: Thread, c: Choice)
    requires Inv(s) && OneReader(s.locals) && AllAsleep(s.hw, s.locals) && t in s.locals
    requires Wanted(s.locals[t]).Nothing? && !s.locals[t].at.Idle? && s.locals[t].i < |s.hw.ins|
    ensures AllAsleep(Step(s, t, c).hw, Step(s, t, c).locals)
  {
    var l := s.locals[t];
    var (hw', l') := Work(s.hw, l, c);
    assert Fits(s.hw, l);
    WorkKeepsAsleep(s.hw, l, c);
    forall u | u in s.locals && u != t ensures Asleep(hw', s.locals[u]) {
      assert !(s.locals[u].i >= 0 && Reads(l, s.locals[u].i) && Reads(s.locals[u], s.locals[u].i));
      OtherStaysAsleep(s.hw, l, c, s.locals[u]);
    }
  }

  lemma StepKeepsAsleep(s: State, t: Thread, c: Choice)
    requires Inv(s) && OneReader(s.locals) && AllAsleep(s.hw, s.locals) && t in s.locals && s.locals[t].i < |s.hw.ins|
    ensures AllAsleep(Step(s, t, c).hw, Step(s, t, c).locals)
  {
    var l := s.locals[t];
    if Wanted(l).Wants? {
      GrantKeepsAsleep(s.hw, l);
    } else if l.at.Idle? {
      BeginIsAwake(s.hw, c.task);
    } else {
      WorkKeepsAllAsleep(s, t, c);
    }
  }

  /** With one reader an input that a thread is about to wake is in standby still, also after the handshake. */
  lemma {:induction false} OneReaderAsleep(s: State, actions: seq<Action>)
    requires Quiet(s) && OneReaderRun(s, actions)
    ensures AllAsleep(Run(s, actions).hw, Run(s, actions).locals)
  {
    if actions != [] {
      var before, a := Run(s, actions[..|actions| - 1]), actions[|actions| - 1];
      OneReaderAsleep(s, actions[..|actions| - 1]);
      RunKeepsInv(s, actions[..|actions| - 1]);
      if a.t in before.locals && before.locals[a.t].i < |before.hw.ins| { StepKeepsAsleep(before, a.t, a.c); }
    }
  }

  lemma NeverOpensAwake(s: State, actions: seq<Action>, t: Thread)
    requires Quiet(s) && OneReaderRun(s, actions)
    requires t in Run(s, actions).locals && Run(s, actions).locals[t].i < |Run(s, actions).hw.ins|
    ensures !OpensAwake(Run(s, actions).hw, Run(s, actions).locals[t])
  {
    OneReaderAsleep(s, actions);
    assert Asleep(Run(s, actions).hw, Run(s, actions).locals[t]);
  }

  /** So one reader suffices for the one condition, and makes the other one of setMode alone. */
  lemma {:induction false} OneReaderSuffices(s: State, actions: seq<Action>)
    requires Quiet(s) && OneReaderRun(s, actions)
    ensures AllOpenWell(s, actions)
    ensures AllKeepAccounts(s, actions) <==> AllEnterWell(s, actions)
    ensures AllKeepBalance(s, actions) <==> AllEnterWell(s, actions)
  {
    if actions != [] {
      var first, a := actions[..|actions| - 1], actions[|actions| - 1];
      var before := Run(s, first);
      OneReaderSuffices(s, first);
      if a.t in before.locals && before.locals[a.t].i < |before.hw.ins| { NeverOpensAwake(s, first, a.t); }
    }
  }

  /** Does every entry into call mode in this run find both its opens succeed? */
  predicate AllEnterWell(s: State, actions: seq<Action>) {
    actions == [] ||
      var before, a := Run(s, actions[..|actions| - 1]), actions[|actions| - 1];
      && AllEnterWell(s, actions[..|actions| - 1])
      && (a.t in before.locals && before.locals[a.t].i < |before.hw.ins| ==>
            EntersWell(before.hw, before.locals[a.t], a.c))
  }

  lemma OpeningDriverEntersWell(hw: Hw, l: Local, c: Choice)
    requires Accounts(hw) && l.i < |hw.ins| && c.driver.pcm && c.driver.mixer
    ensures EntersWell(hw, l, c)
  {
    StandbysAccount(hw, l.holdsOut, if l.holdsIn then l.i else -1);
  }

  lemma {:induction false} OpeningDriverRuns(s: State, actions: seq<Action>)
    requires Quiet(s) && Balanced(s.hw) && OneReaderRun(s, actions)
    requires forall a :: a in actions ==> a.c.driver.pcm && a.c.driver.mixer
    ensures AllEnterWell(s, actions)
  {
    if actions != [] {
      var m := |actions| - 1;
      OpeningDriverRuns(s, actions[..m]);
      OneReaderSuffices(s, actions[..m]);
      RunBalancesIff(s, actions[..m]);
      var before, a := Run(s, actions[..m]), actions[m];
      if a.t in before.locals && before.locals[a.t].i < |before.hw.ins| {
        OpeningDriverEntersWell(before.hw, before.locals[a.t], a.c);
      }
    }
  }

  /**
   * With one reader and a driver that opens the shared handles, the counts are what is held, and who is in standby
   * holds nothing.
   */
  lemma CountsAreHoldings(s: State, actions: seq<Action>)
    requires Quiet(s) && Balanced(s.hw) && OneReaderRun(s, actions)
    requires forall a :: a in actions ==> a.c.driver.pcm && a.c.driver.mixer
    ensures var hw := Run(s, actions).hw;
            && hw.handles.pcmCnt == Unit(hw.out.pcm) + Unit(hw.inCall)
            && hw.handles.mixerCnt == Unit(hw.out.mixer) + Unit(hw.inCall) + InMixers(hw.ins)
            && (hw.handles.pcmOpen <==> hw.handles.pcmCnt > 0)
            && (hw.handles.mixerOpen <==> hw.handles.mixerCnt > 0)
            && (hw.out.standby ==> !hw.out.pcm && !hw.out.mixer)
            && forall i :: 0 <= i < |hw.ins| && hw.ins[i].standby ==> !hw.ins[i].pcm && !hw.ins[i].mixer
  {
    OpeningDriverRuns(s, actions);
    OneReaderSuffices(s, actions);
    RunBalancesIff(s, actions);
  }

  // ---------------------------------------------------------------- call mode

  predicate SameMode(hw: Hw, hw': Hw) {
    hw'.inCall == hw.inCall && hw'.calling == hw.calling
  }

  lemma ReopeningKeepsMode(hw: Hw, i: nat, d: Driver)
    requires i < |hw.ins|
    ensures SameMode(hw, CloseIn(hw, i)) && |CloseIn(hw, i).ins| == |hw.ins|
    ensures SameMode(hw, OpenOut(hw, d)) && |OpenOut(hw, d).ins| == |hw.ins|
    ensures SameMode(hw, Reopened(hw, i, d))
  {
  }

  lemma WriteRetryKeepsMode(hw: Hw, l: Local, d: Driver)
    requires 0 <= l.i < |hw.ins|
    ensures SameMode(hw, WriteRetry(hw, l, d).0)
  {
    if ActiveInput(hw) == l.i && l.cnt == hw.ins[l.i].cnt {
      var hw1 := CloseIn(hw, l.i);
      ReopeningKeepsMode(hw, l.i, d);
      ReopeningKeepsMode(hw1, l.i, d);
      ReopeningKeepsMode(OpenOut(hw1, d), l.i, d);
    }
  }

  lemma ReadRetryKeepsMode(hw: Hw, l: Local, d: Driver)
    requires 0 <= l.i < |hw.ins|
    ensures var hw' := ReadRetry(hw, l, d).0; hw'.inCall == hw.inCall && hw'.calling == hw.calling
  {
  }

  lemma ChangeModeKeepsMode(hw: Hw, l: Local, c: Choice)
    requires l.i < |hw.ins| && hw.inCall == hw.calling
    ensures var hw' := ChangeMode(hw, l, c.driver, c.flag); hw'.inCall == hw'.calling
  {
  }

  lemma WorkKeepsMode(hw: Hw, l: Local, c: Choice)
    requires Fits(hw, l) && hw.inCall == hw.calling
    ensures Work(hw, l, c).0.inCall == Work(hw, l, c).0.calling
  {
    if l.at.WSection2? {
      WriteRetryKeepsMode(hw, l, c.driver);
    } else if l.at.RSection2? {
      ReadRetryKeepsMode(hw, l, c.driver);
    } else if l.at.MBody? {
      ChangeModeKeepsMode(hw, l, c);
    }
  }

  /** Call mode is on exactly while the mode is in-call, in every run. */
  lemma {:induction false} ModesAgree(s: State, actions: seq<Action>)
    requires Quiet(s) && s.hw.inCall == s.hw.calling
    ensures Run(s, actions).hw.inCall == Run(s, actions).hw.calling
  {
    if actions != [] {
      var before, a := Run(s, actions[..|actions| - 1]), actions[|actions| - 1];
      ModesAgree(s, actions[..|actions| - 1]);
      RunKeepsInv(s, actions[..|actions| - 1]);
      if a.t in before.locals {
        assert Fits(before.hw, before.locals[a.t]);
        WorkKeepsMode(before.hw, before.locals[a.t], a.c);
      }
    }
  }
}
