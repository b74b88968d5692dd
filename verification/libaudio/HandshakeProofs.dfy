/** Every step of every thread keeps what the threads know and hold. */
module HandshakeProofs {
  import opened AudioHandles
  import opened Handshake

  // ---------------------------------------------------------------- what the operations do to the streams

  /** A stream enters standby only by counting it. */
  predicate Evolves(a: Stream, b: Stream) {
    a.cnt < b.cnt || (a.cnt == b.cnt && (b.standby ==> a.standby))
  }

  /** Only input i may change, and the output if out says so; input i leaves standby only if wakes says so. */
  predicate Touches(hw: Hw, hw': Hw, out: bool, i: int, wakes: bool) {
    && |hw'.ins| == |hw.ins| && hw'.hasOut == hw.hasOut
    && Evolves(hw.out, hw'.out) && (!out ==> hw'.out == hw.out)
    && (forall k :: 0 <= k < |hw.ins| && k != i ==> hw'.ins[k] == hw.ins[k])
    && (0 <= i < |hw.ins| ==> Evolves(hw.ins[i], hw'.ins[i]) && (hw.ins[i].standby && !wakes ==> hw'.ins[i].standby))
  }

  lemma TouchesBoth(a: Hw, b: Hw, c: Hw, out: bool, i: int, wakes: bool)
    requires Touches(a, b, out, i, wakes) && Touches(b, c, out, i, wakes)
    ensures Touches(a, c, out, i, wakes)
  {
  }

  lemma OutputTouched(hw: Hw, d: Driver, i: int)
    ensures Touches(hw, CloseOut(hw), true, i, false) && CloseOut(hw).out.standby == hw.out.standby
    ensures Touches(hw, OpenOut(hw, d), true, i, false) && OpenOut(hw, d).out.standby == hw.out.standby
    ensures Touches(hw, StandbyOut(hw), true, i, false)
  {
  }

  lemma InputTouched(hw: Hw, i: nat, d: Driver, out: bool)
    requires i < |hw.ins|
    ensures Touches(hw, CloseIn(hw, i), out, i, false)
    ensures Touches(hw, OpenIn(hw, i, d), out, i, false)
    ensures Touches(hw, StandbyIn(hw, i), out, i, false)
  {
  }

  lemma WakeOutTouches(hw: Hw, l: Local, d: Driver)
    ensures var (hw', l') := WakeOut(hw, l, d);
            && Touches(hw, hw', true, -1, false)
            && (l' == START.(at := SOut) || (l' == l.(at := WPlay) && !hw'.out.standby))
  {
    OutputTouched(hw, d, -1);
  }

  lemma WriteRetryTouches(hw: Hw, l: Local, d: Driver)
    requires 0 <= l.i < |hw.ins| && ActiveInput(hw) == l.i && l.cnt == hw.ins[l.i].cnt
    ensures var (hw', l') := WriteRetry(hw, l, d);
            && Touches(hw, hw', true, l.i, false)
            && (l' == START.(at := SOut) || (l' == l.(at := WPlay) && !hw'.out.standby))
  {
    var hw0 := CloseIn(hw, l.i);
    InputTouched(hw, l.i, d, true);
    var hw1 := OpenOut(hw0, d);
    OutputTouched(hw0, d, l.i);
    TouchesBoth(hw, hw0, hw1, true, l.i, false);
    var hw2 := OpenIn(hw1, l.i, d);
    InputTouched(hw1, l.i, d, true);
    TouchesBoth(hw, hw1, hw2, true, l.i, false);
    var hw3 := if hw2.ins[l.i].pcm then hw2 else StandbyIn(hw2, l.i);
    InputTouched(hw2, l.i, d, true);
    if !hw2.ins[l.i].pcm { TouchesBoth(hw, hw2, hw3, true, l.i, false); }
  }

  /** Where a section of write leads. */
  lemma WriteLoopLeads(hw: Hw, l: Local, d: Driver)
    ensures var p := WriteLoop(hw, l, d).1.at; p.SOut? || p.WPlay? || p.WIn?
  {
    WakeOutTouches(hw, l, d);
  }

  lemma WriteRetryLeads(hw: Hw, l: Local, d: Driver)
    requires 0 <= l.i < |hw.ins|
    ensures var p := WriteRetry(hw, l, d).1.at; p.SOut? || p.WPlay? || p.WIn?
  {
    if ActiveInput(hw) == l.i && l.cnt == hw.ins[l.i].cnt {
      WriteRetryTouches(hw, l, d);
    } else {
      WriteLoopLeads(hw, l, d);
    }
  }

  lemma LoopStepLeads(hw: Hw, l: Local, c: Choice)
    requires l.at.WSection? && l.i < |hw.ins|
    ensures var p := Work(hw, l, c).1.at; p.SOut? || p.WPlay? || p.WIn?
  {
    var d := c.driver;
    assert Work(hw, l, c) == WriteLoop(hw, l, d);
    WriteLoopLeads(hw, l, d);
  }

  lemma RetryStepLeads(hw: Hw, l: Local, c: Choice)
    requires l.at.WSection2? && 0 <= l.i < |hw.ins|
    ensures var p := Work(hw, l, c).1.at; p.SOut? || p.WPlay? || p.WIn?
  {
    var d := c.driver;
    assert Work(hw, l, c) == WriteRetry(hw, l, d);
    WriteRetryLeads(hw, l, d);
  }

  /** After its critical section write plays, waits for the input, or goes to standby. */
  lemma WritersLead(hw: Hw, l: Local, c: Choice)
    requires Exists(hw, l) && (l.at.WSection? || l.at.WSection2?)
    ensures var p := Work(hw, l, c).1.at; p.SOut? || p.WPlay? || p.WIn?
  {
    if l.at.WSection2? { RetryStepLeads(hw, l, c); } else { LoopStepLeads(hw, l, c); }
  }

  lemma WakeInTouches(hw: Hw, l: Local, d: Driver, out: bool)
    requires 0 <= l.i < |hw.ins|
    ensures var (hw', l') := WakeIn(hw, l, d);
            && Touches(hw, hw', out, l.i, true)
            && (l' == START.(at := TIn, i := l.i) || (l' == l.(at := RCapture) && !hw'.ins[l.i].standby))
  {
    InputTouched(hw, l.i, d, out);
  }

  lemma ReadRetryTouches(hw: Hw, l: Local, d: Driver)
    requires 0 <= l.i < |hw.ins| && l.cnt == hw.out.cnt
    ensures var (hw', l') := ReadRetry(hw, l, d);
            && Touches(hw, hw', true, l.i, true)
            && (l' == START.(at := TIn, i := l.i) || (l' == l.(at := RCapture) && !hw'.ins[l.i].standby))
  {
    var hw0 := CloseOut(hw);
    OutputTouched(hw, d, l.i);
    var hw1 := OpenOut(hw0, d);
    OutputTouched(hw0, d, l.i);
    TouchesBoth(hw, hw0, hw1, true, l.i, false);
    var hw2 := if hw1.out.pcm then hw1 else StandbyOut(hw1);
    OutputTouched(hw1, d, l.i);
    if !hw1.out.pcm { TouchesBoth(hw, hw1, hw2, true, l.i, false); }
    WakeInTouches(hw2, l, d, true);
    TouchesBoth(hw, hw2, WakeIn(hw2, l, d).0, true, l.i, true);
  }

  lemma ChangeModeTouches(hw: Hw, l: Local, d: Driver, ok: bool)
    requires l.i < |hw.ins| && (l.holdsIn ==> 0 <= l.i)
    ensures Touches(hw, ChangeMode(hw, l, d, ok), l.holdsOut, if l.holdsIn then l.i else -1, false)
  {
  }

  // ---------------------------------------------------------------- one step of one thread

  /** Only streams whose mutex the thread holds change, and an input is woken only by its reader. */
  predicate Guarded(hw: Hw, l: Local, hw': Hw) {
    && Touches(hw, hw', HoldsOutput(l), if HoldsInput(l) then l.i else -1, Reads(l, l.i))
    && (hw' != hw ==> HoldsHardware(l))
  }

  /** The thread keeps at most the mutexes it had. */
  predicate Narrows(l': Local, l: Local) {
    && (HoldsOutput(l') ==> HoldsOutput(l)) && (HoldsHardware(l') ==> HoldsHardware(l))
    && (HoldsInput(l') ==> HoldsInput(l) && l'.i == l.i)
  }

  predicate Good(hw: Hw, l: Local, hw': Hw, l': Local) {
    Guarded(hw, l, hw') && Fits(hw', l') && Narrows(l', l)
  }

  lemma Widened(hw: Hw, hw': Hw, out: bool, i: int)
    requires Touches(hw, hw', true, -1, false)
    ensures Touches(hw, hw', true, i, false)
  {
  }

  /** write is done with its handshake. */
  lemma WokenFits(hw: Hw, l: Local, hw': Hw, l': Local)
    requires Fits(hw, l) && (l.at.WSection? || l.at.WSection2?)
    requires |hw'.ins| == |hw.ins| && hw'.hasOut == hw.hasOut
    requires l' == START.(at := SOut) || (l' == l.(at := WPlay) && !hw'.out.standby)
    ensures Fits(hw', l') && Narrows(l', l)
  {
  }

  lemma WriteLoopIsGood(hw: Hw, l: Local, d: Driver)
    requires Fits(hw, l) && (l.at.WSection? || l.at.WSection2?)
    ensures var (hw', l') := WriteLoop(hw, l, d); Good(hw, l, hw', l')
  {
    var (hw', l') := WriteLoop(hw, l, d);
    var i := ActiveInput(hw);
    if i == -1 {
      WakeOutTouches(hw, l, d);
      Widened(hw, hw', true, if HoldsInput(l) then l.i else -1);
      WokenFits(hw, l, hw', l');
    } else {
      assert Fits(hw', l');
      assert Narrows(l', l);
    }
  }

  lemma WriteRetryIsGood(hw: Hw, l: Local, d: Driver)
    requires Fits(hw, l) && l.at.WSection2?
    ensures var (hw', l') := WriteRetry(hw, l, d); Good(hw, l, hw', l')
  {
    if ActiveInput(hw) == l.i && l.cnt == hw.ins[l.i].cnt {
      var (hw', l') := WriteRetry(hw, l, d);
      WriteRetryTouches(hw, l, d);
      WokenFits(hw, l, hw', l');
    } else {
      WriteLoopIsGood(hw, l, d);
    }
  }

  /** read is done with its handshake. */
  lemma ReadyFits(hw: Hw, l: Local, hw': Hw, l': Local)
    requires Fits(hw, l) && (l.at.RSection? || l.at.RSection2?)
    requires |hw'.ins| == |hw.ins| && hw'.hasOut == hw.hasOut
    requires l' == START.(at := TIn, i := l.i) || (l' == l.(at := RCapture) && !hw'.ins[l.i].standby)
    ensures Fits(hw', l') && Narrows(l', l)
  {
  }

  lemma AwaitingOutputFits(hw: Hw, l: Local)
    requires Fits(hw, l) && (l.at.RSection? || l.at.RSection2?) && hw.hasOut && !hw.out.standby
    ensures var l' := l.(at := ROut, cnt := hw.out.cnt); Fits(hw, l') && Narrows(l', l)
  {
  }

  lemma ReadLoopIsGood(hw: Hw, l: Local, d: Driver)
    requires Fits(hw, l) && (l.at.RSection? || l.at.RSection2?)
    ensures var (hw', l') := ReadLoop(hw, l, d); Good(hw, l, hw', l')
  {
    if hw.hasOut && !hw.out.standby {
      AwaitingOutputFits(hw, l);
    } else {
      var (hw', l') := WakeIn(hw, l, d);
      WakeInTouches(hw, l, d, HoldsOutput(l));
      ReadyFits(hw, l, hw', l');
    }
  }

  lemma ReadRetryIsGood(hw: Hw, l: Local, d: Driver)
    requires Fits(hw, l) && l.at.RSection2?
    ensures var (hw', l') := ReadRetry(hw, l, d); Good(hw, l, hw', l')
  {
    if l.cnt == hw.out.cnt {
      var (hw', l') := ReadRetry(hw, l, d);
      ReadRetryTouches(hw, l, d);
      ReadyFits(hw, l, hw', l');
    } else {
      ReadLoopIsGood(hw, l, d);
    }
  }

  /** setMode with the output settled: it holds the output, active, or it does not hold it. */
  predicate Settled(hw: Hw, l: Local) {
    && (l.at.MSection? || l.at.MSection2? || l.at.MSection3?) && Exists(hw, l.(holdsOut := false, kept := false))
    && (l.holdsOut ==> hw.hasOut && !hw.out.standby)
    && (l.kept && !l.holdsOut ==> !hw.hasOut || hw.out.standby)
  }

  lemma NoInputFits(hw: Hw, l: Local)
    requires Settled(hw, l) && ActiveInput(hw) == -1
    ensures var l' := l.(at := MBody, holdsIn := false); Fits(hw, l') && Narrows(l', l)
  {
  }

  lemma WaitingFits(hw: Hw, l: Local, i: nat)
    requires Settled(hw, l) && i < |hw.ins| && !hw.ins[i].standby
    ensures var l' := l.(at := MIn, i := i, cnt := hw.ins[i].cnt, holdsIn := false, kept := false);
            Fits(hw, l') && Narrows(l', l)
  {
  }

  lemma ModeInputIsGood(hw: Hw, l: Local)
    requires Settled(hw, l)
    ensures var l' := ModeInput(hw, l); Fits(hw, l') && Narrows(l', l)
  {
    if ActiveInput(hw) == -1 { NoInputFits(hw, l); } else { WaitingFits(hw, l, ActiveInput(hw)); }
  }

  lemma ModeLoopIsGood(hw: Hw, l: Local)
    requires Fits(hw, l) && (l.at.MSection? || l.at.MSection2?)
    ensures var l' := ModeLoop(hw, l); Fits(hw, l') && Narrows(l', l)
  {
    if !hw.hasOut || hw.out.standby { ModeInputIsGood(hw, l.(holdsOut := false, kept := true)); }
  }

  lemma ModeRetryOutIsGood(hw: Hw, l: Local)
    requires Fits(hw, l) && l.at.MSection2?
    ensures var l' := ModeRetryOut(hw, l); Fits(hw, l') && Narrows(l', l)
  {
    if l.cnt == hw.out.cnt { ModeInputIsGood(hw, l.(holdsOut := true, kept := true)); } else { ModeLoopIsGood(hw, l); }
  }

  lemma MatchedInputFits(hw: Hw, l: Local)
    requires Fits(hw, l) && l.at.MSection3? && ActiveInput(hw) == l.i
    ensures var l' := l.(at := MBody, holdsIn := true); Fits(hw, l') && Narrows(l', l)
  {
  }

  lemma ModeRetryInIsGood(hw: Hw, l: Local)
    requires Fits(hw, l) && l.at.MSection3?
    ensures var l' := ModeRetryIn(hw, l); Fits(hw, l') && Narrows(l', l)
  {
    if ActiveInput(hw) == l.i && l.cnt == hw.ins[l.i].cnt {
      MatchedInputFits(hw, l);
    } else {
      assert Settled(hw, l);
      ModeInputIsGood(hw, l);
    }
  }

  /** A task ends, or turns into standby of its stream. */
  lemma EndFits(hw: Hw, l: Local, l': Local)
    requires l' == START || (l' == START.(at := SOut) && hw.hasOut)
             || (l' == START.(at := TIn, i := l.i) && 0 <= l.i < |hw.ins|)
    ensures Fits(hw, l') && Narrows(l', l)
  {
  }

  lemma OutputTestedFits(hw: Hw, l: Local, p: Point)
    requires Fits(hw, l)
    requires (l.at.WTest? && p == (if hw.out.standby then WHw else WPlay)) || (l.at.STest? && p.SHw?)
    ensures Fits(hw, l.(at := p)) && Narrows(l.(at := p), l)
  {
  }

  lemma InputTestedFits(hw: Hw, l: Local, p: Point)
    requires Fits(hw, l) && l.i >= 0
    requires (l.at.RTest? && p == (if hw.ins[l.i].standby then RHw else RCapture)) || (l.at.TTest? && p.THw?)
    ensures Fits(hw, l.(at := p)) && Narrows(l.(at := p), l)
  {
  }

  lemma ChangeIsGood(hw: Hw, l: Local, d: Driver, ok: bool)
    requires Fits(hw, l) && l.at.MBody?
    ensures Good(hw, l, ChangeMode(hw, l, d, ok), START)
  {
    var hw' := ChangeMode(hw, l, d, ok);
    ChangeModeTouches(hw, l, d, ok);
    EndFits(hw', l, START);
  }

  lemma StaysGood(hw: Hw, l: Local, l': Local)
    requires Fits(hw, l') && Narrows(l', l)
    ensures Good(hw, l, hw, l')
  {
  }

  lemma ModeWorkIsGood(hw: Hw, l: Local, c: Choice)
    requires Fits(hw, l) && (l.at.MSection? || l.at.MSection2? || l.at.MSection3?)
    ensures var (hw', l') := Work(hw, l, c); Good(hw, l, hw', l')
  {
    var (_, l') := Work(hw, l, c);
    if l.at.MSection? {
      ModeLoopIsGood(hw, l);
    } else if l.at.MSection2? {
      ModeRetryOutIsGood(hw, l);
    } else {
      ModeRetryInIsGood(hw, l);
    }
    StaysGood(hw, l, l');
  }

  lemma OutputTestIsGood(hw: Hw, l: Local, c: Choice)
    requires Fits(hw, l) && (l.at.WTest? || l.at.STest? || l.at.WPlay?)
    ensures var (hw', l') := Work(hw, l, c); Good(hw, l, hw', l')
  {
    var (_, l') := Work(hw, l, c);
    if l' == START || l.at.WPlay? { EndFits(hw, l, l'); } else { OutputTestedFits(hw, l, l'.at); }
    StaysGood(hw, l, l');
  }

  lemma InputTestIsGood(hw: Hw, l: Local, c: Choice)
    requires Fits(hw, l) && (l.at.RTest? || l.at.TTest? || l.at.RCapture?)
    ensures var (hw', l') := Work(hw, l, c); Good(hw, l, hw', l')
  {
    var (_, l') := Work(hw, l, c);
    if l' == START || l.at.RCapture? { EndFits(hw, l, l'); } else { InputTestedFits(hw, l, l'.at); }
    StaysGood(hw, l, l');
  }

  lemma OutputStandbyIsGood(hw: Hw, l: Local, c: Choice)
    requires Fits(hw, l) && l.at.SSection?
    ensures var (hw', l') := Work(hw, l, c); Good(hw, l, hw', l')
  {
    var (hw', l') := Work(hw, l, c);
    OutputTouched(hw, c.driver, -1);
    EndFits(hw', l, l');
  }

  lemma InputStandbyIsGood(hw: Hw, l: Local, c: Choice)
    requires Fits(hw, l) && l.at.TSection?
    ensures var (hw', l') := Work(hw, l, c); Good(hw, l, hw', l')
  {
    var (hw', l') := Work(hw, l, c);
    InputTouched(hw, l.i, c.driver, false);
    EndFits(hw', l, l');
  }

  lemma HandshakeWorkIsGood(hw: Hw, l: Local, c: Choice)
    requires Fits(hw, l) && (l.at.WSection? || l.at.WSection2? || l.at.RSection? || l.at.RSection2?)
    ensures var (hw', l') := Work(hw, l, c); Good(hw, l, hw', l')
  {
    if l.at.WSection? {
      WriteLoopIsGood(hw, l, c.driver);
    } else if l.at.WSection2? {
      WriteRetryIsGood(hw, l, c.driver);
    } else if l.at.RSection? {
      ReadLoopIsGood(hw, l, c.driver);
    } else {
      ReadRetryIsGood(hw, l, c.driver);
    }
  }

  lemma WorkIsGood(hw: Hw, l: Local, c: Choice)
    requires Fits(hw, l) && Wanted(l).Nothing? && !l.at.Idle?
    ensures var (hw', l') := Work(hw, l, c); Good(hw, l, hw', l')
  {
    if l.at.WTest? || l.at.STest? || l.at.WPlay? {
      OutputTestIsGood(hw, l, c);
    } else if l.at.RTest? || l.at.TTest? || l.at.RCapture? {
      InputTestIsGood(hw, l, c);
    } else if l.at.MBody? {
      ChangeIsGood(hw, l, c.driver, c.flag);
    } else if AtMode(l.at) {
      ModeWorkIsGood(hw, l, c);
    } else if l.at.SSection? {
      OutputStandbyIsGood(hw, l, c);
    } else if l.at.TSection? {
      InputStandbyIsGood(hw, l, c);
    } else {
      HandshakeWorkIsGood(hw, l, c);
    }
  }

  // ---------------------------------------------------------------- mutexes and the other threads

  /** Two threads never hold the same mutex. */
  predicate Disjoint(l: Local, m: Local) {
    && !(HoldsOutput(l) && HoldsOutput(m)) && !(HoldsHardware(l) && HoldsHardware(m))
    && (l.i == m.i ==> !(HoldsInput(l) && HoldsInput(m)))
  }

  lemma HeldInputExists(hw: Hw, l: Local)
    requires Exists(hw, l) && HoldsInput(l)
    ensures l.i >= 0
  {
  }

  lemma OwnersAreDisjoint(locks: map<Lock, Thread>, t: Thread, l: Local, u: Thread, m: Local)
    requires t != u && Owns(locks, t, l) && Owns(locks, u, m) && (HoldsInput(l) ==> l.i >= 0)
    ensures Disjoint(l, m)
  {
    assert !(Holds(l, OutLock) && Holds(m, OutLock));
    assert !(Holds(l, HwLock) && Holds(m, HwLock));
    if l.i >= 0 {
      assert !(Holds(l, InLock(l.i)) && Holds(m, InLock(l.i)));
    }
  }

  lemma ThreadsAreDisjoint(s: State, t: Thread, u: Thread)
    requires Inv(s) && t in s.locals && u in s.locals && t != u
    ensures Disjoint(s.locals[t], s.locals[u])
  {
    if HoldsInput(s.locals[t]) { HeldInputExists(s.hw, s.locals[t]); }
    OwnersAreDisjoint(s.locks, t, s.locals[t], u, s.locals[u]);
  }

  lemma OtherFits(hw: Hw, l: Local, hw': Hw, m: Local)
    requires Fits(hw, m) && Guarded(hw, l, hw') && Disjoint(l, m)
    ensures Fits(hw', m)
  {
  }

  lemma GrantedExists(hw: Hw, l: Local)
    requires Exists(hw, l) && Wanted(l).Wants?
    ensures Exists(hw, l.(at := Granted(l.at)))
  {
  }

  lemma GrantedKnows(hw: Hw, l: Local)
    requires Fits(hw, l) && Exists(hw, l.(at := Granted(l.at))) && Wanted(l).Wants?
    ensures Knows(hw, l.(at := Granted(l.at)))
  {
  }

  lemma GrantedHolds(l: Local, k: Lock)
    requires Wanted(l).Wants?
    ensures Holds(l.(at := Granted(l.at)), k) <==> Holds(l, k) || k == Wanted(l).lock
  {
  }

  // ---------------------------------------------------------------- a step

  lemma GrantKeepsOwners(locks: map<Lock, Thread>, locals: map<Thread, Local>, t: Thread)
    requires AllOwn(locks, locals) && t in locals && Wanted(locals[t]).Wants? && Wanted(locals[t]).lock !in locks
    ensures var l := locals[t]; AllOwn(locks[Wanted(l).lock := t], locals[t := l.(at := Granted(l.at))])
  {
    var l := locals[t];
    var locks', locals' := locks[Wanted(l).lock := t], locals[t := l.(at := Granted(l.at))];
    forall u | u in locals' ensures Owns(locks', u, locals'[u]) {
      assert Owns(locks, u, locals[u]);
      forall k ensures Holds(locals'[u], k) <==> k in locks' && locks'[k] == u {
        GrantedHolds(l, k);
        assert Holds(locals[u], k) <==> k in locks && locks[k] == u;
      }
    }
  }

  lemma ReleaseKeepsOwners(locks: map<Lock, Thread>, locals: map<Thread, Local>, t: Thread, l': Local)
    requires AllOwn(locks, locals) && t in locals && Narrows(l', locals[t])
    ensures AllOwn(Released(locks, t, l'), locals[t := l'])
  {
    var locks', locals' := Released(locks, t, l'), locals[t := l'];
    forall u | u in locals' ensures Owns(locks', u, locals'[u]) {
      assert Owns(locks, u, locals[u]);
      forall k ensures Holds(locals'[u], k) <==> k in locks' && locks'[k] == u {
        assert Holds(locals[u], k) <==> k in locks && locks[k] == u;
      }
    }
  }

  lemma GrantKeepsInv(s: State, t: Thread, c: Choice)
    requires Inv(s) && t in s.locals && Wanted(s.locals[t]).Wants? && Wanted(s.locals[t]).lock !in s.locks
    ensures Inv(Step(s, t, c))
  {
    var l := s.locals[t];
    GrantedExists(s.hw, l);
    GrantedKnows(s.hw, l);
    GrantKeepsOwners(s.locks, s.locals, t);
  }

  lemma WorkKeepsInv(s: State, t: Thread, c: Choice)
    requires Inv(s) && t in s.locals && Wanted(s.locals[t]).Nothing? && !s.locals[t].at.Idle?
    ensures Inv(Step(s, t, c))
  {
    var l := s.locals[t];
    var (hw', l') := Work(s.hw, l, c);
    WorkIsGood(s.hw, l, c);
    ReleaseKeepsOwners(s.locks, s.locals, t, l');
    forall u | u in s.locals && u != t ensures Fits(hw', s.locals[u]) {
      ThreadsAreDisjoint(s, t, u);
      OtherFits(s.hw, l, hw', s.locals[u]);
    }
  }

  lemma BeginFits(hw: Hw, task: Task)
    ensures Fits(hw, Begin(hw, task))
  {
  }

  lemma BeginHoldsNothing(hw: Hw, task: Task)
    ensures var l' := Begin(hw, task); !HoldsOutput(l') && !HoldsInput(l') && !HoldsHardware(l')
  {
  }

  lemma BeginKeepsOwners(locks: map<Lock, Thread>, locals: map<Thread, Local>, t: Thread, l': Local)
    requires AllOwn(locks, locals) && t in locals && locals[t].at.Idle? && !locals[t].holdsOut
    requires !HoldsOutput(l') && !HoldsInput(l') && !HoldsHardware(l')
    ensures AllOwn(locks, locals[t := l'])
  {
    var locals' := locals[t := l'];
    forall u | u in locals' ensures Owns(locks, u, locals'[u]) {
      assert Owns(locks, u, locals[u]);
      forall k ensures Holds(locals'[u], k) <==> k in locks && locks[k] == u {
        assert Holds(locals[u], k) <==> k in locks && locks[k] == u;
      }
    }
  }

  lemma BeginKeepsInv(s: State, t: Thread, c: Choice)
    requires Inv(s) && t in s.locals && s.locals[t].at.Idle?
    ensures Inv(Step(s, t, c))
  {
    var l' := Begin(s.hw, c.task);
    BeginFits(s.hw, c.task);
    BeginHoldsNothing(s.hw, c.task);
    assert Fits(s.hw, s.locals[t]);
    BeginKeepsOwners(s.locks, s.locals, t, l');
  }

  lemma StepKeepsInv(s: State, t: Thread, c: Choice)
    requires Inv(s) && t in s.locals
    ensures s.locals[t].i < |s.hw.ins| && Inv(Step(s, t, c))
  {
    var l := s.locals[t];
    assert Fits(s.hw, l);
    if Wanted(l).Wants? {
      if Wanted(l).lock !in s.locks { GrantKeepsInv(s, t, c); }
    } else if l.at.Idle? {
      BeginKeepsInv(s, t, c);
    } else {
      WorkKeepsInv(s, t, c);
    }
  }

  lemma QuietInv(s: State)
    requires Quiet(s)
    ensures Inv(s)
  {
  }

  /** Whatever the threads do, in whatever order, from a state in which nothing runs. */
  lemma {:induction false} RunKeepsInv(s: State, actions: seq<Action>)
    requires Quiet(s)
    ensures Inv(Run(s, actions))
  {
    if actions == [] {
      QuietInv(s);
    } else {
      var before, a := Run(s, actions[..|actions| - 1]), actions[|actions| - 1];
      RunKeepsInv(s, actions[..|actions| - 1]);
      if a.t in before.locals { StepKeepsInv(before, a.t, a.c); }
    }
  }
}
