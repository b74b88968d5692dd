/**
 * Each task run by itself, from a state in which nothing else runs: it takes the steps its code takes, ends, and has
 * done what it is for.
 */
module HandshakeAlone {
  import opened AudioHandles
  import opened Handshake
  import opened HandshakeProofs
  import opened HandshakeTheorems
  import opened HandshakeAccounts
  import opened HandshakeLaws

  // ---------------------------------------------------------------- steps of one thread

  /** A step of a thread that finds every mutex free. */
  function Turn(hw: Hw, l: Local, c: Choice): (Hw, Local) {
    if Wanted(l).Wants? then (hw, l.(at := Granted(l.at)))
    else if l.at.Idle? then (hw, Begin(hw, c.task))
    else if l.i < |hw.ins| then Work(hw, l, c)
    else (hw, l)
  }

  function Alone(hw: Hw, c: Choice, n: nat): (Hw, Local) {
    if n == 0 then (hw, START)
    else
      var (hw', l') := Alone(hw, c, n - 1);
      Turn(hw', l', c)
  }

  function Times(n: nat, a: Action): seq<Action> {
    if n == 0 then [] else Times(n - 1, a) + [a]
  }

  lemma FreeWhenAlone(s: State, t: Thread)
    requires Inv(s) && t in s.locals && Wanted(s.locals[t]).Wants?
    requires forall u :: u in s.locals && u != t ==> s.locals[u] == START
    ensures Wanted(s.locals[t]).lock !in s.locks
  {
    var k := Wanted(s.locals[t]).lock;
    if k in s.locks {
      var u := s.locks[k];
      assert Owns(s.locks, u, s.locals[u]);
      assert !Holds(START, k);
      assert Fits(s.hw, s.locals[t]);
      WantsAfterHeld(s.hw, s.locals[t], k);
    }
  }

  lemma StepIsTurn(s: State, t: Thread, c: Choice)
    requires Inv(s) && t in s.locals && s.locals[t].i < |s.hw.ins|
    requires Wanted(s.locals[t]).Wants? ==> Wanted(s.locals[t]).lock !in s.locks
    ensures var s', w := Step(s, t, c), Turn(s.hw, s.locals[t], c);
            s'.hw == w.0 && s'.locals == s.locals[t := w.1]
  {
  }

  /** A step of the one thread that runs, from r, which is s but for that thread. */
  lemma StepAlone(s: State, r: State, t: Thread, c: Choice, hw: Hw, l: Local)
    requires Quiet(s) && t in s.locals && Inv(r) && r.hw == hw && r.locals == s.locals[t := l]
    ensures l.i < |hw.ins|
    ensures Step(r, t, c).hw == Turn(hw, l, c).0 && Step(r, t, c).locals == s.locals[t := Turn(hw, l, c).1]
  {
    assert Fits(r.hw, r.locals[t]);
    if Wanted(l).Wants? { FreeWhenAlone(r, t); }
    StepIsTurn(r, t, c);
    assert s.locals[t := l][t := Turn(hw, l, c).1] == s.locals[t := Turn(hw, l, c).1];
  }

  lemma {:induction false} AloneIsRun(s: State, t: Thread, c: Choice, n: nat)
    requires Quiet(s) && t in s.locals
    ensures var r := Run(s, Times(n, Action(t, c)));
            r.hw == Alone(s.hw, c, n).0 && r.locals == s.locals[t := Alone(s.hw, c, n).1]
  {
    if n == 0 {
      assert s.locals[t := START] == s.locals;
    } else {
      AloneIsRun(s, t, c, n - 1);
      var first, a := Times(n - 1, Action(t, c)), Action(t, c);
      assert (first + [a])[..|first|] == first;
      RunKeepsInv(s, first);
      var (hw, l) := Alone(s.hw, c, n - 1);
      StepAlone(s, Run(s, first), t, c, hw, l);
    }
  }

  /** Where each step leads. */
  predicate Follows(f: nat -> (Hw, Local), c: Choice, k: nat) {
    f(k + 1) == Turn(f(k).0, f(k).1, c)
  }

  /** f has where the task c is after each step, begun at hw. */
  ghost predicate Course(f: nat -> (Hw, Local), hw: Hw, c: Choice) {
    f(0) == (hw, START) && forall k: nat :: Follows(f, c, k)
  }

  function CourseOf(hw: Hw, c: Choice): (f: nat -> (Hw, Local)) {
    (n: nat) => Alone(hw, c, n)
  }

  lemma AloneIsCourse(hw: Hw, c: Choice)
    ensures Course(CourseOf(hw, c), hw, c)
  {
    forall k: nat ensures Follows(CourseOf(hw, c), c, k) {
      assert CourseOf(hw, c)(k + 1) == Alone(hw, c, k + 1);
    }
  }

  lemma Starts(f: nat -> (Hw, Local), hw: Hw, c: Choice)
    requires Course(f, hw, c)
    ensures f(1) == (hw, Begin(hw, c.task))
  {
    assert Follows(f, c, 0);
  }

  lemma Next(f: nat -> (Hw, Local), c: Choice, n: nat, hw1: Hw, l1: Local, hw2: Hw, l2: Local)
    requires (forall k: nat :: Follows(f, c, k)) && f(n) == (hw1, l1) && Turn(hw1, l1, c) == (hw2, l2)
    ensures f(n + 1) == (hw2, l2)
  {
    assert Follows(f, c, n);
  }

  lemma Granting(f: nat -> (Hw, Local), c: Choice, n: nat, hw1: Hw, l1: Local)
    requires (forall k: nat :: Follows(f, c, k)) && f(n) == (hw1, l1) && Wanted(l1).Wants?
    ensures f(n + 1) == (hw1, l1.(at := Granted(l1.at)))
  {
    Next(f, c, n, hw1, l1, hw1, l1.(at := Granted(l1.at)));
  }

  /** It is granted the mutex it waits for, and does its work there. */
  lemma Working(f: nat -> (Hw, Local), c: Choice, n: nat, hw1: Hw, l1: Local, hw2: Hw, l2: Local)
    requires (forall k: nat :: Follows(f, c, k)) && f(n) == (hw1, l1) && Wanted(l1).Wants? && l1.i < |hw1.ins|
    requires var l := l1.(at := Granted(l1.at));
             Wanted(l).Nothing? && !l.at.Idle? && Work(hw1, l, c) == (hw2, l2)
    ensures f(n + 2) == (hw2, l2)
  {
    var l := l1.(at := Granted(l1.at));
    Next(f, c, n, hw1, l1, hw1, l);
    Next(f, c, n + 1, hw1, l, hw2, l2);
  }

  lemma Ends(s: State, t: Thread, c: Choice, n: nat, hw: Hw)
    requires Quiet(s) && t in s.locals && CourseOf(s.hw, c)(n) == (hw, START)
    ensures Run(s, Times(n, Action(t, c))).locals == s.locals && Run(s, Times(n, Action(t, c))).hw == hw
  {
    AloneIsRun(s, t, c, n);
    assert s.locals[t := START] == s.locals;
  }

  /** The thread was at p and has ended its task since, with the hardware at hw; nobody else has moved. */
  predicate EndedFrom(s: State, before: State, r: State, t: Thread, p: Point, hw: Hw) {
    t in before.locals && before.locals[t].at == p && r.locals == s.locals && r.hw == hw
  }

  /** The last step of a write or read that the driver has served. */
  lemma TransferEnds(first: Hw, c: Choice, n: nat, hw: Hw, l: Local)
    requires CourseOf(first, c)(n) == (hw, l) && (l.at.WPlay? || l.at.RCapture?) && c.flag && l.i < |hw.ins|
    ensures CourseOf(first, c)(n + 1) == (hw, START)
  {
  }

  lemma EndsFrom(s: State, t: Thread, c: Choice, n: nat, hw: Hw, l: Local)
    requires Quiet(s) && t in s.locals && CourseOf(s.hw, c)(n) == (hw, l)
    requires (l.at.WPlay? || l.at.RCapture?) && c.flag && l.i < |hw.ins|
    ensures EndedFrom(s, Run(s, Times(n, Action(t, c))), Run(s, Times(n + 1, Action(t, c))), t, l.at, hw)
  {
    TransferEnds(s.hw, c, n, hw, l);
    AloneIsRun(s, t, c, n);
    Ends(s, t, c, n + 1, hw);
  }

  // ---------------------------------------------------------------- standby and setParameters

  /** Past the test: from the wait for the hardware mutex. */
  lemma OutputSleeps(f: nat -> (Hw, Local), c: Choice, hw: Hw, l: Local) returns (hw': Hw)
    requires (forall k: nat :: Follows(f, c, k)) && f(3) == (hw, l) && l.at.SHw? && l.i < |hw.ins|
    ensures f(5) == (hw', START)
    ensures if !l.params || (c.flag && !hw.calling) then HoldsNothing(hw'.out) && hw'.ins == hw.ins else hw' == hw
  {
    hw' := if l.params && (hw.calling || !c.flag) then hw else StandbyOut(hw);
    Working(f, c, 3, hw, l, hw', START);
  }

  lemma AloneOutputSleeps(f: nat -> (Hw, Local), hw: Hw, c: Choice) returns (n: nat, hw': Hw)
    requires Course(f, hw, c)
    requires hw.hasOut && (c.task.OutStandby? || c.task.OutParameters?)
    ensures n <= 5 && f(n) == (hw', START)
    ensures if c.task.OutStandby? || (c.flag && !hw.calling) then HoldsNothing(hw'.out) && hw'.ins == hw.ins
            else hw' == hw
  {
    var l := START.(at := SOut, params := c.task.OutParameters?);
    Starts(f, hw, c);
    var l' := if l.params && !c.flag then START else l.(at := SHw);
    Working(f, c, 1, hw, l, hw, l');
    n, hw' := 3, hw;
    if l'.at.SHw? {
      hw' := OutputSleeps(f, c, hw, l');
      n := 5;
    }
  }

  lemma InputSleeps(f: nat -> (Hw, Local), c: Choice, hw: Hw, l: Local) returns (hw': Hw)
    requires (forall k: nat :: Follows(f, c, k)) && f(3) == (hw, l) && l.at.THw? && 0 <= l.i < |hw.ins|
    ensures f(5) == (hw', START)
    ensures if !l.params || (c.flag && !hw.calling) then
              hw'.out == hw.out && OthersStay(hw, hw', l.i) && HoldsNothing(hw'.ins[l.i])
            else hw' == hw
  {
    hw' := if l.params && (hw.calling || !c.flag) then hw else StandbyIn(hw, l.i);
    Working(f, c, 3, hw, l, hw', START);
  }

  lemma AloneInputSleeps(f: nat -> (Hw, Local), hw: Hw, c: Choice, i: nat) returns (n: nat, hw': Hw)
    requires Course(f, hw, c)
    requires i < |hw.ins| && (c.task == InStandby(i) || c.task == InParameters(i))
    ensures n <= 5 && f(n) == (hw', START)
    ensures if c.task.InStandby? || (c.flag && !hw.calling) then
              hw'.out == hw.out && OthersStay(hw, hw', i) && HoldsNothing(hw'.ins[i])
            else hw' == hw
  {
    var l := START.(at := TIn, i := i, params := c.task.InParameters?);
    Starts(f, hw, c);
    var l' := if l.params && !c.flag then START else l.(at := THw);
    Working(f, c, 1, hw, l, hw, l');
    n, hw' := 3, hw;
    if l'.at.THw? {
      hw' := InputSleeps(f, c, hw, l');
      n := 5;
    }
  }

  /** Alone, standby ends with its stream in standby, and setParameters does if there is a new device and no call. */
  lemma LoneStandby(s: State, t: Thread, c: Choice) returns (n: nat)
    requires Quiet(s) && t in s.locals
    requires c.task.OutStandby? || c.task.OutParameters? ==> s.hw.hasOut
    requires c.task.InStandby? || c.task.InParameters? ==> c.task.i < |s.hw.ins|
    requires !c.task.Write? && !c.task.Read? && !c.task.SetMode?
    ensures n <= 5
    ensures var hw, r := s.hw, Run(s, Times(n, Action(t, c)));
            var sleeps := c.task.OutStandby? || c.task.InStandby? || (c.flag && !hw.calling);
            && r.locals == s.locals && (!sleeps ==> r.hw == hw)
            && (sleeps && (c.task.OutStandby? || c.task.OutParameters?) ==>
                  HoldsNothing(r.hw.out) && r.hw.ins == hw.ins)
            && (sleeps && (c.task.InStandby? || c.task.InParameters?) ==>
                  r.hw.out == hw.out && OthersStay(hw, r.hw, c.task.i) && HoldsNothing(r.hw.ins[c.task.i]))
  {
    var f, hw' := CourseOf(s.hw, c), s.hw;
    AloneIsCourse(s.hw, c);
    if c.task.OutStandby? || c.task.OutParameters? {
      n, hw' := AloneOutputSleeps(f, s.hw, c);
    } else {
      n, hw' := AloneInputSleeps(f, s.hw, c, c.task.i);
    }
    Ends(s, t, c, n, hw');
  }

  // ---------------------------------------------------------------- setMode

  /** setMode has settled the output: it holds it exactly if it is active, and looks for an active input next. */
  predicate Looked(hw: Hw, call: bool, l: Local) {
    && l.call == call && (l.holdsOut <==> hw.hasOut && !hw.out.standby)
    && if ActiveInput(hw) == -1 then l.at.MBody? && !l.holdsIn && l.i < 0
       else l.at.MIn? && l.i == ActiveInput(hw) && l.cnt == hw.ins[l.i].cnt
  }

  lemma LooksAtInput(hw: Hw, l: Local)
    requires l.i < 0 && (l.holdsOut <==> hw.hasOut && !hw.out.standby)
    ensures Looked(hw, l.call, ModeInput(hw, l))
  {
  }

  lemma AloneTakesOutput(f: nat -> (Hw, Local), hw: Hw, c: Choice, l1: Local) returns (n: nat, l: Local)
    requires Course(f, hw, c)
    requires c.task.SetMode? && f(1) == (hw, l1) && l1 == START.(at := MHw, call := c.task.call)
    requires hw.hasOut && !hw.out.standby
    ensures n <= 6 && f(n) == (hw, l) && Looked(hw, c.task.call, l)
  {
    var l3 := l1.(at := MOut, cnt := hw.out.cnt);
    Working(f, c, 1, hw, l1, hw, l3);
    Granting(f, c, 3, hw, l3);
    var l4 := l3.(at := MHw2);
    l := ModeInput(hw, l4.(at := MSection2, holdsOut := true, kept := true));
    Working(f, c, 4, hw, l4, hw, l);
    LooksAtInput(hw, l4.(at := MSection2, holdsOut := true, kept := true));
    n := 6;
  }

  /** The first loop of setMode. */
  lemma AloneLooks(f: nat -> (Hw, Local), hw: Hw, c: Choice) returns (n: nat, l: Local)
    requires Course(f, hw, c)
    requires c.task.SetMode?
    ensures n <= 6 && f(n) == (hw, l) && Looked(hw, c.task.call, l)
  {
    var l1 := START.(at := MHw, call := c.task.call);
    Starts(f, hw, c);
    var l2 := l1.(at := MSection);
    if hw.hasOut && !hw.out.standby {
      n, l := AloneTakesOutput(f, hw, c, l1);
    } else {
      l := ModeInput(hw, l2.(holdsOut := false, kept := true));
      Working(f, c, 1, hw, l1, hw, l);
      LooksAtInput(hw, l2.(holdsOut := false, kept := true));
      n := 3;
    }
  }

  /** The second one. */
  lemma AloneReachesChange(f: nat -> (Hw, Local), hw: Hw, c: Choice) returns (n: nat, l: Local)
    requires Course(f, hw, c)
    requires c.task.SetMode?
    ensures n <= 9 && f(n) == (hw, l) && l.at.MBody? && l.call == c.task.call
    ensures l.holdsOut <==> hw.hasOut && !hw.out.standby
    ensures l.i < |hw.ins| && ActiveInput(hw) == if l.holdsIn then l.i else -1
  {
    n, l := AloneLooks(f, hw, c);
    if l.at.MIn? {
      Granting(f, c, n, hw, l);
      var l7 := l.(at := MHw3);
      l := l7.(at := MBody, holdsIn := true);
      Working(f, c, n + 1, hw, l7, hw, l);
      n := n + 3;
    }
  }

  lemma ChangeSilences(hw: Hw, l: Local, d: Driver)
    requires l.at.MBody? && l.i < |hw.ins| && ActiveInput(hw) == (if l.holdsIn then l.i else -1) && l.call != hw.inCall
    ensures var hw' := ChangeMode(hw, l, d, true);
            hw'.inCall == l.call && hw'.calling == l.call && Silenced(hw, hw', l.holdsOut)
  {
  }

  lemma AloneChanges(f: nat -> (Hw, Local), hw: Hw, c: Choice) returns (n: nat, hw': Hw)
    requires Course(f, hw, c)
    requires c.task.SetMode?
    ensures n <= 10 && f(n) == (hw', START)
    ensures !c.flag ==> hw' == hw
    ensures c.flag && c.task.call == hw.inCall ==> hw' == hw.(calling := c.task.call)
    ensures c.flag && c.task.call != hw.inCall ==>
              && hw'.inCall == c.task.call && hw'.calling == c.task.call
              && Silenced(hw, hw', hw.hasOut && !hw.out.standby)
  {
    var l;
    n, l := AloneReachesChange(f, hw, c);
    if c.flag && l.call != hw.inCall { ChangeSilences(hw, l, c.driver); }
    hw' := ChangeMode(hw, l, c.driver, c.flag);
    Next(f, c, n, hw, l, hw', START);
    n := n + 1;
  }

  /**
   * Alone, setMode ends with the mode asked for, if the base class accepts it. If that begins or ends a call, the
   * output and the first active input, if they are active, are in standby then; other streams are not touched.
   */
  lemma LoneSetMode(s: State, t: Thread, c: Choice) returns (n: nat)
    requires Quiet(s) && t in s.locals && c.task.SetMode?
    ensures n <= 10
    ensures var hw, r := s.hw, Run(s, Times(n, Action(t, c)));
            && r.locals == s.locals && (!c.flag ==> r.hw == hw)
            && (c.flag && c.task.call == hw.inCall ==> r.hw == hw.(calling := c.task.call))
            && (c.flag && c.task.call != hw.inCall ==>
                  && r.hw.inCall == c.task.call && r.hw.calling == c.task.call
                  && Silenced(hw, r.hw, hw.hasOut && !hw.out.standby))
  {
    var hw';
    AloneIsCourse(s.hw, c);
    n, hw' := AloneChanges(CourseOf(s.hw, c), s.hw, c);
    Ends(s, t, c, n, hw');
  }

  // ---------------------------------------------------------------- write

  /** The same inputs are in standby. */
  predicate SameSleep(a: seq<Stream>, b: seq<Stream>) {
    |a| == |b| && forall k :: 0 <= k < |a| ==> a[k].standby == b[k].standby
  }

  predicate Opening(d: Driver) {
    d.pcm && d.inPcm
  }

  lemma RetryWrites(hw: Hw, l7: Local, c: Choice) returns (hw': Hw, l: Local)
    requires l7.at.WSection2? && InputMatches(hw, l7) && Sound(hw.out) && hw.out.standby
    ensures Work(hw, l7, c) == (hw', l) && WokeOut(hw, hw', l, c.driver)
  {
    WakingWithInput(hw, l7, c.driver);
    hw', l := WriteRetry(hw, l7, c.driver).0, WriteRetry(hw, l7, c.driver).1;
  }

  /** With an input active: back from the wait for its mutex. */
  lemma ClosedInput(f: nat -> (Hw, Local), c: Choice, hw: Hw, l6: Local) returns (hw': Hw, l: Local)
    requires (forall k: nat :: Follows(f, c, k)) && f(6) == (hw, l6) && l6.at.WHw2? && Sound(hw.out) && hw.out.standby
    requires 0 <= l6.i < |hw.ins| && ActiveInput(hw) == l6.i && l6.cnt == hw.ins[l6.i].cnt
    ensures f(8) == (hw', l) && WokeOut(hw, hw', l, c.driver) && l.i < |hw'.ins|
  {
    var l7 := l6.(at := WSection2);
    hw', l := RetryWrites(hw, l7, c);
    WorkKeepsRange(hw, l7, c);
    Working(f, c, 6, hw, l6, hw', l);
  }

  lemma WorkKeepsRange(hw: Hw, l: Local, c: Choice)
    requires l.at.WSection2? && 0 <= l.i < |hw.ins| && ActiveInput(hw) == l.i && l.cnt == hw.ins[l.i].cnt
    ensures Work(hw, l, c).1.i < |Work(hw, l, c).0.ins|
  {
    WriteRetryTouches(hw, l, c.driver);
  }

  /** From the wait for the hardware mutex to there. */
  lemma AloneClosesInput(f: nat -> (Hw, Local), c: Choice, hw: Hw, l3: Local, i: nat) returns (l6: Local)
    requires (forall k: nat :: Follows(f, c, k)) && f(3) == (hw, l3) && l3.at.WHw?
    requires l3.i < |hw.ins| && ActiveInput(hw) == i
    ensures f(6) == (hw, l6) && l6.at.WHw2? && l6.i == i && l6.cnt == hw.ins[i].cnt
  {
    var l5 := l3.(at := WIn, i := i, cnt := hw.ins[i].cnt);
    Working(f, c, 3, hw, l3, hw, l5);
    Granting(f, c, 5, hw, l5);
    l6 := l5.(at := WHw2);
  }

  lemma AloneWakesOutput(f: nat -> (Hw, Local), hw: Hw, c: Choice) returns (n: nat, hw': Hw, l: Local)
    requires Course(f, hw, c)
    requires hw.hasOut && hw.out.standby && Balanced(hw) && c.task.Write? && Opening(c.driver)
    ensures n <= 8 && f(n) == (hw', l) && WokeOut(hw, hw', l, c.driver) && l.i < |hw'.ins|
  {
    Starts(f, hw, c);
    var l3 := START.(at := WHw);
    Working(f, c, 1, hw, START.(at := WOut), hw, l3);
    if ActiveInput(hw) == -1 {
      var l4 := START.(at := WSection);
      WakingWithoutInput(hw, l4, c.driver);
      hw', l := WakeOut(hw, l4, c.driver).0, WakeOut(hw, l4, c.driver).1;
      Working(f, c, 3, hw, l3, hw', l);
      n := 5;
    } else {
      var l6 := AloneClosesInput(f, c, hw, l3, ActiveInput(hw));
      hw', l := ClosedInput(f, c, hw, l6);
      n := 8;
    }
  }

  /** The output is awake with a PCM, and every input as much in standby as before. */
  predicate Plays(hw: Hw, hw': Hw) {
    && !hw'.out.standby && hw'.out.pcm && SameSleep(hw.ins, hw'.ins)
    && hw'.inCall == hw.inCall && hw'.calling == hw.calling
  }

  lemma WokeOutPlays(hw: Hw, hw': Hw, l: Local, d: Driver)
    requires WokeOut(hw, hw', l, d) && Balanced(hw) && Opening(d)
    ensures l.at.WPlay? && Plays(hw, hw')
  {
  }

  lemma AloneWrites(f: nat -> (Hw, Local), hw: Hw, c: Choice) returns (n: nat, hw': Hw, l: Local)
    requires Course(f, hw, c)
    requires hw.hasOut && Balanced(hw) && Powered(hw.out) && c.task.Write? && Opening(c.driver)
    ensures n <= 8 && f(n) == (hw', l) && l.at.WPlay? && l.i < |hw'.ins| && Plays(hw, hw')
  {
    if hw.out.standby {
      n, hw', l := AloneWakesOutput(f, hw, c);
      WokeOutPlays(hw, hw', l, c.driver);
    } else {
      n, hw', l := 3, hw, START.(at := WPlay);
      Starts(f, hw, c);
      Working(f, c, 1, hw, START.(at := WOut), hw, l);
    }
  }

  /**
   * Alone, and with a driver that opens and takes the frames, write plays: before its last step the output is awake
   * and has a PCM, and every input is as much in standby as before.
   */
  lemma LoneWrite(s: State, t: Thread, c: Choice) returns (n: nat, hw': Hw)
    requires Quiet(s) && t in s.locals && s.hw.hasOut && Balanced(s.hw) && Powered(s.hw.out)
    requires c.task.Write? && Opening(c.driver) && c.flag
    ensures 0 < n <= 9
    ensures Plays(s.hw, hw')
    ensures EndedFrom(s, Run(s, Times(n - 1, Action(t, c))), Run(s, Times(n, Action(t, c))), t, WPlay, hw')
  {
    AloneIsCourse(s.hw, c);
    var l;
    n, hw', l := AloneWrites(CourseOf(s.hw, c), s.hw, c);
    EndsFrom(s, t, c, n, hw', l);
    n := n + 1;
  }

  // ---------------------------------------------------------------- read

  lemma AloneFindsStandby(f: nat -> (Hw, Local), hw: Hw, c: Choice, i: nat)
    requires Course(f, hw, c) && i < |hw.ins| && hw.ins[i].standby && c.task == Read(i)
    ensures f(3) == (hw, START.(at := RHw, i := i))
  {
    Starts(f, hw, c);
    Working(f, c, 1, hw, START.(at := RIn, i := i), hw, START.(at := RHw, i := i));
  }

  lemma AloneWakesInput(f: nat -> (Hw, Local), hw: Hw, c: Choice, i: nat) returns (n: nat, hw': Hw, l: Local)
    requires Course(f, hw, c)
    requires i < |hw.ins| && hw.ins[i].standby && Balanced(hw) && c.task == Read(i) && Opening(c.driver)
    ensures n <= 9 && f(n) == (hw', l) && l.at.RCapture? && l.i < |hw'.ins|
    ensures OthersStay(hw, hw', i) && !hw'.ins[i].standby && hw'.ins[i].pcm
    ensures (hw.hasOut ==> hw'.out.standby == hw.out.standby) && hw'.inCall == hw.inCall && hw'.calling == hw.calling
  {
    AloneFindsStandby(f, hw, c, i);
    var l3, l4 := START.(at := RHw, i := i), START.(at := RSection, i := i);
    if !hw.hasOut || hw.out.standby {
      InputWakes(hw, l4, c.driver);
      hw', l := WakeIn(hw, l4, c.driver).0, WakeIn(hw, l4, c.driver).1;
      Working(f, c, 3, hw, l3, hw', l);
      n := 5;
    } else {
      var l5 := l4.(at := ROut, cnt := hw.out.cnt);
      Working(f, c, 3, hw, l3, hw, l5);
      hw', l := AloneWakesBoth(f, c, hw, l5);
      n := 9;
    }
  }

  lemma RetryReads(hw: Hw, l8: Local, c: Choice) returns (hw': Hw, l: Local)
    requires l8.at.RSection2? && 0 <= l8.i < |hw.ins| && Accounts(hw) && Opening(c.driver)
    requires !hw.out.standby && l8.cnt == hw.out.cnt
    ensures Work(hw, l8, c) == (hw', l) && l.at.RCapture? && l.i == l8.i
    ensures OthersStay(hw, hw', l.i) && !hw'.ins[l.i].standby && hw'.ins[l.i].pcm
    ensures !hw'.out.standby && hw'.inCall == hw.inCall && hw'.calling == hw.calling
  {
    var hw1 := OutputReopens(hw, c.driver);
    InputWakes(hw1, l8, c.driver);
    hw', l := WakeIn(hw1, l8, c.driver).0, WakeIn(hw1, l8, c.driver).1;
  }

  /** With the output active: from the wait for that. */
  lemma AloneWakesBoth(f: nat -> (Hw, Local), c: Choice, hw: Hw, l5: Local) returns (hw': Hw, l: Local)
    requires (forall k: nat :: Follows(f, c, k)) && Accounts(hw) && Opening(c.driver) && !hw.out.standby
    requires 0 <= l5.i < |hw.ins| && f(5) == (hw, l5) && l5.at.ROut? && l5.cnt == hw.out.cnt
    ensures f(9) == (hw', l) && l.at.RCapture? && l.i == l5.i
    ensures OthersStay(hw, hw', l.i) && !hw'.ins[l.i].standby && hw'.ins[l.i].pcm
    ensures !hw'.out.standby && hw'.inCall == hw.inCall && hw'.calling == hw.calling
  {
    GrantedTwice(f, c, 5, hw, l5);
    hw', l := RetryReads(hw, l5.(at := RSection2), c);
    Working(f, c, 7, hw, l5.(at := RHw2), hw', l);
  }

  /** It is granted the output's mutex, and its own again. */
  lemma GrantedTwice(f: nat -> (Hw, Local), c: Choice, n: nat, hw: Hw, l: Local)
    requires (forall k: nat :: Follows(f, c, k)) && f(n) == (hw, l) && l.at.ROut? && l.i >= 0
    ensures f(n + 2) == (hw, l.(at := RHw2))
  {
    Granting(f, c, n, hw, l);
    Granting(f, c, n + 1, hw, l.(at := RIn2));
  }

  /** The input is awake with a PCM, and every other stream as much in standby as before. */
  predicate Captures(hw: Hw, hw': Hw, i: nat)
    requires i < |hw.ins|
  {
    && OthersStay(hw, hw', i) && !hw'.ins[i].standby && hw'.ins[i].pcm
    && (hw.hasOut ==> hw'.out.standby == hw.out.standby)
    && hw'.inCall == hw.inCall && hw'.calling == hw.calling
  }

  lemma AloneReads(f: nat -> (Hw, Local), hw: Hw, c: Choice, i: nat) returns (n: nat, hw': Hw, l: Local)
    requires Course(f, hw, c)
    requires i < |hw.ins| && Balanced(hw) && Powered(hw.ins[i]) && c.task == Read(i) && Opening(c.driver)
    ensures n <= 9 && f(n) == (hw', l) && l.at.RCapture? && l.i < |hw'.ins| && Captures(hw, hw', i)
  {
    if hw.ins[i].standby {
      n, hw', l := AloneWakesInput(f, hw, c, i);
    } else {
      n, hw', l := 3, hw, START.(at := RCapture, i := i);
      Starts(f, hw, c);
      Working(f, c, 1, hw, START.(at := RIn, i := i), hw, l);
    }
  }

  /**
   * Alone, and with a driver that opens and delivers, read captures: before its last step its input is awake and has
   * a PCM, and the output is as much in standby as before.
   */
  lemma LoneRead(s: State, t: Thread, c: Choice, i: nat) returns (n: nat, hw': Hw)
    requires Quiet(s) && t in s.locals && i < |s.hw.ins| && Balanced(s.hw) && Powered(s.hw.ins[i])
    requires c.task == Read(i) && Opening(c.driver) && c.flag
    ensures 0 < n <= 10
    ensures Captures(s.hw, hw', i)
    ensures EndedFrom(s, Run(s, Times(n - 1, Action(t, c))), Run(s, Times(n, Action(t, c))), t, RCapture, hw')
  {
    AloneIsCourse(s.hw, c);
    var l;
    n, hw', l := AloneReads(CourseOf(s.hw, c), s.hw, c, i);
    EndsFrom(s, t, c, n, hw', l);
    n := n + 1;
  }
}
