/**
 * What holds in every run of the handshakes: mutexes are taken in order, so some thread can always move on; who
 * gets through a handshake holds an active stream; and which streams a call silences.
 */
module HandshakeTheorems {
  import opened AudioHandles
  import opened Handshake
  import opened HandshakeProofs

  // ---------------------------------------------------------------- the order out, in, hw

  function Rank(k: Lock): nat {
    match k
    case OutLock => 0
    case InLock(_) => 1
    case HwLock => 2
  }

  lemma WantsAfterHeld(hw: Hw, l: Local, k: Lock)
    requires Exists(hw, l) && Wanted(l).Wants? && Holds(l, k)
    ensures Rank(k) < Rank(Wanted(l).lock)
  {
  }

  /** In every run a thread asks only for a mutex that comes after all it has. */
  lemma LocksInOrder(s: State, actions: seq<Action>, t: Thread, k: Lock)
    requires Quiet(s) && t in Run(s, actions).locals && Wanted(Run(s, actions).locals[t]).Wants?
    requires k in Run(s, actions).locks && Run(s, actions).locks[k] == t
    ensures Rank(k) < Rank(Wanted(Run(s, actions).locals[t]).lock)
  {
    var s' := Run(s, actions);
    RunKeepsInv(s, actions);
    assert Fits(s'.hw, s'.locals[t]) && Owns(s'.locks, t, s'.locals[t]);
    WantsAfterHeld(s'.hw, s'.locals[t], k);
  }

  /** Thread t waits for a mutex of thread u. */
  predicate Blocks(s: State, t: Thread, u: Thread) {
    && t in s.locals && u in s.locals && Wanted(s.locals[t]).Wants?
    && Wanted(s.locals[t]).lock in s.locks && s.locks[Wanted(s.locals[t]).lock] == u
  }

  lemma BlockerWantsMore(s: State, t: Thread, u: Thread)
    requires Inv(s) && Blocks(s, t, u) && Wanted(s.locals[u]).Wants?
    ensures Rank(Wanted(s.locals[t]).lock) < Rank(Wanted(s.locals[u]).lock)
  {
    assert Fits(s.hw, s.locals[u]);
    assert Owns(s.locks, u, s.locals[u]);
    WantsAfterHeld(s.hw, s.locals[u], Wanted(s.locals[t]).lock);
  }

  /** Each thread waits for a mutex of the next. */
  predicate WaitChain(s: State, ts: seq<Thread>) {
    forall j :: 0 <= j < |ts| - 1 ==> Blocks(s, ts[j], ts[j + 1])
  }

  lemma {:induction false} ChainClimbs(s: State, ts: seq<Thread>, n: nat)
    requires Inv(s) && WaitChain(s, ts) && n < |ts| - 1
    ensures Blocks(s, ts[n], ts[n + 1]) && n <= Rank(Wanted(s.locals[ts[n]]).lock)
    ensures n > 0 ==> Blocks(s, ts[0], ts[1]) && Rank(Wanted(s.locals[ts[0]]).lock) < Rank(Wanted(s.locals[ts[n]]).lock)
  {
    assert Blocks(s, ts[n], ts[n + 1]);
    if n > 0 {
      ChainClimbs(s, ts, n - 1);
      BlockerWantsMore(s, ts[n - 1], ts[n]);
    }
  }

  /** Whatever has run, threads never wait in a circle, and no chain of waiting threads is longer than four. */
  lemma NoCircularWait(s: State, actions: seq<Action>, ts: seq<Thread>)
    requires Quiet(s) && WaitChain(Run(s, actions), ts)
    ensures |ts| <= 4
    ensures |ts| > 1 ==> ts[0] != ts[|ts| - 1]
  {
    var s' := Run(s, actions);
    RunKeepsInv(s, actions);
    if |ts| > 4 {
      ChainClimbs(s', ts, 3);
    } else if |ts| > 1 && ts[0] == ts[|ts| - 1] {
      ChainClimbs(s', ts, |ts| - 2);
      ChainClimbs(s', ts, 0);
      BlockerWantsMore(s', ts[|ts| - 2], ts[|ts| - 1]);
    }
  }

  /** A thread with something to do that does not wait for a mutex somebody holds. */
  predicate CanMove(s: State, t: Thread) {
    && t in s.locals && !s.locals[t].at.Idle?
    && (Wanted(s.locals[t]).Wants? ==> Wanted(s.locals[t]).lock !in s.locks)
  }

  lemma HolderIsBusy(l: Local, k: Lock)
    requires Holds(l, k) && (l.holdsOut ==> !l.at.Idle?)
    ensures !l.at.Idle?
  {
  }

  lemma {:induction false} Unblocked(s: State, t: Thread) returns (u: Thread)
    requires Inv(s) && t in s.locals && !s.locals[t].at.Idle?
    ensures CanMove(s, u)
    decreases if Wanted(s.locals[t]).Wants? then 3 - Rank(Wanted(s.locals[t]).lock) else 0
  {
    if CanMove(s, t) {
      u := t;
    } else {
      var k := Wanted(s.locals[t]).lock;
      u := s.locks[k];
      assert Owns(s.locks, u, s.locals[u]);
      assert Fits(s.hw, s.locals[u]);
      HolderIsBusy(s.locals[u], k);
      if Wanted(s.locals[u]).Wants? { BlockerWantsMore(s, t, u); }
      u := Unblocked(s, u);
    }
  }

  lemma GrantMoves(l: Local)
    requires Wanted(l).Wants?
    ensures Granted(l.at) != l.at
  {
  }

  lemma WorkMoves(hw: Hw, l: Local, c: Choice)
    requires Exists(hw, l) && Wanted(l).Nothing? && !l.at.Idle?
    ensures Work(hw, l, c).1.at != l.at
  {
  }

  lemma MoverMoves(s: State, t: Thread, c: Choice)
    requires Inv(s) && CanMove(s, t) && s.locals[t].i < |s.hw.ins|
    ensures t in Step(s, t, c).locals && Step(s, t, c).locals[t].at != s.locals[t].at
  {
    var l := s.locals[t];
    assert Fits(s.hw, l);
    if Wanted(l).Wants? { GrantMoves(l); } else { WorkMoves(s.hw, l, c); }
  }

  /** Deadlock freedom: while any task is under way, some thread gets further whatever its surroundings decide. */
  lemma NeverDeadlocked(s: State, actions: seq<Action>, t: Thread)
    requires Quiet(s) && t in Run(s, actions).locals && !Run(s, actions).locals[t].at.Idle?
    ensures var s' := Run(s, actions);
            exists u :: u in s'.locals && s'.locals[u].i < |s'.hw.ins| && !s'.locals[u].at.Idle?
              && forall c :: u in Step(s', u, c).locals && Step(s', u, c).locals[u].at != s'.locals[u].at
  {
    var s' := Run(s, actions);
    RunKeepsInv(s, actions);
    var u := Unblocked(s', t);
    assert Fits(s'.hw, s'.locals[u]);
    forall c ensures u in Step(s', u, c).locals && Step(s', u, c).locals[u].at != s'.locals[u].at {
      MoverMoves(s', u, c);
    }
  }

  // ---------------------------------------------------------------- through the handshake

  ghost predicate HasLock(s: State, k: Lock, t: Thread) {
    k in s.locks && s.locks[k] == t
  }

  lemma HeldIsOwned(s: State, t: Thread, k: Lock)
    requires Inv(s) && t in s.locals
    ensures Holds(s.locals[t], k) <==> HasLock(s, k, t)
  {
    assert Owns(s.locks, t, s.locals[t]);
  }

  /**
   * write or setMode, back from waiting for an input, and read or setMode, back from waiting for the output: it has
   * the mutexes, and if the standby count is the one it saw, the stream has not been in standby.
   */
  lemma HandshakeBreaks(s: State, actions: seq<Action>, t: Thread)
    requires Quiet(s) && t in Run(s, actions).locals
    ensures var s' := Run(s, actions); var l := s'.locals[t];
            && (l.at.WSection2? ==>
                  && HasLock(s', OutLock, t) && HasLock(s', HwLock, t)
                  && 0 <= l.i < |s'.hw.ins| && HasLock(s', InLock(l.i), t)
                  && s'.hw.out.standby && l.cnt <= s'.hw.ins[l.i].cnt
                  && (l.cnt == s'.hw.ins[l.i].cnt ==> !s'.hw.ins[l.i].standby))
            && (l.at.RSection2? ==>
                  && HasLock(s', OutLock, t) && HasLock(s', HwLock, t)
                  && 0 <= l.i < |s'.hw.ins| && HasLock(s', InLock(l.i), t)
                  && l.cnt <= s'.hw.out.cnt
                  && (l.cnt == s'.hw.out.cnt ==> s'.hw.hasOut && !s'.hw.out.standby))
            && (l.at.MSection2? ==>
                  && HasLock(s', OutLock, t) && HasLock(s', HwLock, t) && l.cnt <= s'.hw.out.cnt
                  && (l.cnt == s'.hw.out.cnt ==> s'.hw.hasOut && !s'.hw.out.standby))
            && (l.at.MSection3? ==>
                  && HasLock(s', HwLock, t) && (l.holdsOut ==> HasLock(s', OutLock, t) && !s'.hw.out.standby)
                  && 0 <= l.i < |s'.hw.ins| && HasLock(s', InLock(l.i), t)
                  && l.cnt <= s'.hw.ins[l.i].cnt
                  && (l.cnt == s'.hw.ins[l.i].cnt ==> !s'.hw.ins[l.i].standby))
  {
    var s' := Run(s, actions);
    RunKeepsInv(s, actions);
    var l := s'.locals[t];
    assert Fits(s'.hw, l);
    HeldIsOwned(s', t, OutLock);
    HeldIsOwned(s', t, HwLock);
    if l.i >= 0 { HeldIsOwned(s', t, InLock(l.i)); }
  }

  /**
   * When setMode makes its change it has the hardware mutex, the mutex of the first active input if there is any,
   * and of the output if it kept that: an output it holds is active.
   */
  lemma ModeHoldsActiveStreams(s: State, actions: seq<Action>, t: Thread)
    requires Quiet(s) && t in Run(s, actions).locals && Run(s, actions).locals[t].at.MBody?
    ensures var s' := Run(s, actions); var l := s'.locals[t];
            && HasLock(s', HwLock, t)
            && (l.holdsOut ==> HasLock(s', OutLock, t) && s'.hw.hasOut && !s'.hw.out.standby)
            && (l.holdsIn <==> ActiveInput(s'.hw) != -1)
            && (l.holdsIn ==> l.i == ActiveInput(s'.hw) && HasLock(s', InLock(l.i), t))
  {
    var s' := Run(s, actions);
    RunKeepsInv(s, actions);
    var l := s'.locals[t];
    assert Fits(s'.hw, l);
    HeldIsOwned(s', t, OutLock);
    HeldIsOwned(s', t, HwLock);
    if l.i >= 0 { HeldIsOwned(s', t, InLock(l.i)); }
  }

  // ---------------------------------------------------------------- which streams a call silences

  /** Was the output active when thread t, in setMode, last looked at it? */
  predicate OutputSeen(s: State, actions: seq<Action>, t: Thread) {
    actions != [] &&
      var before, a := Run(s, actions[..|actions| - 1]), actions[|actions| - 1];
      if a.t == t && t in before.locals && (before.locals[t].at.MSection? || before.locals[t].at.MSection2?) then
        before.hw.hasOut && !before.hw.out.standby
      else OutputSeen(s, actions[..|actions| - 1], t)
  }

  /** In setMode, past the look at the output: it holds the output if and only if it saw it active. */
  predicate HoldsSeen(l: Local, seen: bool) {
    l.at.MIn? || l.at.MHw3? || l.at.MSection3? || l.at.MBody? ==> (l.holdsOut <==> seen)
  }

  lemma LookHoldsSeen(hw: Hw, l: Local, c: Choice)
    requires Fits(hw, l) && (l.at.MSection? || l.at.MSection2?)
    ensures HoldsSeen(Work(hw, l, c).1, hw.hasOut && !hw.out.standby)
  {
  }

  lemma ReadStaysOutside(hw: Hw, l: Local, c: Choice)
    requires Fits(hw, l) && (l.at.RSection? || l.at.RSection2?)
    ensures !AtMode(Work(hw, l, c).1.at)
  {
  }

  lemma OthersStayOutside(hw: Hw, l: Local, c: Choice)
    requires Exists(hw, l) && Wanted(l).Nothing? && !AtMode(l.at) && !l.at.Idle?
    requires !l.at.WSection? && !l.at.WSection2? && !l.at.RSection? && !l.at.RSection2?
    ensures !AtMode(Work(hw, l, c).1.at)
  {
  }

  lemma WaitedHoldsSeen(hw: Hw, l: Local, c: Choice, seen: bool)
    requires Fits(hw, l) && HoldsSeen(l, seen) && (l.at.MSection3? || l.at.MBody?)
    ensures HoldsSeen(Work(hw, l, c).1, seen)
  {
  }

  lemma WorkHoldsSeen(hw: Hw, l: Local, c: Choice, seen: bool)
    requires Fits(hw, l) && HoldsSeen(l, seen) && Wanted(l).Nothing?
    requires !l.at.Idle? && !l.at.MSection? && !l.at.MSection2?
    ensures HoldsSeen(Work(hw, l, c).1, seen)
  {
    if AtMode(l.at) {
      WaitedHoldsSeen(hw, l, c, seen);
    } else if l.at.WSection? || l.at.WSection2? {
      WritersLead(hw, l, c);
    } else if l.at.RSection? || l.at.RSection2? {
      ReadStaysOutside(hw, l, c);
    } else {
      OthersStayOutside(hw, l, c);
    }
  }

  lemma GrantHoldsSeen(l: Local, seen: bool)
    requires HoldsSeen(l, seen) && Wanted(l).Wants?
    ensures HoldsSeen(l.(at := Granted(l.at)), seen)
  {
  }

  lemma BeginHoldsSeen(hw: Hw, task: Task, seen: bool)
    ensures HoldsSeen(Begin(hw, task), seen)
  {
  }

  /** What a thread has seen after its step. */
  predicate Seen(hw: Hw, l: Local, seen: bool) {
    if l.at.MSection? || l.at.MSection2? then hw.hasOut && !hw.out.standby else seen
  }

  lemma StepHoldsSeen(s: State, t: Thread, c: Choice, seen: bool)
    requires Inv(s) && t in s.locals && s.locals[t].i < |s.hw.ins| && HoldsSeen(s.locals[t], seen)
    ensures t in Step(s, t, c).locals && HoldsSeen(Step(s, t, c).locals[t], Seen(s.hw, s.locals[t], seen))
  {
    var l := s.locals[t];
    assert Fits(s.hw, l);
    if Wanted(l).Wants? {
      GrantHoldsSeen(l, seen);
    } else if l.at.Idle? {
      BeginHoldsSeen(s.hw, c.task, seen);
    } else if l.at.MSection? || l.at.MSection2? {
      LookHoldsSeen(s.hw, l, c);
    } else {
      WorkHoldsSeen(s.hw, l, c, seen);
    }
  }

  lemma {:induction false} RunHoldsSeen(s: State, actions: seq<Action>, t: Thread)
    requires Quiet(s) && t in Run(s, actions).locals
    ensures HoldsSeen(Run(s, actions).locals[t], OutputSeen(s, actions, t))
  {
    if actions != [] {
      var first, a := actions[..|actions| - 1], actions[|actions| - 1];
      var before := Run(s, first);
      RunKeepsInv(s, first);
      assert t in before.locals;
      RunHoldsSeen(s, first, t);
      assert Fits(before.hw, before.locals[t]);
      if a.t == t { StepHoldsSeen(before, t, a.c, OutputSeen(s, first, t)); }
    }
  }

  predicate OnlyFirstSilenced(hw: Hw, hw': Hw) {
    && |hw'.ins| == |hw.ins|
    && forall k :: 0 <= k < |hw.ins| ==> (hw'.ins[k].standby <==> hw.ins[k].standby || k == ActiveInput(hw))
  }

  predicate AllSilent(ins: seq<Stream>) {
    forall k :: 0 <= k < |ins| ==> ins[k].standby
  }

  lemma EnteringSilences(hw: Hw, l: Local, d: Driver)
    requires Fits(hw, l) && l.at.MBody? && l.call && !hw.inCall
    ensures var hw' := ChangeMode(hw, l, d, true);
            hw'.inCall && OnlyFirstSilenced(hw, hw') && (hw'.out.standby <==> hw.out.standby || l.holdsOut)
  {
  }

  lemma AllSilentIff(hw: Hw, hw': Hw)
    requires OnlyFirstSilenced(hw, hw')
    ensures AllSilent(hw'.ins) <==> forall k :: 0 <= k < |hw.ins| && k != ActiveInput(hw) ==> hw.ins[k].standby
  {
  }

  lemma ChangeStep(s: State, t: Thread, c: Choice)
    requires t in s.locals && s.locals[t].i < |s.hw.ins| && s.locals[t].at.MBody?
    ensures Step(s, t, c).hw == ChangeMode(s.hw, s.locals[t], c.driver, c.flag)
  {
  }

  /**
   * When a call begins setMode silences the output exactly if it was active when setMode last looked at it; that
   * may be before waiting for an input, and then the output need not be what it was. Of the inputs it silences
   * the first active one, so all are silent exactly if no other was active.
   */
  lemma CallSilences(s: State, actions: seq<Action>, t: Thread, c: Choice)
    requires Quiet(s) && t in Run(s, actions).locals && Run(s, actions).locals[t].at.MBody?
    requires Run(s, actions).locals[t].call && !Run(s, actions).hw.inCall && c.flag
    requires Run(s, actions).locals[t].i < |Run(s, actions).hw.ins|
    ensures var hw, hw' := Run(s, actions).hw, Step(Run(s, actions), t, c).hw;
            && hw'.inCall && OnlyFirstSilenced(hw, hw')
            && (hw'.out.standby <==> hw.out.standby || OutputSeen(s, actions, t))
            && (AllSilent(hw'.ins) <==> forall k :: 0 <= k < |hw.ins| && k != ActiveInput(hw) ==> hw.ins[k].standby)
  {
    var s' := Run(s, actions);
    RunKeepsInv(s, actions);
    assert Fits(s'.hw, s'.locals[t]);
    RunHoldsSeen(s, actions, t);
    ChangeStep(s', t, c);
    EnteringSilences(s'.hw, s'.locals[t], c.driver);
    AllSilentIff(s'.hw, Step(s', t, c).hw);
  }

  /** If setMode has kept the hardware mutex since that look, the output is as it saw it: silenced if active. */
  lemma KeptMutexSilencesOutput(s: State, actions: seq<Action>, t: Thread, c: Choice)
    requires Quiet(s) && t in Run(s, actions).locals && Run(s, actions).locals[t].at.MBody?
    requires Run(s, actions).locals[t].call && !Run(s, actions).hw.inCall && c.flag
    requires Run(s, actions).locals[t].i < |Run(s, actions).hw.ins| && Run(s, actions).locals[t].kept
    ensures var hw, hw' := Run(s, actions).hw, Step(Run(s, actions), t, c).hw;
            && (OutputSeen(s, actions, t) <==> hw.hasOut && !hw.out.standby)
            && (hw.hasOut ==> hw'.out.standby)
  {
    var s' := Run(s, actions);
    RunKeepsInv(s, actions);
    assert Fits(s'.hw, s'.locals[t]);
    RunHoldsSeen(s, actions, t);
    CallSilences(s, actions, t, c);
  }
}
