/** Runs of two threads, step by step, that show where the handshakes fall short. */
module HandshakeRace {
  import opened AudioHandles
  import opened Handshake
  import opened HandshakeAccounts

  const YES := Driver(true, true, true, true)
  const SLEEPS := Stream(true, 0, false, false)
  const PLAYS := Stream(false, 0, true, true)

  // ---------------------------------------------------------------- scenes

  datatype Scene = Scene(hw: Hw, locks: map<Lock, Thread>, first: Local, second: Local)

  function Shown(c: Scene): State {
    State(c.hw, c.locks, map[0 := c.first, 1 := c.second])
  }

  function Acting(c: Scene, t: Thread): Local {
    if t == 0 then c.first else c.second
  }

  /** The scene after thread t has moved. */
  function Moved(c: Scene, hw: Hw, locks: map<Lock, Thread>, t: Thread, l: Local): Scene {
    if t == 0 then Scene(hw, locks, l, c.second) else Scene(hw, locks, c.first, l)
  }

  /** What one step of thread 0 or 1 does to a scene, case by case. */
  lemma Grants(c: Scene, t: Thread, x: Choice)
    requires t <= 1 && Acting(c, t).i < |c.hw.ins|
    requires Wanted(Acting(c, t)).Wants? && Wanted(Acting(c, t)).lock !in c.locks
    ensures var l := Acting(c, t);
            var after := Moved(c, c.hw, c.locks[Wanted(l).lock := t], t, l.(at := Granted(l.at)));
            Apply(Shown(c), Action(t, x)) == Shown(after)
  {
    assert Shown(c).locals[t] == Acting(c, t);
  }

  lemma Begins(c: Scene, t: Thread, x: Choice)
    requires t <= 1 && Acting(c, t) == START
    ensures Apply(Shown(c), Action(t, x)) == Shown(Moved(c, c.hw, c.locks, t, Begin(c.hw, x.task)))
  {
    assert Shown(c).locals[t] == Acting(c, t);
  }

  lemma Works(c: Scene, t: Thread, x: Choice, hw: Hw, l: Local)
    requires t <= 1 && Acting(c, t).i < |c.hw.ins| && Wanted(Acting(c, t)).Nothing? && !Acting(c, t).at.Idle?
    requires Work(c.hw, Acting(c, t), x) == (hw, l)
    ensures Apply(Shown(c), Action(t, x)) == Shown(Moved(c, hw, Released(c.locks, t, l), t, l))
  {
    assert Shown(c).locals[t] == Acting(c, t);
  }

  /** A script: scene k leads to scene k + 1 by the action of thread(k) on the given task. */
  predicate Follows(scene: nat -> Scene, thread: nat -> Thread, task: nat -> Task, k: nat) {
    Apply(Shown(scene(k)), Action(thread(k), Choice(task(k), YES, true))) == Shown(scene(k + 1))
  }

  /** Scene c' is scene c with thread t given the mutex it waits for. */
  predicate Granting(c: Scene, t: Thread, c': Scene) {
    var l := Acting(c, t);
    && t <= 1 && l.i < |c.hw.ins| && Wanted(l).Wants? && Wanted(l).lock !in c.locks
    && c' == Moved(c, c.hw, c.locks[Wanted(l).lock := t], t, l.(at := Granted(l.at)))
  }

  lemma GrantFollows(scene: nat -> Scene, thread: nat -> Thread, task: nat -> Task, k: nat)
    requires Granting(scene(k), thread(k), scene(k + 1))
    ensures Follows(scene, thread, task, k)
  {
    Grants(scene(k), thread(k), Choice(task(k), YES, true));
  }

  /** Scene c' is scene c after some work of thread t. */
  predicate Working(c: Scene, t: Thread, x: Choice, c': Scene) {
    var l, l' := Acting(c, t), Acting(c', t);
    && t <= 1 && l.i < |c.hw.ins| && Wanted(l).Nothing? && !l.at.Idle?
    && Work(c.hw, l, x) == (c'.hw, l') && c' == Moved(c, c'.hw, Released(c.locks, t, l'), t, l')
  }

  lemma WorkFollows(scene: nat -> Scene, thread: nat -> Thread, task: nat -> Task, k: nat)
    requires Working(scene(k), thread(k), Choice(task(k), YES, true), scene(k + 1))
    ensures Follows(scene, thread, task, k)
  {
    var c, c', t := scene(k), scene(k + 1), thread(k);
    Works(c, t, Choice(task(k), YES, true), c'.hw, Acting(c', t));
  }

  function Actions(thread: nat -> Thread, task: nat -> Task, n: nat): seq<Action> {
    if n == 0 then [] else Actions(thread, task, n - 1) + [Action(thread(n - 1), Choice(task(n - 1), YES, true))]
  }

  lemma RunSnoc(s: State, actions: seq<Action>, a: Action)
    ensures Run(s, actions + [a]) == Apply(Run(s, actions), a)
  {
    assert (actions + [a])[..|actions|] == actions;
  }

  lemma {:induction false} ScriptRuns(scene: nat -> Scene, thread: nat -> Thread, task: nat -> Task, n: nat)
    requires forall k :: 0 <= k < n ==> Follows(scene, thread, task, k)
    ensures Run(Shown(scene(0)), Actions(thread, task, n)) == Shown(scene(n))
  {
    if n > 0 {
      ScriptRuns(scene, thread, task, n - 1);
      assert Follows(scene, thread, task, n - 1);
      RunSnoc(Shown(scene(0)), Actions(thread, task, n - 1), Action(thread(n - 1), Choice(task(n - 1), YES, true)));
    }
  }

  lemma AtRetry(hw: Hw, l: Local, x: Choice)
    requires 0 <= l.i < |hw.ins|
    ensures l.at.WSection2? ==> Work(hw, l, x) == WriteRetry(hw, l, x.driver)
    ensures l.at.RSection2? ==> Work(hw, l, x) == ReadRetry(hw, l, x.driver)
    ensures l.at.MBody? ==> Work(hw, l, x) == (ChangeMode(hw, l, x.driver, x.flag), START)
  {
  }

  // ---------------------------------------------------------------- the output wakes while setMode waits

  // One input is active and the output in standby. Thread 0 runs setMode, thread 1 write: while setMode waits for
  // the input, write wakes the output, closing and opening the input without putting it in standby.

  const RINGS := Hw(Handles(false, 0, true, 1), false, false, true, SLEEPS, [PLAYS])
  const BOTH := Hw(Handles(true, 1, true, 2), false, false, true, PLAYS, [PLAYS])
  const CALL := Hw(Handles(true, 2, true, 2), true, true, true, PLAYS, [Stream(true, 1, false, false)])

  function CallScene(k: nat): Scene {
    var mode := START.(at := MHw, call := true);
    var waits := mode.(at := MIn, i := 0);
    var write := START.(at := WOut);
    var woken := write.(at := WPlay, i := 0);
    if k == 0 then Scene(RINGS, map[], START, START)
    else if k == 1 then Scene(RINGS, map[], mode, START)
    else if k == 2 then Scene(RINGS, map[HwLock := 0], mode.(at := MSection), START)
    else if k == 3 then Scene(RINGS, map[], waits, START)
    else if k == 4 then Scene(RINGS, map[], waits, write)
    else if k == 5 then Scene(RINGS, map[OutLock := 1], waits, write.(at := WTest))
    else if k == 6 then Scene(RINGS, map[OutLock := 1], waits, write.(at := WHw))
    else if k == 7 then Scene(RINGS, map[OutLock := 1, HwLock := 1], waits, write.(at := WSection))
    else if k == 8 then Scene(RINGS, map[OutLock := 1], waits, write.(at := WIn, i := 0))
    else if k == 9 then Scene(RINGS, map[OutLock := 1, InLock(0) := 1], waits, write.(at := WHw2, i := 0))
    else if k == 10 then
      Scene(RINGS, map[OutLock := 1, InLock(0) := 1, HwLock := 1], waits, write.(at := WSection2, i := 0))
    else if k == 11 then Scene(BOTH, map[OutLock := 1], waits, woken)
    else if k == 12 then Scene(BOTH, map[OutLock := 1, InLock(0) := 0], waits.(at := MHw3), woken)
    else if k == 13 then Scene(BOTH, map[OutLock := 1, InLock(0) := 0, HwLock := 0], waits.(at := MSection3), woken)
    else if k == 14 then
      Scene(BOTH, map[OutLock := 1, InLock(0) := 0, HwLock := 0], waits.(at := MBody, holdsIn := true), woken)
    else Scene(CALL, map[OutLock := 1], START, woken)
  }

  function CallThread(k: nat): Thread {
    if 3 <= k <= 10 then 1 else 0
  }

  function CallTask(k: nat): Task {
    if k == 3 then Write else SetMode(true)
  }

  lemma WriteReopens(l: Local)
    requires l.i == 0 && l.cnt == 0
    ensures WriteRetry(RINGS, l, YES) == (BOTH, l.(at := WPlay))
  {
    var closed := CloseIn(RINGS, 0);
    assert closed == RINGS.(handles := Handles(false, 0, false, 0), ins := [Stream(false, 0, false, false)]);
    var reopened := OpenOut(closed, YES);
    assert reopened == closed.(handles := Handles(true, 1, true, 1), out := Stream(true, 0, true, true));
    assert OpenIn(reopened, 0, YES) == reopened.(handles := Handles(true, 1, true, 2), ins := [PLAYS]);
    assert ActiveInput(RINGS) == 0;
  }

  lemma CallStarts(l: Local)
    requires l.i == 0 && l.call && l.holdsIn && !l.holdsOut
    ensures ChangeMode(BOTH, l, YES, true) == CALL
  {
    var silenced := StandbyIn(BOTH.(calling := true), 0);
    var handles := Handles(true, 1, true, 1);
    assert silenced == BOTH.(calling := true, handles := handles, ins := [Stream(true, 1, false, false)]);
  }

  lemma CallBegins(k: nat)
    requires k == 0 || k == 3
    ensures Follows(CallScene, CallThread, CallTask, k)
  {
    var c, c', t, x := CallScene(k), CallScene(k + 1), CallThread(k), Choice(CallTask(k), YES, true);
    Begins(c, t, x);
  }

  lemma CallGrants(k: nat)
    requires k == 1 || k == 4 || k == 6 || k == 8 || k == 9 || k == 11 || k == 12
    ensures Granting(CallScene(k), CallThread(k), CallScene(k + 1))
  {
  }

  lemma CallReleases(k: nat)
    requires k == 2 || k == 5 || k == 7 || k == 13 || k == 10 || k == 14
    ensures var c, c', t := CallScene(k), CallScene(k + 1), CallThread(k);
            Released(c.locks, t, Acting(c', t)) == c'.locks
  {
  }

  lemma CallWorks(k: nat)
    requires k == 2 || k == 5 || k == 7 || k == 13
    ensures Working(CallScene(k), CallThread(k), Choice(CallTask(k), YES, true), CallScene(k + 1))
  {
    CallReleases(k);
  }

  lemma CallWakes()
    ensures Follows(CallScene, CallThread, CallTask, 10)
  {
    var c, c', t, x := CallScene(10), CallScene(11), CallThread(10), Choice(CallTask(10), YES, true);
    WriteReopens(Acting(c, t));
    AtRetry(c.hw, Acting(c, t), x);
    CallReleases(10);
    Works(c, t, x, c'.hw, Acting(c', t));
  }

  lemma CallChanges()
    ensures Follows(CallScene, CallThread, CallTask, 14)
  {
    var c, c', t, x := CallScene(14), CallScene(15), CallThread(14), Choice(CallTask(14), YES, true);
    CallStarts(Acting(c, t));
    AtRetry(c.hw, Acting(c, t), x);
    CallReleases(14);
    Works(c, t, x, c'.hw, Acting(c', t));
  }

  lemma CallFollows(k: nat)
    requires k < 15
    ensures Follows(CallScene, CallThread, CallTask, k)
  {
    if k == 0 || k == 3 {
      CallBegins(k);
    } else if k == 1 || k == 4 || k == 6 || k == 8 || k == 9 || k == 11 || k == 12 {
      CallGrants(k);
      GrantFollows(CallScene, CallThread, CallTask, k);
    } else if k == 2 || k == 5 || k == 7 || k == 13 {
      CallWorks(k);
      WorkFollows(CallScene, CallThread, CallTask, k);
    } else if k == 10 {
      CallWakes();
    } else {
      CallChanges();
    }
  }

  /**
   * From a state in which nothing runs and all is in order: the call is on and the output still active, although
   * setMode means to put it in standby.
   */
  lemma CallLeavesOutputActive()
    ensures exists s: State, actions: seq<Action> :: Quiet(s) && Balanced(s.hw)
              && Run(s, actions).hw.inCall && !Run(s, actions).hw.out.standby
  {
    var s, actions := Shown(CallScene(0)), Actions(CallThread, CallTask, 15);
    forall k | 0 <= k < 15 ensures Follows(CallScene, CallThread, CallTask, k) { CallFollows(k); }
    ScriptRuns(CallScene, CallThread, CallTask, 15);
    assert InMixers(RINGS.ins) == 1;
    assert Quiet(s) && Balanced(s.hw) && Run(s, actions).hw.inCall && !Run(s, actions).hw.out.standby;
  }

  // ---------------------------------------------------------------- two readers open the same input

  // The output is active and the input in standby. Both threads read the input, see it in standby, and let go of it
  // to wait for the output, which each of them only closes and opens: neither looks at the input again.

  const SINGS := Hw(Handles(true, 1, true, 1), false, false, true, PLAYS, [SLEEPS])
  const TWICE := Hw(Handles(true, 1, true, 3), false, false, true, PLAYS, [PLAYS])

  function TwiceScene(k: nat): Scene {
    var read := START.(at := RIn, i := 0);
    if k == 0 then Scene(SINGS, map[], START, START)
    else if k == 1 then Scene(SINGS, map[], read, START)
    else if k == 2 then Scene(SINGS, map[InLock(0) := 0], read.(at := RTest), START)
    else if k == 3 then Scene(SINGS, map[InLock(0) := 0], read.(at := RHw), START)
    else if k == 4 then Scene(SINGS, map[InLock(0) := 0, HwLock := 0], read.(at := RSection), START)
    else if k == 5 then Scene(SINGS, map[], read.(at := ROut), START)
    else if k == 6 then Scene(SINGS, map[], read.(at := ROut), read)
    else if k == 7 then Scene(SINGS, map[InLock(0) := 1], read.(at := ROut), read.(at := RTest))
    else if k == 8 then Scene(SINGS, map[InLock(0) := 1], read.(at := ROut), read.(at := RHw))
    else if k == 9 then Scene(SINGS, map[InLock(0) := 1, HwLock := 1], read.(at := ROut), read.(at := RSection))
    else if k == 10 then Scene(SINGS, map[], read.(at := ROut), read.(at := ROut))
    else if k == 11 then Scene(SINGS, map[OutLock := 0], read.(at := RIn2), read.(at := ROut))
    else if k == 12 then Scene(SINGS, map[OutLock := 0, InLock(0) := 0], read.(at := RHw2), read.(at := ROut))
    else if k == 13 then
      Scene(SINGS, map[OutLock := 0, InLock(0) := 0, HwLock := 0], read.(at := RSection2), read.(at := ROut))
    else if k == 14 then Scene(BOTH, map[InLock(0) := 0], read.(at := RCapture), read.(at := ROut))
    else if k == 15 then Scene(BOTH, map[], START, read.(at := ROut))
    else if k == 16 then Scene(BOTH, map[OutLock := 1], START, read.(at := RIn2))
    else if k == 17 then Scene(BOTH, map[OutLock := 1, InLock(0) := 1], START, read.(at := RHw2))
    else if k == 18 then Scene(BOTH, map[OutLock := 1, InLock(0) := 1, HwLock := 1], START, read.(at := RSection2))
    else Scene(TWICE, map[InLock(0) := 1], START, read.(at := RCapture))
  }

  function TwiceThread(k: nat): Thread {
    if 5 <= k <= 9 || 15 <= k then 1 else 0
  }

  function TwiceTask(k: nat): Task {
    Read(0)
  }

  lemma OutputReopens(hw: Hw)
    requires hw == SINGS || hw == BOTH
    ensures OpenOut(CloseOut(hw), YES) == hw
  {
    var h := hw.handles;
    assert CloseOut(hw).handles == (if hw == SINGS then Handles(false, 0, false, 0) else Handles(false, 0, true, 1));
  }

  lemma FirstReadOpens(l: Local)
    requires l.i == 0 && l.cnt == 0
    ensures ReadRetry(SINGS, l, YES) == (BOTH, l.(at := RCapture))
  {
    OutputReopens(SINGS);
    var hw := OpenIn(SINGS, 0, YES);
    assert hw == SINGS.(handles := Handles(true, 1, true, 2), ins := [Stream(true, 0, true, true)]);
    assert SetIn(hw, 0, hw.ins[0].(standby := false)) == BOTH;
  }

  lemma SecondReadOpens(l: Local)
    requires l.i == 0 && l.cnt == 0
    ensures ReadRetry(BOTH, l, YES) == (TWICE, l.(at := RCapture))
  {
    OutputReopens(BOTH);
    assert OpenIn(BOTH, 0, YES) == BOTH.(handles := Handles(true, 1, true, 3), ins := [PLAYS]);
  }

  lemma TwiceBegins(k: nat)
    requires k == 0 || k == 5
    ensures Follows(TwiceScene, TwiceThread, TwiceTask, k)
  {
    var c, c', t, x := TwiceScene(k), TwiceScene(k + 1), TwiceThread(k), Choice(TwiceTask(k), YES, true);
    Begins(c, t, x);
  }

  lemma TwiceGrants(k: nat)
    requires k == 1 || k == 3 || k == 6 || k == 8 || k == 10 || k == 11 || k == 12 || k == 15 || k == 16 || k == 17
    ensures Granting(TwiceScene(k), TwiceThread(k), TwiceScene(k + 1))
  {
  }

  lemma TwiceReleases(k: nat)
    requires k == 2 || k == 4 || k == 7 || k == 9 || k == 14 || k == 13 || k == 18
    ensures var c, c', t := TwiceScene(k), TwiceScene(k + 1), TwiceThread(k);
            Released(c.locks, t, Acting(c', t)) == c'.locks
  {
  }

  lemma TwiceWorks(k: nat)
    requires k == 2 || k == 4 || k == 7 || k == 9 || k == 14
    ensures Working(TwiceScene(k), TwiceThread(k), Choice(TwiceTask(k), YES, true), TwiceScene(k + 1))
  {
    TwiceReleases(k);
  }

  lemma TwiceOpens()
    ensures Follows(TwiceScene, TwiceThread, TwiceTask, 13)
  {
    var c, c', t, x := TwiceScene(13), TwiceScene(14), TwiceThread(13), Choice(TwiceTask(13), YES, true);
    FirstReadOpens(Acting(c, t));
    AtRetry(c.hw, Acting(c, t), x);
    TwiceReleases(13);
    Works(c, t, x, c'.hw, Acting(c', t));
  }

  lemma TwiceOpensAgain()
    ensures Follows(TwiceScene, TwiceThread, TwiceTask, 18)
  {
    var c, c', t, x := TwiceScene(18), TwiceScene(19), TwiceThread(18), Choice(TwiceTask(18), YES, true);
    SecondReadOpens(Acting(c, t));
    AtRetry(c.hw, Acting(c, t), x);
    TwiceReleases(18);
    Works(c, t, x, c'.hw, Acting(c', t));
  }

  lemma TwiceFollows(k: nat)
    requires k < 19
    ensures Follows(TwiceScene, TwiceThread, TwiceTask, k)
  {
    if k == 0 || k == 5 {
      TwiceBegins(k);
    } else if k == 1 || k == 3 || k == 6 || k == 8 || 10 <= k <= 12 || 15 <= k <= 17 {
      TwiceGrants(k);
      GrantFollows(TwiceScene, TwiceThread, TwiceTask, k);
    } else if k == 2 || k == 4 || k == 7 || k == 9 || k == 14 {
      TwiceWorks(k);
      WorkFollows(TwiceScene, TwiceThread, TwiceTask, k);
    } else if k == 13 {
      TwiceOpens();
    } else {
      TwiceOpensAgain();
    }
  }

  lemma {:induction false} ActionsSayYes(thread: nat -> Thread, task: nat -> Task, n: nat)
    ensures forall a :: a in Actions(thread, task, n) ==> a.c.driver == YES
  {
    if n > 0 { ActionsSayYes(thread, task, n - 1); }
  }

  lemma SingsInOrder()
    ensures Balanced(SINGS) && AllPowered(SINGS) && Quiet(Shown(TwiceScene(0))) && !Accounts(TWICE)
  {
    assert SINGS.ins[1..] == [] && TWICE.ins[1..] == [];
  }

  lemma TwiceEnds()
    ensures Shown(TwiceScene(0)).hw == SINGS
    ensures Run(Shown(TwiceScene(0)), Actions(TwiceThread, TwiceTask, 19)).hw == TWICE
  {
    forall k | 0 <= k < 19 ensures Follows(TwiceScene, TwiceThread, TwiceTask, k) { TwiceFollows(k); }
    ScriptRuns(TwiceScene, TwiceThread, TwiceTask, 19);
  }

  /**
   * From a state in which nothing runs and all is in order, with a driver that opens whatever is asked: the mixer is
   * counted three times for its two holders.
   */
  lemma TwoReadersUnbalance()
    ensures exists s: State, actions: seq<Action> :: Quiet(s) && Balanced(s.hw) && AllPowered(s.hw)
              && (forall a :: a in actions ==> a.c.driver == YES) && !Accounts(Run(s, actions).hw)
  {
    var s, actions := Shown(TwiceScene(0)), Actions(TwiceThread, TwiceTask, 19);
    TwiceEnds();
    ActionsSayYes(TwiceThread, TwiceTask, 19);
    SingsInOrder();
    assert !Accounts(Run(s, actions).hw);
  }

  // The same, but the driver does not open the input for the second reader.
  const REFUSED := Driver(true, true, false, true)

  lemma SecondReadFails(l: Local)
    requires l.i == 0 && l.cnt == 0
    ensures var hw := ReadRetry(BOTH, l, REFUSED).0; !AllPowered(hw) && Accounts(hw) && !Balanced(hw)
  {
    assert OpenOut(CloseOut(BOTH), REFUSED) == BOTH by { OutputReopens(BOTH); }
    var hw := OpenIn(BOTH, 0, REFUSED);
    assert hw == BOTH.(ins := [Stream(false, 0, false, true)]);
    assert WakeIn(BOTH, l, REFUSED).0 == hw;
    assert !Powered(hw.ins[0]) && !Sound(hw.ins[0]) && hw.ins[1..] == [];
  }

  lemma SecondReadStarts()
    ensures Run(Shown(TwiceScene(0)), Actions(TwiceThread, TwiceTask, 18)) == Shown(TwiceScene(18))
  {
    forall k | 0 <= k < 18 ensures Follows(TwiceScene, TwiceThread, TwiceTask, k) { TwiceFollows(k); }
    ScriptRuns(TwiceScene, TwiceThread, TwiceTask, 18);
  }

  const LAST := Action(1, Choice(Read(0), REFUSED, true))

  lemma SecondReadEnds()
    ensures var hw := Apply(Shown(TwiceScene(18)), LAST).hw; !AllPowered(hw) && Accounts(hw) && !Balanced(hw)
  {
    var c := TwiceScene(18);
    SecondReadFails(Acting(c, 1));
    AtRetry(c.hw, Acting(c, 1), LAST.c);
    var (hw, l) := Work(c.hw, Acting(c, 1), LAST.c);
    Works(c, 1, LAST.c, hw, l);
  }

  lemma RefusedRun()
    ensures var hw := Run(Shown(TwiceScene(0)), Actions(TwiceThread, TwiceTask, 18) + [LAST]).hw;
            !AllPowered(hw) && Accounts(hw) && !Balanced(hw)
  {
    RunSnoc(Shown(TwiceScene(0)), Actions(TwiceThread, TwiceTask, 18), LAST);
    SecondReadStarts();
    SecondReadEnds();
  }

  /**
   * From a state in which nothing runs and all is in order: an input is active without a PCM. The counts still are
   * what is held, but the input holds the mixer without a PCM.
   */
  lemma TwoReadersLosePcm()
    ensures exists s: State, actions: seq<Action> :: Quiet(s) && Balanced(s.hw) && AllPowered(s.hw)
              && !AllPowered(Run(s, actions).hw) && Accounts(Run(s, actions).hw) && !Balanced(Run(s, actions).hw)
  {
    RefusedRun();
    SingsInOrder();
    TwiceEnds();
  }

  // ---------------------------------------------------------------- two inputs are active when a call begins

  const TWO := Hw(Handles(false, 0, true, 2), false, false, true, SLEEPS, [PLAYS, PLAYS])
  const LEFT := Hw(Handles(true, 1, true, 2), true, true, true, SLEEPS, [Stream(true, 1, false, false), PLAYS])

  function OtherScene(k: nat): Scene {
    var mode := START.(at := MHw, call := true);
    var waits := mode.(at := MIn, i := 0);
    if k == 0 then Scene(TWO, map[], START, START)
    else if k == 1 then Scene(TWO, map[], mode, START)
    else if k == 2 then Scene(TWO, map[HwLock := 0], mode.(at := MSection), START)
    else if k == 3 then Scene(TWO, map[], waits, START)
    else if k == 4 then Scene(TWO, map[InLock(0) := 0], waits.(at := MHw3), START)
    else if k == 5 then Scene(TWO, map[InLock(0) := 0, HwLock := 0], waits.(at := MSection3), START)
    else if k == 6 then Scene(TWO, map[InLock(0) := 0, HwLock := 0], waits.(at := MBody, holdsIn := true), START)
    else Scene(LEFT, map[], START, START)
  }

  function OtherThread(k: nat): Thread {
    0
  }

  function OtherTask(k: nat): Task {
    SetMode(true)
  }

  lemma OtherIsLeft(l: Local)
    requires l.i == 0 && l.call && l.holdsIn && !l.holdsOut
    ensures ChangeMode(TWO, l, YES, true) == LEFT
  {
    var silenced := StandbyIn(TWO.(calling := true), 0);
    var handles := Handles(false, 0, true, 1);
    assert silenced == TWO.(calling := true, handles := handles, ins := [Stream(true, 1, false, false), PLAYS]);
  }

  lemma OtherBegins(k: nat)
    requires k == 0
    ensures Follows(OtherScene, OtherThread, OtherTask, k)
  {
    var c, c', t, x := OtherScene(k), OtherScene(k + 1), OtherThread(k), Choice(OtherTask(k), YES, true);
    Begins(c, t, x);
  }

  lemma OtherGrants(k: nat)
    requires k == 1 || k == 3 || k == 4
    ensures Granting(OtherScene(k), OtherThread(k), OtherScene(k + 1))
  {
  }

  lemma OtherReleases(k: nat)
    requires k == 2 || k == 5 || k == 6
    ensures var c, c', t := OtherScene(k), OtherScene(k + 1), OtherThread(k);
            Released(c.locks, t, Acting(c', t)) == c'.locks
  {
  }

  lemma OtherWorks(k: nat)
    requires k == 2 || k == 5
    ensures Working(OtherScene(k), OtherThread(k), Choice(OtherTask(k), YES, true), OtherScene(k + 1))
  {
    OtherReleases(k);
  }

  lemma OtherChanges()
    ensures Follows(OtherScene, OtherThread, OtherTask, 6)
  {
    var c, c', t, x := OtherScene(6), OtherScene(7), OtherThread(6), Choice(OtherTask(6), YES, true);
    OtherIsLeft(Acting(c, t));
    AtRetry(c.hw, Acting(c, t), x);
    OtherReleases(6);
    Works(c, t, x, c'.hw, Acting(c', t));
  }

  lemma OtherFollows(k: nat)
    requires k < 7
    ensures Follows(OtherScene, OtherThread, OtherTask, k)
  {
    if k == 0 {
      OtherBegins(k);
    } else if k == 1 || k == 3 || k == 4 {
      OtherGrants(k);
      GrantFollows(OtherScene, OtherThread, OtherTask, k);
    } else if k == 2 || k == 5 {
      OtherWorks(k);
      WorkFollows(OtherScene, OtherThread, OtherTask, k);
    } else {
      OtherChanges();
    }
  }

  lemma TwoInOrder()
    ensures Balanced(TWO) && AllPowered(TWO) && Quiet(Shown(OtherScene(0)))
  {
    assert InMixers(TWO.ins) == 2;
  }

  /** From a state in which nothing runs and all is in order, with two inputs active: the call is on, one still is. */
  lemma CallLeavesInputActive()
    ensures exists s: State, actions: seq<Action> :: Quiet(s) && Balanced(s.hw) && AllPowered(s.hw)
              && Run(s, actions).hw.inCall && ActiveInput(Run(s, actions).hw) != -1
  {
    var s, actions := Shown(OtherScene(0)), Actions(OtherThread, OtherTask, 7);
    forall k | 0 <= k < 7 ensures Follows(OtherScene, OtherThread, OtherTask, k) { OtherFollows(k); }
    ScriptRuns(OtherScene, OtherThread, OtherTask, 7);
    TwoInOrder();
    assert s.hw == TWO && Run(s, actions).hw == LEFT && !LEFT.ins[1].standby;
  }
}
