/** What the lock protocol promises, over all interleavings. */
module BufferLockTheorems {
  import opened Options
  import opened LockWord
  import opened BufferLock
  import opened BufferLockProofs

  // ---------------------------------------------------------------- a readers/writer try-lock

  /** The simple thing: who reads and who writes. */
  datatype TryLock = TryLock(readers: set<Session>, writers: set<Session>)

  predicate Legal(a: TryLock) {
    a.writers == {} || (a.readers == {} && |a.writers| == 1)
  }

  function Abstract(s: State): TryLock {
    TryLock(Holders(s) - Writers(s), Writers(s))
  }

  /** A step of session t on the simple lock: it gets in where the rules allow it, gets out, or nothing happens. */
  predicate TryStep(a: TryLock, b: TryLock, t: Session) {
    || b == a
    || (a.writers == {} && t !in a.readers && b == TryLock(a.readers + {t}, {}))
    || (a == TryLock({}, {}) && b == TryLock({}, {t}))
    || (t in a.readers && b == TryLock(a.readers - {t}, a.writers))
    || (a.writers == {t} && b == TryLock({}, {}))
  }

  lemma TellsIsLegal(w: Word, holders: set<Session>, writers: set<Session>)
    requires Tells(w, holders, writers) && writers <= holders
    ensures Legal(TryLock(holders - writers, writers))
  {
    if x :| x in writers {
      forall t | t in holders ensures t == x { OnlyElement(holders, t, x); }
      assert writers == {x} == holders;
    }
  }

  lemma AbstractIsLegal(s: State)
    requires Inv(s)
    ensures Legal(Abstract(s))
  {
    assert Writers(s) <= Holders(s);
    TellsIsLegal(s.h.lockState, Holders(s), Writers(s));
  }

  lemma AcquireIsTryStep(w: Word, holders: set<Session>, writers: set<Session>, t: Session, writes: bool)
    requires Tells(w, holders, writers) && t !in holders && writers <= holders
    requires !w.write && (writes ==> w.count == 0)
    ensures var holders', writers' := holders + {t}, if writes then writers + {t} else writers - {t};
            TryStep(TryLock(holders - writers, writers), TryLock(holders' - writers', writers'), t)
  {
    assert writers == {};
    if writes {
      assert holders == {};
      assert {t} + {} == {t} && {t} - {t} == {};
    } else {
      assert holders + {t} - {} == holders - {} + {t};
    }
  }

  lemma ReleaseIsTryStep(w: Word, holders: set<Session>, writers: set<Session>, t: Session)
    requires Tells(w, holders, writers) && t in holders && writers <= holders
    ensures TryStep(TryLock(holders - writers, writers), TryLock(holders - {t} - (writers - {t}), writers - {t}), t)
  {
    if x :| x in writers {
      forall y | y in holders ensures y == t { OnlyElement(holders, y, t); }
      assert holders == {t} == writers;
    } else {
      assert writers - {t} == writers;
      assert holders - {t} - {} == holders - {} - {t};
    }
  }

  /** Every step of a session is a step of the simple lock by the same session. */
  lemma UpdateRefines(s: State, t: Session, moved: (Handle, Local), e: Effect)
    requires WordTellsHolders(s) && t in s.locals && HasEffect(e, s.h, s.locals[t], moved)
    ensures TryStep(Abstract(s), Abstract(Update(s, t, moved)), t)
  {
    HoldersNow(s, t);
    HoldersUpdate(s, t, moved);
    var holders, writers := Holders(s), Writers(s);
    match e
    case Acquires => AcquireIsTryStep(s.h.lockState, holders, writers, t, s.locals[t].u.Writes());
    case Releases => ReleaseIsTryStep(s.h.lockState, holders, writers, t);
    case Neither => KeptHold(holders, t, Holding(moved.1)); KeptHold(writers, t, Writing(moved.1));
  }

  lemma KeptHold(xs: set<Session>, t: Session, kept: bool)
    requires kept <==> t in xs
    ensures (if kept then xs + {t} else xs - {t}) == xs
  {
  }

  lemma StepRefines(s: State, t: Session, c: Choice)
    requires Inv(s) && t in s.locals
    ensures TryStep(Abstract(s), Abstract(Step(s, t, c)), t)
  {
    assert Agrees(s.h, s.locals[t], t, s.thread[t]);
    SessionSees(s, t);
    TurnEffect(s.h, s.locals[t], t, s.thread[t], c);
    UpdateRefines(s, t, Turn(s.h, s.locals[t], t, s.thread[t], c), EffectOf(s.h, s.locals[t]));
  }

  /** Registration happens only while nobody holds the lock, and changes nothing there. */
  lemma ResetRefines(s: State)
    ensures Abstract(Reset(s)) == Abstract(s)
  {
    assert Holders(Reset(s)) == Holders(s) && Writers(Reset(s)) == Writers(s);
  }

  /** Whatever has run, every further action is a step of the simple lock by the session that acts. */
  lemma RunRefines(s: State, actions: seq<Action>, a: Action)
    requires Initial(s)
    ensures var r := Run(s, actions);
            match a
            case Register => Abstract(Apply(r, a)) == Abstract(r)
            case Act(t, c) => TryStep(Abstract(r), Abstract(Apply(r, a)), t)
    ensures Legal(Abstract(Run(s, actions)))
  {
    var r := Run(s, actions);
    RunKeepsInv(s, actions);
    AbstractIsLegal(r);
    match a
    case Register => ResetRefines(r);
    case Act(t, c) => if t in r.locals { StepRefines(r, t, c); }
  }

  /** In every run of any number of sessions the word counts the holders and its write bit tells of a writer. */
  lemma RunIsTryLock(s: State, actions: seq<Action>)
    requires Initial(s)
    ensures var r := Run(s, actions);
            && r.h.lockState.count == |Holders(r)|
            && (r.h.lockState.write <==> exists w :: w in Writers(r))
            && Legal(Abstract(r))
  {
    RunKeepsInv(s, actions);
    AbstractIsLegal(Run(s, actions));
  }

  /** In every run -EBUSY is returned exactly when a conflicting holder exists at the load. */
  lemma BusyIffConflict(s: State, actions: seq<Action>, t: Session, c: Choice)
    requires Initial(s) && t in Run(s, actions).locals && t in Run(s, actions).thread
    requires Run(s, actions).locals[t].at.LockLoad?
    ensures var r := Run(s, actions);
            Step(r, t, c).locals[t].at.Idle? <==> Writers(r) != {} || (r.locals[t].u.Writes() && Holders(r) != {})
  {
    RunKeepsInv(s, actions);
  }

  /** A release by a writer succeeds at the first attempt, so clearing the owner inside the retry loop is safe. */
  lemma WriterUnlockNeverRetries(s: State, actions: seq<Action>, t: Session, c: Choice)
    requires Initial(s) && t in Run(s, actions).locals && t in Run(s, actions).thread
    requires Run(s, actions).locals[t].at.UnlockCas? && Run(s, actions).locals[t].u.Writes()
    ensures var r' := Step(Run(s, actions), t, c); r'.locals[t].at.Idle? && Holders(r') == {} && !r'.h.lockState.write
  {
    RunKeepsInv(s, actions);
    WriterReleases(Run(s, actions), t, c);
  }

  lemma WriterReleases(s: State, t: Session, c: Choice)
    requires Inv(s) && t in s.locals && s.locals[t].at.UnlockCas? && s.locals[t].u.Writes()
    ensures Step(s, t, c).locals[t].at.Idle?
    ensures Holders(Step(s, t, c)) == {} && !Step(s, t, c).h.lockState.write
  {
    assert Agrees(s.h, s.locals[t], t, s.thread[t]);
    HoldersNow(s, t);
    forall x | x in Holders(s) ensures x == t { WriterIsAlone(s, x, t); }
    HoldersUpdate(s, t, Turn(s.h, s.locals[t], t, s.thread[t], c));
  }

  /** No unlock by a holder is ever refused. */
  lemma UnlockNeverRefused(s: State, actions: seq<Action>, t: Session)
    requires Initial(s) && t in Run(s, actions).locals
    ensures !Run(s, actions).locals[t].at.UnlockFailed?
  {
    RunKeepsInv(s, actions);
    var r := Run(s, actions);
    assert Agrees(r.h, r.locals[t], t, r.thread[t]);
  }

  // ---------------------------------------------------------------- mapping

  /** The mapping step succeeds at most once per registration, and every successful software lock returned its base. */
  lemma MappedOnce(s: State, actions: seq<Action>, t: Session, o: Session)
    requires Initial(s)
    ensures var r := Run(s, actions);
            && r.h.mappings <= 1
            && (r.h.lockState.mapped ==> r.h.published == Some(r.h.base))
            && (t in r.locals && o in r.locals && Returned(r.locals[t]) && Returned(r.locals[o]) ==>
                  && r.h.lockState.mapped
                  && r.locals[t].vaddr == r.locals[o].vaddr == Some(r.h.base))
  {
    RunKeepsInv(s, actions);
    var r := Run(s, actions);
    if t in r.locals && o in r.locals {
      assert Agrees(r.h, r.locals[t], t, r.thread[t]);
      assert Agrees(r.h, r.locals[o], o, r.thread[o]);
    }
  }

  /** A lock call for software access has returned success. */
  predicate Returned(l: Local) {
    l.at.Held? && l.err == 0 && (l.u.swRead || l.u.swWrite)
  }

  lemma TurnKeepsBase(h: Handle, l: Local, me: Session, thread: int, c: Choice)
    requires Agrees(h, l, me, thread) && MapHistory(h) && h.published.Some?
    ensures var h' := Turn(h, l, me, thread, c).0; h'.published == h.published && h'.base == h.base
  {
  }

  /** Once published, the base stays until the handle is registered again. */
  lemma PublishedStays(s: State, actions: seq<Action>, t: Session, c: Choice)
    requires Initial(s) && t in Run(s, actions).locals && t in Run(s, actions).thread
    requires Run(s, actions).h.published.Some?
    ensures var r, r' := Run(s, actions), Step(Run(s, actions), t, c);
            r'.h.published == r.h.published && r'.h.base == r.h.base
  {
    RunKeepsInv(s, actions);
    var r := Run(s, actions);
    TurnKeepsBase(r.h, r.locals[t], t, r.thread[t], c);
  }

  /** Through any further actions without a registration. */
  lemma {:induction false} PublishedStaysLong(s: State, actions: seq<Action>, n: nat)
    requires Initial(s) && n <= |actions| && Run(s, actions[..n]).h.published.Some?
    requires forall k :: n <= k < |actions| ==> actions[k].Act?
    ensures Run(s, actions).h.published == Run(s, actions[..n]).h.published
    decreases |actions|
  {
    if n == |actions| {
      assert actions[..n] == actions;
    } else {
      var first, a := actions[..|actions| - 1], actions[|actions| - 1];
      assert first[..n] == actions[..n];
      PublishedStaysLong(s, first, n);
      if a.t in Run(s, first).locals && a.t in Run(s, first).thread { PublishedStays(s, first, a.t, a.c); }
    }
  }

  lemma ReturnedPublished(s: State, actions: seq<Action>, t: Session)
    requires Initial(s) && t in Run(s, actions).locals && Returned(Run(s, actions).locals[t])
    ensures var r := Run(s, actions); r.h.published.Some? && r.locals[t].vaddr == r.h.published
  {
    RunKeepsInv(s, actions);
    var r := Run(s, actions);
    assert Agrees(r.h, r.locals[t], t, r.thread[t]);
  }

  /** Any two successful software locks between registrations, however far apart, returned the same base. */
  lemma SameBase(s: State, actions: seq<Action>, n: nat, t: Session, o: Session)
    requires Initial(s) && n <= |actions| && (forall k :: n <= k < |actions| ==> actions[k].Act?)
    requires t in Run(s, actions[..n]).locals && Returned(Run(s, actions[..n]).locals[t])
    requires o in Run(s, actions).locals && Returned(Run(s, actions).locals[o])
    ensures Run(s, actions[..n]).locals[t].vaddr == Run(s, actions).locals[o].vaddr
  {
    ReturnedPublished(s, actions[..n], t);
    PublishedStaysLong(s, actions, n);
    ReturnedPublished(s, actions, o);
  }

  // ---------------------------------------------------------------- flushing

  /** In every run, while the flag is up a software writer holds the lock, and every attempt to lock is refused. */
  lemma FlagMeansWriter(s: State, actions: seq<Action>, t: Session, c: Choice)
    requires Initial(s) && Run(s, actions).h.needsFlush
    ensures var r := Run(s, actions); exists w :: w in Holders(r) && r.locals[w].u.swWrite && !r.h.framebuffer
    ensures var r := Run(s, actions);
            t in r.locals && t in r.thread && r.locals[t].at.LockLoad? ==> Step(r, t, c).locals[t].at.Idle?
  {
    RunKeepsInv(s, actions);
    var r := Run(s, actions);
    var w :| w in Writers(r);
    assert w in Holders(r);
    assert Agrees(r.h, r.locals[w], w, r.thread[w]);
  }

  /**
   * In every run, when an unlock call gives up the lock it has flushed exactly once if its session locked for
   * software writing and the handle is not the framebuffer, and not at all otherwise; and the flag is down.
   */
  lemma FlushedExactlyOnce(s: State, actions: seq<Action>, t: Session, c: Choice)
    requires Initial(s) && t in Run(s, actions).locals && t in Run(s, actions).thread
    requires Run(s, actions).locals[t].at.UnlockCas? && Step(Run(s, actions), t, c).locals[t].at.Idle?
    ensures var r := Run(s, actions);
            && r.locals[t].flushes == (if r.locals[t].u.swWrite && !r.h.framebuffer then 1 else 0)
            && !r.h.needsFlush && !Step(r, t, c).h.needsFlush
  {
    RunKeepsInv(s, actions);
    var r := Run(s, actions);
    assert Agrees(r.h, r.locals[t], t, r.thread[t]);
    SessionSees(r, t);
  }

  // ---------------------------------------------------------------- a lock call that fails and yet locks

  /** The step with which a lock call returns: with -EBUSY to Idle, otherwise to Held. */
  predicate LockReturns(s: State, t: Session, c: Choice)
    requires t in s.locals && t in s.thread
  {
    var l, l' := s.locals[t], Step(s, t, c).locals[t];
    (l.at.LockLoad? && l'.at.Idle?) || (!l.at.Held? && l'.at.Held?)
  }

  /** Has the mapping step of the lock call that session t is in been refused an address? */
  predicate MapFailed(s: State, actions: seq<Action>, t: Session) {
    actions != [] &&
      var before, a := Run(s, actions[..|actions| - 1]), actions[|actions| - 1];
      if a.Act? && a.t == t && t in before.locals && before.locals[t].at.MapCall? then
        !before.h.framebuffer && a.c.address.None?
      else if a.Act? && a.t == t && t in before.locals && before.locals[t].at.Idle? then
        false  // a new call
      else
        MapFailed(s, actions[..|actions| - 1], t)
  }

  /** The result of the call so far. */
  predicate Fails(l: Local, failed: bool) {
    !l.at.Idle? ==> l.err <= 0 && (l.err < 0 <==> failed) && (failed ==> Holding(l))
  }

  lemma TurnFails(h: Handle, l: Local, me: Session, thread: int, c: Choice, failed: bool)
    requires Agrees(h, l, me, thread) && Fails(l, failed)
    ensures Fails(Turn(h, l, me, thread, c).1,
                  if l.at.MapCall? then !h.framebuffer && c.address.None? else if l.at.Idle? then false else failed)
  {
  }

  lemma {:induction false} RunFails(s: State, actions: seq<Action>, t: Session)
    requires Initial(s) && t in Run(s, actions).locals
    ensures Fails(Run(s, actions).locals[t], MapFailed(s, actions, t))
  {
    if actions != [] {
      var before, a := Run(s, actions[..|actions| - 1]), actions[|actions| - 1];
      RunKeepsInv(s, actions[..|actions| - 1]);
      assert t in before.locals;
      RunFails(s, actions[..|actions| - 1], t);
      if a.Act? && a.t == t {
        TurnFails(before.h, before.locals[t], t, before.thread[t], a.c, MapFailed(s, actions[..|actions| - 1], t));
      }
    }
  }

  /**
   * One would expect a lock call that returns an error not to hold the lock. In every run it returns an error and
   * holds the lock exactly when its mapping step, on a handle other than the framebuffer, was refused an address;
   * it returns an error and does not hold the lock exactly when its load met a conflicting holder.
   */
  lemma ErrorKeepsLockIff(s: State, actions: seq<Action>, t: Session, c: Choice)
    requires Initial(s) && t in Run(s, actions).locals && t in Run(s, actions).thread
    requires LockReturns(Run(s, actions), t, c)
    ensures var r, r' := Run(s, actions), Step(Run(s, actions), t, c);
            && (r'.locals[t].err < 0 && t in Holders(r') <==> MapFailed(s, actions, t))
            && (r'.locals[t].err < 0 && t !in Holders(r') <==>
                  r.locals[t].at.LockLoad? && (Writers(r) != {} || (r.locals[t].u.Writes() && Holders(r) != {})))
  {
    var r := Run(s, actions);
    RunKeepsInv(s, actions);
    RunFails(s, actions, t);
    assert Agrees(r.h, r.locals[t], t, r.thread[t]);
    if r.locals[t].at.LockLoad? {
      BusyIffConflict(s, actions, t, c);
    } else {
      ReturnPoints(r.h, r.locals[t], t, r.thread[t], c);
    }
    HoldersNow(Step(r, t, c), t);
  }

  lemma ReturnPoints(h: Handle, l: Local, me: Session, thread: int, c: Choice)
    requires !l.at.Held? && Turn(h, l, me, thread, c).1.at.Held?
    ensures var l' := Turn(h, l, me, thread, c).1; l'.err == l.err && Holding(l') && !l.at.Idle?
  {
  }

  /** At the mapping step: it fails exactly when it is refused an address, and the session goes on holding the lock. */
  lemma MapCallFailsIff(s: State, actions: seq<Action>, t: Session, c: Choice)
    requires Initial(s) && t in Run(s, actions).locals && t in Run(s, actions).thread
    requires Run(s, actions).locals[t].at.MapCall?
    ensures var r, r' := Run(s, actions), Step(Run(s, actions), t, c);
            && (r'.locals[t].err < 0 <==> !r.h.framebuffer && c.address.None?)
            && (r'.locals[t].err < 0 ==> r'.locals[t].err == (if c.errno > 0 then -c.errno else -1) && r'.h.base == 0)
            && t in Holders(r') && r'.h.lockState == r.h.lockState
  {
    RunKeepsInv(s, actions);
    var r := Run(s, actions);
    assert Agrees(r.h, r.locals[t], t, r.thread[t]);
  }

  /** So with a framebuffer, or a system that always finds an address, no lock call that got in returns an error. */
  lemma NoRefusalNoError(s: State, actions: seq<Action>, t: Session)
    requires Initial(s) && t in Run(s, actions).locals && !Run(s, actions).locals[t].at.Idle?
    requires s.h.framebuffer || forall a :: a in actions && a.Act? ==> a.c.address.Some?
    ensures Run(s, actions).locals[t].err == 0
  {
    RunFails(s, actions, t);
    NoRefusal(s, actions, t);
  }

  lemma TurnKeepsKind(h: Handle, l: Local, me: Session, thread: int, c: Choice)
    ensures Turn(h, l, me, thread, c).0.framebuffer == h.framebuffer
  {
  }

  lemma ApplyKeepsKind(s: State, a: Action)
    ensures Apply(s, a).h.framebuffer == s.h.framebuffer
  {
    if a.Act? && a.t in s.locals && a.t in s.thread { TurnKeepsKind(s.h, s.locals[a.t], a.t, s.thread[a.t], a.c); }
  }

  lemma {:induction false} NoRefusal(s: State, actions: seq<Action>, t: Session)
    requires s.h.framebuffer || forall a :: a in actions && a.Act? ==> a.c.address.Some?
    ensures !MapFailed(s, actions, t) && Run(s, actions).h.framebuffer == s.h.framebuffer
  {
    if actions != [] {
      NoRefusal(s, actions[..|actions| - 1], t);
      ApplyKeepsKind(Run(s, actions[..|actions| - 1]), actions[|actions| - 1]);
      assert actions[|actions| - 1] in actions;
    }
  }

  lemma RunSnoc(s: State, actions: seq<Action>, a: Action)
    ensures Run(s, actions + [a]) == Apply(Run(s, actions), a)
  {
    assert (actions + [a])[..|actions|] == actions;
  }

  // One session locks a fresh handle for software writing, and the mapping fails with error 12.
  const WRITER := Usage(false, true, false)
  const UNLUCKY := Choice(WRITER, None, 12)
  const FRESH := Handle(FREE, 0, false, 0, false, false, 0, None, None, 0, false)
  const IDLE := Local(Idle, WRITER, FREE, FREE, 0, None, 0)
  const TAKEN := Word(true, false, 1)

  /** The handle and the session after each step of the call. */
  function Unlucky(n: nat): (Handle, Local) {
    var begun := Local(LockLoad, WRITER, FREE, FREE, 0, None, 0);
    var loaded := begun.(at := LockCas, new_ := TAKEN);
    var locked := FRESH.(lockState := TAKEN);
    var owned := locked.(writeOwner := 7);
    var flagged := owned.(needsFlush := true);
    var mutexed := flagged.(mapOwner := Some(0));
    if n == 0 then (FRESH, IDLE)
    else if n == 1 then (FRESH, begun)
    else if n == 2 then (FRESH, loaded)
    else if n == 3 then (locked, loaded.(at := StoreOwner))
    else if n == 4 then (owned, loaded.(at := StoreFlush))
    else if n == 5 then (flagged, loaded.(at := MapCheck))
    else if n == 6 then (flagged, loaded.(at := MapWait))
    else if n == 7 then (mutexed, loaded.(at := MapTest))
    else if n == 8 then (mutexed, loaded.(at := MapCall))
    else if n == 9 then (mutexed, loaded.(at := MapRelease, err := -12))
    else if n == 10 then (flagged, loaded.(at := ReadBase, err := -12))
    else (flagged, loaded.(at := Held, err := -12, vaddr := Some(0)))
  }

  lemma UnluckyTurn(n: nat)
    requires n < 11
    ensures Turn(Unlucky(n).0, Unlucky(n).1, 0, 7, UNLUCKY) == Unlucky(n + 1)
  {
  }

  function Repeat(n: nat, a: Action): seq<Action> {
    if n == 0 then [] else Repeat(n - 1, a) + [a]
  }

  lemma UnluckyApply(s: State, n: nat)
    requires s == State(FRESH, map[0 := IDLE, 1 := IDLE], map[0 := 7, 1 := 8]) && n < 11
    ensures Apply(Update(s, 0, Unlucky(n)), Act(0, UNLUCKY)) == Update(s, 0, Unlucky(n + 1))
  {
    UnluckyTurn(n);
    var before := Update(s, 0, Unlucky(n));
    assert Step(before, 0, UNLUCKY) == Update(before, 0, Unlucky(n + 1));
  }

  lemma {:induction false} UnluckyRun(s: State, n: nat)
    requires s == State(FRESH, map[0 := IDLE, 1 := IDLE], map[0 := 7, 1 := 8]) && n <= 11
    ensures Run(s, Repeat(n, Act(0, UNLUCKY))) == Update(s, 0, Unlucky(n))
  {
    if n == 0 {
      assert s.locals[0 := IDLE] == s.locals;
    } else {
      UnluckyRun(s, n - 1);
      RunSnoc(s, Repeat(n - 1, Act(0, UNLUCKY)), Act(0, UNLUCKY));
      UnluckyApply(s, n - 1);
    }
  }

  lemma UnluckyEnd(s: State)
    requires s == State(FRESH, map[0 := IDLE, 1 := IDLE], map[0 := 7, 1 := 8])
    ensures LockedByFailure(Update(s, 0, Unlucky(11)), 0)
  {
  }

  lemma FreshIsInitial(s: State)
    requires s == State(FRESH, map[0 := IDLE, 1 := IDLE], map[0 := 7, 1 := 8])
    ensures Initial(s)
  {
    assert s.locals.Keys == {0, 1} == s.thread.Keys;
    assert |s.locals| == |s.locals.Keys| == 2;
  }

  /** Such a run exists: the call has returned an error, and from then on nobody can lock the buffer. */
  lemma FailedMappingLeavesLocked()
    ensures exists s: State, actions: seq<Action> :: Initial(s) && LockedByFailure(Run(s, actions), 0)
  {
    var s := State(FRESH, map[0 := IDLE, 1 := IDLE], map[0 := 7, 1 := 8]);
    var actions := Repeat(11, Act(0, UNLUCKY));
    UnluckyRun(s, 11);
    UnluckyEnd(s);
    FreshIsInitial(s);
    assert Initial(s) && LockedByFailure(Run(s, actions), 0);
  }

  ghost predicate LockedByFailure(s: State, t: Session) {
    && t in s.locals && s.locals[t].at.Held? && s.locals[t].err < 0
    && forall u: Usage :: Conflicts(u, s.h.lockState)
  }
}
