/** Every step of every session keeps the invariant. */
module BufferLockProofs {
  import opened Options
  import opened LockWord
  import opened BufferLock

  // ---------------------------------------------------------------- the session that moves

  /** What the rest of the invariant tells the session that moves about the lock word. */
  predicate Sees(h: Handle, l: Local) {
    && (Holding(l) ==> h.lockState.count > 0 && (h.lockState.write <==> l.u.Writes()))
    && (Writing(l) ==> h.lockState.count == 1)
    && (!Holding(l) ==> h.lockState.count + 1 < MAPPED)
    && (!h.lockState.write ==> !h.needsFlush)
  }

  lemma OwnLockTurn(h: Handle, l: Local, me: Session, thread: int, c: Choice)
    requires InLock(l.at) && Agrees(h, l, me, thread) && Sees(h, l)
    ensures var (h', l') := LockTurn(h, l, thread, c); Agrees(h', l', me, thread)
  {
  }

  lemma OwnMapCall(h: Handle, l: Local, me: Session, thread: int, c: Choice)
    requires l.at.MapCall? && Agrees(h, l, me, thread) && MapHistory(h)
    ensures var (h', l') := MapTurn(h, l, me, c); Agrees(h', l', me, thread) && MapHistory(h')
  {
  }

  lemma OwnMapEnter(h: Handle, l: Local, me: Session, thread: int, c: Choice)
    requires (l.at.MapWait? || l.at.MapTest?) && Agrees(h, l, me, thread) && MapHistory(h)
    ensures var (h', l') := MapTurn(h, l, me, c); Agrees(h', l', me, thread) && MapHistory(h')
  {
  }

  lemma OwnMapLeave(h: Handle, l: Local, me: Session, thread: int, c: Choice)
    requires (l.at.MapOr? || l.at.MapRelease? || l.at.ReadBase?) && Agrees(h, l, me, thread) && MapHistory(h)
    ensures var (h', l') := MapTurn(h, l, me, c); Agrees(h', l', me, thread) && MapHistory(h')
  {
  }

  lemma OwnMapTurn(h: Handle, l: Local, me: Session, thread: int, c: Choice)
    requires InMap(l.at) && Agrees(h, l, me, thread) && MapHistory(h)
    ensures var (h', l') := MapTurn(h, l, me, c); Agrees(h', l', me, thread) && MapHistory(h')
  {
    if l.at.MapCall? {
      OwnMapCall(h, l, me, thread, c);
    } else if l.at.MapWait? || l.at.MapTest? {
      OwnMapEnter(h, l, me, thread, c);
    } else {
      OwnMapLeave(h, l, me, thread, c);
    }
  }

  lemma OwnFlushTurn(h: Handle, l: Local, me: Session, thread: int)
    requires (l.at.Held? || l.at.FlushTest? || l.at.FlushClear?) && Agrees(h, l, me, thread) && Sees(h, l)
    ensures var (h', l') := UnlockTurn(h, l, thread); Agrees(h', l', me, thread)
  {
  }

  lemma OwnReleaseTurn(h: Handle, l: Local, me: Session, thread: int)
    requires (l.at.UnlockLoad? || l.at.UnlockOwner? || l.at.UnlockCas?) && Agrees(h, l, me, thread) && Sees(h, l)
    ensures var (h', l') := UnlockTurn(h, l, thread); Agrees(h', l', me, thread)
  {
  }

  lemma OwnUnlockTurn(h: Handle, l: Local, me: Session, thread: int)
    requires !InLock(l.at) && !InMap(l.at) && Agrees(h, l, me, thread) && Sees(h, l)
    ensures var (h', l') := UnlockTurn(h, l, thread); Agrees(h', l', me, thread)
  {
    if l.at.Held? || l.at.FlushTest? || l.at.FlushClear? {
      OwnFlushTurn(h, l, me, thread);
    } else {
      OwnReleaseTurn(h, l, me, thread);
    }
  }

  // ---------------------------------------------------------------- the sessions that do not move

  /** Another session: it does not hold if the one that moves writes, and the other way round. */
  predicate Apart(l: Local, o: Local) {
    !(Writing(l) && Holding(o)) && !(Holding(l) && Writing(o))
  }

  lemma OtherLockTurn(h: Handle, l: Local, me: Session, thread: int, c: Choice, o: Local, you: Session, k: int)
    requires InLock(l.at) && Agrees(h, l, me, thread) && Sees(h, l)
    requires Agrees(h, o, you, k) && Sees(h, o) && Apart(l, o) && me != you
    ensures Agrees(LockTurn(h, l, thread, c).0, o, you, k)
  {
  }

  lemma OtherMapTurn(h: Handle, l: Local, me: Session, thread: int, c: Choice, o: Local, you: Session, k: int)
    requires InMap(l.at) && Agrees(h, l, me, thread) && MapHistory(h)
    requires Agrees(h, o, you, k) && Apart(l, o) && me != you
    ensures Agrees(MapTurn(h, l, me, c).0, o, you, k)
  {
  }

  lemma OtherUnlockTurn(h: Handle, l: Local, me: Session, thread: int, o: Local, you: Session, k: int)
    requires !InLock(l.at) && !InMap(l.at) && Agrees(h, l, me, thread) && Sees(h, l)
    requires Agrees(h, o, you, k) && Sees(h, o) && Apart(l, o) && me != you
    ensures Agrees(UnlockTurn(h, l, thread).0, o, you, k)
  {
  }

  // ---------------------------------------------------------------- whole states

  lemma OnlyElement(xs: set<Session>, x: Session, y: Session)
    requires |xs| == 1 && x in xs && y in xs
    ensures x == y
  {
    Smaller({x, y}, xs);
  }

  lemma {:induction false} Smaller(xs: set<Session>, ys: set<Session>)
    requires xs <= ys
    ensures |xs| <= |ys|
    decreases xs
  {
    if x :| x in xs {
      Smaller(xs - {x}, ys - {x});
    }
  }

  /** A session that holds while another one writes is that one. */
  lemma WriterIsAlone(s: State, t: Session, w: Session)
    requires WordTellsHolders(s) && t in Holders(s) && w in Writers(s)
    ensures t == w
  {
    assert w in Holders(s);
    OnlyElement(Holders(s), t, w);
  }

  lemma SessionSees(s: State, t: Session)
    requires Inv(s) && t in s.locals
    ensures Sees(s.h, s.locals[t])
  {
    var holders, l := Holders(s), s.locals[t];
    if Holding(l) {
      assert t in holders;
      Smaller({t}, holders);
      if l.u.Writes() {
        assert t in Writers(s);
      } else if w :| w in Writers(s) {
        WriterIsAlone(s, t, w);
      }
    } else {
      assert holders <= s.locals.Keys - {t};
      Smaller(holders, s.locals.Keys - {t});
    }
  }

  lemma SessionsAreApart(s: State, t: Session, o: Session)
    requires Inv(s) && t in s.locals && o in s.locals && t != o
    ensures Apart(s.locals[t], s.locals[o])
  {
    if Writing(s.locals[t]) && Holding(s.locals[o]) {
      assert t in Writers(s) && o in Holders(s);
      WriterIsAlone(s, o, t);
    }
    if Holding(s.locals[t]) && Writing(s.locals[o]) {
      assert o in Writers(s) && t in Holders(s);
      WriterIsAlone(s, t, o);
    }
  }

  /** What a step does to the word and to the session's hold on the lock. */
  datatype Effect = Acquires | Releases | Neither

  function EffectOf(h: Handle, l: Local): Effect {
    if l.at.LockCas? && h.lockState == l.cur then Acquires
    else if l.at.UnlockCas? && h.lockState == l.cur then Releases
    else Neither
  }

  predicate HasEffect(e: Effect, h: Handle, l: Local, moved: (Handle, Local)) {
    var (h', l') := moved;
    match e
    case Acquires =>
      && !Holding(l) && Holding(l') && l'.u == l.u && !h.lockState.write
      && (l.u.Writes() ==> h.lockState.count == 0)
      && h'.lockState.count == h.lockState.count + 1 && h'.lockState.write == l.u.Writes()
    case Releases =>
      && Holding(l) && !Holding(l')
      && h'.lockState.count == h.lockState.count - 1 && !h'.lockState.write
    case Neither =>
      && (Holding(l') <==> Holding(l)) && (Writing(l') <==> Writing(l))
      && h'.lockState.count == h.lockState.count && h'.lockState.write == h.lockState.write
  }

  lemma TurnEffect(h: Handle, l: Local, me: Session, thread: int, c: Choice)
    requires Agrees(h, l, me, thread) && Sees(h, l)
    ensures HasEffect(EffectOf(h, l), h, l, Turn(h, l, me, thread, c))
  {
  }

  lemma HoldersUpdate(s: State, t: Session, moved: (Handle, Local))
    requires t in s.locals
    ensures var s' := Update(s, t, moved);
            && Holders(s') == (if Holding(moved.1) then Holders(s) + {t} else Holders(s) - {t})
            && Writers(s') == (if Writing(moved.1) then Writers(s) + {t} else Writers(s) - {t})
  {
  }

  lemma AcquireTells(w: Word, w': Word, holders: set<Session>, writers: set<Session>, t: Session, writes: bool)
    requires Tells(w, holders, writers) && t !in holders && writers <= holders
    requires !w.write && (writes ==> w.count == 0) && w'.count == w.count + 1 && w'.write == writes
    ensures Tells(w', holders + {t}, if writes then writers + {t} else writers - {t})
  {
    assert writers == {};
    if writes {
      assert holders == {};
    }
  }

  lemma ReleaseTells(w: Word, w': Word, holders: set<Session>, writers: set<Session>, t: Session)
    requires Tells(w, holders, writers) && t in holders && writers <= holders
    requires w'.count == w.count - 1 && !w'.write
    ensures Tells(w', holders - {t}, writers - {t})
  {
    forall x | x in writers ensures x == t {
      OnlyElement(holders, x, t);
    }
  }

  lemma HoldersNow(s: State, t: Session)
    requires t in s.locals
    ensures t in Holders(s) <==> Holding(s.locals[t])
    ensures t in Writers(s) <==> Writing(s.locals[t])
    ensures Writers(s) <= Holders(s)
  {
  }

  lemma UpdateAcquires(s: State, t: Session, moved: (Handle, Local))
    requires WordTellsHolders(s) && t in s.locals && HasEffect(Acquires, s.h, s.locals[t], moved)
    ensures WordTellsHolders(Update(s, t, moved))
  {
    HoldersNow(s, t);
    HoldersUpdate(s, t, moved);
    AcquireTells(s.h.lockState, moved.0.lockState, Holders(s), Writers(s), t, s.locals[t].u.Writes());
  }

  lemma UpdateReleases(s: State, t: Session, moved: (Handle, Local))
    requires WordTellsHolders(s) && t in s.locals && HasEffect(Releases, s.h, s.locals[t], moved)
    ensures WordTellsHolders(Update(s, t, moved))
  {
    HoldersNow(s, t);
    HoldersUpdate(s, t, moved);
    ReleaseTells(s.h.lockState, moved.0.lockState, Holders(s), Writers(s), t);
  }

  lemma UpdateNeither(s: State, t: Session, moved: (Handle, Local))
    requires WordTellsHolders(s) && t in s.locals && HasEffect(Neither, s.h, s.locals[t], moved)
    ensures WordTellsHolders(Update(s, t, moved))
  {
    var holders, writers := Holders(s), Writers(s);
    HoldersNow(s, t);
    HoldersUpdate(s, t, moved);
    assert (if Holding(moved.1) then holders + {t} else holders - {t}) == holders;
    assert (if Writing(moved.1) then writers + {t} else writers - {t}) == writers;
  }

  lemma UpdateKeepsWord(s: State, t: Session, moved: (Handle, Local), e: Effect)
    requires WordTellsHolders(s) && t in s.locals && HasEffect(e, s.h, s.locals[t], moved)
    ensures WordTellsHolders(Update(s, t, moved))
  {
    match e
    case Acquires => UpdateAcquires(s, t, moved);
    case Releases => UpdateReleases(s, t, moved);
    case Neither => UpdateNeither(s, t, moved);
  }

  lemma StepKeepsAgreement(s: State, t: Session, c: Choice, o: Session)
    requires Inv(s) && t in s.locals && o in s.locals
    ensures Agrees(Step(s, t, c).h, Step(s, t, c).locals[o], o, s.thread[o])
  {
    var h, l, k := s.h, s.locals[t], s.thread[t];
    assert Agrees(h, l, t, k);
    SessionSees(s, t);
    if o == t {
      if InLock(l.at) { OwnLockTurn(h, l, t, k, c); }
      else if InMap(l.at) { OwnMapTurn(h, l, t, k, c); }
      else { OwnUnlockTurn(h, l, t, k); }
    } else {
      var lo, ko := s.locals[o], s.thread[o];
      assert Agrees(h, lo, o, ko);
      SessionSees(s, o);
      SessionsAreApart(s, t, o);
      if InLock(l.at) { OtherLockTurn(h, l, t, k, c, lo, o, ko); }
      else if InMap(l.at) { OtherMapTurn(h, l, t, k, c, lo, o, ko); }
      else { OtherUnlockTurn(h, l, t, k, lo, o, ko); }
    }
  }

  lemma HistoryOutsideMapping(h: Handle, l: Local, me: Session, thread: int, c: Choice)
    requires !InMap(l.at) && Agrees(h, l, me, thread) && Sees(h, l) && MapHistory(h)
    ensures MapHistory(Turn(h, l, me, thread, c).0)
  {
  }

  lemma TurnKeepsHistory(h: Handle, l: Local, me: Session, thread: int, c: Choice)
    requires Agrees(h, l, me, thread) && Sees(h, l) && MapHistory(h)
    ensures MapHistory(Turn(h, l, me, thread, c).0)
  {
    if InMap(l.at) { OwnMapTurn(h, l, me, thread, c); }
    else { HistoryOutsideMapping(h, l, me, thread, c); }
  }

  /** A step raises the flag only for a writer, and a writer that ceases to be one leaves it down. */
  predicate FlagFollows(h: Handle, l: Local, moved: (Handle, Local)) {
    && (moved.0.needsFlush && !h.needsFlush ==> Writing(moved.1))
    && (moved.0.needsFlush && Writing(l) ==> Writing(moved.1))
  }

  lemma FlagFollowsWriter(h: Handle, l: Local, me: Session, thread: int, c: Choice)
    requires Agrees(h, l, me, thread) && Sees(h, l)
    ensures FlagFollows(h, l, Turn(h, l, me, thread, c))
  {
  }

  /** Without a writer the flush flag is down. */
  lemma UpdateKeepsFlag(s: State, t: Session, moved: (Handle, Local))
    requires t in s.locals && FlagFollows(s.h, s.locals[t], moved)
    requires Writers(s) == {} ==> !s.h.needsFlush
    ensures Writers(Update(s, t, moved)) == {} ==> !moved.0.needsFlush
  {
    HoldersUpdate(s, t, moved);
    if moved.0.needsFlush && !Writing(moved.1) {
      var w :| w in Writers(s);
      assert w in Writers(Update(s, t, moved));
    }
  }

  lemma MutexStep(h: Handle, l: Local, me: Session, thread: int, c: Choice)
    ensures var owner := Turn(h, l, me, thread, c).0.mapOwner;
            owner == h.mapOwner || owner == Some(me) || owner == None
  {
  }

  lemma StepKeepsShared(s: State, t: Session, c: Choice)
    requires Inv(s) && t in s.locals
    ensures var s' := Step(s, t, c);
            && WordTellsHolders(s') && MapHistory(s'.h)
            && (Writers(s') == {} ==> !s'.h.needsFlush)
  {
    var h, l, k := s.h, s.locals[t], s.thread[t];
    var moved := Turn(h, l, t, k, c);
    assert Agrees(h, l, t, k);
    SessionSees(s, t);
    TurnEffect(h, l, t, k, c);
    UpdateKeepsWord(s, t, moved, EffectOf(h, l));
    TurnKeepsHistory(h, l, t, k, c);
    FlagFollowsWriter(h, l, t, k, c);
    UpdateKeepsFlag(s, t, moved);
  }

  lemma StepKeepsInv(s: State, t: Session, c: Choice)
    requires Inv(s) && t in s.locals
    ensures Inv(Step(s, t, c))
  {
    StepKeepsShared(s, t, c);
    MutexStep(s.h, s.locals[t], t, s.thread[t], c);
    var s' := Step(s, t, c);
    assert s'.locals.Keys == s.locals.Keys;
    forall o | o in s'.locals ensures Agrees(s'.h, s'.locals[o], o, s'.thread[o]) {
      StepKeepsAgreement(s, t, c, o);
    }
  }

  lemma ResetKeepsInv(s: State)
    requires Inv(s)
    ensures Inv(Reset(s))
  {
    var s' := Reset(s);
    if s' != s {
      assert Holders(s) == {} && Writers(s) == {};
      assert Holders(s') == {} && Writers(s') == {};
      if s.h.mapOwner.Some? {
        assert Agrees(s.h, s.locals[s.h.mapOwner.value], s.h.mapOwner.value, s.thread[s.h.mapOwner.value]);
      }
      forall o | o in s'.locals ensures Agrees(s'.h, s'.locals[o], o, s'.thread[o]) {
        assert Agrees(s.h, s.locals[o], o, s.thread[o]);
      }
    }
  }

  lemma InitialInv(s: State)
    requires Initial(s)
    ensures Inv(s)
  {
    assert Holders(s) == {} && Writers(s) == {};
  }

  /** The invariant holds after any interleaving of any number of sessions. */
  lemma {:induction false} RunKeepsInv(s: State, actions: seq<Action>)
    requires Initial(s)
    ensures Inv(Run(s, actions))
  {
    if actions == [] {
      InitialInv(s);
    } else {
      var before, a := Run(s, actions[..|actions| - 1]), actions[|actions| - 1];
      RunKeepsInv(s, actions[..|actions| - 1]);
      match a
      case Register => ResetKeepsInv(before);
      case Act(t, c) =>
        if t in before.locals {
          StepKeepsInv(before, t, c);
        }
    }
  }
}
