/**
 * The lock protocol in the terms of its callers: which usage flags exclude one another, what a call returns, and that a
 * call left alone gets through.
 */
module BufferLockLaws {
  import opened Options
  import opened LockWord
  import opened BufferLock
  import opened BufferLockProofs
  import opened BufferLockTheorems

  // ---------------------------------------------------------------- who excludes whom

  /** In every run a session that locked for software writing or rendering is alone. */
  lemma WriterIsOnlyHolder(s: State, actions: seq<Action>, t: Session, o: Session)
    requires Initial(s) && t in Holders(Run(s, actions)) && o in Holders(Run(s, actions))
    requires Run(s, actions).locals[t].u.swWrite || Run(s, actions).locals[t].u.hwRender
    ensures o == t
  {
    RunKeepsInv(s, actions);
    assert t in Writers(Run(s, actions));
    WriterIsAlone(Run(s, actions), o, t);
  }

  /** The write bit is set exactly while such a session holds the lock. */
  lemma WriteBitIff(s: State, actions: seq<Action>)
    requires Initial(s)
    ensures var r := Run(s, actions);
            r.h.lockState.write <==>
              exists t :: t in Holders(r) && (r.locals[t].u.swWrite || r.locals[t].u.hwRender)
  {
    var r := Run(s, actions);
    RunKeepsInv(s, actions);
    if w :| w in Writers(r) { assert w in Holders(r); }
    if t :| t in Holders(r) && (r.locals[t].u.swWrite || r.locals[t].u.hwRender) { assert t in Writers(r); }
  }

  /** Does what the holders do forbid a lock for this usage? */
  predicate Forbidden(s: State, u: Usage) {
    || (exists o :: o in Holders(s) && (s.locals[o].u.swWrite || s.locals[o].u.hwRender))
    || ((u.swWrite || u.hwRender) && Holders(s) != {})
  }

  /** A lock call is refused, with -EBUSY, exactly if somebody writes or renders, or it would and somebody holds. */
  lemma RefusedIff(s: State, actions: seq<Action>, t: Session, c: Choice)
    requires Initial(s) && t in Run(s, actions).locals && t in Run(s, actions).thread
    requires Run(s, actions).locals[t].at.LockLoad?
    ensures var r, l' := Run(s, actions), Step(Run(s, actions), t, c).locals[t];
            && (l'.at.Idle? <==> Forbidden(r, r.locals[t].u))
            && (l'.at.Idle? ==> l'.err == -EBUSY)
  {
    BusyIffConflict(s, actions, t, c);
    WriteBitIff(s, actions);
    RunIsTryLock(s, actions);
  }

  /** The owner on record is the thread of the session that writes or renders, until its unlock gives the lock up. */
  lemma OwnerIsWriter(s: State, actions: seq<Action>, t: Session)
    requires Initial(s) && t in Holders(Run(s, actions)) && t in Run(s, actions).thread
    requires Run(s, actions).locals[t].u.swWrite || Run(s, actions).locals[t].u.hwRender
    ensures var r := Run(s, actions);
            !r.locals[t].at.StoreOwner? && !r.locals[t].at.UnlockCas? ==> r.h.writeOwner == r.thread[t]
  {
    var r := Run(s, actions);
    RunKeepsInv(s, actions);
    assert Agrees(r.h, r.locals[t], t, r.thread[t]);
  }

  // ---------------------------------------------------------------- what a lock call returns

  /** A lock call that returns 0 gives an address exactly for software access: the base of the mapped buffer. */
  lemma AddressIffSoftware(s: State, actions: seq<Action>, t: Session)
    requires Initial(s) && t in Run(s, actions).locals
    requires Run(s, actions).locals[t].at.Held? && Run(s, actions).locals[t].err == 0
    ensures var r, l := Run(s, actions), Run(s, actions).locals[t];
            && (l.vaddr.Some? <==> l.u.swRead || l.u.swWrite)
            && (l.vaddr.Some? ==> r.h.lockState.mapped && l.vaddr.value == r.h.base)
  {
    var r := Run(s, actions);
    RunKeepsInv(s, actions);
    assert Agrees(r.h, r.locals[t], t, r.thread[t]);
  }

  /** The address that mmap found when the buffer was last mapped, since the handle was registered. */
  function Address(s: State, actions: seq<Action>): Option<int> {
    if actions == [] then None
    else
      var before, a := Run(s, actions[..|actions| - 1]), actions[|actions| - 1];
      match a
      case Register => if Reset(before) == before then Address(s, actions[..|actions| - 1]) else None
      case Act(t, c) =>
        if t in before.locals && t in before.thread && before.locals[t].at.MapCall? then c.address
        else Address(s, actions[..|actions| - 1])
  }

  /** A handle that has been mapped since it was registered has its base at that address plus its own offset. */
  predicate Placed(h: Handle, offset: int, address: Option<int>) {
    && h.offset == offset
    && (!h.framebuffer && h.mappings > 0 ==> address.Some? && h.base == address.value + offset)
  }

  lemma TurnKeepsPlace(h: Handle, l: Local, me: Session, thread: int, c: Choice, offset: int, address: Option<int>)
    requires Agrees(h, l, me, thread) && MapHistory(h) && Placed(h, offset, address)
    ensures Placed(Turn(h, l, me, thread, c).0, offset, if l.at.MapCall? then c.address else address)
  {
  }

  lemma {:induction false} RunKeepsPlace(s: State, actions: seq<Action>)
    requires Initial(s)
    ensures Placed(Run(s, actions).h, s.h.offset, Address(s, actions))
  {
    if actions != [] {
      var first, a := actions[..|actions| - 1], actions[|actions| - 1];
      var before := Run(s, first);
      RunKeepsPlace(s, first);
      RunKeepsInv(s, first);
      if a.Act? && a.t in before.locals {
        assert Agrees(before.h, before.locals[a.t], a.t, before.thread[a.t]);
        TurnKeepsPlace(before.h, before.locals[a.t], a.t, before.thread[a.t], a.c, s.h.offset, Address(s, first));
      }
    }
  }

  predicate PlusOffset(vaddr: Option<int>, address: Option<int>, offset: int) {
    address.Some? && vaddr == Some(address.value + offset)
  }

  lemma ReturnedIsPlaced(r: State, t: Session, offset: int, address: Option<int>)
    requires Inv(r) && Placed(r.h, offset, address) && t in r.locals && Returned(r.locals[t])
    requires !r.h.framebuffer && r.h.mappings > 0
    ensures PlusOffset(r.locals[t].vaddr, address, offset)
  {
    assert Agrees(r.h, r.locals[t], t, r.thread[t]);
  }

  /**
   * Once a buffer other than the framebuffer has been mapped, successful software locks return the address that mmap
   * found plus the offset of the handle.
   */
  lemma AddressPlusOffset(s: State, actions: seq<Action>, t: Session)
    requires Initial(s) && t in Run(s, actions).locals && Returned(Run(s, actions).locals[t])
    requires !Run(s, actions).h.framebuffer && Run(s, actions).h.mappings > 0
    ensures PlusOffset(Run(s, actions).locals[t].vaddr, Address(s, actions), s.h.offset)
  {
    RunKeepsPlace(s, actions);
    RunKeepsInv(s, actions);
    ReturnedIsPlaced(Run(s, actions), t, s.h.offset, Address(s, actions));
  }

  /** Registering a handle of another process that nobody uses leaves it free, unowned and unmapped; others stay. */
  lemma RegisteredIsFree(s: State, actions: seq<Action>)
    requires Initial(s)
    ensures var r, r' := Run(s, actions), Run(s, actions + [Register]);
            if r.h.foreign && forall t :: t in r.locals ==> r.locals[t].at.Idle? then
              && Encode(r'.h.lockState) == 0 && r'.h.writeOwner == 0 && r'.h.base == 0
              && !r'.h.needsFlush && r'.h.mapOwner == None && r'.locals == r.locals
              && r'.h.framebuffer == r.h.framebuffer && r'.h.offset == r.h.offset
            else r' == r
  {
    var r := Run(s, actions);
    RunSnoc(s, actions, Register);
    RunKeepsInv(s, actions);
    if forall t :: t in r.locals ==> r.locals[t].at.Idle? {
      assert Writers(r) == {};
      forall o | o in r.locals ensures r.h.mapOwner != Some(o) {
        assert Agrees(r.h, r.locals[o], o, r.thread[o]);
      }
    }
  }

  // ---------------------------------------------------------------- a session left alone

  /** Where n steps lead when nobody else moves. */
  function Alone(h: Handle, l: Local, me: Session, thread: int, c: Choice, n: nat): (Handle, Local) {
    if n == 0 then (h, l)
    else
      var (h', l') := Alone(h, l, me, thread, c, n - 1);
      Turn(h', l', me, thread, c)
  }

  lemma {:induction false} AloneIsRun(s: State, actions: seq<Action>, t: Session, c: Choice, n: nat)
    requires t in Run(s, actions).locals && t in Run(s, actions).thread
    ensures var r := Run(s, actions);
            Run(s, actions + Repeat(n, Act(t, c))) == Update(r, t, Alone(r.h, r.locals[t], t, r.thread[t], c, n))
  {
    var r := Run(s, actions);
    if n == 0 {
      assert actions + [] == actions;
      assert r.locals[t := r.locals[t]] == r.locals;
    } else {
      AloneIsRun(s, actions, t, c, n - 1);
      var more := Repeat(n - 1, Act(t, c));
      assert actions + Repeat(n, Act(t, c)) == (actions + more) + [Act(t, c)];
      RunSnoc(s, actions + more, Act(t, c));
      var moved := Alone(r.h, r.locals[t], t, r.thread[t], c, n - 1);
      var next := Turn(moved.0, moved.1, t, r.thread[t], c);
      assert Step(Update(r, t, moved), t, c) == Update(r, t, next);
    }
  }

  /** Through the compare-and-swap and the two stores. */
  lemma AloneEnters(h: Handle, l: Local, me: Session, thread: int, c: Choice)
    requires l.at.Idle? && !Conflicts(c.u, h.lockState) && h.lockState.count + 1 < MAPPED
    ensures var (h', l') := Alone(h, l, me, thread, c, 5);
            && l' == Local(MapCheck, c.u, h.lockState, Locked(c.u, h.lockState), 0, None, 0)
            && h'.mapOwner == h.mapOwner && h'.base == h.base && h'.framebuffer == h.framebuffer
            && h'.lockState == l'.new_ && h'.lockState.mapped == h.lockState.mapped
  {
    var begun := Local(LockLoad, c.u, FREE, FREE, 0, None, 0);
    var loaded := begun.(at := LockCas, cur := h.lockState, new_ := Locked(c.u, h.lockState));
    assert Alone(h, l, me, thread, c, 1) == (h, begun);
    assert Alone(h, l, me, thread, c, 2) == (h, loaded);
    var locked := h.(lockState := loaded.new_);
    assert Alone(h, l, me, thread, c, 3) == (locked, loaded.(at := StoreOwner));
    var (owned, stored) := Alone(h, l, me, thread, c, 4);
    assert stored == loaded.(at := StoreFlush);
  }

  /** The call has returned: an error exactly if the buffer had to be mapped and could not be, otherwise the base. */
  predicate Locks(h: Handle, c: Choice, l: Local, mapped: bool) {
    && l.at.Held? && l.u == c.u
    && (l.err == 0 <==> !(c.u.swRead || c.u.swWrite) || mapped || h.framebuffer || c.address.Some?)
    && (c.u.swRead || c.u.swWrite ==> l.vaddr == Some(h.base))
  }

  lemma AloneNeedsNoMap(h: Handle, l: Local, me: Session, thread: int, c: Choice, n: nat, h0: Handle, l0: Local)
    requires (h, l) == Alone(h0, l0, me, thread, c, n) && l.at.MapCheck? && l.err == 0 && l.u == c.u
    requires l.cur.mapped == h.lockState.mapped && (h.lockState.mapped || !l.u.Software())
    ensures var m := if l.u.Software() then n + 2 else n + 1;
            var (h', l') := Alone(h0, l0, me, thread, c, m); Locks(h', c, l', h.lockState.mapped)
  {
    var (h1, l1) := Alone(h0, l0, me, thread, c, n + 1);
  }

  /** Up to the mapping itself. */
  lemma AloneReachesMap(h: Handle, l: Local, me: Session, thread: int, c: Choice, n: nat, h0: Handle, l0: Local)
    requires (h, l) == Alone(h0, l0, me, thread, c, n) && l.at.MapCheck? && l.u.Software()
    requires h.mapOwner == None && !l.cur.mapped && !h.lockState.mapped
    ensures Alone(h0, l0, me, thread, c, n + 3) == (h.(mapOwner := Some(me)), l.(at := MapCall))
  {
    assert Alone(h0, l0, me, thread, c, n + 1) == (h, l.(at := MapWait));
    assert Alone(h0, l0, me, thread, c, n + 2) == (h.(mapOwner := Some(me)), l.(at := MapTest));
  }

  /** From there to the end of the call. */
  lemma AloneMaps(h: Handle, l: Local, me: Session, thread: int, c: Choice, n: nat, h0: Handle, l0: Local)
    requires (h, l) == Alone(h0, l0, me, thread, c, n) && l.at.MapCall? && l.err == 0
    requires l.u == c.u && l.u.Software()
    ensures var m := if h.framebuffer || c.address.Some? then n + 4 else n + 3;
            var (h', l') := Alone(h0, l0, me, thread, c, m); Locks(h', c, l', false)
  {
    var (h1, l1) := Alone(h0, l0, me, thread, c, n + 1);
    var (h2, l2) := Alone(h0, l0, me, thread, c, n + 2);
    var (h3, l3) := Alone(h0, l0, me, thread, c, n + 3);
  }

  lemma AloneLocks(h: Handle, l: Local, me: Session, thread: int, c: Choice) returns (n: nat, moved: (Handle, Local))
    requires l.at.Idle? && !Conflicts(c.u, h.lockState) && h.lockState.count + 1 < MAPPED && h.mapOwner == None
    ensures n <= 12 && moved == Alone(h, l, me, thread, c, n) && Locks(moved.0, c, moved.1, h.lockState.mapped)
  {
    AloneEnters(h, l, me, thread, c);
    var (h5, l5) := Alone(h, l, me, thread, c, 5);
    if !c.u.Software() || h.lockState.mapped {
      AloneNeedsNoMap(h5, l5, me, thread, c, 5, h, l);
      n := if c.u.Software() then 7 else 6;
    } else {
      AloneReachesMap(h5, l5, me, thread, c, 5, h, l);
      AloneMaps(h5.(mapOwner := Some(me)), l5.(at := MapCall), me, thread, c, 8, h, l);
      n := if h.framebuffer || c.address.Some? then 12 else 11;
    }
    moved := Alone(h, l, me, thread, c, n);
  }

  lemma MovedTo(r: State, r': State, t: Session, moved: (Handle, Local))
    requires t in r.locals && r' == Update(r, t, moved)
    ensures t in r'.locals && r'.locals[t] == moved.1 && r'.h == moved.0
    ensures Holders(r') == if Holding(moved.1) then Holders(r) + {t} else Holders(r) - {t}
  {
    HoldersUpdate(r, t, moved);
  }

  /**
   * A lock call that nothing forbids gets the lock, if its session is left alone while nobody maps: after at most
   * twelve steps it holds it beside those who did, and has returned 0 unless mmap refused it an address.
   */
  lemma LoneLock(s: State, actions: seq<Action>, t: Session, c: Choice) returns (n: nat)
    requires Initial(s) && t in Run(s, actions).locals && t in Run(s, actions).thread
    requires Run(s, actions).locals[t].at.Idle? && Run(s, actions).h.mapOwner == None
    requires !Forbidden(Run(s, actions), c.u)
    ensures n <= 12
    ensures var r, r' := Run(s, actions), Run(s, actions + Repeat(n, Act(t, c)));
            && Holders(r') == Holders(r) + {t}
            && t in r'.locals && Locks(r'.h, c, r'.locals[t], r.h.lockState.mapped)
  {
    var r := Run(s, actions);
    RunKeepsInv(s, actions);
    SessionSees(r, t);
    WriteBitIff(s, actions);
    var moved;
    n, moved := AloneLocks(r.h, r.locals[t], t, r.thread[t], c);
    AloneIsRun(s, actions, t, c, n);
    MovedTo(r, Run(s, actions + Repeat(n, Act(t, c))), t, moved);
  }

  /** Three steps of an unlock call. */
  lemma AloneReleases(h: Handle, l: Local, me: Session, thread: int, c: Choice)
    requires l.at.UnlockLoad? && h.lockState.count > 0
    ensures var (h1, l1) := Turn(h, l, me, thread, c);
            var (h2, l2) := Turn(h1, l1, me, thread, c);
            var (h3, l3) := Turn(h2, l2, me, thread, c);
            l3.at.Idle? && h3.needsFlush == h.needsFlush
  {
  }

  lemma AloneLeaves(h: Handle, l: Local, me: Session, thread: int, c: Choice) returns (n: nat, moved: (Handle, Local))
    requires l.at.Held? && h.lockState.count > 0
    ensures n <= 6 && moved == Alone(h, l, me, thread, c, n) && moved.1.at.Idle? && !moved.0.needsFlush
  {
    var m := 2;
    assert Alone(h, l, me, thread, c, 1) == (h, l.(at := FlushTest));
    var (h', l') := Alone(h, l, me, thread, c, 2);
    if h.needsFlush {
      m := 3;
      h', l' := Alone(h, l, me, thread, c, 3).0, Alone(h, l, me, thread, c, 3).1;
    }
    AloneReleases(h', l', me, thread, c);
    n := m + 3;
    moved := ThreeMore(h, l, me, thread, c, m);
  }

  lemma ThreeMore(h: Handle, l: Local, me: Session, thread: int, c: Choice, m: nat) returns (moved: (Handle, Local))
    ensures moved == Alone(h, l, me, thread, c, m + 3)
    ensures var (h0, l0) := Alone(h, l, me, thread, c, m);
            var (h1, l1) := Turn(h0, l0, me, thread, c);
            var (h2, l2) := Turn(h1, l1, me, thread, c);
            moved == Turn(h2, l2, me, thread, c)
  {
    assert Alone(h, l, me, thread, c, m + 2).0 == Alone(h, l, me, thread, c, m + 2).0;
    moved := Alone(h, l, me, thread, c, m + 3);
  }

  /** An unlock call left alone gives the lock up in at most six steps. */
  lemma LoneUnlock(s: State, actions: seq<Action>, t: Session, c: Choice) returns (n: nat)
    requires Initial(s) && t in Run(s, actions).locals && t in Run(s, actions).thread
    requires Run(s, actions).locals[t].at.Held?
    ensures n <= 6
    ensures var r, r' := Run(s, actions), Run(s, actions + Repeat(n, Act(t, c)));
            && Holders(r') == Holders(r) - {t} && !r'.h.needsFlush
            && t in r'.locals && r'.locals[t].at.Idle?
  {
    var r := Run(s, actions);
    RunKeepsInv(s, actions);
    SessionSees(r, t);
    var moved;
    n, moved := AloneLeaves(r.h, r.locals[t], t, r.thread[t], c);
    AloneIsRun(s, actions, t, c, n);
    MovedTo(r, Run(s, actions + Repeat(n, Act(t, c))), t, moved);
  }
}
