/**
 * gralloc_lock and gralloc_unlock on one handle, run by any number of sessions whose steps interleave. A step
 * touches the shared handle at most once. A session is one lock call with its unlock call; a thread may have
 * several sessions open, each run by the thread the state names for it.
 */
module BufferLock {
  import opened LockWord
  import opened Options

  type Session = nat

  const EBUSY := 16

  const FREE := Word(false, false, 0)

  datatype Usage = Usage(swRead: bool, swWrite: bool, hwRender: bool) {
    predicate Writes() {
      swWrite || hwRender
    }

    predicate Software() {
      swRead || swWrite
    }
  }

  /** Where a session is: at the step it takes next. */
  datatype Point =
    | Idle
    // gralloc_lock
    | LockLoad | LockCas | StoreOwner | StoreFlush | MapCheck
    | MapWait | MapTest | MapCall | MapOr | MapRelease | ReadBase
    | Held  // the lock call has returned
    // gralloc_unlock
    | FlushTest | FlushClear | UnlockLoad | UnlockOwner | UnlockCas
    | UnlockFailed  // the unlock call has returned -EINVAL

  /** A session's local variables; err is what its lock call returns, flushes counts the flushes of its unlock call. */
  datatype Local = Local(at: Point, u: Usage, cur: Word, new_: Word, err: int, vaddr: Option<int>, flushes: nat)

  /** The shared handle, with the mutex that guards the mapping step and the history of that step. */
  datatype Handle = Handle(
    lockState: Word, writeOwner: int, needsFlush: bool, base: int,
    framebuffer: bool, foreign: bool, offset: int,
    mapOwner: Option<Session>,  // who holds sMapLock
    published: Option<int>,     // the base that the mapping step published since registration
    mappings: nat,              // how many mapping steps succeeded since registration
    inFlight: bool)             // one has published its base and not yet set the mapped bit

  /** What the outside decides at a step: the usage of a new call, and how mmap fares. */
  datatype Choice = Choice(u: Usage, address: Option<int>, errno: int)

  /** From its successful compare-and-swap to the one that releases it, a session holds the lock. */
  predicate Holding(l: Local) {
    !l.at.Idle? && !l.at.LockLoad? && !l.at.LockCas?
  }

  predicate Writing(l: Local) {
    Holding(l) && l.u.Writes()
  }

  /** The value a lock call tries to install. */
  function Locked(u: Usage, cur: Word): Word {
    (if u.Writes() then cur.(write := true) else cur).Increment()
  }

  /** The check a lock call makes on the value it loaded. */
  predicate Conflicts(u: Usage, cur: Word) {
    cur.write || (cur.count != 0 && u.Writes())
  }

  /** The value an unlock call tries to install, given the one it loaded and whether it clears the write bit. */
  function Unlocked(cur: Word, mine: bool): Word {
    (if mine then cur.(write := false) else cur).Decrement()
  }

  predicate InLock(p: Point) {
    p.Idle? || p.LockLoad? || p.LockCas? || p.StoreOwner? || p.StoreFlush? || p.MapCheck?
  }

  predicate InMap(p: Point) {
    p.MapWait? || InMutex(p) || p.ReadBase?
  }

  /** Between taking and releasing sMapLock. */
  predicate InMutex(p: Point) {
    p.MapTest? || p.MapCall? || p.MapOr? || p.MapRelease?
  }

  /** gralloc_lock up to the mapping step. */
  function LockTurn(h: Handle, l: Local, thread: int, c: Choice): (Handle, Local)
    requires InLock(l.at)
  {
    match l.at
    case Idle => (h, Local(LockLoad, c.u, FREE, FREE, 0, None, 0))
    case LockLoad =>
      if Conflicts(l.u, h.lockState) then (h, l.(at := Idle, err := -EBUSY))
      else (h, l.(at := LockCas, cur := h.lockState, new_ := Locked(l.u, h.lockState)))
    case LockCas =>
      if h.lockState == l.cur then (h.(lockState := l.new_), l.(at := StoreOwner))
      else (h, l.(at := LockLoad))
    case StoreOwner =>
      (if l.new_.write then h.(writeOwner := thread) else h, l.(at := StoreFlush))
    case StoreFlush =>
      (if l.u.swWrite && !h.framebuffer then h.(needsFlush := true) else h, l.(at := MapCheck))
    case MapCheck =>
      (h, l.(at := if !l.u.Software() then Held else if l.cur.mapped then ReadBase else MapWait))
  }

  /** The mapping step of gralloc_lock, with gralloc_map. Whoever waits for the mutex stays put. */
  function MapTurn(h: Handle, l: Local, me: Session, c: Choice): (Handle, Local)
    requires InMap(l.at)
  {
    match l.at
    case MapWait =>
      if h.mapOwner == None then (h.(mapOwner := Some(me)), l.(at := MapTest)) else (h, l)
    case MapTest =>
      (h, l.(at := if h.lockState.mapped then MapRelease else MapCall))
    case MapCall =>
      if h.framebuffer then
        (h.(published := Some(h.base), mappings := h.mappings + 1, inFlight := true), l.(at := MapOr))
      else if c.address.Some? then
        var base := c.address.value + h.offset;
        (h.(base := base, published := Some(base), mappings := h.mappings + 1, inFlight := true), l.(at := MapOr))
      else
        (h.(base := 0), l.(at := MapRelease, err := if c.errno > 0 then -c.errno else -1))
    case MapOr => (h.(lockState := h.lockState.(mapped := true), inFlight := false), l.(at := MapRelease))
    case MapRelease => (h.(mapOwner := None), l.(at := ReadBase))
    case ReadBase => (h, l.(at := Held, vaddr := Some(h.base)))
  }

  /** gralloc_unlock. A call that has returned an error stays put. */
  function UnlockTurn(h: Handle, l: Local, thread: int): (Handle, Local)
    requires !InLock(l.at) && !InMap(l.at)
  {
    match l.at
    case Held => (h, l.(at := FlushTest))
    case FlushTest => (h, l.(at := if h.needsFlush then FlushClear else UnlockLoad))
    case FlushClear => (h.(needsFlush := false), l.(at := UnlockLoad, flushes := l.flushes + 1))
    case UnlockLoad => (h, l.(at := UnlockOwner, cur := h.lockState))
    case UnlockOwner =>
      var mine := l.cur.write && h.writeOwner == thread;
      (if mine then h.(writeOwner := 0) else h,
       if l.cur.count == 0 then l.(at := UnlockFailed) else l.(at := UnlockCas, new_ := Unlocked(l.cur, mine)))
    case UnlockCas =>
      if h.lockState == l.cur then (h.(lockState := l.new_), l.(at := Idle))
      else (h, l.(at := UnlockLoad))
    case UnlockFailed => (h, l)
  }

  /** One step of session me, run by the given thread. */
  function Turn(h: Handle, l: Local, me: Session, thread: int, c: Choice): (Handle, Local) {
    if InLock(l.at) then LockTurn(h, l, thread, c)
    else if InMap(l.at) then MapTurn(h, l, me, c)
    else UnlockTurn(h, l, thread)
  }

  datatype State = State(h: Handle, locals: map<Session, Local>, thread: map<Session, int>)

  function Holders(s: State): set<Session> {
    set t | t in s.locals && Holding(s.locals[t])
  }

  function Writers(s: State): set<Session> {
    set t | t in s.locals && Writing(s.locals[t])
  }

  function Update(s: State, t: Session, moved: (Handle, Local)): State {
    s.(h := moved.0, locals := s.locals[t := moved.1])
  }

  function Step(s: State, t: Session, c: Choice): State
    requires t in s.locals && t in s.thread
  {
    Update(s, t, Turn(s.h, s.locals[t], t, s.thread[t], c))
  }

  /** gralloc_register_buffer and gralloc_unregister_buffer: only while nobody uses the handle. */
  function Reset(s: State): State {
    if s.h.foreign && forall t :: t in s.locals ==> s.locals[t].at.Idle? then
      s.(h := s.h.(lockState := FREE, base := 0, writeOwner := 0, published := None, mappings := 0))
    else s
  }

  datatype Action = Act(t: Session, c: Choice) | Register

  function Apply(s: State, a: Action): State {
    match a
    case Register => Reset(s)
    case Act(t, c) => if t in s.locals && t in s.thread then Step(s, t, c) else s
  }

  function Run(s: State, actions: seq<Action>): State {
    if actions == [] then s else Apply(Run(s, actions[..|actions| - 1]), actions[|actions| - 1])
  }

  /** A handle just made: nobody uses it; it may already be mapped, with its base in place. */
  predicate Initial(s: State) {
    && s.locals.Keys == s.thread.Keys && |s.locals| < MAPPED
    && (forall t :: t in s.locals ==> s.locals[t].at.Idle?)
    && !s.h.lockState.write && s.h.lockState.count == 0
    && !s.h.needsFlush && s.h.mapOwner == None && s.h.mappings == 0 && !s.h.inFlight
    && s.h.published == (if s.h.lockState.mapped then Some(s.h.base) else None)
  }

  // ---------------------------------------------------------------- what every reachable state satisfies

  /** The lock word tells exactly who holds the lock: how many sessions, and whether one of them writes. */
  predicate Tells(w: Word, holders: set<Session>, writers: set<Session>) {
    && w.count == |holders|
    && (w.write <==> writers != {})
    && (writers != {} ==> |holders| == 1)
  }

  predicate WordTellsHolders(s: State) {
    Tells(s.h.lockState, Holders(s), Writers(s))
  }

  predicate BeforeMapping(p: Point) {
    || p.LockLoad? || p.LockCas? || p.StoreOwner? || p.StoreFlush? || p.MapCheck?
    || p.MapWait? || p.MapTest? || p.MapCall? || p.MapOr?
  }

  predicate AfterFlush(p: Point) {
    p.UnlockLoad? || p.UnlockOwner? || p.UnlockCas?
  }

  /** The history of the mapping step. */
  predicate MapHistory(h: Handle) {
    && h.mappings <= 1
    && (h.lockState.mapped || h.inFlight ==> h.published == Some(h.base))
    && !(h.lockState.mapped && h.inFlight)
    && (!h.lockState.mapped && !h.inFlight ==> h.mappings == 0 && h.published == None)
    && (h.inFlight ==> h.mapOwner.Some?)
  }

  /** Before its compare-and-swap: the loaded value allowed the lock. */
  predicate AgreesLocking(h: Handle, l: Local) {
    l.at.LockCas? || l.at.StoreOwner? || l.at.StoreFlush? || l.at.MapCheck? ==>
      && !Conflicts(l.u, l.cur) && l.new_ == Locked(l.u, l.cur)
      && (l.cur.mapped ==> h.lockState.mapped)
  }

  /** The owner field names the writer's thread until its unlock call clears it. */
  predicate AgreesOwner(h: Handle, l: Local, thread: int) {
    && (Writing(l) && !l.at.StoreOwner? && !l.at.UnlockCas? ==> h.writeOwner == thread)
    && (l.at.UnlockOwner? || l.at.UnlockCas? ==> l.cur.count > 0 && (l.cur.write <==> l.u.Writes()))
    && (l.at.UnlockCas? ==> l.new_ == Unlocked(l.cur, l.u.Writes()))
    && ((l.at.UnlockOwner? || l.at.UnlockCas?) && l.u.Writes() ==> l.cur == h.lockState)
    && !l.at.UnlockFailed?
  }

  /** The mapping step and what it returned. */
  predicate AgreesMapping(h: Handle, l: Local, me: Session) {
    && (InMutex(l.at) <==> h.mapOwner == Some(me))
    && (l.at.MapOr? <==> h.mapOwner == Some(me) && h.inFlight)
    && (l.at.MapCall? ==> !h.lockState.mapped)
    && (InMutex(l.at) || l.at.MapWait? || l.at.ReadBase? ==> l.u.Software())
    && (l.at.MapRelease? || l.at.ReadBase? ==> l.err < 0 || (l.err == 0 && h.lockState.mapped))
    && (BeforeMapping(l.at) ==> l.err == 0 && l.vaddr == None)
    && (l.at.Held? ==> l.err <= 0)
    && (l.at.Held? && l.err == 0 && l.u.Software() ==> h.lockState.mapped && l.vaddr == h.published)
    && (l.at.Held? && !l.u.Software() ==> l.vaddr == None)
  }

  /** Does the usage oblige the unlock call to flush? */
  predicate Flushes(h: Handle, u: Usage) {
    u.swWrite && !h.framebuffer
  }

  predicate FlagIsUp(p: Point) {
    !p.StoreOwner? && !p.StoreFlush? && !AfterFlush(p)
  }

  /** The flush flag as a function of where the writer is; and how often the unlock call has flushed. */
  predicate AgreesFlush(h: Handle, l: Local) {
    && (Writing(l) ==> (h.needsFlush <==> Flushes(h, l.u) && FlagIsUp(l.at)))
    && (l.at.FlushClear? ==> Writing(l) && h.needsFlush)
    && l.flushes == (if AfterFlush(l.at) && Flushes(h, l.u) then 1 else if l.at.Idle? then l.flushes else 0)
  }

  predicate Agrees(h: Handle, l: Local, me: Session, thread: int) {
    AgreesLocking(h, l) && AgreesOwner(h, l, thread) && AgreesMapping(h, l, me) && AgreesFlush(h, l)
  }

  predicate Inv(s: State) {
    && s.locals.Keys == s.thread.Keys && |s.locals| < MAPPED
    && WordTellsHolders(s)
    && (Writers(s) == {} ==> !s.h.needsFlush)
    && MapHistory(s.h)
    && (forall t :: t in s.locals ==> Agrees(s.h, s.locals[t], t, s.thread[t]))
    && (s.h.mapOwner.Some? ==> s.h.mapOwner.value in s.locals)
  }
}
