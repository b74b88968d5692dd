/**
 * setMode, write, read, standby and setParameters of AudioHardware and its streams, run by any number of threads
 * whose steps interleave. Mutexes are acquired one at a time; what a thread does between acquiring the hardware
 * mutex and releasing it is one step, since all it touches is guarded by mutexes it holds.
 */
module Handshake {
  import opened AudioHandles

  type Thread = nat

  datatype Lock = OutLock | InLock(i: nat) | HwLock

  /** Where a thread is. The name says whose code it runs: write, read, setMode, or standby of a stream. */
  datatype Point =
    | Idle
    // AudioStreamOutALSA::write
    | WOut | WTest | WHw | WSection | WIn | WHw2 | WSection2 | WPlay
    // AudioStreamInALSA::read on input i
    | RIn | RTest | RHw | RSection | ROut | RIn2 | RHw2 | RSection2 | RCapture
    // AudioHardware::setMode
    | MHw | MSection | MOut | MHw2 | MSection2 | MIn | MHw3 | MSection3 | MBody
    // standby or setParameters of the output, and of input i
    | SOut | STest | SHw | SSection
    | TIn | TTest | THw | TSection

  /**
   * A thread's local variables: the input it reads, waits for or holds; the standby count it saw; the mode
   * asked for; whether it is setParameters rather than standby; whether setMode holds the output or an input;
   * and whether setMode has kept the hardware mutex since it last looked at the output.
   */
  datatype Local = Local(at: Point, i: int, cnt: nat, call: bool, params: bool,
                         holdsOut: bool, holdsIn: bool, kept: bool)

  const START := Local(Idle, -1, 0, false, false, false, false, false)

  datatype Task =
    | Write | Read(i: nat) | SetMode(call: bool)
    | OutStandby | InStandby(i: nat) | OutParameters | InParameters(i: nat)

  /** What the outside decides at a step: the next task, how the driver answers, and one yes or no. */
  datatype Choice = Choice(task: Task, driver: Driver, flag: bool)

  datatype State = State(hw: Hw, locks: map<Lock, Thread>, locals: map<Thread, Local>)

  // ---------------------------------------------------------------- mutexes

  predicate HoldsOutput(l: Local) {
    || l.at.WTest? || l.at.WHw? || l.at.WSection? || l.at.WIn? || l.at.WHw2? || l.at.WSection2? || l.at.WPlay?
    || l.at.RIn2? || l.at.RHw2? || l.at.RSection2?
    || l.at.MHw2? || l.at.MSection2? || l.holdsOut
    || l.at.STest? || l.at.SHw? || l.at.SSection?
  }

  predicate HoldsInput(l: Local) {
    || l.at.WHw2? || l.at.WSection2?
    || l.at.RTest? || l.at.RHw? || l.at.RSection? || l.at.RHw2? || l.at.RSection2? || l.at.RCapture?
    || l.at.MHw3? || l.at.MSection3? || (l.at.MBody? && l.holdsIn)
    || l.at.TTest? || l.at.THw? || l.at.TSection?
  }

  predicate HoldsHardware(l: Local) {
    || l.at.WSection? || l.at.WSection2? || l.at.RSection? || l.at.RSection2?
    || l.at.MSection? || l.at.MSection2? || l.at.MSection3? || l.at.MBody?
    || l.at.SSection? || l.at.TSection?
  }

  /** The mutexes a thread holds, by where it is. */
  predicate Holds(l: Local, k: Lock) {
    match k
    case OutLock => HoldsOutput(l)
    case InLock(i) => l.i == i && HoldsInput(l)
    case HwLock => HoldsHardware(l)
  }

  datatype Want = Nothing | Wants(lock: Lock)

  /** The mutex a thread is waiting for. */
  function Wanted(l: Local): Want {
    match l.at
    case WOut | ROut | MOut | SOut => Wants(OutLock)
    case WIn | RIn | RIn2 | MIn | TIn => if l.i >= 0 then Wants(InLock(l.i)) else Nothing
    case WHw | WHw2 | RHw | RHw2 | MHw | MHw2 | MHw3 | SHw | THw => Wants(HwLock)
    case _ => Nothing
  }

  /** Where a thread goes when it gets the mutex. */
  function Granted(p: Point): Point {
    match p
    case WOut => WTest
    case WHw => WSection
    case WIn => WHw2
    case WHw2 => WSection2
    case RIn => RTest
    case RHw => RSection
    case ROut => RIn2
    case RIn2 => RHw2
    case RHw2 => RSection2
    case MHw => MSection
    case MOut => MHw2
    case MHw2 => MSection2
    case MIn => MHw3
    case MHw3 => MSection3
    case SOut => STest
    case SHw => SSection
    case TIn => TTest
    case THw => TSection
    case _ => p
  }

  // ---------------------------------------------------------------- the sections

  /** write: opens the output and leaves standby, or gives up and goes to standby. */
  function WakeOut(hw: Hw, l: Local, d: Driver): (Hw, Local) {
    var hw1 := OpenOut(hw, d);
    if !hw1.out.pcm then (hw1, START.(at := SOut))
    else (hw1.(out := hw1.out.(standby := false)), l.(at := WPlay))
  }

  /** write: an active input must be closed first; its mutex comes before the hardware mutex. */
  function WriteLoop(hw: Hw, l: Local, d: Driver): (Hw, Local) {
    var i := ActiveInput(hw);
    if i == -1 then WakeOut(hw, l, d) else (hw, l.(at := WIn, i := i, cnt := hw.ins[i].cnt))
  }

  /** write: opens the input again that it has closed, or puts it in standby. */
  function Reopened(hw: Hw, i: nat, d: Driver): Hw
    requires i < |hw.ins|
  {
    var hw1 := OpenIn(hw, i, d);
    if hw1.ins[i].pcm then hw1 else StandbyIn(hw1, i)
  }

  /** write, back from waiting for the input: closes it if nothing changed, opens the output, opens it again. */
  function WriteRetry(hw: Hw, l: Local, d: Driver): (Hw, Local)
    requires 0 <= l.i < |hw.ins|
  {
    if ActiveInput(hw) == l.i && l.cnt == hw.ins[l.i].cnt then
      var hw1 := Reopened(OpenOut(CloseIn(hw, l.i), d), l.i, d);
      if !hw1.out.pcm then (hw1, START.(at := SOut))
      else (hw1.(out := hw1.out.(standby := false)), l.(at := WPlay))
    else WriteLoop(hw, l, d)
  }

  /** read: opens the input and leaves standby, or gives up and goes to standby. */
  function WakeIn(hw: Hw, l: Local, d: Driver): (Hw, Local)
    requires 0 <= l.i < |hw.ins|
  {
    var hw1 := OpenIn(hw, l.i, d);
    if !hw1.ins[l.i].pcm then (hw1, START.(at := TIn, i := l.i))
    else (SetIn(hw1, l.i, hw1.ins[l.i].(standby := false)), l.(at := RCapture))
  }

  /** read: an active output must be closed first; its mutex comes before both others. */
  function ReadLoop(hw: Hw, l: Local, d: Driver): (Hw, Local)
    requires 0 <= l.i < |hw.ins|
  {
    if hw.hasOut && !hw.out.standby then (hw, l.(at := ROut, cnt := hw.out.cnt)) else WakeIn(hw, l, d)
  }

  function ReadRetry(hw: Hw, l: Local, d: Driver): (Hw, Local)
    requires 0 <= l.i < |hw.ins|
  {
    if l.cnt == hw.out.cnt then
      var hw1 := OpenOut(CloseOut(hw), d);
      WakeIn(if hw1.out.pcm then hw1 else StandbyOut(hw1), l, d)
    else ReadLoop(hw, l, d)
  }

  /** setMode, second loop: with the output settled, looks for an active input. */
  function ModeInput(hw: Hw, l: Local): Local {
    var i := ActiveInput(hw);
    if i == -1 then l.(at := MBody, holdsIn := false)
    else l.(at := MIn, i := i, cnt := hw.ins[i].cnt, holdsIn := false, kept := false)
  }

  /** setMode, first loop: looks for an active output. */
  function ModeLoop(hw: Hw, l: Local): Local {
    if hw.hasOut && !hw.out.standby then l.(at := MOut, cnt := hw.out.cnt)
    else ModeInput(hw, l.(holdsOut := false, kept := true))
  }

  function ModeRetryOut(hw: Hw, l: Local): Local {
    if l.cnt == hw.out.cnt then ModeInput(hw, l.(holdsOut := true, kept := true)) else ModeLoop(hw, l)
  }

  function ModeRetryIn(hw: Hw, l: Local): Local
    requires 0 <= l.i < |hw.ins|
  {
    if ActiveInput(hw) == l.i && l.cnt == hw.ins[l.i].cnt then l.(at := MBody, holdsIn := true)
    else ModeInput(hw, l)
  }

  /** setMode, the change itself; ok says whether the base class accepted the mode. */
  function ChangeMode(hw: Hw, l: Local, d: Driver, ok: bool): Hw
    requires l.i < |hw.ins|
  {
    var input := if l.holdsIn then l.i else -1;
    if !ok then hw
    else
      var hw1 := hw.(calling := l.call);
      if l.call && !hw.inCall then EnterCall(hw1, l.holdsOut, input, d)
      else if !l.call && hw.inCall then LeaveCall(hw1, l.holdsOut, input)
      else hw1
  }

  /** A step of a thread that is not waiting for a mutex: the hardware and the thread's locals afterwards. */
  function Work(hw: Hw, l: Local, c: Choice): (Hw, Local)
    requires l.i < |hw.ins|
  {
    match l.at
    case WTest => (hw, l.(at := if hw.out.standby then WHw else WPlay))
    case WSection => WriteLoop(hw, l, c.driver)
    case WSection2 => if l.i < 0 then (hw, l) else WriteRetry(hw, l, c.driver)
    case WPlay => (hw, if c.flag then START else START.(at := SOut))  // written, or a write error
    case RTest => (hw, l.(at := if 0 <= l.i && hw.ins[l.i].standby then RHw else RCapture))
    case RSection => if l.i < 0 then (hw, l) else ReadLoop(hw, l, c.driver)
    case RSection2 => if l.i < 0 then (hw, l) else ReadRetry(hw, l, c.driver)
    case RCapture => (hw, if c.flag then START else START.(at := TIn, i := l.i))
    case MSection => (hw, ModeLoop(hw, l))
    case MSection2 => (hw, ModeRetryOut(hw, l))
    case MSection3 => (hw, if l.i < 0 then l else ModeRetryIn(hw, l))
    case MBody => (ChangeMode(hw, l, c.driver, c.flag), START)
    case STest => (hw, if l.params && !c.flag then START else l.(at := SHw))  // no routing parameter
    case SSection => (if l.params && (hw.calling || !c.flag) then hw else StandbyOut(hw), START)
    case TTest => (hw, if l.params && !c.flag then START else l.(at := THw))
    case TSection =>
      (if l.i < 0 || (l.params && (hw.calling || !c.flag)) then hw else StandbyIn(hw, l.i), START)
    case _ => (hw, l)
  }

  predicate Reads(l: Local, i: int) {
    l.i == i && (l.at.RIn? || l.at.RTest? || l.at.RHw? || l.at.RSection? || l.at.ROut? || l.at.RIn2?
                 || l.at.RHw2? || l.at.RSection2? || l.at.RCapture?)
  }

  /** The start of a task. A stream must exist. */
  function Begin(hw: Hw, task: Task): Local {
    match task
    case Write => if hw.hasOut then START.(at := WOut) else START
    case Read(i) => if i < |hw.ins| then START.(at := RIn, i := i) else START
    case SetMode(call) => START.(at := MHw, call := call)
    case OutStandby => if hw.hasOut then START.(at := SOut) else START
    case OutParameters => if hw.hasOut then START.(at := SOut, params := true) else START
    case InStandby(i) => if i < |hw.ins| then START.(at := TIn, i := i) else START
    case InParameters(i) => if i < |hw.ins| then START.(at := TIn, i := i, params := true) else START
  }

  /** The mutexes after thread t has released all that it no longer holds. */
  function Released(locks: map<Lock, Thread>, t: Thread, l: Local): map<Lock, Thread> {
    map k | k in locks && (locks[k] != t || Holds(l, k)) :: locks[k]
  }

  function Step(s: State, t: Thread, c: Choice): State
    requires t in s.locals && s.locals[t].i < |s.hw.ins|
  {
    var l := s.locals[t];
    match Wanted(l)
    case Wants(k) =>
      if k in s.locks then s  // blocked
      else s.(locks := s.locks[k := t], locals := s.locals[t := l.(at := Granted(l.at))])
    case Nothing =>
      if l.at.Idle? then s.(locals := s.locals[t := Begin(s.hw, c.task)])
      else
        var (hw, l') := Work(s.hw, l, c);
        State(hw, Released(s.locks, t, l'), s.locals[t := l'])
  }

  datatype Action = Action(t: Thread, c: Choice)

  function Apply(s: State, a: Action): State {
    if a.t in s.locals && s.locals[a.t].i < |s.hw.ins| then Step(s, a.t, a.c) else s
  }

  function Run(s: State, actions: seq<Action>): State {
    if actions == [] then s else Apply(Run(s, actions[..|actions| - 1]), actions[|actions| - 1])
  }

  /** Nothing is running; which streams are active does not matter. */
  predicate Quiet(s: State) {
    s.locks == map[] && forall t :: t in s.locals ==> s.locals[t] == START
  }

  // ---------------------------------------------------------------- what every reachable state satisfies

  /** The mutexes a thread holds are the ones the mutexes say it holds. */
  ghost predicate Owns(locks: map<Lock, Thread>, t: Thread, l: Local) {
    forall k :: Holds(l, k) <==> k in locks && locks[k] == t
  }

  /** The thread deals with streams that exist. */
  predicate Exists(hw: Hw, l: Local) {
    && l.i < |hw.ins|
    && (!l.at.Idle? && !AtMode(l.at) && !AtOut(l.at) ==> l.i >= 0)
    && (l.at.MIn? || l.at.MHw3? || l.at.MSection3? || (l.at.MBody? && l.holdsIn) ==> l.i >= 0)
    && (AtOut(l.at) || l.at.ROut? || l.at.RIn2? || l.at.RHw2? || l.at.RSection2? ==> hw.hasOut)
    && (l.at.MOut? || l.at.MHw2? || l.at.MSection2? || l.holdsOut ==> hw.hasOut)
    && (l.holdsOut ==> l.at.MIn? || l.at.MHw3? || l.at.MSection3? || l.at.MBody?)
    && (l.kept ==> l.at.MBody?)
  }

  predicate AtMode(p: Point) {
    p.MHw? || p.MSection? || p.MOut? || p.MHw2? || p.MSection2? || p.MIn? || p.MHw3? || p.MSection3? || p.MBody?
  }

  predicate AtOut(p: Point) {
    || p.WOut? || p.WTest? || p.WHw? || p.WSection? || p.WPlay?
    || p.SOut? || p.STest? || p.SHw? || p.SSection?
  }

  /** The stream was active when its standby count was c; it still is unless it has been in standby since. */
  predicate Snapshot(s: Stream, c: nat) {
    c <= s.cnt && (s.cnt == c ==> !s.standby)
  }

  predicate WaitsForInput(p: Point) {
    p.WIn? || p.WHw2? || p.WSection2? || p.MIn? || p.MHw3? || p.MSection3?
  }

  predicate WaitsForOutput(p: Point) {
    p.ROut? || p.RIn2? || p.RHw2? || p.RSection2? || p.MOut? || p.MHw2? || p.MSection2?
  }

  /** Leaving standby with the stream's mutex held since: write has seen the output, read its input, in standby. */
  predicate LeavesOut(p: Point) {
    p.WHw? || p.WSection? || p.WIn? || p.WHw2? || p.WSection2?
  }

  predicate LeavesIn(p: Point) {
    p.RHw? || p.RSection?
  }

  /** What the thread has seen of the streams still is so. */
  predicate Knows(hw: Hw, l: Local)
    requires Exists(hw, l)
  {
    && (LeavesOut(l.at) ==> hw.hasOut && hw.out.standby)
    && (LeavesIn(l.at) ==> hw.ins[l.i].standby)
    && (l.at.WPlay? ==> hw.hasOut && !hw.out.standby)
    && (l.at.RCapture? ==> !hw.ins[l.i].standby)
    && (WaitsForInput(l.at) ==> Snapshot(hw.ins[l.i], l.cnt))
    && (WaitsForOutput(l.at) ==> Snapshot(hw.out, l.cnt))
    && (l.holdsOut ==> !hw.out.standby)
    && (l.at.MBody? ==> ActiveInput(hw) == if l.holdsIn then l.i else -1)
    && (l.at.MBody? && l.kept && !l.holdsOut ==> !hw.hasOut || hw.out.standby)
  }

  predicate Fits(hw: Hw, l: Local) {
    Exists(hw, l) && Knows(hw, l)
  }

  predicate AllFit(hw: Hw, locals: map<Thread, Local>) {
    forall t :: t in locals ==> Fits(hw, locals[t])
  }

  ghost predicate AllOwn(locks: map<Lock, Thread>, locals: map<Thread, Local>) {
    (forall t :: t in locals ==> Owns(locks, t, locals[t])) && forall k :: k in locks ==> locks[k] in locals
  }

  ghost predicate Inv(s: State) {
    AllFit(s.hw, s.locals) && AllOwn(s.locks, s.locals)
  }
}
