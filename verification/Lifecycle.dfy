/** The lifecycle protocol of the VFS transport as an interleaved step system: clients that enable, disable
    and hard-reset the radio, and rx threads that poll, crash or reset themselves. They share the status
    lock, the thread handle, the run flag, the resetting flag, the shutdown eventfd and the channel
    descriptors; only the lock is a lock. One step is one shared access of one actor. */
module Lifecycle {
  import opened Radio
  import opened Runs

  /** The code in whose course `ant_enable` or `ant_disable` runs. */
  datatype Op =
    | EnableRadio | DisableRadio | HardReset      // clients
    | CrashCleanup | ChipReset                    // the rx thread: after its loop, and in doReset

  /** With the lock, up to the first statement of `ant_enable` or `ant_disable`. */
  datatype Entry = StatusFlag | StatusRest | Announce | RaiseFlag | NoticeReset | DropHandle

  /** Inside `ant_enable`. */
  datatype Enable = ReadEvent | SetRun | OpenChannel(i: nat) | CreateThread | CheckRun | Out(ok: bool)

  /** Inside `ant_disable`. */
  datatype Disable = ResetRun | TestHandle | Signal | Join(thread: nat) | CloseChannel(i: nat) | ClearHandle

  /** The closing notice and the unlock. */
  datatype Finish = FinalFlag | FinalRest | Report(ok: bool) | LowerFlag(ok: bool) | Unlock

  datatype Point =
    | InEntry(entry: Entry)
    | InEnable(enable: Enable)
    | InDisable(disable: Disable)
    | InFinish(finish: Finish)

  /** What a turn of the poll loop found on the shutdown eventfd. */
  datatype Shutdown = Quiet | Signalled | Faulty

  datatype LoopPoint =
    | Capture | LoopTest | Polling
    | Dispatch(i: nat, shutdown: Shutdown) | FailRun(i: nat, shutdown: Shutdown)
    | Drain | ClearRun

  /** Out of the loop, before the lock: the start of `doReset`, or the trylock. */
  datatype ExitPoint = RaiseResetting | NoticeResetting | StopRunning | TryLock

  datatype Pc =
    | Idle
    | AtLock(op: Op)
    | Locked(op: Op, at: Point)
    | Looping(captured: seq<int>, turn: LoopPoint)
    | Leaving(exit: ExitPoint)
    | Dead

  /** `handle` is stRxThread, 0 for no thread; thread ids are never reused. `open` are the descriptors that
      are open in the kernel. */
  datatype State = State(
    build: Build,
    clients: set<nat>,
    lock: Option<nat>,
    handle: nat,
    run: bool,
    resetting: bool,
    signal: nat,
    fds: seq<int>,
    open: set<int>,
    notices: seq<Status>,
    pcs: map<nat, Pc>)

  datatype Choice =
    | Go                        // the step the code prescribes
    | Begin(op: Op)             // an idle client makes a call
    | EventRead(ok: bool)       // a read of the eventfd; reading an empty one (EAGAIN) counts as ok
    | Opened(fd: int)           // open returns fd, or -1
    | Created(id: nat)          // pthread_create returns this new thread
    | PollTimeout               // first timeout of a silent period
    | PollTrouble               // second timeout, or poll failed
    | PollReady(shutdown: Shutdown)
    | ChannelTrouble            // this channel calls for a reset
    | ReadFailed                // the read of this channel failed

  type Step = ActorStep<Choice>

  function Init(build: Build, clients: set<nat>, channels: nat): State {
    State(build, clients, None, 0, false, false, 0, seq(channels, i => -1), {}, [],
          map c | c in clients :: Idle)
  }

  function At(s: State, a: nat, pc: Pc): State {
    s.(pcs := s.pcs[a := pc])
  }

  function Notify(s: State, n: Status): State {
    s.(notices := s.notices + [n])
  }

  function StatusOf(s: State): Status {
    DerivedStatus(s.resetting, s.run, s.handle != 0, s.fds)
  }

  // ---------------------------------------------------------------- starting

  predicate RxOp(op: Op) {
    op in {CrashCleanup, ChipReset}
  }

  /** The operations that reset: they disable and then enable again. */
  predicate ResetOp(op: Op) {
    op in {HardReset, ChipReset}
  }

  function FirstPoint(build: Build, op: Op): Entry {
    match op
    case HardReset => RaiseFlag
    case ChipReset => DropHandle
    case _ => if build == Vfs then StatusFlag else Announce
  }

  /** An idle client makes a call, or somebody gets the lock. */
  function StartNext(s: State, a: nat, c: Choice): Option<State>
    requires a in s.pcs
  {
    match s.pcs[a]
    case Idle =>
      if c.Begin? && !RxOp(c.op) then Some(At(s, a, AtLock(c.op))) else None
    case AtLock(op) =>
      if c == Go && s.lock == None then
        Some(At(s, a, Locked(op, InEntry(FirstPoint(s.build, op)))).(lock := Some(a)))
      else None
    case _ => None
  }

  function EntryNext(s: State, a: nat, op: Op, e: Entry, c: Choice): Option<State> {
    if c != Go then None
    else match e
      case StatusFlag => Some(At(s, a, Locked(op, InEntry(if s.resetting then Announce else StatusRest))))
      case StatusRest =>
        var status := DerivedStatus(false, s.run, s.handle != 0, s.fds);
        var redundant := status == if op == EnableRadio then Enabled else Disabled;
        Some(At(s, a, Locked(op, if redundant then InFinish(Unlock) else InEntry(Announce))))
      case Announce =>
        if op == EnableRadio then Some(At(Notify(s, Enabling), a, Locked(op, InEnable(ReadEvent))))
        else Some(At(Notify(s, Disabling), a, Locked(op, InDisable(ResetRun))))
      case RaiseFlag => Some(At(s.(resetting := true), a, Locked(op, InEntry(NoticeReset))))
      case NoticeReset => Some(At(Notify(s, Resetting), a, Locked(op, InDisable(ResetRun))))
      case DropHandle =>
        Some(At(s.(handle := 0), a, Locked(op, if op == CrashCleanup then InEntry(Announce) else InDisable(ResetRun))))
  }

  // ---------------------------------------------------------------- ant_enable and ant_disable

  function EnableNext(s: State, a: nat, op: Op, e: Enable, c: Choice): Option<State> {
    match e
    case ReadEvent =>
      if c == EventRead(true) then Some(At(s, a, Locked(op, InEnable(SetRun))).(signal := 0))
      else if c == EventRead(false) then Some(At(s, a, Locked(op, InEnable(Out(false)))))
      else None
    case SetRun =>
      if c == Go then Some(At(s, a, Locked(op, InEnable(OpenChannel(0)))).(run := true)) else None
    case OpenChannel(i) =>
      if i >= |s.fds| then
        if c == Go then Some(At(s, a, Locked(op, InEnable(CreateThread)))) else None
      else if s.fds[i] != -1 then
        if c == Go then Some(At(s, a, Locked(op, InEnable(OpenChannel(i + 1))))) else None
      else if c == Opened(-1) then Some(At(s, a, Locked(op, InEnable(Out(false)))))
      else if c.Opened? && c.fd >= 0 && c.fd !in s.open then
        Some(At(s, a, Locked(op, InEnable(OpenChannel(i + 1)))).(
               fds := s.fds[i := c.fd], open := s.open + {c.fd}))
      else None
    case CreateThread =>
      if s.handle != 0 then
        if c == Go then Some(At(s, a, Locked(op, InEnable(CheckRun)))) else None
      else if c.Created? && c.id != 0 && c.id !in s.pcs && c.id !in s.clients then
        Some(At(At(s, c.id, Looping([], Capture)), a, Locked(op, InEnable(CheckRun))).(handle := c.id))
      else None
    case CheckRun =>
      if c == Go then Some(At(s, a, Locked(op, InEnable(Out(s.run))))) else None
    case Out(ok) =>
      if c != Go then None
      else
        var u := if s.handle == 0 && s.build == Vfs then s.(run := false) else s;
        Some(At(u, a, Locked(op,
          if op == EnableRadio && !ok then InDisable(ResetRun)
          else if op == ChipReset then InFinish(LowerFlag(ok))
          else InFinish(Report(ok)))))
  }

  function DisableNext(s: State, a: nat, op: Op, d: Disable, c: Choice): Option<State> {
    if c != Go then None
    else match d
      case ResetRun => Some(At(s, a, Locked(op, InDisable(TestHandle))).(run := false))
      case TestHandle =>
        Some(At(s, a, Locked(op, InDisable(if s.handle != 0 then Signal else CloseChannel(0)))))
      case Signal => Some(At(s, a, Locked(op, InDisable(Join(s.handle)))).(signal := s.signal + 1))
      case Join(t) =>
        if t in s.pcs && s.pcs[t] == Dead then Some(At(s, a, Locked(op, InDisable(CloseChannel(0))))) else None
      case CloseChannel(i) =>
        if i >= |s.fds| then Some(At(s, a, Locked(op, InDisable(ClearHandle))))
        else
          Some(At(s, a, Locked(op, InDisable(CloseChannel(i + 1)))).(
                 fds := s.fds[i := -1], open := s.open - {s.fds[i]}))
      case ClearHandle =>
        Some(At(s, a, Locked(op, if ResetOp(op) then InEnable(ReadEvent) else InFinish(FinalFlag))).(handle := 0))
  }

  function FinishNext(s: State, a: nat, op: Op, f: Finish, c: Choice): Option<State> {
    if c != Go then None
    else match f
      case FinalFlag =>
        if s.resetting then Some(At(Notify(s, Resetting), a, Locked(op, InFinish(Unlock))))
        else Some(At(s, a, Locked(op, InFinish(FinalRest))))
      case FinalRest =>
        Some(At(Notify(s, DerivedStatus(false, s.run, s.handle != 0, s.fds)), a, Locked(op, InFinish(Unlock))))
      case Report(ok) =>
        var notice := if op == EnableRadio then Enabled else if ok then Reset else Disabled;
        Some(At(Notify(s, notice), a, Locked(op, InFinish(if op == HardReset then LowerFlag(ok) else Unlock))))
      case LowerFlag(ok) =>
        Some(At(s, a, Locked(op, InFinish(if op == HardReset then Unlock else Report(ok)))).(resetting := false))
      case Unlock => Some(At(s, a, if RxOp(op) then Dead else Idle).(lock := None))
  }

  // ---------------------------------------------------------------- the rx thread

  function LoopNext(s: State, a: nat, fds: seq<int>, turn: LoopPoint, c: Choice): Option<State> {
    match turn
    case Capture =>
      if c != Go then None
      else if |fds| < |s.fds| then Some(At(s, a, Looping(fds + [s.fds[|fds|]], Capture)))
      else Some(At(s, a, Looping(fds, LoopTest)))
    case LoopTest =>
      if c == Go then Some(At(s, a, if s.run then Looping(fds, Polling) else Leaving(TryLock))) else None
    case Polling =>
      if c == PollTimeout && s.signal == 0 then Some(At(s, a, Looping(fds, LoopTest)))
      else if c == PollTrouble then Some(At(s, a, Leaving(RaiseResetting)))
      else if c.PollReady?
           && (c.shutdown == Quiet ==> s.signal == 0) && (c.shutdown == Signalled ==> s.signal > 0) then
        Some(At(s, a, Looping(fds, Dispatch(0, c.shutdown))))
      else None
    case Dispatch(i, shutdown) =>
      if i >= |s.fds| then
        if c != Go then None
        else Some(At(s, a, Looping(fds, match shutdown
                                        case Quiet => LoopTest case Signalled => Drain case Faulty => ClearRun)))
      else if c == Go then Some(At(s, a, Looping(fds, Dispatch(i + 1, shutdown))))
      else if c == ChannelTrouble || (c == ReadFailed && s.build == Vfs) then
        Some(At(s, a, Leaving(RaiseResetting)))
      else if c == ReadFailed then Some(At(s, a, Looping(fds, FailRun(i, shutdown))))
      else None
    case FailRun(i, shutdown) =>
      if c == Go then Some(At(s, a, Looping(fds, Dispatch(i + 1, shutdown))).(run := false)) else None
    case Drain =>
      if c == EventRead(true) then Some(At(s, a, Looping(fds, ClearRun)).(signal := 0))
      else if c == EventRead(false) then Some(At(s, a, Looping(fds, ClearRun)))
      else None
    case ClearRun =>
      if c == Go then Some(At(s, a, Looping(fds, LoopTest)).(run := false)) else None
  }

  function ExitNext(s: State, a: nat, exit: ExitPoint, c: Choice): Option<State> {
    if c != Go then None
    else match exit
      case RaiseResetting => Some(At(s, a, Leaving(NoticeResetting)).(resetting := true))
      case NoticeResetting => Some(At(Notify(s, Resetting), a, Leaving(StopRunning)))
      case StopRunning => Some(At(s, a, AtLock(ChipReset)).(run := false))
      case TryLock =>
        if s.lock == None then Some(At(s, a, Locked(CrashCleanup, InEntry(DropHandle))).(lock := Some(a)))
        else Some(At(s, a, Dead))
  }

  function ActorNext(s: State, a: nat, c: Choice): Option<State>
    requires a in s.pcs
  {
    match s.pcs[a]
    case Locked(op, InEntry(e)) => EntryNext(s, a, op, e, c)
    case Locked(op, InEnable(e)) => EnableNext(s, a, op, e, c)
    case Locked(op, InDisable(d)) => DisableNext(s, a, op, d, c)
    case Locked(op, InFinish(f)) => FinishNext(s, a, op, f, c)
    case Looping(fds, turn) => LoopNext(s, a, fds, turn, c)
    case Leaving(exit) => ExitNext(s, a, exit, c)
    case _ => StartNext(s, a, c)
  }

  function Next(s: State, step: Step): Option<State> {
    if step.actor in s.pcs then ActorNext(s, step.actor, step.choice) else None
  }
}
