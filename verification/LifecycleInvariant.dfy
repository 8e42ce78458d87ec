/** What every interleaving of the lifecycle protocol keeps. The invariant has a part about the shared state
    and a part for each actor; a step is shown to keep the shared part, the part of the actor that moves,
    and the part of any other actor. */
module LifecycleInvariant {
  import opened Radio
  import opened Runs
  import opened Lifecycle

  /** The operations that have an enabling part. */
  predicate EnablingOp(op: Op) {
    op in {EnableRadio, HardReset, ChipReset}
  }

  /** The points of an rx thread; a client is never at one of them. */
  predicate IsRx(pc: Pc) {
    match pc
    case Idle => false
    case AtLock(op) => RxOp(op)
    case Locked(op, _) => RxOp(op)
    case _ => true
  }

  /** An rx thread between its creation and the point where it clears its handle. */
  predicate Registered(pc: Pc) {
    pc.Looping? || pc.Leaving? || pc == AtLock(ChipReset) || (pc.Locked? && pc.at == InEntry(DropHandle))
  }

  /** Past the point where a raised resetting flag is this actor's doing, before it lowers it. */
  predicate MayReset(pc: Pc) {
    match pc
    case AtLock(op) => op == ChipReset
    case Leaving(exit) => exit == NoticeResetting || exit == StopRunning
    case Locked(op, at) =>
      ResetOp(op) && (match at
        case InEntry(entry) => entry == NoticeReset || (entry == DropHandle && op == ChipReset)
        case InFinish(finish) => finish.LowerFlag? || (finish.Report? && op == HardReset)
        case _ => true)
    case _ => false
  }

  /** The notice whose block is still open while the lock holder is at this point. */
  function Pending(pc: Pc): Option<Status> {
    if !pc.Locked? || pc.at.InEntry? || (pc.at.InFinish? && (pc.at.finish.LowerFlag? || pc.at.finish.Unlock?)) then None
    else match pc.op
      case EnableRadio => Some(Enabling)
      case DisableRadio => Some(Disabling)
      case CrashCleanup => Some(Disabling)
      case _ => None
  }

  // ---------------------------------------------------------------- the shared part

  ghost predicate FdsOk(fds: seq<int>, open: set<int>) {
    && (forall i | 0 <= i < |fds| :: fds[i] >= -1 && (fds[i] != -1 ==> fds[i] in open))
    && (forall fd | fd in open :: fd >= 0 && exists i :: 0 <= i < |fds| && fds[i] == fd)
    && (forall i, j | 0 <= i < j < |fds| && fds[i] != -1 :: fds[i] != fds[j])
  }

  /** The point of the lock holder; no point at all when the lock is free. */
  function Holder(s: State): Pc
    requires s.lock.Some? ==> s.lock.value in s.pcs
  {
    if s.lock.Some? then s.pcs[s.lock.value] else Idle
  }

  predicate Closing(pc: Pc) {
    pc.Locked? && pc.at.InDisable? && (pc.at.disable.CloseChannel? || pc.at.disable.ClearHandle?)
  }

  predicate JoiningOrClosing(pc: Pc) {
    Closing(pc) || (pc.Locked? && pc.at.InDisable? && pc.at.disable.Join?)
  }

  ghost predicate Domain(s: State) {
    && s.clients <= s.pcs.Keys && 0 !in s.pcs
    && (s.lock.Some? ==> s.lock.value in s.pcs)
    && (s.handle != 0 ==> s.handle in s.pcs && s.handle !in s.clients)
  }

  ghost predicate HandleInv(s: State)
    requires Domain(s)
  {
    s.handle != 0 ==>
      && (Registered(s.pcs[s.handle]) || s.pcs[s.handle] == Dead)
      && (AllOpen(s.fds) || Closing(Holder(s)))
      && (s.signal != 0 ==> JoiningOrClosing(Holder(s)))
  }

  ghost predicate FlagInv(s: State)
    requires Domain(s)
  {
    s.resetting ==> MayReset(Holder(s)) || (s.handle != 0 && MayReset(s.pcs[s.handle]))
  }

  ghost predicate NoticeInv(notices: seq<Status>, pending: Option<Status>) {
    match pending
    case None => Blocks(Erase(notices))
    case Some(first) => Halfway(Erase(notices), first)
  }

  /** Who owns what. */
  ghost predicate CoreInv(s: State) {
    Domain(s) && HandleInv(s) && FlagInv(s) && s.signal <= 1
  }

  ghost predicate SharedInv(s: State) {
    && CoreInv(s)
    && FdsOk(s.fds, s.open)
    && NoticeInv(s.notices, Pending(Holder(s)))
  }

  // ---------------------------------------------------------------- the part of each actor

  /** The registered thread has let go of the handle for good, or there is none. */
  ghost predicate HandleIdle(s: State) {
    s.handle == 0 || (s.handle in s.pcs && s.pcs[s.handle] == Dead)
  }

  /** A thread that needs no shutdown signal any more. */
  predicate PastShutdown(pc: Pc) {
    || pc == Dead || pc == Leaving(TryLock)
    || (pc.Looping? && (pc.turn == ClearRun || pc.turn == LoopTest))
  }

  predicate ClosedUpTo(fds: seq<int>, i: nat) {
    i <= |fds| && forall j | 0 <= j < i :: fds[j] == -1
  }

  predicate OpenUpTo(fds: seq<int>, i: nat) {
    i <= |fds| && forall j | 0 <= j < i :: fds[j] != -1
  }

  ghost predicate EntryInv(s: State, a: nat, op: Op, e: Entry) {
    match e
    case StatusFlag => op in {EnableRadio, DisableRadio}
    case StatusRest => op in {EnableRadio, DisableRadio}
    case Announce => !ResetOp(op) && (RxOp(op) ==> s.handle == 0)
    case RaiseFlag => op == HardReset
    case NoticeReset => op == HardReset
    case DropHandle => RxOp(op) && s.handle == a
  }

  ghost predicate EnableInv(s: State, op: Op, e: Enable) {
    && EnablingOp(op)
    && match e
       case ReadEvent => RxOp(op) ==> s.handle == 0
       case SetRun => s.signal == 0 && (RxOp(op) ==> s.handle == 0)
       case OpenChannel(i) => s.signal == 0 && (RxOp(op) ==> s.handle == 0) && OpenUpTo(s.fds, i)
       case CreateThread => s.signal == 0 && (RxOp(op) ==> s.handle == 0) && AllOpen(s.fds)
       case CheckRun => s.handle != 0
       case Out(ok) => ok ==> s.handle != 0
  }

  ghost predicate DisableInv(s: State, op: Op, d: Disable) {
    && (d == ResetRun || !s.run)
    && match d
       case ResetRun => RxOp(op) ==> s.handle == 0
       case TestHandle => RxOp(op) ==> s.handle == 0
       case Signal => !RxOp(op) && s.handle != 0
       case Join(t) =>
         && !RxOp(op) && t == s.handle && t != 0
         && (s.signal == 1 || (t in s.pcs && PastShutdown(s.pcs[t])))
       case CloseChannel(i) => HandleIdle(s) && ClosedUpTo(s.fds, i)
       case ClearHandle => HandleIdle(s) && AllClosed(s.fds)
  }

  ghost predicate FinishInv(s: State, op: Op, f: Finish) {
    match f
    case FinalFlag => !ResetOp(op) && !s.run && s.handle == 0 && AllClosed(s.fds)
    case FinalRest => !ResetOp(op) && !s.run && s.handle == 0 && AllClosed(s.fds)
    case Report(ok) => EnablingOp(op) && (op == EnableRadio ==> ok)
    case LowerFlag(ok) => ResetOp(op)
    case Unlock => true
  }

  ghost predicate PointInv(s: State, a: nat, pc: Pc) {
    match pc
    case AtLock(op) => op != CrashCleanup
    case Locked(op, InEntry(e)) => EntryInv(s, a, op, e)
    case Locked(op, InEnable(e)) => EnableInv(s, op, e)
    case Locked(op, InDisable(d)) => DisableInv(s, op, d)
    case Locked(op, InFinish(f)) => FinishInv(s, op, f)
    case Looping(captured, turn) => CapturedOk(s.fds, captured, turn)
    case _ => true
  }

  ghost predicate ActorInv(s: State, a: nat)
    requires a in s.pcs
  {
    && (IsRx(s.pcs[a]) <==> a !in s.clients)
    && (s.pcs[a].Locked? <==> s.lock == Some(a))
    && (Registered(s.pcs[a]) ==> s.handle == a)
    && PointInv(s, a, s.pcs[a])
  }

  ghost predicate Inv(s: State) {
    && SharedInv(s)
    && forall a | a in s.pcs :: ActorInv(s, a)
  }

  // ---------------------------------------------------------------- descriptors and notices

  lemma OpenKeepsFds(fds: seq<int>, open: set<int>, i: nat, fd: int)
    requires FdsOk(fds, open) && i < |fds| && fds[i] == -1 && fd >= 0 && fd !in open
    ensures FdsOk(fds[i := fd], open + {fd})
  {
    var after := fds[i := fd];
    forall f | f in open + {fd}
      ensures f >= 0 && exists j :: 0 <= j < |after| && after[j] == f
    {
      if f == fd {
        assert after[i] == fd;
      } else {
        var j :| 0 <= j < |fds| && fds[j] == f;
        assert after[j] == f;
      }
    }
  }

  lemma CloseKeepsFds(fds: seq<int>, open: set<int>, i: nat)
    requires FdsOk(fds, open) && i < |fds|
    ensures FdsOk(fds[i := -1], open - {fds[i]})
  {
    var after := fds[i := -1];
    forall f | f in open - {fds[i]}
      ensures f >= 0 && exists j :: 0 <= j < |after| && after[j] == f
    {
      var j :| 0 <= j < |fds| && fds[j] == f;
      assert after[j] == f;
    }
  }

  /** A notice that keeps to the blocks. */
  predicate Fits(pending: Option<Status>, next: Status, after: Option<Status>) {
    || (next == Resetting && after == pending)
    || (pending == None && next in {Enabling, Disabling} && after == Some(next))
    || (pending == None && next in {Reset, Disabled} && after == None)
    || (pending == Some(Enabling) && next in {Enabled, Disabled} && after == None)
    || (pending == Some(Disabling) && next == Disabled && after == None)
  }

  lemma NoticeFits(notices: seq<Status>, pending: Option<Status>, next: Status, after: Option<Status>)
    requires NoticeInv(notices, pending) && Fits(pending, next, after)
    ensures NoticeInv(notices + [next], after)
  {
    EraseAppend(notices, next);
    var t := Erase(notices);
    if next == Resetting {
      assert t + [] == t;
    } else {
      match pending {
        case Some(first) => CloseBlock(t, first, next);
        case None =>
          if next in {Enabling, Disabling} { OpenBlock(t, next); } else { SingleBlock(t, next); }
      }
    }
  }

  // ---------------------------------------------------------------- one step

  /** What no step does: move another actor, or change who the clients are or how many channels there are. */
  ghost predicate OnlyMoves(s: State, u: State, a: nat) {
    && u.clients == s.clients && |u.fds| == |s.fds| && a in u.pcs
    && forall b | b in s.pcs && b != a :: b in u.pcs && u.pcs[b] == s.pcs[b]
  }

  /** The notice a step gives, if any. */
  function Noticed(s: State, a: nat): Option<Status>
    requires a in s.pcs
  {
    match s.pcs[a]
    case Locked(op, InEntry(Announce)) => Some(if op == EnableRadio then Enabling else Disabling)
    case Locked(op, InEntry(NoticeReset)) => Some(Resetting)
    case Locked(op, InFinish(FinalFlag)) => if s.resetting then Some(Resetting) else None
    case Locked(op, InFinish(FinalRest)) => Some(DerivedStatus(false, s.run, s.handle != 0, s.fds))
    case Locked(op, InFinish(Report(ok))) =>
      Some(if op == EnableRadio then Enabled else if ok then Reset else Disabled)
    case Leaving(NoticeResetting) => Some(Resetting)
    case _ => None
  }

  /** What a step does to the notices: the lock holder opens and closes blocks as the grammar allows, and
      nobody else does more than slip in a RESETTING. */
  ghost predicate NoticeStep(s: State, u: State, noticed: Option<Status>)
    requires Domain(s) && Domain(u)
  {
    match noticed
    case None => u.notices == s.notices && Pending(Holder(u)) == Pending(Holder(s))
    case Some(n) => u.notices == s.notices + [n] && Fits(Pending(Holder(s)), n, Pending(Holder(u)))
  }

  lemma NoticeStepKeeps(s: State, u: State, noticed: Option<Status>)
    requires Domain(s) && Domain(u) && NoticeInv(s.notices, Pending(Holder(s)))
    requires NoticeStep(s, u, noticed)
    ensures NoticeInv(u.notices, Pending(Holder(u)))
  {
    if noticed.Some? {
      NoticeFits(s.notices, Pending(Holder(s)), noticed.value, Pending(Holder(u)));
    }
  }

  /** At the closing status report nothing but DISABLED is left to report. */
  lemma FinalStatusIsDisabled(s: State, a: nat)
    requires CoreInv(s) && a in s.pcs && ActorInv(s, a)
    requires s.pcs[a].Locked? && s.pcs[a].at in {InFinish(FinalFlag), InFinish(FinalRest)}
    ensures !s.resetting && StatusOf(s) == Disabled
  {
  }

  lemma StartKeepsCore(s: State, a: nat, c: Choice)
    requires CoreInv(s) && a in s.pcs && ActorInv(s, a) && StartNext(s, a, c).Some?
    ensures CoreInv(StartNext(s, a, c).value)
  {
  }

  lemma StartMoves(s: State, a: nat, c: Choice)
    requires CoreInv(s) && a in s.pcs && ActorInv(s, a) && StartNext(s, a, c).Some?
    ensures a in StartNext(s, a, c).value.pcs && ActorInv(StartNext(s, a, c).value, a)
  {
  }

  lemma StartSpares(s: State, a: nat, c: Choice)
    requires a in s.pcs && StartNext(s, a, c).Some?
    ensures OnlyMoves(s, StartNext(s, a, c).value, a)
    ensures StartNext(s, a, c).value.pcs.Keys == s.pcs.Keys
    ensures StartNext(s, a, c).value.fds == s.fds && StartNext(s, a, c).value.open == s.open
  {
  }

  lemma StartNotices(s: State, a: nat, c: Choice)
    requires CoreInv(s) && a in s.pcs && ActorInv(s, a) && StartNext(s, a, c).Some?
    requires CoreInv(StartNext(s, a, c).value)
    ensures NoticeStep(s, StartNext(s, a, c).value, Noticed(s, a))
  {
  }

  lemma StartLeavesOthers(s: State, a: nat, c: Choice, b: nat)
    requires CoreInv(s) && a in s.pcs && ActorInv(s, a) && StartNext(s, a, c).Some?
    requires b != a && b in s.pcs && ActorInv(s, b)
    ensures b in StartNext(s, a, c).value.pcs && ActorInv(StartNext(s, a, c).value, b)
  {
  }

  lemma EntryKeepsCore(s: State, a: nat, op: Op, e: Entry, c: Choice)
    requires CoreInv(s) && a in s.pcs && ActorInv(s, a) && EntryNext(s, a, op, e, c).Some?
    requires s.pcs[a] == Locked(op, InEntry(e))
    ensures CoreInv(EntryNext(s, a, op, e, c).value)
  {
  }

  lemma StatusMoves(s: State, a: nat, op: Op, e: Entry, c: Choice)
    requires CoreInv(s) && a in s.pcs && ActorInv(s, a) && EntryNext(s, a, op, e, c).Some?
    requires s.pcs[a] == Locked(op, InEntry(e)) && (e.StatusFlag? || e.StatusRest?)
    ensures a in EntryNext(s, a, op, e, c).value.pcs && ActorInv(EntryNext(s, a, op, e, c).value, a)
  {
  }

  lemma AnnouncementMoves(s: State, a: nat, op: Op, e: Entry, c: Choice)
    requires CoreInv(s) && a in s.pcs && ActorInv(s, a) && EntryNext(s, a, op, e, c).Some?
    requires s.pcs[a] == Locked(op, InEntry(e)) && !e.StatusFlag? && !e.StatusRest?
    ensures a in EntryNext(s, a, op, e, c).value.pcs && ActorInv(EntryNext(s, a, op, e, c).value, a)
  {
  }

  lemma EntryMoves(s: State, a: nat, op: Op, e: Entry, c: Choice)
    requires CoreInv(s) && a in s.pcs && ActorInv(s, a) && EntryNext(s, a, op, e, c).Some?
    requires s.pcs[a] == Locked(op, InEntry(e))
    ensures a in EntryNext(s, a, op, e, c).value.pcs && ActorInv(EntryNext(s, a, op, e, c).value, a)
  {
    if e.StatusFlag? || e.StatusRest? {
      StatusMoves(s, a, op, e, c);
    } else {
      AnnouncementMoves(s, a, op, e, c);
    }
  }

  lemma EntrySpares(s: State, a: nat, op: Op, e: Entry, c: Choice)
    requires a in s.pcs && EntryNext(s, a, op, e, c).Some?
    ensures OnlyMoves(s, EntryNext(s, a, op, e, c).value, a)
    ensures EntryNext(s, a, op, e, c).value.pcs.Keys == s.pcs.Keys
    ensures EntryNext(s, a, op, e, c).value.fds == s.fds && EntryNext(s, a, op, e, c).value.open == s.open
  {
  }

  lemma EntryNotices(s: State, a: nat, op: Op, e: Entry, c: Choice)
    requires CoreInv(s) && a in s.pcs && ActorInv(s, a) && EntryNext(s, a, op, e, c).Some?
    requires s.pcs[a] == Locked(op, InEntry(e))
    requires CoreInv(EntryNext(s, a, op, e, c).value)
    ensures NoticeStep(s, EntryNext(s, a, op, e, c).value, Noticed(s, a))
  {
  }

  lemma EntryLeavesOthers(s: State, a: nat, op: Op, e: Entry, c: Choice, b: nat)
    requires CoreInv(s) && a in s.pcs && ActorInv(s, a) && EntryNext(s, a, op, e, c).Some?
    requires s.pcs[a] == Locked(op, InEntry(e))
    requires b != a && b in s.pcs && ActorInv(s, b)
    ensures b in EntryNext(s, a, op, e, c).value.pcs && ActorInv(EntryNext(s, a, op, e, c).value, b)
  {
  }

  lemma OpenChannelKeepsCore(s: State, a: nat, op: Op, e: Enable, c: Choice)
    requires CoreInv(s) && a in s.pcs && ActorInv(s, a) && EnableNext(s, a, op, e, c).Some?
    requires s.pcs[a] == Locked(op, InEnable(e))
    requires e.OpenChannel?
    ensures CoreInv(EnableNext(s, a, op, e, c).value)
  {
  }

  lemma CreateThreadKeepsCore(s: State, a: nat, op: Op, e: Enable, c: Choice)
    requires CoreInv(s) && a in s.pcs && ActorInv(s, a) && EnableNext(s, a, op, e, c).Some?
    requires s.pcs[a] == Locked(op, InEnable(e))
    requires e.CreateThread?
    ensures CoreInv(EnableNext(s, a, op, e, c).value)
  {
  }

  lemma BeginEnableKeepsCore(s: State, a: nat, op: Op, e: Enable, c: Choice)
    requires CoreInv(s) && a in s.pcs && ActorInv(s, a) && EnableNext(s, a, op, e, c).Some?
    requires s.pcs[a] == Locked(op, InEnable(e)) && (e.ReadEvent? || e.SetRun?)
    ensures CoreInv(EnableNext(s, a, op, e, c).value)
  {
  }

  lemma EndEnableKeepsCore(s: State, a: nat, op: Op, e: Enable, c: Choice)
    requires CoreInv(s) && a in s.pcs && ActorInv(s, a) && EnableNext(s, a, op, e, c).Some?
    requires s.pcs[a] == Locked(op, InEnable(e)) && (e.CheckRun? || e.Out?)
    ensures CoreInv(EnableNext(s, a, op, e, c).value)
  {
  }

  lemma EnableKeepsCore(s: State, a: nat, op: Op, e: Enable, c: Choice)
    requires CoreInv(s) && a in s.pcs && ActorInv(s, a) && EnableNext(s, a, op, e, c).Some?
    requires s.pcs[a] == Locked(op, InEnable(e))
    ensures CoreInv(EnableNext(s, a, op, e, c).value)
  {
    match e {
      case OpenChannel(_) => OpenChannelKeepsCore(s, a, op, e, c);
      case CreateThread => CreateThreadKeepsCore(s, a, op, e, c);
      case CheckRun => EndEnableKeepsCore(s, a, op, e, c);
      case Out(_) => EndEnableKeepsCore(s, a, op, e, c);
      case _ => BeginEnableKeepsCore(s, a, op, e, c);
    }
  }

  lemma OpenChannelMoves(s: State, a: nat, op: Op, e: Enable, c: Choice)
    requires CoreInv(s) && a in s.pcs && ActorInv(s, a) && EnableNext(s, a, op, e, c).Some?
    requires s.pcs[a] == Locked(op, InEnable(e))
    requires e.OpenChannel?
    ensures a in EnableNext(s, a, op, e, c).value.pcs && ActorInv(EnableNext(s, a, op, e, c).value, a)
  {
  }

  lemma CreateThreadMoves(s: State, a: nat, op: Op, e: Enable, c: Choice)
    requires CoreInv(s) && a in s.pcs && ActorInv(s, a) && EnableNext(s, a, op, e, c).Some?
    requires s.pcs[a] == Locked(op, InEnable(e))
    requires e.CreateThread?
    ensures a in EnableNext(s, a, op, e, c).value.pcs && ActorInv(EnableNext(s, a, op, e, c).value, a)
  {
  }

  lemma BeginEnableMoves(s: State, a: nat, op: Op, e: Enable, c: Choice)
    requires CoreInv(s) && a in s.pcs && ActorInv(s, a) && EnableNext(s, a, op, e, c).Some?
    requires s.pcs[a] == Locked(op, InEnable(e))
    requires e.ReadEvent? || e.SetRun?
    ensures a in EnableNext(s, a, op, e, c).value.pcs && ActorInv(EnableNext(s, a, op, e, c).value, a)
  {
  }

  lemma EndEnableMoves(s: State, a: nat, op: Op, e: Enable, c: Choice)
    requires CoreInv(s) && a in s.pcs && ActorInv(s, a) && EnableNext(s, a, op, e, c).Some?
    requires s.pcs[a] == Locked(op, InEnable(e))
    requires e.CheckRun? || e.Out?
    ensures a in EnableNext(s, a, op, e, c).value.pcs && ActorInv(EnableNext(s, a, op, e, c).value, a)
  {
  }

  lemma EnableMoves(s: State, a: nat, op: Op, e: Enable, c: Choice)
    requires CoreInv(s) && a in s.pcs && ActorInv(s, a) && EnableNext(s, a, op, e, c).Some?
    requires s.pcs[a] == Locked(op, InEnable(e))
    ensures a in EnableNext(s, a, op, e, c).value.pcs && ActorInv(EnableNext(s, a, op, e, c).value, a)
  {
    match e {
      case OpenChannel(_) => OpenChannelMoves(s, a, op, e, c);
      case CreateThread => CreateThreadMoves(s, a, op, e, c);
      case CheckRun => EndEnableMoves(s, a, op, e, c);
      case Out(_) => EndEnableMoves(s, a, op, e, c);
      case _ => BeginEnableMoves(s, a, op, e, c);
    }
  }

  lemma EnableSpares(s: State, a: nat, op: Op, e: Enable, c: Choice)
    requires a in s.pcs && EnableNext(s, a, op, e, c).Some?
    ensures OnlyMoves(s, EnableNext(s, a, op, e, c).value, a)
  {
  }

  lemma OpenChannelNotices(s: State, a: nat, op: Op, e: Enable, c: Choice)
    requires CoreInv(s) && a in s.pcs && ActorInv(s, a) && EnableNext(s, a, op, e, c).Some?
    requires s.pcs[a] == Locked(op, InEnable(e)) && e.OpenChannel?
    requires CoreInv(EnableNext(s, a, op, e, c).value)
    ensures NoticeStep(s, EnableNext(s, a, op, e, c).value, Noticed(s, a))
  {
  }

  lemma OtherEnableNotices(s: State, a: nat, op: Op, e: Enable, c: Choice)
    requires CoreInv(s) && a in s.pcs && ActorInv(s, a) && EnableNext(s, a, op, e, c).Some?
    requires s.pcs[a] == Locked(op, InEnable(e)) && !e.OpenChannel?
    requires CoreInv(EnableNext(s, a, op, e, c).value)
    ensures NoticeStep(s, EnableNext(s, a, op, e, c).value, Noticed(s, a))
  {
  }

  lemma EnableNotices(s: State, a: nat, op: Op, e: Enable, c: Choice)
    requires CoreInv(s) && a in s.pcs && ActorInv(s, a) && EnableNext(s, a, op, e, c).Some?
    requires s.pcs[a] == Locked(op, InEnable(e))
    requires CoreInv(EnableNext(s, a, op, e, c).value)
    ensures NoticeStep(s, EnableNext(s, a, op, e, c).value, Noticed(s, a))
  {
    if e.OpenChannel? {
      OpenChannelNotices(s, a, op, e, c);
    } else {
      OtherEnableNotices(s, a, op, e, c);
    }
  }

  lemma OpenChannelLeavesOthers(s: State, a: nat, op: Op, e: Enable, c: Choice, b: nat)
    requires CoreInv(s) && a in s.pcs && ActorInv(s, a) && EnableNext(s, a, op, e, c).Some?
    requires s.pcs[a] == Locked(op, InEnable(e)) && e.OpenChannel?
    requires b != a && b in s.pcs && ActorInv(s, b)
    ensures b in EnableNext(s, a, op, e, c).value.pcs && ActorInv(EnableNext(s, a, op, e, c).value, b)
  {
  }

  lemma CreateThreadLeavesOthers(s: State, a: nat, op: Op, e: Enable, c: Choice, b: nat)
    requires CoreInv(s) && a in s.pcs && ActorInv(s, a) && EnableNext(s, a, op, e, c).Some?
    requires s.pcs[a] == Locked(op, InEnable(e)) && e.CreateThread?
    requires b != a && b in s.pcs && ActorInv(s, b)
    ensures b in EnableNext(s, a, op, e, c).value.pcs && ActorInv(EnableNext(s, a, op, e, c).value, b)
  {
  }

  lemma OtherEnableLeavesOthers(s: State, a: nat, op: Op, e: Enable, c: Choice, b: nat)
    requires CoreInv(s) && a in s.pcs && ActorInv(s, a) && EnableNext(s, a, op, e, c).Some?
    requires s.pcs[a] == Locked(op, InEnable(e)) && !e.OpenChannel? && !e.CreateThread?
    requires b != a && b in s.pcs && ActorInv(s, b)
    ensures b in EnableNext(s, a, op, e, c).value.pcs && ActorInv(EnableNext(s, a, op, e, c).value, b)
  {
  }

  lemma EnableLeavesOthers(s: State, a: nat, op: Op, e: Enable, c: Choice, b: nat)
    requires CoreInv(s) && a in s.pcs && ActorInv(s, a) && EnableNext(s, a, op, e, c).Some?
    requires s.pcs[a] == Locked(op, InEnable(e))
    requires b != a && b in s.pcs && ActorInv(s, b)
    ensures b in EnableNext(s, a, op, e, c).value.pcs && ActorInv(EnableNext(s, a, op, e, c).value, b)
  {
    match e {
      case OpenChannel(_) => OpenChannelLeavesOthers(s, a, op, e, c, b);
      case CreateThread => CreateThreadLeavesOthers(s, a, op, e, c, b);
      case _ => OtherEnableLeavesOthers(s, a, op, e, c, b);
    }
  }

  lemma StopKeepsCore(s: State, a: nat, op: Op, d: Disable, c: Choice)
    requires CoreInv(s) && a in s.pcs && ActorInv(s, a) && DisableNext(s, a, op, d, c).Some?
    requires s.pcs[a] == Locked(op, InDisable(d)) && !d.CloseChannel? && !d.ClearHandle?
    ensures CoreInv(DisableNext(s, a, op, d, c).value)
  {
  }

  lemma CloseKeepsCore(s: State, a: nat, op: Op, d: Disable, c: Choice)
    requires CoreInv(s) && a in s.pcs && ActorInv(s, a) && DisableNext(s, a, op, d, c).Some?
    requires s.pcs[a] == Locked(op, InDisable(d)) && d.CloseChannel?
    ensures CoreInv(DisableNext(s, a, op, d, c).value)
  {
  }

  lemma ClearKeepsCore(s: State, a: nat, op: Op, d: Disable, c: Choice)
    requires CoreInv(s) && a in s.pcs && ActorInv(s, a) && DisableNext(s, a, op, d, c).Some?
    requires s.pcs[a] == Locked(op, InDisable(d)) && d.ClearHandle?
    ensures CoreInv(DisableNext(s, a, op, d, c).value)
  {
  }

  lemma DisableKeepsCore(s: State, a: nat, op: Op, d: Disable, c: Choice)
    requires CoreInv(s) && a in s.pcs && ActorInv(s, a) && DisableNext(s, a, op, d, c).Some?
    requires s.pcs[a] == Locked(op, InDisable(d))
    ensures CoreInv(DisableNext(s, a, op, d, c).value)
  {
    match d {
      case CloseChannel(_) => CloseKeepsCore(s, a, op, d, c);
      case ClearHandle => ClearKeepsCore(s, a, op, d, c);
      case _ => StopKeepsCore(s, a, op, d, c);
    }
  }

  lemma StopMoves(s: State, a: nat, op: Op, d: Disable, c: Choice)
    requires CoreInv(s) && a in s.pcs && ActorInv(s, a) && DisableNext(s, a, op, d, c).Some?
    requires s.pcs[a] == Locked(op, InDisable(d))
    requires !d.CloseChannel? && !d.ClearHandle?
    ensures a in DisableNext(s, a, op, d, c).value.pcs && ActorInv(DisableNext(s, a, op, d, c).value, a)
  {
  }

  lemma CloseMoves(s: State, a: nat, op: Op, d: Disable, c: Choice)
    requires CoreInv(s) && a in s.pcs && ActorInv(s, a) && DisableNext(s, a, op, d, c).Some?
    requires s.pcs[a] == Locked(op, InDisable(d)) && d.CloseChannel?
    ensures a in DisableNext(s, a, op, d, c).value.pcs && ActorInv(DisableNext(s, a, op, d, c).value, a)
  {
  }

  lemma ClearMoves(s: State, a: nat, op: Op, d: Disable, c: Choice)
    requires CoreInv(s) && a in s.pcs && ActorInv(s, a) && DisableNext(s, a, op, d, c).Some?
    requires s.pcs[a] == Locked(op, InDisable(d)) && d.ClearHandle?
    ensures a in DisableNext(s, a, op, d, c).value.pcs && ActorInv(DisableNext(s, a, op, d, c).value, a)
  {
  }

  lemma DisableMoves(s: State, a: nat, op: Op, d: Disable, c: Choice)
    requires CoreInv(s) && a in s.pcs && ActorInv(s, a) && DisableNext(s, a, op, d, c).Some?
    requires s.pcs[a] == Locked(op, InDisable(d))
    ensures a in DisableNext(s, a, op, d, c).value.pcs && ActorInv(DisableNext(s, a, op, d, c).value, a)
  {
    match d {
      case CloseChannel(_) => CloseMoves(s, a, op, d, c);
      case ClearHandle => ClearMoves(s, a, op, d, c);
      case _ => StopMoves(s, a, op, d, c);
    }
  }

  lemma DisableSpares(s: State, a: nat, op: Op, d: Disable, c: Choice)
    requires a in s.pcs && DisableNext(s, a, op, d, c).Some?
    ensures OnlyMoves(s, DisableNext(s, a, op, d, c).value, a)
    ensures DisableNext(s, a, op, d, c).value.pcs.Keys == s.pcs.Keys
  {
  }

  lemma DisableNotices(s: State, a: nat, op: Op, d: Disable, c: Choice)
    requires CoreInv(s) && a in s.pcs && ActorInv(s, a) && DisableNext(s, a, op, d, c).Some?
    requires s.pcs[a] == Locked(op, InDisable(d))
    requires CoreInv(DisableNext(s, a, op, d, c).value)
    ensures NoticeStep(s, DisableNext(s, a, op, d, c).value, Noticed(s, a))
  {
  }

  lemma DisableLeavesOthers(s: State, a: nat, op: Op, d: Disable, c: Choice, b: nat)
    requires CoreInv(s) && a in s.pcs && ActorInv(s, a) && DisableNext(s, a, op, d, c).Some?
    requires s.pcs[a] == Locked(op, InDisable(d))
    requires b != a && b in s.pcs && ActorInv(s, b)
    ensures b in DisableNext(s, a, op, d, c).value.pcs && ActorInv(DisableNext(s, a, op, d, c).value, b)
  {
  }

  lemma FinishKeepsCore(s: State, a: nat, op: Op, f: Finish, c: Choice)
    requires CoreInv(s) && a in s.pcs && ActorInv(s, a) && FinishNext(s, a, op, f, c).Some?
    requires s.pcs[a] == Locked(op, InFinish(f))
    ensures CoreInv(FinishNext(s, a, op, f, c).value)
  {
  }

  lemma FinalMoves(s: State, a: nat, op: Op, f: Finish, c: Choice)
    requires CoreInv(s) && a in s.pcs && ActorInv(s, a) && FinishNext(s, a, op, f, c).Some?
    requires s.pcs[a] == Locked(op, InFinish(f)) && (f.FinalFlag? || f.FinalRest?)
    ensures a in FinishNext(s, a, op, f, c).value.pcs && ActorInv(FinishNext(s, a, op, f, c).value, a)
  {
  }

  lemma ReportMoves(s: State, a: nat, op: Op, f: Finish, c: Choice)
    requires CoreInv(s) && a in s.pcs && ActorInv(s, a) && FinishNext(s, a, op, f, c).Some?
    requires s.pcs[a] == Locked(op, InFinish(f)) && (f.Report? || f.LowerFlag?)
    ensures a in FinishNext(s, a, op, f, c).value.pcs && ActorInv(FinishNext(s, a, op, f, c).value, a)
  {
  }

  lemma UnlockMoves(s: State, a: nat, op: Op, f: Finish, c: Choice)
    requires CoreInv(s) && a in s.pcs && ActorInv(s, a) && FinishNext(s, a, op, f, c).Some?
    requires s.pcs[a] == Locked(op, InFinish(f)) && f.Unlock?
    ensures a in FinishNext(s, a, op, f, c).value.pcs && ActorInv(FinishNext(s, a, op, f, c).value, a)
  {
  }

  lemma FinishMoves(s: State, a: nat, op: Op, f: Finish, c: Choice)
    requires CoreInv(s) && a in s.pcs && ActorInv(s, a) && FinishNext(s, a, op, f, c).Some?
    requires s.pcs[a] == Locked(op, InFinish(f))
    ensures a in FinishNext(s, a, op, f, c).value.pcs && ActorInv(FinishNext(s, a, op, f, c).value, a)
  {
    match f {
      case Report(_) => ReportMoves(s, a, op, f, c);
      case LowerFlag(_) => ReportMoves(s, a, op, f, c);
      case Unlock => UnlockMoves(s, a, op, f, c);
      case _ => FinalMoves(s, a, op, f, c);
    }
  }

  lemma FinishSpares(s: State, a: nat, op: Op, f: Finish, c: Choice)
    requires a in s.pcs && FinishNext(s, a, op, f, c).Some?
    ensures OnlyMoves(s, FinishNext(s, a, op, f, c).value, a)
    ensures FinishNext(s, a, op, f, c).value.pcs.Keys == s.pcs.Keys
    ensures FinishNext(s, a, op, f, c).value.fds == s.fds && FinishNext(s, a, op, f, c).value.open == s.open
  {
  }

  lemma FinishNotices(s: State, a: nat, op: Op, f: Finish, c: Choice)
    requires CoreInv(s) && a in s.pcs && ActorInv(s, a) && FinishNext(s, a, op, f, c).Some?
    requires s.pcs[a] == Locked(op, InFinish(f))
    requires CoreInv(FinishNext(s, a, op, f, c).value)
    ensures NoticeStep(s, FinishNext(s, a, op, f, c).value, Noticed(s, a))
  {
    if f == FinalFlag || f == FinalRest {
      FinalStatusIsDisabled(s, a);
    }
  }

  lemma FinishLeavesOthers(s: State, a: nat, op: Op, f: Finish, c: Choice, b: nat)
    requires CoreInv(s) && a in s.pcs && ActorInv(s, a) && FinishNext(s, a, op, f, c).Some?
    requires s.pcs[a] == Locked(op, InFinish(f))
    requires b != a && b in s.pcs && ActorInv(s, b)
    ensures b in FinishNext(s, a, op, f, c).value.pcs && ActorInv(FinishNext(s, a, op, f, c).value, b)
  {
  }

  /** All that a turn of the poll loop changes: its own point, and perhaps the run flag and the signal, down. */
  ghost predicate RunsDown(s: State, u: State, a: nat) {
    && u.lock == s.lock && u.handle == s.handle && u.fds == s.fds && u.clients == s.clients
    && u.pcs.Keys == s.pcs.Keys && (forall b | b in s.pcs && b != a :: u.pcs[b] == s.pcs[b])
    && (u.run ==> s.run) && u.signal <= s.signal && u.resetting == s.resetting
    && a in s.pcs && (u.pcs[a].Looping? || u.pcs[a].Leaving?)
  }

  lemma LoopRunsDown(s: State, a: nat, fds: seq<int>, turn: LoopPoint, c: Choice)
    requires a in s.pcs && LoopNext(s, a, fds, turn, c).Some?
    ensures RunsDown(s, LoopNext(s, a, fds, turn, c).value, a)
  {
  }

  lemma RunsDownKeepsCore(s: State, u: State, a: nat)
    requires CoreInv(s) && RunsDown(s, u, a) && ActorInv(s, a) && s.pcs[a].Looping?
    ensures CoreInv(u)
  {
  }

  lemma LoopKeepsCore(s: State, a: nat, fds: seq<int>, turn: LoopPoint, c: Choice)
    requires CoreInv(s) && a in s.pcs && ActorInv(s, a) && LoopNext(s, a, fds, turn, c).Some?
    requires s.pcs[a] == Looping(fds, turn)
    ensures CoreInv(LoopNext(s, a, fds, turn, c).value)
  {
    LoopRunsDown(s, a, fds, turn, c);
    RunsDownKeepsCore(s, LoopNext(s, a, fds, turn, c).value, a);
  }

  predicate CapturedOk(fds: seq<int>, captured: seq<int>, turn: LoopPoint) {
    captured <= fds && (turn != Capture ==> captured == fds)
  }

  lemma LoopKeepsCaptured(s: State, a: nat, fds: seq<int>, turn: LoopPoint, c: Choice)
    requires a in s.pcs && LoopNext(s, a, fds, turn, c).Some? && CapturedOk(s.fds, fds, turn)
    ensures var u := LoopNext(s, a, fds, turn, c).value;
            a in u.pcs && (u.pcs[a].Looping? ==> CapturedOk(s.fds, u.pcs[a].captured, u.pcs[a].turn))
  {
  }

  lemma RunsDownMoves(s: State, u: State, a: nat)
    requires RunsDown(s, u, a) && ActorInv(s, a) && s.pcs[a].Looping?
    requires u.pcs[a].Looping? ==> CapturedOk(s.fds, u.pcs[a].captured, u.pcs[a].turn)
    ensures ActorInv(u, a)
  {
  }

  lemma LoopMoves(s: State, a: nat, fds: seq<int>, turn: LoopPoint, c: Choice)
    requires CoreInv(s) && a in s.pcs && ActorInv(s, a) && LoopNext(s, a, fds, turn, c).Some?
    requires s.pcs[a] == Looping(fds, turn)
    ensures a in LoopNext(s, a, fds, turn, c).value.pcs && ActorInv(LoopNext(s, a, fds, turn, c).value, a)
  {
    LoopRunsDown(s, a, fds, turn, c);
    LoopKeepsCaptured(s, a, fds, turn, c);
    RunsDownMoves(s, LoopNext(s, a, fds, turn, c).value, a);
  }

  lemma LoopSpares(s: State, a: nat, fds: seq<int>, turn: LoopPoint, c: Choice)
    requires a in s.pcs && LoopNext(s, a, fds, turn, c).Some?
    ensures OnlyMoves(s, LoopNext(s, a, fds, turn, c).value, a)
    ensures LoopNext(s, a, fds, turn, c).value.pcs.Keys == s.pcs.Keys
    ensures LoopNext(s, a, fds, turn, c).value.fds == s.fds && LoopNext(s, a, fds, turn, c).value.open == s.open
  {
  }

  lemma LoopNotices(s: State, a: nat, fds: seq<int>, turn: LoopPoint, c: Choice)
    requires CoreInv(s) && a in s.pcs && ActorInv(s, a) && LoopNext(s, a, fds, turn, c).Some?
    requires s.pcs[a] == Looping(fds, turn)
    requires CoreInv(LoopNext(s, a, fds, turn, c).value)
    ensures NoticeStep(s, LoopNext(s, a, fds, turn, c).value, Noticed(s, a))
  {
  }

  lemma RunsDownSparesHolder(s: State, u: State, a: nat, b: nat)
    requires RunsDown(s, u, a) && b != a && b in s.pcs && ActorInv(s, b)
    requires s.pcs[b].Locked? && !JoiningOrClosing(s.pcs[b])
    ensures ActorInv(u, b)
  {
  }

  /** A thread that is told to stop is still told so after a turn, or is past needing it. */
  lemma LoopHeadsOut(s: State, a: nat, fds: seq<int>, turn: LoopPoint, c: Choice)
    requires a in s.pcs && LoopNext(s, a, fds, turn, c).Some?
    requires !s.run && (s.signal == 1 || PastShutdown(Looping(fds, turn)))
    ensures var u := LoopNext(s, a, fds, turn, c).value;
            a in u.pcs && (u.signal == 1 || PastShutdown(u.pcs[a]))
  {
  }

  lemma RunsDownSparesJoiner(s: State, u: State, a: nat, b: nat)
    requires RunsDown(s, u, a) && b != a && b in s.pcs && ActorInv(s, b)
    requires s.pcs[b].Locked? && s.pcs[b].at == InDisable(Join(a))
    requires u.signal == 1 || PastShutdown(u.pcs[a])
    ensures ActorInv(u, b)
  {
  }

  lemma LoopLeavesJoiner(s: State, a: nat, fds: seq<int>, turn: LoopPoint, c: Choice, b: nat)
    requires CoreInv(s) && a in s.pcs && ActorInv(s, a) && LoopNext(s, a, fds, turn, c).Some?
    requires s.pcs[a] == Looping(fds, turn)
    requires b != a && b in s.pcs && ActorInv(s, b) && JoiningOrClosing(s.pcs[b]) && !Closing(s.pcs[b])
    ensures b in LoopNext(s, a, fds, turn, c).value.pcs && ActorInv(LoopNext(s, a, fds, turn, c).value, b)
  {
    LoopRunsDown(s, a, fds, turn, c);
    LoopHeadsOut(s, a, fds, turn, c);
    RunsDownSparesJoiner(s, LoopNext(s, a, fds, turn, c).value, a, b);
  }

  lemma LoopLeavesHolder(s: State, a: nat, fds: seq<int>, turn: LoopPoint, c: Choice, b: nat)
    requires CoreInv(s) && a in s.pcs && ActorInv(s, a) && LoopNext(s, a, fds, turn, c).Some?
    requires s.pcs[a] == Looping(fds, turn)
    requires b != a && b in s.pcs && ActorInv(s, b) && s.pcs[b].Locked? && !JoiningOrClosing(s.pcs[b])
    ensures b in LoopNext(s, a, fds, turn, c).value.pcs && ActorInv(LoopNext(s, a, fds, turn, c).value, b)
  {
    LoopRunsDown(s, a, fds, turn, c);
    RunsDownSparesHolder(s, LoopNext(s, a, fds, turn, c).value, a, b);
  }

  lemma RunsDownSparesUnlocked(s: State, u: State, a: nat, b: nat)
    requires RunsDown(s, u, a) && b != a && b in s.pcs && ActorInv(s, b) && !s.pcs[b].Locked?
    ensures ActorInv(u, b)
  {
  }

  lemma LoopLeavesUnlocked(s: State, a: nat, fds: seq<int>, turn: LoopPoint, c: Choice, b: nat)
    requires CoreInv(s) && a in s.pcs && ActorInv(s, a) && LoopNext(s, a, fds, turn, c).Some?
    requires s.pcs[a] == Looping(fds, turn)
    requires b != a && b in s.pcs && ActorInv(s, b) && !s.pcs[b].Locked?
    ensures b in LoopNext(s, a, fds, turn, c).value.pcs && ActorInv(LoopNext(s, a, fds, turn, c).value, b)
  {
    LoopRunsDown(s, a, fds, turn, c);
    RunsDownSparesUnlocked(s, LoopNext(s, a, fds, turn, c).value, a, b);
  }

  lemma LoopLeavesOthers(s: State, a: nat, fds: seq<int>, turn: LoopPoint, c: Choice, b: nat)
    requires CoreInv(s) && a in s.pcs && ActorInv(s, a) && LoopNext(s, a, fds, turn, c).Some?
    requires s.pcs[a] == Looping(fds, turn)
    requires b != a && b in s.pcs && ActorInv(s, b)
    ensures b in LoopNext(s, a, fds, turn, c).value.pcs && ActorInv(LoopNext(s, a, fds, turn, c).value, b)
  {
    if !s.pcs[b].Locked? {
      LoopLeavesUnlocked(s, a, fds, turn, c, b);
    } else if Closing(s.pcs[b]) {
      assert false;
    } else if JoiningOrClosing(s.pcs[b]) {
      LoopLeavesJoiner(s, a, fds, turn, c, b);
    } else {
      LoopLeavesHolder(s, a, fds, turn, c, b);
    }
  }

  lemma ExitKeepsCore(s: State, a: nat, exit: ExitPoint, c: Choice)
    requires CoreInv(s) && a in s.pcs && ActorInv(s, a) && ExitNext(s, a, exit, c).Some?
    requires s.pcs[a] == Leaving(exit)
    ensures CoreInv(ExitNext(s, a, exit, c).value)
  {
  }

  lemma ExitMoves(s: State, a: nat, exit: ExitPoint, c: Choice)
    requires CoreInv(s) && a in s.pcs && ActorInv(s, a) && ExitNext(s, a, exit, c).Some?
    requires s.pcs[a] == Leaving(exit)
    ensures a in ExitNext(s, a, exit, c).value.pcs && ActorInv(ExitNext(s, a, exit, c).value, a)
  {
  }

  lemma ExitSpares(s: State, a: nat, exit: ExitPoint, c: Choice)
    requires a in s.pcs && ExitNext(s, a, exit, c).Some?
    ensures OnlyMoves(s, ExitNext(s, a, exit, c).value, a)
    ensures ExitNext(s, a, exit, c).value.pcs.Keys == s.pcs.Keys
    ensures ExitNext(s, a, exit, c).value.fds == s.fds && ExitNext(s, a, exit, c).value.open == s.open
  {
  }

  lemma ExitNotices(s: State, a: nat, exit: ExitPoint, c: Choice)
    requires CoreInv(s) && a in s.pcs && ActorInv(s, a) && ExitNext(s, a, exit, c).Some?
    requires s.pcs[a] == Leaving(exit)
    requires CoreInv(ExitNext(s, a, exit, c).value)
    ensures NoticeStep(s, ExitNext(s, a, exit, c).value, Noticed(s, a))
  {
  }

  lemma ExitLeavesOthers(s: State, a: nat, exit: ExitPoint, c: Choice, b: nat)
    requires CoreInv(s) && a in s.pcs && ActorInv(s, a) && ExitNext(s, a, exit, c).Some?
    requires s.pcs[a] == Leaving(exit)
    requires b != a && b in s.pcs && ActorInv(s, b)
    ensures b in ExitNext(s, a, exit, c).value.pcs && ActorInv(ExitNext(s, a, exit, c).value, b)
  {
  }

  /** The thread that `pthread_create` starts. */
  lemma CreatedIsTheHandle(s: State, a: nat, op: Op, e: Enable, c: Choice, b: nat)
    requires a in s.pcs && EnableNext(s, a, op, e, c).Some?
    requires b in EnableNext(s, a, op, e, c).value.pcs && b !in s.pcs
    ensures var u := EnableNext(s, a, op, e, c).value;
            && u.pcs[b] == Looping([], Capture) && u.handle == b && b !in u.clients && u.lock == s.lock
  {
  }

  lemma CreatedThread(s: State, a: nat, op: Op, e: Enable, c: Choice, b: nat)
    requires CoreInv(s) && a in s.pcs && ActorInv(s, a) && EnableNext(s, a, op, e, c).Some?
    requires s.pcs[a] == Locked(op, InEnable(e))
    requires b in EnableNext(s, a, op, e, c).value.pcs && b !in s.pcs
    ensures ActorInv(EnableNext(s, a, op, e, c).value, b)
  {
    CreatedIsTheHandle(s, a, op, e, c, b);
    StartsWell(EnableNext(s, a, op, e, c).value, b);
  }

  lemma StartsWell(s: State, b: nat)
    requires b in s.pcs && s.pcs[b] == Looping([], Capture) && s.handle == b && b !in s.clients && s.lock != Some(b)
    ensures ActorInv(s, b)
  {
  }

  // ---------------------------------------------------------------- descriptors and notices of a step

  lemma EnableKeepsFds(s: State, a: nat, op: Op, e: Enable, c: Choice)
    requires FdsOk(s.fds, s.open) && EnableNext(s, a, op, e, c).Some?
    ensures FdsOk(EnableNext(s, a, op, e, c).value.fds, EnableNext(s, a, op, e, c).value.open)
  {
    if e.OpenChannel? && c.Opened? && e.i < |s.fds| && s.fds[e.i] == -1 && c.fd >= 0 && c.fd !in s.open {
      OpenKeepsFds(s.fds, s.open, e.i, c.fd);
    }
  }

  lemma DisableKeepsFds(s: State, a: nat, op: Op, d: Disable, c: Choice)
    requires FdsOk(s.fds, s.open) && DisableNext(s, a, op, d, c).Some?
    ensures FdsOk(DisableNext(s, a, op, d, c).value.fds, DisableNext(s, a, op, d, c).value.open)
  {
    if d.CloseChannel? && d.i < |s.fds| {
      CloseKeepsFds(s.fds, s.open, d.i);
    }
  }

  lemma StepKeepsFds(s: State, a: nat, c: Choice)
    requires FdsOk(s.fds, s.open) && a in s.pcs && ActorNext(s, a, c).Some?
    ensures FdsOk(ActorNext(s, a, c).value.fds, ActorNext(s, a, c).value.open)
  {
    match s.pcs[a] {
      case Locked(op, InEntry(e)) => EntrySpares(s, a, op, e, c);
      case Locked(op, InEnable(e)) => EnableKeepsFds(s, a, op, e, c);
      case Locked(op, InDisable(d)) => DisableKeepsFds(s, a, op, d, c);
      case Locked(op, InFinish(f)) => FinishSpares(s, a, op, f, c);
      case Looping(fds, turn) => LoopSpares(s, a, fds, turn, c);
      case Leaving(exit) => ExitSpares(s, a, exit, c);
      case _ => StartSpares(s, a, c);
    }
  }

  lemma StepKeepsNotices(s: State, a: nat, c: Choice)
    requires SharedInv(s) && a in s.pcs && ActorInv(s, a) && ActorNext(s, a, c).Some?
    requires CoreInv(ActorNext(s, a, c).value)
    ensures NoticeInv(ActorNext(s, a, c).value.notices, Pending(Holder(ActorNext(s, a, c).value)))
  {
    match s.pcs[a] {
      case Locked(op, InEntry(e)) => EntryNotices(s, a, op, e, c);
      case Locked(op, InEnable(e)) => EnableNotices(s, a, op, e, c);
      case Locked(op, InDisable(d)) => DisableNotices(s, a, op, d, c);
      case Locked(op, InFinish(f)) => FinishNotices(s, a, op, f, c);
      case Looping(fds, turn) => LoopNotices(s, a, fds, turn, c);
      case Leaving(exit) => ExitNotices(s, a, exit, c);
      case _ => StartNotices(s, a, c);
    }
    NoticeStepKeeps(s, ActorNext(s, a, c).value, Noticed(s, a));
  }

  // ---------------------------------------------------------------- every step, every run

  lemma StepKeepsCore(s: State, a: nat, c: Choice)
    requires CoreInv(s) && a in s.pcs && ActorInv(s, a) && ActorNext(s, a, c).Some?
    ensures CoreInv(ActorNext(s, a, c).value)
  {
    match s.pcs[a] {
      case Locked(op, InEntry(e)) => EntryKeepsCore(s, a, op, e, c);
      case Locked(op, InEnable(e)) => EnableKeepsCore(s, a, op, e, c);
      case Locked(op, InDisable(d)) => DisableKeepsCore(s, a, op, d, c);
      case Locked(op, InFinish(f)) => FinishKeepsCore(s, a, op, f, c);
      case Looping(fds, turn) => LoopKeepsCore(s, a, fds, turn, c);
      case Leaving(exit) => ExitKeepsCore(s, a, exit, c);
      case _ => StartKeepsCore(s, a, c);
    }
  }

  lemma StepKeepsActor(s: State, a: nat, c: Choice)
    requires CoreInv(s) && a in s.pcs && ActorInv(s, a) && ActorNext(s, a, c).Some?
    ensures a in ActorNext(s, a, c).value.pcs && ActorInv(ActorNext(s, a, c).value, a)
  {
    match s.pcs[a] {
      case Locked(op, InEntry(e)) => EntryMoves(s, a, op, e, c);
      case Locked(op, InEnable(e)) => EnableMoves(s, a, op, e, c);
      case Locked(op, InDisable(d)) => DisableMoves(s, a, op, d, c);
      case Locked(op, InFinish(f)) => FinishMoves(s, a, op, f, c);
      case Looping(fds, turn) => LoopMoves(s, a, fds, turn, c);
      case Leaving(exit) => ExitMoves(s, a, exit, c);
      case _ => StartMoves(s, a, c);
    }
  }

  lemma StepKeepsOther(s: State, a: nat, c: Choice, b: nat)
    requires CoreInv(s) && a in s.pcs && ActorInv(s, a) && ActorNext(s, a, c).Some?
    requires b != a && b in s.pcs && ActorInv(s, b)
    ensures b in ActorNext(s, a, c).value.pcs && ActorInv(ActorNext(s, a, c).value, b)
  {
    match s.pcs[a] {
      case Locked(op, InEntry(e)) => EntryLeavesOthers(s, a, op, e, c, b);
      case Locked(op, InEnable(e)) => EnableLeavesOthers(s, a, op, e, c, b);
      case Locked(op, InDisable(d)) => DisableLeavesOthers(s, a, op, d, c, b);
      case Locked(op, InFinish(f)) => FinishLeavesOthers(s, a, op, f, c, b);
      case Looping(fds, turn) => LoopLeavesOthers(s, a, fds, turn, c, b);
      case Leaving(exit) => ExitLeavesOthers(s, a, exit, c, b);
      case _ => StartLeavesOthers(s, a, c, b);
    }
  }

  lemma StepOnlyMoves(s: State, a: nat, c: Choice)
    requires a in s.pcs && ActorNext(s, a, c).Some?
    ensures OnlyMoves(s, ActorNext(s, a, c).value, a)
  {
    match s.pcs[a] {
      case Locked(op, InEntry(e)) => EntrySpares(s, a, op, e, c);
      case Locked(op, InEnable(e)) => EnableSpares(s, a, op, e, c);
      case Locked(op, InDisable(d)) => DisableSpares(s, a, op, d, c);
      case Locked(op, InFinish(f)) => FinishSpares(s, a, op, f, c);
      case Looping(fds, turn) => LoopSpares(s, a, fds, turn, c);
      case Leaving(exit) => ExitSpares(s, a, exit, c);
      case _ => StartSpares(s, a, c);
    }
  }

  lemma StepKeepsNew(s: State, a: nat, c: Choice, b: nat)
    requires CoreInv(s) && a in s.pcs && ActorInv(s, a) && ActorNext(s, a, c).Some?
    requires b in ActorNext(s, a, c).value.pcs && b !in s.pcs
    ensures ActorInv(ActorNext(s, a, c).value, b)
  {
    match s.pcs[a] {
      case Locked(op, InEnable(e)) => CreatedThread(s, a, op, e, c, b);
      case Locked(op, InEntry(e)) => EntrySpares(s, a, op, e, c);
      case Locked(op, InDisable(d)) => DisableSpares(s, a, op, d, c);
      case Locked(op, InFinish(f)) => FinishSpares(s, a, op, f, c);
      case Looping(fds, turn) => LoopSpares(s, a, fds, turn, c);
      case Leaving(exit) => ExitSpares(s, a, exit, c);
      case _ => StartSpares(s, a, c);
    }
  }

  lemma StepKeepsInv(s: State, step: Step)
    requires Inv(s) && Next(s, step).Some?
    ensures Inv(Next(s, step).value)
  {
    var a, c := step.actor, step.choice;
    var u := ActorNext(s, a, c).value;
    StepKeepsCore(s, a, c);
    StepKeepsFds(s, a, c);
    StepKeepsNotices(s, a, c);
    forall b | b in u.pcs
      ensures ActorInv(u, b)
    {
      if b == a {
        StepKeepsActor(s, a, c);
      } else if b in s.pcs {
        StepKeepsOther(s, a, c, b);
      } else {
        StepKeepsNew(s, a, c, b);
      }
    }
  }

  lemma InitInv(build: Build, clients: set<nat>, channels: nat)
    requires 0 !in clients
    ensures Inv(Init(build, clients, channels))
  {
  }

  /** The invariant holds throughout every interleaving of any number of clients and rx threads. */
  lemma {:induction false} EveryRunKeepsInv(build: Build, clients: set<nat>, channels: nat, steps: seq<Step>)
    requires 0 !in clients && Run(Next, Init(build, clients, channels), steps).Some?
    ensures Inv(Run(Next, Init(build, clients, channels), steps).value)
  {
    if steps == [] {
      InitInv(build, clients, channels);
    } else {
      EveryRunKeepsInv(build, clients, channels, steps[..|steps| - 1]);
      StepKeepsInv(Run(Next, Init(build, clients, channels), steps[..|steps| - 1]).value, steps[|steps| - 1]);
    }
  }

  lemma {:induction false} RunKeepsInv(s: State, steps: seq<Step>)
    requires Inv(s) && Run(Next, s, steps).Some?
    ensures Inv(Run(Next, s, steps).value)
  {
    if steps != [] {
      RunKeepsInv(s, steps[..|steps| - 1]);
      StepKeepsInv(Run(Next, s, steps[..|steps| - 1]).value, steps[|steps| - 1]);
    }
  }

  lemma OneStep(s: State, step: Step)
    requires Next(s, step).Some?
    ensures Run(Next, s, [step]) == Next(s, step)
  {
  }
}
