/** The flow-control handshake of the VFS transport: any number of senders in
    `ant_tx_message_flowcontrol_wait` and the rx thread in `setFlowControl`, sharing one mutex, one condition
    variable and one flag per channel. An interleaved step system; the history records what happened. */
module FlowHandshake {
  import opened Packets
  import opened Runs

  datatype Owner = Sender(id: nat) | RxThread

  datatype Result = Success | Failed | HardwareErr

  datatype Event =
    | StopStored(sender: nat, channel: nat)
    | WroteWhole(sender: nat)
    | WaitExpired(sender: nat)
    | Recorded(channel: nat, setting: byte)
    | Signalled(woken: set<nat>, left: set<nat>)   // whom a signal woke, and whom it left waiting

  /** Where a sender is. `ch` is the flow channel of its call, `at` the position in the history of the
      FLOW_STOP it stored. */
  datatype Pc =
    | Idle
    | WantLock(ch: nat)
    | SetStop(ch: nat)
    | Write(ch: nat, at: nat)
    | Test(ch: nat, at: nat)
    | Waiting(ch: nat, at: nat)                   // in the wait set, lock released
    | Woken(ch: nat, at: nat, timedOut: bool)     // out of the wait set, reacquiring the lock
    | WaitDone(ch: nat, at: nat, timedOut: bool)  // lock reacquired
    | Unlock(ch: nat, at: nat, result: Result)
    | Returned(ch: nat, at: nat, result: Result)

  datatype RxPc =
    | RxIdle
    | RxWantLock(ch: nat, setting: byte)
    | RxStore(ch: nat, setting: byte)
    | RxUnlock(ch: nat, setting: byte)
    | RxSignal(ch: nat, setting: byte)

  datatype State = State(
    lock: Option<Owner>,
    flags: seq<byte>,
    pcs: map<nat, Pc>,
    rx: RxPc,
    history: seq<Event>)

  datatype Choice =
    | Go
    | Call(ch: nat)             // a sender starts a call whose flow channel is ch
    | Wrote(whole: bool)        // outcome of the write
    | TimeOut                   // the timed wait expires
    | Spurious                  // the wait ends without a signal
    | FlowPacket(ch: nat, setting: byte)   // the rx thread got a flow-control packet
    | Wake(woken: set<nat>)     // whom the signal wakes

  datatype Step =
    | SenderStep(actor: nat, choice: Choice)
    | RxStep(choice: Choice)

  function Init(senders: set<nat>, channels: nat): State {
    State(None, seq(channels, i => FLOW_GO), map a | a in senders :: Idle, RxIdle, [])
  }

  function At(s: State, a: nat, pc: Pc): State {
    s.(pcs := s.pcs[a := pc])
  }

  function SenderNext(s: State, a: nat, c: Choice): Option<State>
    requires a in s.pcs
  {
    match s.pcs[a]
    case Idle => if c.Call? && c.ch < |s.flags| then Some(At(s, a, WantLock(c.ch))) else None
    case WantLock(ch) =>
      if c == Go && s.lock == None then Some(At(s, a, SetStop(ch)).(lock := Some(Sender(a)))) else None
    case SetStop(ch) =>
      if c == Go && ch < |s.flags| then
        Some(At(s, a, Write(ch, |s.history|)).(
          flags := s.flags[ch := FLOW_STOP], history := s.history + [StopStored(a, ch)]))
      else None
    case Write(ch, at) =>
      if c == Wrote(true) then Some(At(s, a, Test(ch, at)).(history := s.history + [WroteWhole(a)]))
      else if c == Wrote(false) then Some(At(s, a, Unlock(ch, at, Failed)))
      else None
    case Test(ch, at) =>
      if c != Go || ch >= |s.flags| then None
      else if s.flags[ch] != FLOW_GO then Some(At(s, a, Waiting(ch, at)).(lock := None))
      else Some(At(s, a, Unlock(ch, at, Success)))
    case Waiting(ch, at) =>
      if c == TimeOut then Some(At(s, a, Woken(ch, at, true)).(history := s.history + [WaitExpired(a)]))
      else if c == Spurious then Some(At(s, a, Woken(ch, at, false)))
      else None
    case Woken(ch, at, timedOut) =>
      if c == Go && s.lock == None then Some(At(s, a, WaitDone(ch, at, timedOut)).(lock := Some(Sender(a))))
      else None
    case WaitDone(ch, at, timedOut) =>
      if c != Go then None
      else if timedOut then Some(At(s, a, Unlock(ch, at, HardwareErr)))
      else Some(At(s, a, Test(ch, at)))
    case Unlock(ch, at, result) =>
      if c == Go then Some(At(s, a, Returned(ch, at, result)).(lock := None)) else None
    case Returned(_, _, _) => if c == Go then Some(At(s, a, Idle)) else None
  }

  function WaitSet(s: State): set<nat> {
    set a | a in s.pcs && s.pcs[a].Waiting?
  }

  /** `pthread_cond_signal`: wakes at least one waiter if there is one. */
  predicate CanWake(s: State, woken: set<nat>) {
    woken <= WaitSet(s) && (WaitSet(s) != {} ==> woken != {})
  }

  function WakeUp(pc: Pc): Pc {
    if pc.Waiting? then Woken(pc.ch, pc.at, false) else pc
  }

  function RxNext(s: State, c: Choice): Option<State> {
    match s.rx
    case RxIdle =>
      if c.FlowPacket? && c.ch < |s.flags| then Some(s.(rx := RxWantLock(c.ch, c.setting))) else None
    case RxWantLock(ch, v) =>
      if c == Go && s.lock == None then Some(s.(rx := RxStore(ch, v), lock := Some(RxThread))) else None
    case RxStore(ch, v) =>
      if c == Go && ch < |s.flags| then
        Some(s.(rx := RxUnlock(ch, v), flags := s.flags[ch := v], history := s.history + [Recorded(ch, v)]))
      else None
    case RxUnlock(ch, v) =>
      if c == Go then Some(s.(rx := RxSignal(ch, v), lock := None)) else None
    case RxSignal(ch, v) =>
      if c.Wake? && CanWake(s, c.woken) then
        Some(s.(rx := RxIdle,
                pcs := map a | a in s.pcs :: if a in c.woken then WakeUp(s.pcs[a]) else s.pcs[a],
                history := s.history + [Signalled(c.woken, WaitSet(s) - c.woken)]))
      else None
  }

  function Next(s: State, step: Step): Option<State> {
    match step
    case SenderStep(a, c) => if a in s.pcs then SenderNext(s, a, c) else None
    case RxStep(c) => RxNext(s, c)
  }

  // ---------------------------------------------------------------- the invariant

  /** The sender's STOP is in the history at `at`, and it stored no later one. */
  ghost predicate Stopped(h: seq<Event>, a: nat, ch: nat, at: nat) {
    && at < |h| && h[at] == StopStored(a, ch)
    && (forall m | at < m < |h| :: !(h[m].StopStored? && h[m].sender == a))
  }

  /** Of the call whose STOP is at `at`: whether its whole frame was written, and whether its wait expired. */
  ghost predicate FrameWritten(h: seq<Event>, a: nat, at: nat) {
    exists w: nat :: at < w < |h| && h[w] == WroteWhole(a)
  }

  ghost predicate Expired(h: seq<Event>, a: nat, at: nat) {
    exists w: nat :: at < w < |h| && h[w] == WaitExpired(a)
  }

  ghost predicate CallSoFar(h: seq<Event>, a: nat, ch: nat, at: nat, wrote: bool, expired: bool) {
    Stopped(h, a, ch, at) && (FrameWritten(h, a, at) <==> wrote) && (Expired(h, a, at) <==> expired)
  }

  /** ... and after that the rx thread recorded a FLOW_GO on the flow channel. */
  ghost predicate GoAfter(h: seq<Event>, a: nat, ch: nat, at: nat) {
    exists w: nat, k: nat :: at < w < k < |h| && h[w] == WroteWhole(a) && h[k] == Recorded(ch, FLOW_GO)
  }

  /** An event that sets the flag of channel `ch`. */
  predicate Sets(e: Event, ch: nat) {
    (e.StopStored? && e.channel == ch) || (e.Recorded? && e.channel == ch)
  }

  /** The flag of a channel, read off the history. */
  function FlagFrom(h: seq<Event>, ch: nat): byte {
    if h == [] then FLOW_GO
    else if Sets(h[|h| - 1], ch) then
      if h[|h| - 1].StopStored? then FLOW_STOP else h[|h| - 1].setting
    else FlagFrom(h[..|h| - 1], ch)
  }

  /** The event at `r` is the one that the flag of channel `ch` comes from. */
  ghost predicate LastSet(h: seq<Event>, ch: nat, r: nat) {
    r < |h| && Sets(h[r], ch) && forall m | r < m < |h| :: !Sets(h[m], ch)
  }

  /** The FLOW_GO that the flag of `ch` comes from was recorded after position `at`, and a signal after that
      woke somebody else and left `a` in the wait set. */
  ghost predicate PassedOver(h: seq<Event>, a: nat, ch: nat, at: nat) {
    exists r: nat, k: nat ::
      && at < r < k < |h| && LastSet(h, ch, r) && h[r] == Recorded(ch, FLOW_GO)
      && h[k].Signalled? && h[k].woken - {a} != {} && a in h[k].left
  }

  /** A FLOW_GO was recorded on `ch` after position `at`, but what the flag comes from is a later FLOW_STOP of
      another sender ... */
  ghost predicate StopOverGo(h: seq<Event>, a: nat, ch: nat, at: nat) {
    exists k: nat, m: nat ::
      && at < k < m && LastSet(h, ch, m) && h[k] == Recorded(ch, FLOW_GO)
      && h[m].StopStored? && h[m].sender != a
  }

  /** ... or another setting that the chip sent later. */
  ghost predicate SettingOverGo(h: seq<Event>, ch: nat, at: nat) {
    exists k: nat, m: nat ::
      && at < k < m && LastSet(h, ch, m) && h[k] == Recorded(ch, FLOW_GO)
      && h[m].Recorded? && h[m].setting != FLOW_GO
  }

  /** The rx thread has stored a FLOW_GO of channel `ch` and not yet signalled. */
  predicate BetweenStoreAndSignal(rx: RxPc, ch: nat) {
    (rx.RxUnlock? || rx.RxSignal?) && rx.ch == ch && rx.setting == FLOW_GO
  }

  predicate HoldsLock(pc: Pc) {
    pc.SetStop? || pc.Write? || pc.Test? || pc.WaitDone? || pc.Unlock?
  }

  ghost predicate PointInv(s: State, a: nat, pc: Pc) {
    match pc
    case Idle => true
    case WantLock(ch) => ch < |s.flags|
    case SetStop(ch) => ch < |s.flags|
    case Write(ch, at) =>
      ch < |s.flags| && CallSoFar(s.history, a, ch, at, false, false) && s.flags[ch] == FLOW_STOP
    case Test(ch, at) =>
      && ch < |s.flags| && CallSoFar(s.history, a, ch, at, true, false)
      && (s.flags[ch] == FLOW_GO ==> GoAfter(s.history, a, ch, at))
    case Waiting(ch, at) =>
      && ch < |s.flags| && CallSoFar(s.history, a, ch, at, true, false)
      && (s.flags[ch] == FLOW_GO ==>
            && GoAfter(s.history, a, ch, at)
            && (BetweenStoreAndSignal(s.rx, ch) || PassedOver(s.history, a, ch, at)))
    case Woken(ch, at, timedOut) =>
      && ch < |s.flags| && CallSoFar(s.history, a, ch, at, true, timedOut)
      && (s.flags[ch] == FLOW_GO ==> GoAfter(s.history, a, ch, at))
    case WaitDone(ch, at, timedOut) =>
      && ch < |s.flags| && CallSoFar(s.history, a, ch, at, true, timedOut)
      && (s.flags[ch] == FLOW_GO ==> GoAfter(s.history, a, ch, at))
    case Unlock(ch, at, r) => ResultInv(s.history, a, ch, at, r)
    case Returned(ch, at, r) => ResultInv(s.history, a, ch, at, r)
  }

  /** What a result says of its call. */
  ghost predicate ResultInv(h: seq<Event>, a: nat, ch: nat, at: nat, r: Result) {
    CallSoFar(h, a, ch, at, r != Failed, r == HardwareErr) && (r == Success ==> GoAfter(h, a, ch, at))
  }

  ghost predicate SenderInv(s: State, a: nat)
    requires a in s.pcs
  {
    (HoldsLock(s.pcs[a]) <==> s.lock == Some(Sender(a))) && PointInv(s, a, s.pcs[a])
  }

  ghost predicate RxInv(s: State) {
    && ((s.rx.RxStore? || s.rx.RxUnlock?) <==> s.lock == Some(RxThread))
    && (!s.rx.RxIdle? ==> s.rx.ch < |s.flags|)
  }

  /** The setting that the rx thread is about to signal is the last it recorded, and no signal came after. */
  ghost predicate Unsignalled(h: seq<Event>, ch: nat, setting: byte) {
    exists r: nat ::
      && r < |h| && h[r] == Recorded(ch, setting)
      && forall m | r < m < |h| :: !h[m].Recorded? && !h[m].Signalled?
  }

  /** Flags and the rx thread's point agree with the history. */
  ghost predicate HistoryInv(s: State) {
    && (forall ch: nat | ch < |s.flags| :: s.flags[ch] == FlagFrom(s.history, ch))
    && (s.rx.RxUnlock? || s.rx.RxSignal? ==> Unsignalled(s.history, s.rx.ch, s.rx.setting))
  }

  ghost predicate Inv(s: State) {
    && RxInv(s) && HistoryInv(s)
    && (s.lock.Some? && s.lock.value.Sender? ==> s.lock.value.id in s.pcs)
    && forall a | a in s.pcs :: SenderInv(s, a)
  }

  // ---------------------------------------------------------------- what the history says

  lemma {:induction false} LastSetIsTheFlag(h: seq<Event>, ch: nat, r: nat)
    requires LastSet(h, ch, r)
    ensures FlagFrom(h, ch) == if h[r].StopStored? then FLOW_STOP else h[r].setting
  {
    if r < |h| - 1 {
      assert !Sets(h[|h| - 1], ch);
      LastSetIsTheFlag(h[..|h| - 1], ch, r);
    }
  }

  lemma SomethingWasLast(h: seq<Event>, ch: nat, at: nat) returns (r: nat)
    requires at < |h| && Sets(h[at], ch)
    ensures at <= r && LastSet(h, ch, r)
  {
    r := |h| - 1;
    while !Sets(h[r], ch)
      invariant at <= r < |h| && forall m | r < m < |h| :: !Sets(h[m], ch)
      decreases r
    {
      r := r - 1;
    }
  }

  /** The flag is FLOW_GO and nothing was recorded after r, so what it comes from is not later than r. */
  lemma NothingSetAfter(h: seq<Event>, ch: nat, r: nat)
    requires r < |h| && Sets(h[r], ch) && FlagFrom(h, ch) == FLOW_GO
    requires forall m | r < m < |h| :: !h[m].Recorded?
    ensures LastSet(h, ch, r)
  {
    var m := SomethingWasLast(h, ch, r);
    LastSetIsTheFlag(h, ch, m);
  }

  lemma LastSetGrows(h: seq<Event>, e: Event, ch: nat, r: nat)
    requires LastSet(h, ch, r) && !Sets(e, ch)
    ensures LastSet(h + [e], ch, r) && (h + [e])[r] == h[r]
  {
  }

  lemma FlagGrows(h: seq<Event>, e: Event, ch: nat)
    ensures FlagFrom(h + [e], ch)
         == if !Sets(e, ch) then FlagFrom(h, ch) else if e.StopStored? then FLOW_STOP else e.setting
  {
    assert (h + [e])[..|h|] == h;
  }

  lemma UnsignalledGrows(h: seq<Event>, e: Event, ch: nat, setting: byte)
    ensures Unsignalled(h, ch, setting) && !e.Recorded? && !e.Signalled? ==> Unsignalled(h + [e], ch, setting)
    ensures e == Recorded(ch, setting) ==> Unsignalled(h + [e], ch, setting)
  {
    var g := h + [e];
    assert g[|h|] == e;
    if Unsignalled(h, ch, setting) && !e.Recorded? && !e.Signalled? {
      var r: nat :| r < |h| && h[r] == Recorded(ch, setting)
        && forall m | r < m < |h| :: !h[m].Recorded? && !h[m].Signalled?;
      assert g[r] == h[r];
    }
  }

  /** The signal for a recorded FLOW_GO passes over whoever it leaves waiting. */
  lemma SignalPassesOver(h: seq<Event>, e: Event, a: nat, ch: nat, at: nat)
    requires at < |h| && h[at] == StopStored(a, ch)
    requires Unsignalled(h, ch, FLOW_GO) && FlagFrom(h, ch) == FLOW_GO
    requires e.Signalled? && e.woken - {a} != {} && a in e.left
    ensures PassedOver(h + [e], a, ch, at)
  {
    var r: nat :| r < |h| && h[r] == Recorded(ch, FLOW_GO)
      && forall m | r < m < |h| :: !h[m].Recorded? && !h[m].Signalled?;
    NothingSetAfter(h, ch, r);
    assert Sets(h[at], ch) && at < r;
    LastSetGrows(h, e, ch, r);
    var g, k := h + [e], |h|;
    assert at < r < k < |g| && LastSet(g, ch, r) && g[r] == Recorded(ch, FLOW_GO) && g[k] == e;
  }

  lemma PassedOverGrows(h: seq<Event>, e: Event, a: nat, ch: nat, at: nat)
    requires PassedOver(h, a, ch, at) && !Sets(e, ch)
    ensures PassedOver(h + [e], a, ch, at)
  {
    var r: nat, k: nat :| at < r < k < |h| && LastSet(h, ch, r) && h[r] == Recorded(ch, FLOW_GO)
      && h[k].Signalled? && h[k].woken - {a} != {} && a in h[k].left;
    LastSetGrows(h, e, ch, r);
    assert (h + [e])[k] == h[k];
  }

  lemma PassedOverIsSignalled(h: seq<Event>, a: nat, ch: nat, at: nat)
    requires PassedOver(h, a, ch, at)
    ensures FlagFrom(h, ch) == FLOW_GO && !Unsignalled(h, ch, FLOW_GO)
  {
    var r: nat, k: nat :| at < r < k < |h| && LastSet(h, ch, r) && h[r] == Recorded(ch, FLOW_GO)
      && h[k].Signalled? && h[k].woken - {a} != {} && a in h[k].left;
    LastSetIsTheFlag(h, ch, r);
    forall q: nat | q < |h| && h[q] == Recorded(ch, FLOW_GO)
      ensures q < k
    {
      assert Sets(h[q], ch);
    }
  }

  /** A FLOW_GO that came for a call is no longer what the flag says exactly when something was stored over it. */
  lemma GoIsOverwrittenIffFlagDiffers(h: seq<Event>, a: nat, ch: nat, at: nat)
    requires Stopped(h, a, ch, at) && GoAfter(h, a, ch, at)
    ensures FlagFrom(h, ch) != FLOW_GO <==> StopOverGo(h, a, ch, at) || SettingOverGo(h, ch, at)
  {
    var w: nat, k: nat :| at < w < k < |h| && h[w] == WroteWhole(a) && h[k] == Recorded(ch, FLOW_GO);
    assert Sets(h[k], ch);
    var m := SomethingWasLast(h, ch, k);
    LastSetIsTheFlag(h, ch, m);
    if FlagFrom(h, ch) != FLOW_GO {
      assert at < k < m && LastSet(h, ch, m) && h[k] == Recorded(ch, FLOW_GO);
    }
  }

  /** Facts about a call survive the growth of the history. */
  lemma HistoryGrows(h: seq<Event>, e: Event, a: nat, ch: nat, at: nat)
    requires Stopped(h, a, ch, at) && !(e.StopStored? && e.sender == a)
    ensures Stopped(h + [e], a, ch, at)
    ensures FrameWritten(h + [e], a, at) <==> FrameWritten(h, a, at) || e == WroteWhole(a)
    ensures Expired(h + [e], a, at) <==> Expired(h, a, at) || e == WaitExpired(a)
    ensures GoAfter(h, a, ch, at) ==> GoAfter(h + [e], a, ch, at)
    ensures e == Recorded(ch, FLOW_GO) && FrameWritten(h, a, at) ==> GoAfter(h + [e], a, ch, at)
    ensures PassedOver(h, a, ch, at) && !Sets(e, ch) ==> PassedOver(h + [e], a, ch, at)
  {
    var g := h + [e];
    assert g[|h|] == e;
    forall w | 0 <= w < |h|
      ensures g[w] == h[w]
    {
    }
    if FrameWritten(h, a, at) {
      var w: nat :| at < w < |h| && h[w] == WroteWhole(a);
      assert g[w] == h[w];
    }
    if Expired(h, a, at) {
      var w: nat :| at < w < |h| && h[w] == WaitExpired(a);
      assert g[w] == h[w];
    }
    if GoAfter(h, a, ch, at) {
      var w: nat, k: nat :| at < w < k < |h| && h[w] == WroteWhole(a) && h[k] == Recorded(ch, FLOW_GO);
      assert g[w] == h[w] && g[k] == h[k];
    }
    if PassedOver(h, a, ch, at) && !Sets(e, ch) {
      PassedOverGrows(h, e, a, ch, at);
    }
  }

  // ---------------------------------------------------------------- one step

  /** The steps of a sender that go on record. */
  predicate Recording(pc: Pc, c: Choice) {
    pc.SetStop? || (pc.Write? && c == Wrote(true)) || (pc.Waiting? && c == TimeOut)
  }

  function RecordedBy(pc: Pc, a: nat): Event {
    match pc
    case SetStop(ch) => StopStored(a, ch)
    case Waiting(_, _) => WaitExpired(a)
    case _ => WroteWhole(a)
  }

  /** Flags and rx thread against the history: a sender's step ... */
  lemma SenderKeepsHistory(s: State, a: nat, c: Choice)
    requires HistoryInv(s) && RxInv(s) && a in s.pcs && SenderNext(s, a, c).Some?
    ensures HistoryInv(SenderNext(s, a, c).value)
  {
    if Recording(s.pcs[a], c) {
      var e := RecordedBy(s.pcs[a], a);
      forall ch: nat | ch < |s.flags|
        ensures SenderNext(s, a, c).value.flags[ch] == FlagFrom(s.history + [e], ch)
      {
        FlagGrows(s.history, e, ch);
      }
      if s.rx.RxUnlock? || s.rx.RxSignal? {
        UnsignalledGrows(s.history, e, s.rx.ch, s.rx.setting);
      }
    }
  }

  /** ... and one of the rx thread. */
  lemma RxKeepsHistory(s: State, c: Choice)
    requires HistoryInv(s) && RxInv(s) && RxNext(s, c).Some?
    ensures HistoryInv(RxNext(s, c).value)
  {
    if s.rx.RxStore? || s.rx.RxSignal? {
      var e := if s.rx.RxStore? then Recorded(s.rx.ch, s.rx.setting) else Signalled(c.woken, WaitSet(s) - c.woken);
      forall ch: nat | ch < |s.flags|
        ensures RxNext(s, c).value.flags[ch] == FlagFrom(s.history + [e], ch)
      {
        FlagGrows(s.history, e, ch);
      }
      UnsignalledGrows(s.history, e, s.rx.ch, s.rx.setting);
    }
  }

  lemma SenderMoves(s: State, a: nat, c: Choice)
    requires RxInv(s) && a in s.pcs && SenderInv(s, a)
    requires SenderNext(s, a, c).Some?
    ensures RxInv(SenderNext(s, a, c).value) && SenderInv(SenderNext(s, a, c).value, a)
  {
    if s.pcs[a].Write? || s.pcs[a].Waiting? {
      HistoryGrows(s.history, RecordedBy(s.pcs[a], a), a, s.pcs[a].ch, s.pcs[a].at);
    }
  }

  predicate InCall(pc: Pc) {
    !pc.Idle? && !pc.WantLock? && !pc.SetStop?
  }

  /** A step that goes on record, seen by another sender. */
  lemma RecordingLeavesOthers(s: State, a: nat, c: Choice, b: nat)
    requires RxInv(s) && a in s.pcs && SenderInv(s, a) && Recording(s.pcs[a], c)
    requires SenderNext(s, a, c).Some?
    requires b != a && b in s.pcs && SenderInv(s, b)
    ensures SenderInv(SenderNext(s, a, c).value, b)
  {
    var pc := s.pcs[b];
    if InCall(pc) && Stopped(s.history, b, pc.ch, pc.at) {
      HistoryGrows(s.history, RecordedBy(s.pcs[a], a), b, pc.ch, pc.at);
    }
  }

  /** Every other sender step leaves flags and history alone. */
  lemma QuietStepLeavesOthers(s: State, a: nat, c: Choice, b: nat)
    requires RxInv(s) && a in s.pcs && SenderInv(s, a) && !Recording(s.pcs[a], c)
    requires SenderNext(s, a, c).Some?
    requires b != a && b in s.pcs && SenderInv(s, b)
    ensures SenderInv(SenderNext(s, a, c).value, b)
  {
  }

  lemma RxStoreKeepsSender(s: State, b: nat)
    requires RxInv(s) && s.rx.RxStore? && b in s.pcs && SenderInv(s, b)
    requires RxNext(s, Go).Some?
    ensures SenderInv(RxNext(s, Go).value, b)
  {
    var pc := s.pcs[b];
    if InCall(pc) && Stopped(s.history, b, pc.ch, pc.at) {
      HistoryGrows(s.history, Recorded(s.rx.ch, s.rx.setting), b, pc.ch, pc.at);
    }
  }

  lemma RxSignalKeepsSender(s: State, c: Choice, b: nat)
    requires RxInv(s) && HistoryInv(s) && s.rx.RxSignal? && b in s.pcs && SenderInv(s, b)
    requires RxNext(s, c).Some?
    ensures SenderInv(RxNext(s, c).value, b)
  {
    var pc := s.pcs[b];
    var e := Signalled(c.woken, WaitSet(s) - c.woken);
    if InCall(pc) && Stopped(s.history, b, pc.ch, pc.at) {
      HistoryGrows(s.history, e, b, pc.ch, pc.at);
      if pc.Waiting? && b !in c.woken && s.flags[pc.ch] == FLOW_GO && BetweenStoreAndSignal(s.rx, pc.ch) {
        assert b in WaitSet(s);
        assert c.woken - {b} == c.woken;
        SignalPassesOver(s.history, e, b, pc.ch, pc.at);
      }
    }
  }

  lemma RxKeepsSender(s: State, c: Choice, b: nat)
    requires RxInv(s) && HistoryInv(s) && b in s.pcs && SenderInv(s, b)
    requires RxNext(s, c).Some?
    ensures SenderInv(RxNext(s, c).value, b)
  {
    match s.rx {
      case RxStore(_, _) => RxStoreKeepsSender(s, b);
      case RxSignal(_, _) => RxSignalKeepsSender(s, c, b);
      case _ =>
    }
  }

  lemma RxKeepsItself(s: State, c: Choice)
    requires RxInv(s) && RxNext(s, c).Some?
    ensures RxInv(RxNext(s, c).value) && RxNext(s, c).value.pcs.Keys == s.pcs.Keys
  {
  }

  lemma StepKeepsInv(s: State, step: Step)
    requires Inv(s) && Next(s, step).Some?
    ensures Inv(Next(s, step).value) && Next(s, step).value.pcs.Keys == s.pcs.Keys
  {
    match step {
      case SenderStep(a, c) => SenderStepKeepsInv(s, a, c);
      case RxStep(c) => RxStepKeepsInv(s, c);
    }
  }

  lemma SenderStepKeepsInv(s: State, a: nat, c: Choice)
    requires Inv(s) && a in s.pcs && SenderNext(s, a, c).Some?
    ensures Inv(SenderNext(s, a, c).value) && SenderNext(s, a, c).value.pcs.Keys == s.pcs.Keys
  {
    var u := SenderNext(s, a, c).value;
    SenderMoves(s, a, c);
    SenderKeepsHistory(s, a, c);
    forall b | b in u.pcs
      ensures SenderInv(u, b)
    {
      if b == a {
      } else if Recording(s.pcs[a], c) {
        RecordingLeavesOthers(s, a, c, b);
      } else {
        QuietStepLeavesOthers(s, a, c, b);
      }
    }
  }

  lemma RxStepKeepsInv(s: State, c: Choice)
    requires Inv(s) && RxNext(s, c).Some?
    ensures Inv(RxNext(s, c).value) && RxNext(s, c).value.pcs.Keys == s.pcs.Keys
  {
    var u := RxNext(s, c).value;
    RxKeepsItself(s, c);
    RxKeepsHistory(s, c);
    forall b | b in u.pcs
      ensures SenderInv(u, b)
    {
      RxKeepsSender(s, c, b);
    }
  }

  lemma {:induction false} EveryRunKeepsInv(senders: set<nat>, channels: nat, steps: seq<Step>)
    requires Run(Next, Init(senders, channels), steps).Some?
    ensures Inv(Run(Next, Init(senders, channels), steps).value)
    ensures Run(Next, Init(senders, channels), steps).value.pcs.Keys == senders
  {
    if steps != [] {
      EveryRunKeepsInv(senders, channels, steps[..|steps| - 1]);
      StepKeepsInv(Run(Next, Init(senders, channels), steps[..|steps| - 1]).value, steps[|steps| - 1]);
    }
  }

  // ---------------------------------------------------------------- what SUCCESS means

  /** With any number of concurrent senders, a sender returns SUCCESS only if its whole frame was written
      after the FLOW_STOP of this call, and the rx thread recorded a FLOW_GO on its flow channel after that. */
  lemma SuccessMeansGoRecorded(senders: set<nat>, channels: nat, steps: seq<Step>, a: nat)
    requires Run(Next, Init(senders, channels), steps).Some?
    requires var s := Run(Next, Init(senders, channels), steps).value;
             a in s.pcs && s.pcs[a].Returned? && s.pcs[a].result == Success
    ensures var s := Run(Next, Init(senders, channels), steps).value;
            var pc := s.pcs[a];
            Stopped(s.history, a, pc.ch, pc.at) && GoAfter(s.history, a, pc.ch, pc.at)
  {
    EveryRunKeepsInv(senders, channels, steps);
    assert SenderInv(Run(Next, Init(senders, channels), steps).value, a);
  }

  /** What each result means, in every run: FAILED, that the whole frame was not written; HARDWARE_ERR, that it was,
      and that the wait of this very call expired; SUCCESS, that it was and the wait did not. */
  lemma ResultsAreTrue(senders: set<nat>, channels: nat, steps: seq<Step>, a: nat)
    requires Run(Next, Init(senders, channels), steps).Some?
    requires var s := Run(Next, Init(senders, channels), steps).value; a in s.pcs && s.pcs[a].Returned?
    ensures var s := Run(Next, Init(senders, channels), steps).value;
            var pc := s.pcs[a];
            && Stopped(s.history, a, pc.ch, pc.at)
            && (pc.result == Failed <==> !FrameWritten(s.history, a, pc.at))
            && (pc.result == HardwareErr <==> FrameWritten(s.history, a, pc.at) && Expired(s.history, a, pc.at))
            && (pc.result == Success <==> FrameWritten(s.history, a, pc.at) && !Expired(s.history, a, pc.at))
  {
    EveryRunKeepsInv(senders, channels, steps);
    assert SenderInv(Run(Next, Init(senders, channels), steps).value, a);
  }

  // ---------------------------------------------------------------- lost wakeups

  /** A sender sits in the wait set although the flag it waits for is FLOW_GO. */
  ghost predicate Stranded(s: State, a: nat) {
    a in s.pcs && s.pcs[a].Waiting? && s.pcs[a].ch < |s.flags| && s.flags[s.pcs[a].ch] == FLOW_GO
  }

  /** Exactly when that happens with no signal to come: the signal for the very FLOW_GO that the flag comes
      from has been given, and it went to somebody else. */
  lemma StrandedIffPassedOver(senders: set<nat>, channels: nat, steps: seq<Step>, a: nat)
    requires Run(Next, Init(senders, channels), steps).Some?
    requires var s := Run(Next, Init(senders, channels), steps).value; a in s.pcs && s.pcs[a].Waiting?
    ensures var s := Run(Next, Init(senders, channels), steps).value;
            var pc := s.pcs[a];
            Stranded(s, a) && !BetweenStoreAndSignal(s.rx, pc.ch) <==> PassedOver(s.history, a, pc.ch, pc.at)
  {
    var s := Run(Next, Init(senders, channels), steps).value;
    EveryRunKeepsInv(senders, channels, steps);
    assert SenderInv(s, a);
    if PassedOver(s.history, a, s.pcs[a].ch, s.pcs[a].at) {
      PassedOverIsSignalled(s.history, a, s.pcs[a].ch, s.pcs[a].at);
    }
  }

  /** Why a FLOW_GO that came for a waiting sender did not release it: its signal went to somebody else, or it
      was overwritten before the sender looked - by the FLOW_STOP of another sender or by another setting from
      the chip. Which, the flag tells. */
  lemma WhyAGoIsMissed(senders: set<nat>, channels: nat, steps: seq<Step>, a: nat)
    requires Run(Next, Init(senders, channels), steps).Some?
    requires var s := Run(Next, Init(senders, channels), steps).value;
             && a in s.pcs && s.pcs[a].Waiting?
             && GoAfter(s.history, a, s.pcs[a].ch, s.pcs[a].at) && !BetweenStoreAndSignal(s.rx, s.pcs[a].ch)
    ensures var s := Run(Next, Init(senders, channels), steps).value;
            var pc := s.pcs[a];
            && (Stranded(s, a) <==> PassedOver(s.history, a, pc.ch, pc.at))
            && (!Stranded(s, a) <==> StopOverGo(s.history, a, pc.ch, pc.at) || SettingOverGo(s.history, pc.ch, pc.at))
  {
    var s := Run(Next, Init(senders, channels), steps).value;
    EveryRunKeepsInv(senders, channels, steps);
    assert SenderInv(s, a);
    StrandedIffPassedOver(senders, channels, steps, a);
    GoIsOverwrittenIffFlagDiffers(s.history, a, s.pcs[a].ch, s.pcs[a].at);
  }

  // ---------------------------------------------------------------- one sender

  /** Signals wake senders, and senders store FLOW_STOPs. */
  ghost predicate OnlySenders(h: seq<Event>, senders: set<nat>) {
    forall k | 0 <= k < |h| ::
      (h[k].Signalled? ==> h[k].woken <= senders) && (h[k].StopStored? ==> h[k].sender in senders)
  }

  lemma {:induction false} RunsHaveOnlySenders(senders: set<nat>, channels: nat, steps: seq<Step>)
    requires Run(Next, Init(senders, channels), steps).Some?
    ensures OnlySenders(Run(Next, Init(senders, channels), steps).value.history, senders)
  {
    if steps != [] {
      var front, last := steps[..|steps| - 1], steps[|steps| - 1];
      RunsHaveOnlySenders(senders, channels, front);
      EveryRunKeepsInv(senders, channels, front);
      var s := Run(Next, Init(senders, channels), front).value;
      assert WaitSet(s) <= s.pcs.Keys;
    }
  }

  /** No lost wakeup with a single sender: while it is stranded, the rx thread has stored FLOW_GO and is about
      to signal. */
  lemma NoLostWakeupAlone(a: nat, channels: nat, steps: seq<Step>)
    requires Run(Next, Init({a}, channels), steps).Some?
    requires Stranded(Run(Next, Init({a}, channels), steps).value, a)
    ensures var s := Run(Next, Init({a}, channels), steps).value; BetweenStoreAndSignal(s.rx, s.pcs[a].ch)
  {
    StrandedIffPassedOver({a}, channels, steps, a);
    RunsHaveOnlySenders({a}, channels, steps);
  }

  predicate TwoOf(senders: set<nat>) {
    exists a, b :: a in senders && b in senders && a != b
  }

  lemma OneIsAll(senders: set<nat>, a: nat)
    requires !TwoOf(senders) && a in senders
    ensures senders == {a}
  {
  }

  // ---------------------------------------------------------------- the runs

  /** From any quiet moment an idle sender can send on channel 0 and end up in the wait set. */
  lemma SendsAndWaits(s: State, a: nat) returns (steps: seq<Step>)
    requires a in s.pcs && s.pcs[a] == Idle && s.lock == None && |s.flags| > 0
    ensures Run(Next, s, steps) == Some(s.(
              flags := s.flags[0 := FLOW_STOP],
              pcs := s.pcs[a := Waiting(0, |s.history|)],
              history := s.history + [StopStored(a, 0), WroteWhole(a)]))
  {
    var at := |s.history|;
    var s1 := s.(pcs := s.pcs[a := WantLock(0)]);
    var s2 := s.(pcs := s.pcs[a := SetStop(0)], lock := Some(Sender(a)));
    var s3 := s2.(pcs := s.pcs[a := Write(0, at)], flags := s.flags[0 := FLOW_STOP],
                  history := s.history + [StopStored(a, 0)]);
    var s4 := s3.(pcs := s.pcs[a := Test(0, at)], history := s.history + [StopStored(a, 0), WroteWhole(a)]);
    var s5 := s4.(pcs := s.pcs[a := Waiting(0, at)], lock := None);
    var states := [s, s1, s2, s3, s4, s5];
    steps := [SenderStep(a, Call(0)), SenderStep(a, Go), SenderStep(a, Go), SenderStep(a, Wrote(true)),
              SenderStep(a, Go)];
    assert s3.history + [WroteWhole(a)] == s4.history;
    forall i | 0 <= i < |steps|
      ensures Next(states[i], steps[i]) == Some(states[i + 1])
    {
      assert Next(states[i], steps[i]).value.pcs == states[i + 1].pcs;
    }
    TraceIsRun(Next, states, steps);
  }

  function Awake(pcs: map<nat, Pc>, woken: set<nat>): map<nat, Pc> {
    map a | a in pcs :: if a in woken then WakeUp(pcs[a]) else pcs[a]
  }

  /** From any quiet moment the rx thread can record a FLOW_GO on channel 0 and wake some of the waiters. */
  lemma RecordsGoAndWakes(s: State, woken: set<nat>) returns (steps: seq<Step>)
    requires s.lock == None && |s.flags| > 0 && s.rx == RxIdle && CanWake(s, woken)
    ensures Run(Next, s, steps) == Some(s.(
              flags := s.flags[0 := FLOW_GO],
              pcs := Awake(s.pcs, woken),
              history := s.history + [Recorded(0, FLOW_GO), Signalled(woken, WaitSet(s) - woken)]))
  {
    var s1 := s.(rx := RxWantLock(0, FLOW_GO));
    var s2 := s.(rx := RxStore(0, FLOW_GO), lock := Some(RxThread));
    var s3 := s2.(rx := RxUnlock(0, FLOW_GO), flags := s.flags[0 := FLOW_GO],
                  history := s.history + [Recorded(0, FLOW_GO)]);
    var s4 := s3.(rx := RxSignal(0, FLOW_GO), lock := None);
    var s5 := s4.(rx := RxIdle, pcs := Awake(s.pcs, woken),
                  history := s.history + [Recorded(0, FLOW_GO), Signalled(woken, WaitSet(s) - woken)]);
    var states := [s, s1, s2, s3, s4, s5];
    steps := [RxStep(FlowPacket(0, FLOW_GO)), RxStep(Go), RxStep(Go), RxStep(Go), RxStep(Wake(woken))];
    assert WaitSet(s4) == WaitSet(s);
    assert s4.history + [Signalled(woken, WaitSet(s) - woken)] == s5.history;
    assert RxNext(s4, Wake(woken)).value.pcs == s5.pcs;
    TraceIsRun(Next, states, steps);
  }

  /** A woken sender gets the lock and looks at the flag: it returns, or it waits again. */
  lemma LooksAgain(s: State, a: nat) returns (steps: seq<Step>)
    requires s.lock == None && |s.flags| > 0 && a in s.pcs && s.pcs[a].Woken? && s.pcs[a].ch == 0 && !s.pcs[a].timedOut
    ensures var at := s.pcs[a].at;
            Run(Next, s, steps) == Some(s.(pcs := s.pcs[a :=
              if s.flags[0] == FLOW_GO then Returned(0, at, Success) else Waiting(0, at)]))
  {
    var at := s.pcs[a].at;
    var s1 := s.(pcs := s.pcs[a := WaitDone(0, at, false)], lock := Some(Sender(a)));
    var s2 := s1.(pcs := s.pcs[a := Test(0, at)]);
    var go := SenderStep(a, Go);
    assert SenderNext(s1, a, Go).value.pcs == s2.pcs;
    if s.flags[0] == FLOW_GO {
      var s3 := s1.(pcs := s.pcs[a := Unlock(0, at, Success)]);
      var s4 := s.(pcs := s.pcs[a := Returned(0, at, Success)]);
      assert SenderNext(s2, a, Go).value.pcs == s3.pcs && SenderNext(s3, a, Go).value.pcs == s4.pcs;
      steps := [go, go, go, go];
      TraceIsRun(Next, [s, s1, s2, s3, s4], steps);
    } else {
      var s3 := s.(pcs := s.pcs[a := Waiting(0, at)]);
      assert SenderNext(s2, a, Go).value.pcs == s3.pcs;
      steps := [go, go, go];
      TraceIsRun(Next, [s, s1, s2, s3], steps);
    }
  }

  /** Two senders: the one signal goes to the first, and the second stays in the wait set with the flag at
      FLOW_GO and nobody left to signal it. */
  lemma WakeupLostWithTwo(senders: set<nat>, channels: nat, a: nat, b: nat) returns (steps: seq<Step>)
    requires channels > 0 && a in senders && b in senders && a != b
    ensures LosesWakeup(senders, channels, steps, b)
  {
    var s0 := Init(senders, channels);
    var first := SendsAndWaits(s0, a);
    var s1 := Run(Next, s0, first).value;
    var second := SendsAndWaits(s1, b);
    RunAppends(Next, s0, first, second);
    var s2 := Run(Next, s1, second).value;
    assert a in WaitSet(s2);
    var third := RecordsGoAndWakes(s2, {a});
    RunAppends(Next, s0, first + second, third);
    steps := first + second + third;
  }

  /** A sender is stranded and the rx thread has nothing under way. */
  ghost predicate LosesWakeup(senders: set<nat>, channels: nat, steps: seq<Step>, a: nat) {
    match Run(Next, Init(senders, channels), steps)
    case Some(s) => Stranded(s, a) && s.rx == RxIdle
    case None => false
  }

  /** A wakeup can be lost if and only if there are two senders. */
  lemma WakeupsAreLostIffTwoSenders(senders: set<nat>, channels: nat)
    requires channels > 0
    ensures (exists a, steps :: LosesWakeup(senders, channels, steps, a)) <==> TwoOf(senders)
  {
    if TwoOf(senders) {
      var a, b :| a in senders && b in senders && a != b;
      var steps := WakeupLostWithTwo(senders, channels, a, b);
    } else {
      forall a, steps
        ensures !LosesWakeup(senders, channels, steps, a)
      {
        if LosesWakeup(senders, channels, steps, a) {
          EveryRunKeepsInv(senders, channels, steps);
          OneIsAll(senders, a);
          NoLostWakeupAlone(a, channels, steps);
        }
      }
    }
  }

  /** A FLOW_GO came for a sender, another sender's FLOW_STOP came on top of it, and the sender waits on. */
  ghost predicate LosesGo(senders: set<nat>, channels: nat, steps: seq<Step>, a: nat) {
    match Run(Next, Init(senders, channels), steps)
    case Some(s) =>
      && a in s.pcs && s.pcs[a].Waiting? && s.rx == RxIdle
      && GoAfter(s.history, a, s.pcs[a].ch, s.pcs[a].at)
      && StopOverGo(s.history, a, s.pcs[a].ch, s.pcs[a].at)
    case None => false
  }

  /** The signal wakes the first sender, but the second gets the lock before it and stores its FLOW_STOP. */
  lemma GoOverwrittenWithTwo(senders: set<nat>, channels: nat, a: nat, b: nat) returns (steps: seq<Step>)
    requires channels > 0 && a in senders && b in senders && a != b
    ensures LosesGo(senders, channels, steps, a)
  {
    var s0 := Init(senders, channels);
    var first := SendsAndWaits(s0, a);
    var s1 := Run(Next, s0, first).value;
    assert a in WaitSet(s1);
    var second := RecordsGoAndWakes(s1, {a});
    RunAppends(Next, s0, first, second);
    var s2 := Run(Next, s1, second).value;
    var third := SendsAndWaits(s2, b);
    RunAppends(Next, s0, first + second, third);
    var s3 := Run(Next, s2, third).value;
    var fourth := LooksAgain(s3, a);
    RunAppends(Next, s0, first + second + third, fourth);
    steps := first + second + third + fourth;
    var h := Run(Next, s3, fourth).value.history;
    assert h[0] == StopStored(a, 0) && h[1] == WroteWhole(a) && h[2] == Recorded(0, FLOW_GO);
    assert h[4] == StopStored(b, 0) && h[5] == WroteWhole(b) && |h| == 6;
    assert LastSet(h, 0, 4);
  }

  /** A FLOW_GO can be overwritten by a FLOW_STOP if and only if there are two senders. */
  lemma GoIsOverwrittenIffTwoSenders(senders: set<nat>, channels: nat)
    requires channels > 0
    ensures (exists a, steps :: LosesGo(senders, channels, steps, a)) <==> TwoOf(senders)
  {
    if TwoOf(senders) {
      var a, b :| a in senders && b in senders && a != b;
      var steps := GoOverwrittenWithTwo(senders, channels, a, b);
    } else {
      forall a, steps
        ensures !LosesGo(senders, channels, steps, a)
      {
        if LosesGo(senders, channels, steps, a) {
          EveryRunKeepsInv(senders, channels, steps);
          RunsHaveOnlySenders(senders, channels, steps);
          OneIsAll(senders, a);
        }
      }
    }
  }

  predicate Succeeded(pc: Pc) {
    pc.Returned? && pc.result == Success
  }

  function GosRecorded(h: seq<Event>): nat {
    if h == [] then 0
    else GosRecorded(h[..|h| - 1]) + if h[|h| - 1].Recorded? && h[|h| - 1].setting == FLOW_GO then 1 else 0
  }

  /** A FLOW_GO does not belong to one frame: one of them can give SUCCESS to two senders. */
  lemma OneGoServesTwo(senders: set<nat>, channels: nat, a: nat, b: nat) returns (steps: seq<Step>)
    requires channels > 0 && a in senders && b in senders && a != b
    ensures Run(Next, Init(senders, channels), steps).Some?
    ensures var s := Run(Next, Init(senders, channels), steps).value;
            && a in s.pcs && b in s.pcs && Succeeded(s.pcs[a]) && Succeeded(s.pcs[b])
            && GosRecorded(s.history) == 1
  {
    var s0 := Init(senders, channels);
    var sending, s1 := BothWait(s0, a, b);
    var waking := RecordsGoAndWakes(s1, {a, b});
    var s2 := Run(Next, s1, waking).value;
    var returning, u := BothLookAgain(s2, a, b);
    RunAppends(Next, s0, sending, waking);
    RunAppends(Next, s0, sending + waking, returning);
    steps := sending + waking + returning;
    var h := [StopStored(a, 0), WroteWhole(a), StopStored(b, 0), WroteWhole(b), Recorded(0, FLOW_GO)];
    var signal := Signalled({a, b}, WaitSet(s1) - {a, b});
    assert u.history == h + [signal];
    CountsOneGo(h, signal);
  }

  lemma BothWait(s: State, a: nat, b: nat) returns (steps: seq<Step>, u: State)
    requires a in s.pcs && b in s.pcs && a != b && s.pcs[a] == Idle && s.pcs[b] == Idle
    requires s.lock == None && |s.flags| > 0 && s.history == []
    ensures Run(Next, s, steps) == Some(u) && u.lock == None && u.rx == s.rx && |u.flags| == |s.flags|
    ensures a in u.pcs && b in u.pcs && u.pcs[a] == Waiting(0, 0) && u.pcs[b] == Waiting(0, 2)
    ensures u.history == [StopStored(a, 0), WroteWhole(a), StopStored(b, 0), WroteWhole(b)]
    ensures CanWake(u, {a, b})
  {
    var first := SendsAndWaits(s, a);
    var m := Run(Next, s, first).value;
    var second := SendsAndWaits(m, b);
    RunAppends(Next, s, first, second);
    steps, u := first + second, Run(Next, m, second).value;
    assert {a, b} <= WaitSet(u);
  }

  lemma BothLookAgain(s: State, a: nat, b: nat) returns (steps: seq<Step>, u: State)
    requires s.lock == None && |s.flags| > 0 && s.flags[0] == FLOW_GO && a != b && a in s.pcs && b in s.pcs
    requires s.pcs[a].Woken? && s.pcs[a].ch == 0 && !s.pcs[a].timedOut
    requires s.pcs[b].Woken? && s.pcs[b].ch == 0 && !s.pcs[b].timedOut
    ensures Run(Next, s, steps) == Some(u) && u.history == s.history
    ensures a in u.pcs && b in u.pcs && Succeeded(u.pcs[a]) && Succeeded(u.pcs[b])
  {
    var first := LooksAgain(s, a);
    var m := Run(Next, s, first).value;
    var second := LooksAgain(m, b);
    RunAppends(Next, s, first, second);
    steps, u := first + second, Run(Next, m, second).value;
  }

  lemma CountsOneGo(h: seq<Event>, signal: Event)
    requires |h| == 5 && h[4] == Recorded(0, FLOW_GO) && signal.Signalled?
    requires forall i | 0 <= i < 4 :: !h[i].Recorded?
    ensures GosRecorded(h + [signal]) == 1
  {
    assert (h + [signal])[..5] == h;
    assert h[..4][..3] == h[..3] && h[..3][..2] == h[..2] && h[..2][..1] == h[..1] && h[..1][..0] == [];
    assert GosRecorded(h[..1]) == 0;
    assert GosRecorded(h[..2]) == 0;
    assert GosRecorded(h[..3]) == 0;
    assert GosRecorded(h[..4]) == 0;
  }
}
