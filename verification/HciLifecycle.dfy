/** The locks of the BlueZ transport, built without the external power library: clients that enable, disable
    and send, and rx threads that only ever try the enable lock. An interleaved step system with any number
    of clients and threads; one step is one shared access of one actor. */
module HciLifecycle {
  import opened Runs

  datatype RadioStatus = Disabled | Enabling | Enabled

  datatype Call = Enable | Disable | Send

  datatype Pc =
    | Idle
    // ant_enable_radio
    | EnWantEnable | EnMark | EnWantTx | EnCheck | EnJoin(thread: nat) | EnForget | EnSetEnabling
    | EnTestThread | EnCreate | EnSetEnabled
    // ant_disable_radio
    | DisWantEnable | DisWantTx | DisSetDisabled | DisTestThread | DisJoin(thread: nat) | DisForget
    // both
    | UnlockTx | UnlockEnable
    // ant_tx_message
    | SendWantTx | SendCheck | SendWork | SendUnlockTx
    // ANTHCIRxThread
    | RxOpen | RxFilter | RxLoop | RxPoll | RxRead | RxTry | RxSetDisabled | RxForget | RxUnlock | RxClose | RxDead

  /** `thread` is RxParams.thread, with 0 for no thread; thread ids are never reused. */
  datatype State = State(
    clients: set<nat>,
    enableLock: Option<nat>,
    txLock: Option<nat>,
    thread: nat,
    status: RadioStatus,
    pcs: map<nat, Pc>)

  datatype Choice =
    | Go                     // the step the code prescribes
    | Begin(call: Call)      // an idle client makes a call
    | Create(id: nat)        // pthread_create returns this new thread
    | Fail                   // pthread_create, the rx socket, its filter, a poll or a read fails
    | Timeout                // poll times out

  type Step = ActorStep<Choice>

  function Init(clients: set<nat>): State {
    State(clients, None, None, 0, Disabled, map c | c in clients :: Idle)
  }

  function At(s: State, a: nat, pc: Pc): State {
    s.(pcs := s.pcs[a := pc])
  }

  function TakeEnable(s: State, a: nat, pc: Pc): Option<State> {
    if s.enableLock == None then Some(At(s, a, pc).(enableLock := Some(a))) else None
  }

  function TakeTx(s: State, a: nat, pc: Pc): Option<State> {
    if s.txLock == None then Some(At(s, a, pc).(txLock := Some(a))) else None
  }

  function Join(s: State, a: nat, t: nat, pc: Pc): Option<State> {
    if t in s.pcs && s.pcs[t] == RxDead then Some(At(s, a, pc)) else None
  }

  /** One step of `ant_enable_radio`; None when it is blocked or the choice does not apply. */
  function EnableNext(s: State, a: nat, c: Choice): Option<State>
    requires a in s.pcs
  {
    match (s.pcs[a], c)
    case (EnWantEnable, Go) => TakeEnable(s, a, EnMark)
    case (EnMark, Go) => Some(At(if s.status == Disabled then s.(status := Enabling) else s, a, EnWantTx))
    case (EnWantTx, Go) => TakeTx(s, a, EnCheck)
    case (EnCheck, Go) =>
      if s.status == Enabled then Some(At(s, a, EnTestThread))
      else if s.thread != 0 then Some(At(s, a, EnJoin(s.thread)))
      else Some(At(s, a, EnSetEnabling))
    case (EnJoin(t), Go) => Join(s, a, t, EnForget)
    case (EnForget, Go) => Some(At(s, a, EnSetEnabling).(thread := 0))
    case (EnSetEnabling, Go) => Some(At(s, a, EnTestThread).(status := Enabling))
    case (EnTestThread, Go) => Some(At(s, a, if s.thread != 0 then EnSetEnabled else EnCreate))
    case (EnCreate, Create(t)) =>
      if t != 0 && t !in s.pcs && t !in s.clients
      then Some(At(At(s, t, RxOpen), a, EnSetEnabled).(thread := t)) else None
    case (EnCreate, Fail) => Some(At(s, a, UnlockTx))
    case (EnSetEnabled, Go) => Some(At(s, a, UnlockTx).(status := Enabled))
    case _ => None
  }

  predicate InEnable(pc: Pc) {
    || pc.EnWantEnable? || pc.EnMark? || pc.EnWantTx? || pc.EnCheck? || pc.EnJoin? || pc.EnForget?
    || pc.EnSetEnabling? || pc.EnTestThread? || pc.EnCreate? || pc.EnSetEnabled?
  }

  /** One step of `ant_disable_radio`. */
  function DisableNext(s: State, a: nat, c: Choice): Option<State>
    requires a in s.pcs
  {
    match (s.pcs[a], c)
    case (DisWantEnable, Go) => TakeEnable(s, a, DisWantTx)
    case (DisWantTx, Go) => TakeTx(s, a, DisSetDisabled)
    case (DisSetDisabled, Go) => Some(At(s, a, DisTestThread).(status := Disabled))
    case (DisTestThread, Go) => Some(At(s, a, if s.thread != 0 then DisJoin(s.thread) else UnlockTx))
    case (DisJoin(t), Go) => Join(s, a, t, DisForget)
    case (DisForget, Go) => Some(At(s, a, UnlockTx).(thread := 0))
    case _ => None
  }

  predicate InDisable(pc: Pc) {
    pc.DisWantEnable? || pc.DisWantTx? || pc.DisSetDisabled? || pc.DisTestThread? || pc.DisJoin? || pc.DisForget?
  }

  /** One step of `ant_tx_message`. */
  function SendNext(s: State, a: nat, c: Choice): Option<State>
    requires a in s.pcs
  {
    match (s.pcs[a], c)
    case (SendWantTx, Go) => TakeTx(s, a, SendCheck)
    case (SendCheck, Go) => Some(At(s, a, if s.status == Enabled then SendWork else SendUnlockTx))
    case (SendWork, Go) => Some(At(s, a, SendUnlockTx))
    case (SendUnlockTx, Go) => Some(At(s, a, Idle).(txLock := None))
    case _ => None
  }

  predicate InSend(pc: Pc) {
    pc.SendWantTx? || pc.SendCheck? || pc.SendWork? || pc.SendUnlockTx?
  }

  /** One step of a client at the edges: starting a call, or the unlocks that end enabling and disabling. */
  function EdgeNext(s: State, a: nat, c: Choice): Option<State>
    requires a in s.pcs
  {
    match (s.pcs[a], c)
    case (Idle, Begin(Enable)) => Some(At(s, a, EnWantEnable))
    case (Idle, Begin(Disable)) => Some(At(s, a, DisWantEnable))
    case (Idle, Begin(Send)) => Some(At(s, a, SendWantTx))
    case (UnlockTx, Go) => Some(At(s, a, UnlockEnable).(txLock := None))
    case (UnlockEnable, Go) => Some(At(s, a, Idle).(enableLock := None))
    case _ => None
  }

  function ClientNext(s: State, a: nat, c: Choice): Option<State>
    requires a in s.pcs
  {
    if InEnable(s.pcs[a]) then EnableNext(s, a, c)
    else if InDisable(s.pcs[a]) then DisableNext(s, a, c)
    else if InSend(s.pcs[a]) then SendNext(s, a, c)
    else EdgeNext(s, a, c)
  }

  /** One step of an rx thread. */
  function RxNext(s: State, a: nat, c: Choice): Option<State>
    requires a in s.pcs
  {
    match (s.pcs[a], c)
    case (RxOpen, Go) => Some(At(s, a, RxFilter))
    case (RxOpen, Fail) => Some(At(s, a, RxDead))
    case (RxFilter, Go) => Some(At(s, a, RxLoop))
    case (RxFilter, Fail) => Some(At(s, a, RxTry))
    case (RxLoop, Go) => Some(At(s, a, if s.status == Enabled then RxPoll else RxTry))
    case (RxPoll, Go) => Some(At(s, a, RxRead))
    case (RxPoll, Timeout) => Some(At(s, a, RxLoop))
    case (RxPoll, Fail) => Some(At(s, a, RxTry))
    case (RxRead, Go) => Some(At(s, a, RxLoop))
    case (RxRead, Fail) => Some(At(s, a, RxTry))
    case (RxTry, Go) =>
      if s.enableLock == None then Some(At(s, a, RxSetDisabled).(enableLock := Some(a)))
      else Some(At(s, a, RxClose))
    case (RxSetDisabled, Go) => Some(At(s, a, RxForget).(status := Disabled))
    case (RxForget, Go) => Some(At(s, a, RxUnlock).(thread := 0))
    case (RxUnlock, Go) => Some(At(s, a, RxClose).(enableLock := None))
    case (RxClose, Go) => Some(At(s, a, RxDead))
    case _ => None
  }

  function Next(s: State, step: Step): Option<State> {
    if step.actor !in s.pcs then None
    else if step.actor in s.clients then ClientNext(s, step.actor, step.choice)
    else RxNext(s, step.actor, step.choice)
  }

  // ---------------------------------------------------------------- the invariant

  predicate IsRx(pc: Pc) {
    || pc.RxOpen? || pc.RxFilter? || pc.RxLoop? || pc.RxPoll? || pc.RxRead? || pc.RxTry?
    || pc.RxSetDisabled? || pc.RxForget? || pc.RxUnlock? || pc.RxClose? || pc.RxDead?
  }

  predicate HoldsEnable(pc: Pc) {
    || pc.EnMark? || pc.EnWantTx? || pc.DisWantTx? || HoldsBoth(pc) || pc.UnlockEnable?
    || pc.RxSetDisabled? || pc.RxForget? || pc.RxUnlock?
  }

  predicate HoldsBoth(pc: Pc) {
    || pc.EnCheck? || pc.EnJoin? || pc.EnForget? || pc.EnSetEnabling? || pc.EnTestThread?
    || pc.EnCreate? || pc.EnSetEnabled?
    || pc.DisSetDisabled? || pc.DisTestThread? || pc.DisJoin? || pc.DisForget? || pc.UnlockTx?
  }

  predicate HoldsTx(pc: Pc) {
    HoldsBoth(pc) || pc.SendCheck? || pc.SendWork? || pc.SendUnlockTx?
  }

  /** An rx thread that has not yet let go of its handle. */
  predicate Registered(pc: Pc) {
    || pc.RxOpen? || pc.RxFilter? || pc.RxLoop? || pc.RxPoll? || pc.RxRead? || pc.RxTry?
    || pc.RxSetDisabled? || pc.RxForget?
  }

  /** What the code knows at a point inside a critical section. */
  ghost predicate PointInv(s: State, pc: Pc) {
    match pc
    case EnJoin(t) => s.status != Enabled && t == s.thread && t != 0
    case EnForget => s.status != Enabled && s.thread in s.pcs && s.pcs[s.thread] == RxDead
    case EnSetEnabling => s.thread == 0
    case EnCreate => s.thread == 0
    case EnSetEnabled => s.thread != 0
    case DisTestThread => s.status == Disabled
    case DisJoin(t) => s.status == Disabled && t == s.thread && t != 0
    case DisForget => s.status == Disabled && s.thread in s.pcs && s.pcs[s.thread] == RxDead
    case RxForget => s.status == Disabled
    case RxUnlock => s.thread == 0
    case _ => true
  }

  ghost predicate ActorInv(s: State, a: nat)
    requires a in s.pcs
  {
    && (IsRx(s.pcs[a]) <==> a !in s.clients)
    && (HoldsEnable(s.pcs[a]) <==> s.enableLock == Some(a))
    && (HoldsTx(s.pcs[a]) <==> s.txLock == Some(a))
    && (Registered(s.pcs[a]) ==> s.thread == a)
    && PointInv(s, s.pcs[a])
  }

  ghost predicate SharedInv(s: State) {
    && s.clients <= s.pcs.Keys
    && (s.enableLock.Some? ==> s.enableLock.value in s.pcs)
    && (s.txLock.Some? ==> s.txLock.value in s.pcs)
    && (s.thread != 0 ==> s.thread in s.pcs && s.thread !in s.clients)
    && (s.status == Enabled ==> s.thread != 0)
    && 0 !in s.pcs
  }

  ghost predicate Inv(s: State) {
    && SharedInv(s)
    && forall a | a in s.pcs :: ActorInv(s, a)
  }

  /** The actor that moves keeps the shared part of the invariant and its own. */
  lemma EnableKeepsShared(s: State, a: nat, c: Choice)
    requires SharedInv(s) && a in s.clients && ActorInv(s, a)
    requires EnableNext(s, a, c).Some?
    ensures SharedInv(EnableNext(s, a, c).value) && EnableNext(s, a, c).value.clients == s.clients
  {
  }

  lemma EnableMoves(s: State, a: nat, c: Choice)
    requires SharedInv(s) && a in s.clients && ActorInv(s, a)
    requires EnableNext(s, a, c).Some?
    ensures ActorInv(EnableNext(s, a, c).value, a)
  {
  }

  lemma DisableKeepsShared(s: State, a: nat, c: Choice)
    requires SharedInv(s) && a in s.clients && ActorInv(s, a)
    requires DisableNext(s, a, c).Some?
    ensures SharedInv(DisableNext(s, a, c).value) && DisableNext(s, a, c).value.clients == s.clients
  {
  }

  lemma DisableMoves(s: State, a: nat, c: Choice)
    requires SharedInv(s) && a in s.clients && ActorInv(s, a)
    requires DisableNext(s, a, c).Some?
    ensures ActorInv(DisableNext(s, a, c).value, a)
  {
  }

  lemma SendKeepsShared(s: State, a: nat, c: Choice)
    requires SharedInv(s) && a in s.clients && ActorInv(s, a)
    requires SendNext(s, a, c).Some?
    ensures SharedInv(SendNext(s, a, c).value) && SendNext(s, a, c).value.clients == s.clients
  {
  }

  lemma SendMoves(s: State, a: nat, c: Choice)
    requires SharedInv(s) && a in s.clients && ActorInv(s, a)
    requires SendNext(s, a, c).Some?
    ensures ActorInv(SendNext(s, a, c).value, a)
  {
  }

  lemma EdgeKeepsShared(s: State, a: nat, c: Choice)
    requires SharedInv(s) && a in s.clients && ActorInv(s, a)
    requires EdgeNext(s, a, c).Some?
    ensures SharedInv(EdgeNext(s, a, c).value) && EdgeNext(s, a, c).value.clients == s.clients
  {
  }

  lemma UnlockMoves(s: State, a: nat, c: Choice)
    requires SharedInv(s) && a in s.clients && ActorInv(s, a)
    requires (s.pcs[a].UnlockTx? || s.pcs[a].UnlockEnable?) && EdgeNext(s, a, c).Some?
    ensures ActorInv(EdgeNext(s, a, c).value, a)
  {
  }

  lemma EdgeMoves(s: State, a: nat, c: Choice)
    requires SharedInv(s) && a in s.clients && ActorInv(s, a)
    requires EdgeNext(s, a, c).Some?
    ensures ActorInv(EdgeNext(s, a, c).value, a)
  {
    if s.pcs[a].UnlockTx? || s.pcs[a].UnlockEnable? {
      UnlockMoves(s, a, c);
    }
  }

  lemma ClientMoves(s: State, a: nat, c: Choice)
    requires SharedInv(s) && a in s.clients && ActorInv(s, a)
    requires ClientNext(s, a, c).Some?
    ensures var u := ClientNext(s, a, c).value; SharedInv(u) && u.clients == s.clients && ActorInv(u, a)
  {
    if InEnable(s.pcs[a]) {
      EnableKeepsShared(s, a, c);
      EnableMoves(s, a, c);
    } else if InDisable(s.pcs[a]) {
      DisableKeepsShared(s, a, c);
      DisableMoves(s, a, c);
    } else if InSend(s.pcs[a]) {
      SendKeepsShared(s, a, c);
      SendMoves(s, a, c);
    } else {
      EdgeKeepsShared(s, a, c);
      EdgeMoves(s, a, c);
    }
  }

  lemma RxKeepsShared(s: State, a: nat, c: Choice)
    requires SharedInv(s) && a in s.pcs && a !in s.clients && ActorInv(s, a)
    requires RxNext(s, a, c).Some?
    ensures SharedInv(RxNext(s, a, c).value) && RxNext(s, a, c).value.clients == s.clients
  {
  }

  /** The part of an rx thread that it runs with the enable lock. */
  predicate CleansUp(pc: Pc) {
    pc.RxTry? || pc.RxSetDisabled? || pc.RxForget? || pc.RxUnlock?
  }

  lemma RxCleanupMoves(s: State, a: nat, c: Choice)
    requires SharedInv(s) && a in s.pcs && a !in s.clients && ActorInv(s, a)
    requires CleansUp(s.pcs[a]) && RxNext(s, a, c).Some?
    ensures ActorInv(RxNext(s, a, c).value, a)
  {
  }

  lemma RxMoves(s: State, a: nat, c: Choice)
    requires SharedInv(s) && a in s.pcs && a !in s.clients && ActorInv(s, a)
    requires RxNext(s, a, c).Some?
    ensures ActorInv(RxNext(s, a, c).value, a)
  {
    if CleansUp(s.pcs[a]) {
      RxCleanupMoves(s, a, c);
    }
  }

  /** Any other actor keeps its part too, because the lock each point holds excludes the change. */
  lemma EnableLeavesOthers(s: State, a: nat, c: Choice, b: nat)
    requires SharedInv(s) && a in s.clients && ActorInv(s, a)
    requires EnableNext(s, a, c).Some?
    requires b != a && b in s.pcs && ActorInv(s, b)
    ensures b in EnableNext(s, a, c).value.pcs && ActorInv(EnableNext(s, a, c).value, b)
  {
  }

  lemma DisableLeavesOthers(s: State, a: nat, c: Choice, b: nat)
    requires SharedInv(s) && a in s.clients && ActorInv(s, a)
    requires DisableNext(s, a, c).Some?
    requires b != a && b in s.pcs && ActorInv(s, b)
    ensures b in DisableNext(s, a, c).value.pcs && ActorInv(DisableNext(s, a, c).value, b)
  {
  }

  lemma SendLeavesOthers(s: State, a: nat, c: Choice, b: nat)
    requires SharedInv(s) && a in s.clients && ActorInv(s, a)
    requires SendNext(s, a, c).Some?
    requires b != a && b in s.pcs && ActorInv(s, b)
    ensures b in SendNext(s, a, c).value.pcs && ActorInv(SendNext(s, a, c).value, b)
  {
  }

  lemma EdgeLeavesOthers(s: State, a: nat, c: Choice, b: nat)
    requires SharedInv(s) && a in s.clients && ActorInv(s, a)
    requires EdgeNext(s, a, c).Some?
    requires b != a && b in s.pcs && ActorInv(s, b)
    ensures b in EdgeNext(s, a, c).value.pcs && ActorInv(EdgeNext(s, a, c).value, b)
  {
  }

  lemma ClientLeavesOthers(s: State, a: nat, c: Choice, b: nat)
    requires SharedInv(s) && a in s.clients && ActorInv(s, a)
    requires ClientNext(s, a, c).Some?
    requires b != a && b in s.pcs && ActorInv(s, b)
    ensures b in ClientNext(s, a, c).value.pcs && ActorInv(ClientNext(s, a, c).value, b)
  {
    if InEnable(s.pcs[a]) {
      EnableLeavesOthers(s, a, c, b);
    } else if InDisable(s.pcs[a]) {
      DisableLeavesOthers(s, a, c, b);
    } else if InSend(s.pcs[a]) {
      SendLeavesOthers(s, a, c, b);
    } else {
      EdgeLeavesOthers(s, a, c, b);
    }
  }

  lemma RxLeavesOthers(s: State, a: nat, c: Choice, b: nat)
    requires SharedInv(s) && a in s.pcs && a !in s.clients && ActorInv(s, a)
    requires RxNext(s, a, c).Some?
    requires b != a && b in s.pcs && ActorInv(s, b)
    ensures b in RxNext(s, a, c).value.pcs && ActorInv(RxNext(s, a, c).value, b)
  {
  }

  /** The actors after a step are the actors before it, and possibly a new rx thread at its start. */
  lemma NewThread(s: State, a: nat, c: Choice, b: nat)
    requires SharedInv(s) && a in s.clients && ActorInv(s, a)
    requires EnableNext(s, a, c).Some?
    requires b in EnableNext(s, a, c).value.pcs && b !in s.pcs
    ensures ActorInv(EnableNext(s, a, c).value, b)
  {
  }

  lemma OnlyEnableCreates(s: State, a: nat, c: Choice)
    requires a in s.pcs
    ensures DisableNext(s, a, c).Some? ==> DisableNext(s, a, c).value.pcs.Keys == s.pcs.Keys
    ensures SendNext(s, a, c).Some? ==> SendNext(s, a, c).value.pcs.Keys == s.pcs.Keys
    ensures EdgeNext(s, a, c).Some? ==> EdgeNext(s, a, c).value.pcs.Keys == s.pcs.Keys
    ensures RxNext(s, a, c).Some? ==> RxNext(s, a, c).value.pcs.Keys == s.pcs.Keys
  {
  }

  lemma StepKeepsInv(s: State, step: Step)
    requires Inv(s) && Next(s, step).Some?
    ensures Inv(Next(s, step).value) && Next(s, step).value.clients == s.clients
  {
    var a, c := step.actor, step.choice;
    var u := Next(s, step).value;
    if a in s.clients {
      ClientMoves(s, a, c);
    } else {
      RxKeepsShared(s, a, c);
      RxMoves(s, a, c);
    }
    forall b | b in u.pcs
      ensures ActorInv(u, b)
    {
      if b in s.pcs && b != a {
        if a in s.clients {
          ClientLeavesOthers(s, a, c, b);
        } else {
          RxLeavesOthers(s, a, c, b);
        }
      } else if b != a {
        OnlyEnableCreates(s, a, c);
        NewThread(s, a, c, b);
      }
    }
  }

  lemma {:induction false} EveryRunKeepsInv(clients: set<nat>, steps: seq<Step>)
    requires 0 !in clients && Run(Next, Init(clients), steps).Some?
    ensures Inv(Run(Next, Init(clients), steps).value)
  {
    if steps != [] {
      EveryRunKeepsInv(clients, steps[..|steps| - 1]);
      var u := Run(Next, Init(clients), steps[..|steps| - 1]).value;
      StepKeepsInv(u, steps[|steps| - 1]);
    }
  }

  /** While somebody holds the enable lock, nobody else writes the status or the thread handle: what a step
      reads of them together, it might as well have read one by one. */
  lemma OnlyHolderWrites(s: State, holder: nat, step: Step)
    requires Inv(s) && s.enableLock == Some(holder) && step.actor != holder && Next(s, step).Some?
    ensures Next(s, step).value.status == s.status && Next(s, step).value.thread == s.thread
    ensures Next(s, step).value.enableLock == s.enableLock
  {
    assert ActorInv(s, step.actor);
  }

  // ---------------------------------------------------------------- no cycle of waits

  /** Actor `a` cannot move before actor `b` does something. */
  ghost predicate Waits(s: State, a: nat, b: nat) {
    && a in s.pcs && b in s.pcs
    && match s.pcs[a]
       case EnWantEnable => s.enableLock == Some(b)
       case DisWantEnable => s.enableLock == Some(b)
       case EnWantTx => s.txLock == Some(b)
       case DisWantTx => s.txLock == Some(b)
       case SendWantTx => s.txLock == Some(b)
       case EnJoin(t) => b == t && s.pcs[t] != RxDead
       case DisJoin(t) => b == t && s.pcs[t] != RxDead
       case _ => false
  }

  /** The lock order: enableLock, then txLock, then a join; everything else waits for nothing. */
  function Rank(pc: Pc): nat {
    match pc
    case EnWantEnable => 3
    case DisWantEnable => 3
    case EnWantTx => 2
    case DisWantTx => 2
    case SendWantTx => 2
    case EnJoin(_) => 1
    case DisJoin(_) => 1
    case _ => 0
  }

  lemma WaitsGoDown(s: State, a: nat, b: nat)
    requires Inv(s) && Waits(s, a, b)
    ensures Rank(s.pcs[b]) < Rank(s.pcs[a])
  {
    assert ActorInv(s, a) && ActorInv(s, b);
  }

  /** `chain[0]` waits for `chain[1]`, and so on. */
  ghost predicate WaitChain(s: State, chain: seq<nat>) {
    && chain != []
    && (forall i | 0 <= i < |chain| :: chain[i] in s.pcs)
    && (forall i, j | 0 <= i < |chain| && j == i + 1 && j < |chain| :: Waits(s, chain[i], chain[j]))
  }

  lemma {:induction false} ChainsGoDown(s: State, chain: seq<nat>, k: nat)
    requires Inv(s) && WaitChain(s, chain) && k < |chain|
    ensures Rank(s.pcs[chain[k]]) <= Rank(s.pcs[chain[0]])
  {
    if k > 0 {
      ChainsGoDown(s, chain, k - 1);
      WaitsGoDown(s, chain[k - 1], chain[k]);
    }
  }

  /** In no reachable state does a chain of waits close into a cycle. */
  lemma NoCycleOfWaits(clients: set<nat>, steps: seq<Step>, chain: seq<nat>)
    requires 0 !in clients && Run(Next, Init(clients), steps).Some?
    requires WaitChain(Run(Next, Init(clients), steps).value, chain)
    ensures !Waits(Run(Next, Init(clients), steps).value, chain[|chain| - 1], chain[0])
  {
    var s := Run(Next, Init(clients), steps).value;
    EveryRunKeepsInv(clients, steps);
    ChainsGoDown(s, chain, |chain| - 1);
    if Waits(s, chain[|chain| - 1], chain[0]) {
      WaitsGoDown(s, chain[|chain| - 1], chain[0]);
    }
  }

  /** A choice that `a` can take when it is not blocked. */
  function SomeChoice(pc: Pc): Choice {
    match pc
    case Idle => Begin(Send)
    case EnCreate => Fail
    case _ => Go
  }

  lemma BlockedOnlyByWaiting(s: State, a: nat)
    requires Inv(s) && a in s.pcs && s.pcs[a] != RxDead
    ensures Next(s, Step(a, SomeChoice(s.pcs[a]))).Some? || exists b :: Waits(s, a, b)
  {
    assert ActorInv(s, a);
    match s.pcs[a] {
      case EnWantEnable => if s.enableLock != None { assert Waits(s, a, s.enableLock.value); }
      case DisWantEnable => if s.enableLock != None { assert Waits(s, a, s.enableLock.value); }
      case EnWantTx => if s.txLock != None { assert Waits(s, a, s.txLock.value); }
      case DisWantTx => if s.txLock != None { assert Waits(s, a, s.txLock.value); }
      case SendWantTx => if s.txLock != None { assert Waits(s, a, s.txLock.value); }
      case EnJoin(t) => if s.pcs[t] != RxDead { assert Waits(s, a, t); }
      case DisJoin(t) => if s.pcs[t] != RxDead { assert Waits(s, a, t); }
      case _ =>
    }
  }

  /** Whoever is held up, someone at the end of its chain of waits can move: no reachable state is stuck. */
  lemma SomeoneCanMove(s: State, a: nat) returns (chain: seq<nat>)
    requires Inv(s) && a in s.pcs && s.pcs[a] != RxDead
    ensures WaitChain(s, chain) && chain[0] == a
    ensures var last := chain[|chain| - 1]; Next(s, Step(last, SomeChoice(s.pcs[last]))).Some?
    decreases Rank(s.pcs[a])
  {
    BlockedOnlyByWaiting(s, a);
    if Next(s, Step(a, SomeChoice(s.pcs[a]))).Some? {
      chain := [a];
    } else {
      var b :| Waits(s, a, b);
      WaitsGoDown(s, a, b);
      HoldersLive(s, a, b);
      var rest := SomeoneCanMove(s, b);
      chain := [a] + rest;
    }
  }

  lemma HoldersLive(s: State, a: nat, b: nat)
    requires Inv(s) && Waits(s, a, b)
    ensures s.pcs[b] != RxDead
  {
    assert ActorInv(s, b);
  }

  // ---------------------------------------------------------------- joins end

  ghost predicate Joining(s: State, a: nat, t: nat) {
    a in s.clients && a in s.pcs && (s.pcs[a] == EnJoin(t) || s.pcs[a] == DisJoin(t))
  }

  /** Steps an rx thread has left once the radio is not enabled and the enable lock is taken. */
  function StepsLeft(pc: Pc): nat {
    match pc
    case RxOpen => 5
    case RxFilter => 4
    case RxPoll => 5
    case RxRead => 4
    case RxLoop => 3
    case RxTry => 2
    case RxClose => 1
    case _ => 0
  }

  lemma JoinedThreadAdvances(s: State, a: nat, t: nat, c: Choice)
    requires Inv(s) && Joining(s, a, t) && Next(s, Step(t, c)).Some?
    ensures StepsLeft(Next(s, Step(t, c)).value.pcs[t]) < StepsLeft(s.pcs[t])
    ensures Joining(Next(s, Step(t, c)).value, a, t)
  {
    assert ActorInv(s, a) && ActorInv(s, t);
  }

  lemma OtherStepsSpareThread(s: State, a: nat, t: nat, step: Step)
    requires Inv(s) && t in s.pcs && t !in s.clients && step.actor != t && Next(s, step).Some?
    requires Joining(s, a, t) || s.pcs[t] == RxDead
    ensures var u := Next(s, step).value;
            && t in u.pcs && u.pcs[t] == s.pcs[t]
            && (Joining(u, a, t) || u.pcs[t] == RxDead)
  {
    assert ActorInv(s, step.actor);
  }

  /** Client `a` is joining `t`, or was and `t` is over. */
  ghost predicate JoiningOrOver(s: State, a: nat, t: nat) {
    Inv(s) && t in s.pcs && t !in s.clients && (Joining(s, a, t) || s.pcs[t] == RxDead)
  }

  lemma OneStepWhileJoining(s: State, a: nat, t: nat, step: Step)
    requires JoiningOrOver(s, a, t) && Next(s, step).Some?
    ensures var u := Next(s, step).value;
            && JoiningOrOver(u, a, t)
            && StepsLeft(u.pcs[t]) + (if step.actor == t then 1 else 0) <= StepsLeft(s.pcs[t])
  {
    StepKeepsInv(s, step);
    if step.actor == t {
      JoinedThreadAdvances(s, a, t, step.choice);
    } else {
      OtherStepsSpareThread(s, a, t, step);
    }
  }

  /** A joined rx thread reaches its end: in every run that starts with some client inside `pthread_join`
      on `t`, thread `t` takes at most the steps it had left (never more than five). */
  lemma {:induction false} JoinedThreadEnds(s: State, a: nat, t: nat, steps: seq<Step>)
    requires JoiningOrOver(s, a, t) && Run(Next, s, steps).Some?
    ensures JoiningOrOver(Run(Next, s, steps).value, a, t)
    ensures StepsOf(steps, t) + StepsLeft(Run(Next, s, steps).value.pcs[t]) <= StepsLeft(s.pcs[t]) <= 5
  {
    if steps != [] {
      var front, last := steps[..|steps| - 1], steps[|steps| - 1];
      JoinedThreadEnds(s, a, t, front);
      OneStepWhileJoining(Run(Next, s, front).value, a, t, last);
    }
  }

  /** ... and until it is dead it can always take a step, and then the join can return. */
  lemma JoinedThreadCanMove(s: State, a: nat, t: nat)
    requires Inv(s) && Joining(s, a, t)
    ensures t in s.pcs
    ensures if s.pcs[t] == RxDead then Next(s, Step(a, Go)).Some? else Next(s, Step(t, Go)).Some?
  {
    assert ActorInv(s, a) && ActorInv(s, t);
  }

  // ---------------------------------------------------------------- enabled without a receiver

  /** A step with which an rx thread gives up without any trace: it cannot open its socket, or it has left
      its loop and finds the enable lock taken. */
  ghost predicate GivesUp(s: State, step: Step, t: nat) {
    && step.actor == t && t in s.pcs
    && ((s.pcs[t] == RxOpen && step.choice == Fail) || (s.pcs[t] == RxTry && step.choice == Go && s.enableLock.Some?))
  }

  /** Somewhere in the run thread `t` gave up. */
  ghost predicate GaveUp(clients: set<nat>, steps: seq<Step>, t: nat) {
    steps != [] && Run(Next, Init(clients), steps[..|steps| - 1]).Some?
    && (|| GaveUp(clients, steps[..|steps| - 1], t)
        || GivesUp(Run(Next, Init(clients), steps[..|steps| - 1]).value, steps[|steps| - 1], t))
  }

  /** Past the point where a thread that did not give up has cleared its handle. */
  predicate PastHandle(pc: Pc) {
    pc.RxUnlock? || pc.RxClose? || pc.RxDead?
  }

  /** What having given up shows of a thread. */
  ghost predicate Traced(s: State, t: nat, gaveUp: bool) {
    && (t !in s.pcs ==> !gaveUp)
    && (t in s.pcs && t !in s.clients ==>
          if gaveUp then s.pcs[t] == RxClose || s.pcs[t] == RxDead
          else PastHandle(s.pcs[t]) ==> s.thread != t)
  }

  /** A thread's own step. */
  lemma OwnStepTraced(s: State, t: nat, c: Choice, gaveUp: bool)
    requires Inv(s) && t in s.pcs && t !in s.clients && RxNext(s, t, c).Some? && Traced(s, t, gaveUp)
    ensures Traced(RxNext(s, t, c).value, t, gaveUp || GivesUp(s, Step(t, c), t))
  {
    assert ActorInv(s, t);
  }

  /** What a step of somebody else does about a thread: it leaves it where it is, or creates it. */
  ghost predicate Spares(s: State, u: State, t: nat) {
    && (t in s.pcs ==> t in u.pcs && u.pcs[t] == s.pcs[t] && (u.thread == t ==> s.thread == t))
    && (t !in s.pcs && t in u.pcs ==> u.pcs[t] == RxOpen)
    && u.clients == s.clients
  }

  lemma EnableSpares(s: State, a: nat, c: Choice, t: nat)
    requires a in s.pcs && a != t && t != 0 && EnableNext(s, a, c).Some?
    ensures Spares(s, EnableNext(s, a, c).value, t)
  {
  }

  lemma DisableSpares(s: State, a: nat, c: Choice, t: nat)
    requires a in s.pcs && a != t && t != 0 && DisableNext(s, a, c).Some?
    ensures Spares(s, DisableNext(s, a, c).value, t)
  {
  }

  lemma SendSpares(s: State, a: nat, c: Choice, t: nat)
    requires a in s.pcs && a != t && t != 0 && SendNext(s, a, c).Some?
    ensures Spares(s, SendNext(s, a, c).value, t)
  {
  }

  lemma EdgeSpares(s: State, a: nat, c: Choice, t: nat)
    requires a in s.pcs && a != t && t != 0 && EdgeNext(s, a, c).Some?
    ensures Spares(s, EdgeNext(s, a, c).value, t)
  {
  }

  lemma RxSpares(s: State, a: nat, c: Choice, t: nat)
    requires a in s.pcs && a != t && t != 0 && RxNext(s, a, c).Some?
    ensures Spares(s, RxNext(s, a, c).value, t)
  {
  }

  lemma OtherStepTraced(s: State, t: nat, step: Step, gaveUp: bool)
    requires t !in s.clients && t != 0 && step.actor != t && Next(s, step).Some? && Traced(s, t, gaveUp)
    ensures Traced(Next(s, step).value, t, gaveUp)
  {
    var a, c := step.actor, step.choice;
    if a !in s.clients {
      RxSpares(s, a, c, t);
    } else if InEnable(s.pcs[a]) {
      EnableSpares(s, a, c, t);
    } else if InDisable(s.pcs[a]) {
      DisableSpares(s, a, c, t);
    } else if InSend(s.pcs[a]) {
      SendSpares(s, a, c, t);
    } else {
      EdgeSpares(s, a, c, t);
    }
  }

  lemma {:induction false} RunTraced(clients: set<nat>, steps: seq<Step>, t: nat)
    requires 0 !in clients && t !in clients && t != 0 && Run(Next, Init(clients), steps).Some?
    ensures Traced(Run(Next, Init(clients), steps).value, t, GaveUp(clients, steps, t))
  {
    if steps != [] {
      var front, last := steps[..|steps| - 1], steps[|steps| - 1];
      RunTraced(clients, front, t);
      EveryRunKeepsInv(clients, front);
      RunKeepsClients(clients, front);
      var s := Run(Next, Init(clients), front).value;
      if last.actor == t {
        OwnStepTraced(s, t, last.choice, GaveUp(clients, front, t));
      } else {
        OtherStepTraced(s, t, last, GaveUp(clients, front, t));
      }
    }
  }

  lemma {:induction false} RunKeepsClients(clients: set<nat>, steps: seq<Step>)
    requires 0 !in clients && Run(Next, Init(clients), steps).Some?
    ensures Run(Next, Init(clients), steps).value.clients == clients
  {
    if steps != [] {
      RunKeepsClients(clients, steps[..|steps| - 1]);
      EveryRunKeepsInv(clients, steps[..|steps| - 1]);
      StepKeepsInv(Run(Next, Init(clients), steps[..|steps| - 1]).value, steps[|steps| - 1]);
    }
  }

  /** Exactly when ENABLED means that there is a receiver: in every run, while the status is ENABLED the
      recorded thread is still on duty if and only if it has not given up. */
  lemma EnabledHasReceiverIffItDidNotGiveUp(clients: set<nat>, steps: seq<Step>)
    requires 0 !in clients && Run(Next, Init(clients), steps).Some?
    requires Run(Next, Init(clients), steps).value.status == Enabled
    ensures var s := Run(Next, Init(clients), steps).value;
            && s.thread in s.pcs
            && (Registered(s.pcs[s.thread]) <==> !GaveUp(clients, steps, s.thread))
  {
    var s := Run(Next, Init(clients), steps).value;
    EveryRunKeepsInv(clients, steps);
    RunKeepsClients(clients, steps);
    RunTraced(clients, steps, s.thread);
    assert ActorInv(s, s.thread);
  }

  lemma ClientReachesCreate() returns (steps: seq<Step>)
    ensures Run(Next, Init({1}), steps) == Some(State({1}, Some(1), Some(1), 0, Enabling, map[1 := EnCreate]))
  {
    var e := Some(1);
    var states := [
      Init({1}),
      State({1}, None, None, 0, Disabled, map[1 := EnWantEnable]),
      State({1}, e, None, 0, Disabled, map[1 := EnMark]),
      State({1}, e, None, 0, Enabling, map[1 := EnWantTx]),
      State({1}, e, e, 0, Enabling, map[1 := EnCheck]),
      State({1}, e, e, 0, Enabling, map[1 := EnSetEnabling]),
      State({1}, e, e, 0, Enabling, map[1 := EnTestThread]),
      State({1}, e, e, 0, Enabling, map[1 := EnCreate])];
    steps := [Step(1, Begin(Enable))] + seq(6, _ => Step(1, Go));
    assert states[0].pcs == map[1 := Idle];
    forall i | 0 <= i < |steps|
      ensures Next(states[i], steps[i]) == Some(states[i + 1])
    {
      assert Next(states[i], steps[i]).value.pcs == states[i + 1].pcs;
    }
    TraceIsRun(Next, states, steps);
  }

  lemma ThreadDiesEarly() returns (steps: seq<Step>)
    ensures Run(Next, State({1}, Some(1), Some(1), 0, Enabling, map[1 := EnCreate]), steps)
         == Some(State({1}, Some(1), Some(1), 2, Enabling, map[1 := EnSetEnabled, 2 := RxDead]))
  {
    var e := Some(1);
    var s := State({1}, e, e, 0, Enabling, map[1 := EnCreate]);
    var u := State({1}, e, e, 2, Enabling, map[1 := EnSetEnabled, 2 := RxOpen]);
    assert Next(s, Step(1, Create(2))).value.pcs == u.pcs;
    TraceIsRun(Next, [s, u], [Step(1, Create(2))]);
    var dying := FindsItNotEnabled();
    RunAppends(Next, s, [Step(1, Create(2))], dying);
    steps := [Step(1, Create(2))] + dying;
  }

  lemma FindsItNotEnabled() returns (steps: seq<Step>)
    ensures Run(Next, State({1}, Some(1), Some(1), 2, Enabling, map[1 := EnSetEnabled, 2 := RxOpen]), steps)
         == Some(State({1}, Some(1), Some(1), 2, Enabling, map[1 := EnSetEnabled, 2 := RxDead]))
  {
    var pcs := [RxOpen, RxFilter, RxLoop, RxTry, RxClose, RxDead];
    var states := seq(6, i requires 0 <= i < 6 =>
      State({1}, Some(1), Some(1), 2, Enabling, map[1 := EnSetEnabled, 2 := pcs[i]]));
    steps := seq(5, _ => Step(2, Go));
    forall i | 0 <= i < |steps|
      ensures Next(states[i], steps[i]) == Some(states[i + 1])
    {
      assert Next(states[i], steps[i]).value.pcs == states[i + 1].pcs;
    }
    TraceIsRun(Next, states, steps);
  }

  lemma EnableReturns() returns (steps: seq<Step>)
    ensures Run(Next, State({1}, Some(1), Some(1), 2, Enabling, map[1 := EnSetEnabled, 2 := RxDead]), steps)
         == Some(State({1}, None, None, 2, Enabled, map[1 := Idle, 2 := RxDead]))
  {
    var e := Some(1);
    var states := [
      State({1}, e, e, 2, Enabling, map[1 := EnSetEnabled, 2 := RxDead]),
      State({1}, e, e, 2, Enabled, map[1 := UnlockTx, 2 := RxDead]),
      State({1}, e, None, 2, Enabled, map[1 := UnlockEnable, 2 := RxDead]),
      State({1}, None, None, 2, Enabled, map[1 := Idle, 2 := RxDead])];
    steps := [Step(1, Go), Step(1, Go), Step(1, Go)];
    forall i | 0 <= i < |steps|
      ensures Next(states[i], steps[i]) == Some(states[i + 1])
    {
      assert Next(states[i], steps[i]).value.pcs == states[i + 1].pcs;
    }
    TraceIsRun(Next, states, steps);
  }

  /** The thread is created before the status says ENABLED, so it can find the radio not enabled and leave.
      The enable call still succeeds: a run after which every call has returned, the status is ENABLED and
      the recorded rx thread is dead. */
  lemma EnabledWithDeadReceiver() returns (steps: seq<Step>)
    ensures Run(Next, Init({1}), steps) == Some(State({1}, None, None, 2, Enabled, map[1 := Idle, 2 := RxDead]))
  {
    var first := ClientReachesCreate();
    var second := ThreadDiesEarly();
    var third := EnableReturns();
    RunAppends(Next, Init({1}), first, second);
    RunAppends(Next, Init({1}), first + second, third);
    steps := first + second + third;
  }

  /** The other way to give up: the thread cannot open its socket, and nobody is told, even when the call that
      created it has long returned. */
  lemma EnabledWithoutSocket() returns (steps: seq<Step>)
    ensures Run(Next, Init({1}), steps) == Some(State({1}, None, None, 2, Enabled, map[1 := Idle, 2 := RxDead]))
    ensures steps != [] && steps[|steps| - 1] == Step(2, Fail)
  {
    var first := ClientReachesCreate();
    var s := State({1}, Some(1), Some(1), 0, Enabling, map[1 := EnCreate]);
    var m := State({1}, Some(1), Some(1), 2, Enabling, map[1 := EnSetEnabled, 2 := RxOpen]);
    assert Next(s, Step(1, Create(2))).value.pcs == m.pcs;
    TraceIsRun(Next, [s, m], [Step(1, Create(2))]);
    var rest := ReturnsThenFails();
    RunAppends(Next, Init({1}), first, [Step(1, Create(2))]);
    RunAppends(Next, Init({1}), first + [Step(1, Create(2))], rest);
    steps := first + [Step(1, Create(2))] + rest;
  }

  lemma ReturnsThenFails() returns (steps: seq<Step>)
    ensures Run(Next, State({1}, Some(1), Some(1), 2, Enabling, map[1 := EnSetEnabled, 2 := RxOpen]), steps)
         == Some(State({1}, None, None, 2, Enabled, map[1 := Idle, 2 := RxDead]))
    ensures steps != [] && steps[|steps| - 1] == Step(2, Fail)
  {
    var e := Some(1);
    var states := [
      State({1}, e, e, 2, Enabling, map[1 := EnSetEnabled, 2 := RxOpen]),
      State({1}, e, e, 2, Enabled, map[1 := UnlockTx, 2 := RxOpen]),
      State({1}, e, None, 2, Enabled, map[1 := UnlockEnable, 2 := RxOpen]),
      State({1}, None, None, 2, Enabled, map[1 := Idle, 2 := RxOpen]),
      State({1}, None, None, 2, Enabled, map[1 := Idle, 2 := RxDead])];
    steps := [Step(1, Go), Step(1, Go), Step(1, Go), Step(2, Fail)];
    forall i | 0 <= i < |steps|
      ensures Next(states[i], steps[i]) == Some(states[i + 1])
    {
      assert Next(states[i], steps[i]).value.pcs == states[i + 1].pcs;
    }
    TraceIsRun(Next, states, steps);
  }
}
