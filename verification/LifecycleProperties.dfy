/** What the lifecycle protocol guarantees in every reachable state, whatever the interleaving. */
module LifecycleProperties {
  import opened Radio
  import opened Runs
  import opened Lifecycle
  import opened LifecycleInvariant

  ghost predicate Reached(s: State) {
    exists build: Build, clients: set<nat>, channels: nat, steps: seq<Step> ::
      0 !in clients && Run(Next, Init(build, clients, channels), steps) == Some(s)
  }

  lemma ReachedKeepsInv(s: State)
    requires Reached(s)
    ensures Inv(s)
  {
    var build: Build, clients: set<nat>, channels: nat, steps: seq<Step> :|
      0 !in clients && Run(Next, Init(build, clients, channels), steps) == Some(s);
    EveryRunKeepsInv(build, clients, channels, steps);
  }

  // ---------------------------------------------------------------- threads

  /** At most one rx thread is between its creation and the clearing of its handle, and the handle names it;
      a nonzero handle names that thread or one that is over. */
  lemma OneRegisteredThread(s: State, t: nat, u: nat)
    requires Reached(s) && t in s.pcs && u in s.pcs
    requires Registered(s.pcs[t]) && Registered(s.pcs[u])
    ensures t == u == s.handle
  {
    ReachedKeepsInv(s);
    assert ActorInv(s, t) && ActorInv(s, u);
  }

  lemma HandleNamesAThread(s: State)
    requires Reached(s) && s.handle != 0
    ensures s.handle in s.pcs && s.handle !in s.clients
    ensures Registered(s.pcs[s.handle]) || s.pcs[s.handle] == Dead
  {
    ReachedKeepsInv(s);
  }

  ghost predicate Joining(s: State, a: nat, t: nat) {
    a in s.pcs && s.pcs[a].Locked? && s.pcs[a].at == InDisable(Join(t))
  }

  /** Only clients join, and only rx threads are joined: no thread ever joins itself. */
  lemma NoThreadJoinsItself(s: State, a: nat, t: nat)
    requires Reached(s) && Joining(s, a, t)
    ensures a in s.clients && t !in s.clients && t == s.handle
    ensures a != t
  {
    ReachedKeepsInv(s);
    assert ActorInv(s, a);
  }

  /** While somebody holds the lock, nobody else writes the handle or the descriptors. What a step reads of them
      together with the run flag, it might as well have read one by one, with the run flag last. */
  lemma OnlyHolderWrites(s: State, holder: nat, step: Step)
    requires Reached(s) && s.lock == Some(holder) && step.actor != holder && Next(s, step).Some?
    ensures var u := Next(s, step).value;
            u.handle == s.handle && u.fds == s.fds && u.open == s.open && u.lock == s.lock
  {
    ReachedKeepsInv(s);
    var a, c := step.actor, step.choice;
    assert ActorInv(s, a);
    match s.pcs[a] {
      case Looping(fds, turn) =>
        LoopSpares(s, a, fds, turn, c);
        LoopRunsDown(s, a, fds, turn, c);
      case Leaving(exit) => ExitSpares(s, a, exit, c);
      case _ => StartSpares(s, a, c);
    }
  }

  /** In a reachable state a thread and a raised run flag mean that every channel is open. */
  lemma RunningMeansOpen(s: State)
    requires Reached(s) && s.run && s.handle != 0
    ensures AllOpen(s.fds)
  {
    ReachedKeepsInv(s);
    if s.lock.Some? {
      assert ActorInv(s, s.lock.value);
    }
  }

  /** So the status is never UNKNOWN, and ENABLED needs no look at the channels. */
  lemma NeverUnknown(s: State)
    requires Reached(s) && |s.fds| > 0
    ensures StatusOf(s) != Unknown
    ensures StatusOf(s) == Enabled <==> !s.resetting && s.run && s.handle != 0
  {
    if s.run && s.handle != 0 {
      RunningMeansOpen(s);
      assert s.fds[0] != -1;
    }
  }

  // ---------------------------------------------------------------- descriptors

  /** While an rx thread is in its poll loop, what it captured is what is recorded, and all of it is open. */
  lemma CapturedDescriptorsStayOpen(s: State, t: nat)
    requires Reached(s) && t in s.pcs && s.pcs[t].Looping? && s.pcs[t].turn != Capture
    ensures s.pcs[t].captured == s.fds && AllOpen(s.fds)
    ensures forall i | 0 <= i < |s.fds| :: s.fds[i] in s.open
  {
    ReachedKeepsInv(s);
    assert ActorInv(s, t);
    if s.lock.Some? {
      assert ActorInv(s, s.lock.value);
    }
  }

  /** The open descriptors are exactly the recorded ones, each recorded once: nothing leaks. */
  lemma DescriptorsConserved(s: State)
    requires Reached(s)
    ensures s.open == set i | 0 <= i < |s.fds| && s.fds[i] != -1 :: s.fds[i]
    ensures forall i, j | 0 <= i < j < |s.fds| && s.fds[i] != -1 :: s.fds[i] != s.fds[j]
  {
    ReachedKeepsInv(s);
    var recorded := set i | 0 <= i < |s.fds| && s.fds[i] != -1 :: s.fds[i];
    forall fd | fd in s.open
      ensures fd in recorded
    {
      var i :| 0 <= i < |s.fds| && s.fds[i] == fd;
    }
  }

  /** A step that closes a channel closes a descriptor that is open, and no rx thread is using it. */
  lemma ClosesAreProper(s: State, a: nat, op: Op, i: nat)
    requires Reached(s) && a in s.pcs && s.pcs[a] == Locked(op, InDisable(CloseChannel(i)))
    requires i < |s.fds| && s.fds[i] != -1
    ensures s.fds[i] in s.open
    ensures forall t | t in s.pcs :: !s.pcs[t].Looping?
  {
    ReachedKeepsInv(s);
    assert ActorInv(s, a);
    forall t | t in s.pcs
      ensures !s.pcs[t].Looping?
    {
      assert ActorInv(s, t);
    }
  }

  // ---------------------------------------------------------------- the shutdown signal

  /** The shutdown signal is 0 or 1, and an rx thread that still has its handle sees it raised only while a
      client is inside `pthread_join` on that very thread. */
  lemma SignalIsAddressed(s: State, t: nat)
    requires Reached(s) && t in s.pcs && Registered(s.pcs[t])
    ensures s.signal <= 1
    ensures s.signal != 0 ==> s.lock.Some? && Joining(s, s.lock.value, t)
  {
    ReachedKeepsInv(s);
    assert ActorInv(s, t);
    if s.signal != 0 {
      assert ActorInv(s, s.lock.value);
    }
  }

  /** The only step that adds a thread is `pthread_create`; it makes the thread the handle. */
  lemma OnlyCreateThreadAdds(s: State, a: nat, c: Choice, t: nat)
    requires a in s.pcs && ActorNext(s, a, c).Some?
    requires t !in s.pcs && t in ActorNext(s, a, c).value.pcs
    ensures s.pcs[a].Locked? && s.pcs[a].at == InEnable(CreateThread)
    ensures ActorNext(s, a, c).value.handle == t && ActorNext(s, a, c).value.signal == s.signal
  {
    match s.pcs[a] {
      case Locked(op, InEnable(e)) =>
      case Locked(op, InEntry(e)) => EntrySpares(s, a, op, e, c);
      case Locked(op, InDisable(d)) => DisableSpares(s, a, op, d, c);
      case Locked(op, InFinish(f)) => FinishSpares(s, a, op, f, c);
      case Looping(fds, turn) => LoopSpares(s, a, fds, turn, c);
      case Leaving(exit) => ExitSpares(s, a, exit, c);
      case _ => StartSpares(s, a, c);
    }
  }

  /** No signal leaks into a new session: it is down whenever an rx thread is created. */
  lemma SignalDownAtCreation(s: State, step: Step, t: nat)
    requires Reached(s) && Next(s, step).Some?
    requires t !in s.pcs && t in Next(s, step).value.pcs
    ensures Next(s, step).value.signal == 0 && Next(s, step).value.handle == t
  {
    ReachedKeepsInv(s);
    assert ActorInv(s, step.actor);
    OnlyCreateThreadAdds(s, step.actor, step.choice, t);
  }

  // ---------------------------------------------------------------- notices

  /** Without the RESETTING notices, what the state callback has been told is a prefix of a concatenation of
      the blocks: completed by at most one more notice, it is one. */
  lemma NoticesAreBlocks(s: State) returns (rest: seq<Status>)
    requires Reached(s)
    ensures |rest| <= 1 && Blocks(Erase(s.notices) + rest)
  {
    ReachedKeepsInv(s);
    match Pending(Holder(s)) {
      case None =>
        rest := [];
        assert Erase(s.notices) + rest == Erase(s.notices);
      case Some(first) =>
        rest := [Disabled];
        CloseBlock(Erase(s.notices), first, Disabled);
    }
  }

  /** The status reported after a completed `ant_disable` is DISABLED, never RESETTING or DISABLING: the
      notice that any client or crash cleanup gives at that point. */
  lemma ReportAfterDisableIsDisabled(s: State, a: nat)
    requires Reached(s) && a in s.pcs && s.pcs[a].Locked?
    requires s.pcs[a].at == InFinish(FinalFlag) || s.pcs[a].at == InFinish(FinalRest)
    ensures StatusOf(s) == Disabled
    ensures s.pcs[a].at == InFinish(FinalRest) ==> Noticed(s, a) == Some(Disabled)
    ensures s.pcs[a].at == InFinish(FinalFlag) ==> Noticed(s, a) == None
  {
    ReachedKeepsInv(s);
    FinalStatusIsDisabled(s, a);
  }
}
