/** Runs of the lifecycle protocol that end badly: the join that waits for ever, and the hard reset that leaves
    the radio half open. */
module LifecycleScenarios {
  import opened Radio
  import opened Runs
  import opened Lifecycle
  import opened LifecycleInvariant
  import opened LifecycleProperties
  import opened LifecycleJoin
  import opened RadioControl
  import opened LifecycleAlone
  import opened LifecycleCalls

  /** The hazard is there in every session: whenever an rx thread sits in `poll`, the lock is free and a
      client is idle, there is a run into the deadlock - the poll calls for a reset, and before the thread
      gets to its lock the client disables the radio. */
  lemma AnySessionCanDeadlock(s: State, a: nat, t: nat) returns (steps: seq<Step>)
    requires s.lock == None && a in s.clients && a in s.pcs && s.pcs[a] == Idle
    requires t in s.pcs && s.pcs[t].Looping? && s.pcs[t].turn == Polling
    requires Inv(s)
    ensures Run(Next, s, steps).Some? && Deadlocked(Run(Next, s, steps).value, a, t)
  {
    assert ActorInv(s, t);
    var first, u := ClientGetsTo(s.(pcs := s.pcs[t := Leaving(RaiseResetting)]), a, t);
    var trouble := Step(t, PollTrouble);
    assert Run(Next, s, [trouble]) == Next(s, trouble);
    StepKeepsInv(s, trouble);
    RunAppends(Next, s, [trouble], first);
    steps := [trouble] + first;
    RunKeepsInv(s, steps);
  }

  /** A client that disables while the thread does nothing gets as far as the join. */
  lemma ClientGetsTo(s: State, a: nat, t: nat) returns (steps: seq<Step>, u: State)
    requires s.lock == None && a in s.pcs && s.pcs[a] == Idle && s.handle == t && t != 0
    requires t in s.pcs && t != a && s.pcs[t] == Leaving(RaiseResetting)
    ensures Run(Next, s, steps) == Some(u)
    ensures Joining(u, a, t) && t in u.pcs && u.pcs[t] == s.pcs[t] && u.clients == s.clients
  {
    var call, m := GetsLock(s, a, DisableRadio);
    var asking, m' := AsksForStatus(m, a, DisableRadio);
    var joining;
    joining, u := GoesToJoin(m', a, t);
    RunAppends(Next, s, call, asking);
    RunAppends(Next, s, call + asking, joining);
    steps := call + asking + joining;
  }

  lemma GoesToJoin(s: State, a: nat, t: nat) returns (steps: seq<Step>, u: State)
    requires a in s.pcs && s.pcs[a] == Locked(DisableRadio, InEntry(Announce)) && s.handle == t && t != 0
    ensures Run(Next, s, steps) == Some(u)
    ensures Joining(u, a, t) && u.pcs == s.pcs[a := u.pcs[a]] && u.clients == s.clients
  {
    var go := Step(a, Go);
    var s1 := Next(s, go).value;
    var s2 := Next(s1, go).value;
    var s3 := Next(s2, go).value;
    u := Next(s3, go).value;
    steps := [go, go, go, go];
    TraceIsRun(Next, [s, s1, s2, s3, u], steps);
  }

  /** A call of `ant_enable_radio` opens every channel ... */
  lemma OpensEverything(s: State, a: nat) returns (steps: seq<Step>, u: State)
    requires a in s.pcs && s.pcs[a] == Locked(EnableRadio, InEnable(ReadEvent))
    requires AllClosed(s.fds) && s.open == {}
    ensures Run(Next, s, steps) == Some(u) && |u.fds| == |s.fds|
    ensures u == s.(signal := 0, run := true, fds := u.fds, open := u.open,
                    pcs := s.pcs[a := Locked(EnableRadio, InEnable(OpenChannel(|s.fds|)))])
  {
    var begin, v := BeginsEnable(s, a, EnableRadio);
    var all := seq(|s.fds|, i => i);
    assert OpenedBelow(s.fds, all, 0) == s.fds;
    var opening;
    opening, u := OpensChannels(v, a, EnableRadio, s.fds, all, 0);
    RunAppends(Next, s, begin, opening);
    steps := begin + opening;
    assert u.pcs == s.pcs[a := u.pcs[a]];
  }

  /** ... creates the thread and returns. */
  lemma EnableRuns(s: State, a: nat, t: nat) returns (steps: seq<Step>, u: State)
    requires a in s.pcs && s.pcs[a] == Locked(EnableRadio, InEnable(ReadEvent)) && s.lock == Some(a)
    requires AllClosed(s.fds) && s.open == {}
    requires t != 0 && t !in s.pcs && t !in s.clients && s.handle == 0
    ensures Run(Next, s, steps) == Some(u)
    ensures u.lock == None && u.run && u.clients == s.clients
    ensures u.pcs == s.pcs[t := Looping([], Capture)][a := Idle]
  {
    var opening, m := OpensEverything(s, a);
    var creating, v := CreatesThread(m, a, EnableRadio, t);
    var ending;
    ending, u := ReportsSuccess(v, a);
    RunAppends(Next, s, opening, creating);
    RunAppends(Next, s, opening + creating, ending);
    steps := opening + creating + ending;
    assert u.pcs == s.pcs[t := Looping([], Capture)][a := Idle];
  }

  /** Every build and number of channels has a run to a session: the radio enabled, the lock free, the client
      idle again and the rx thread in `poll`. */
  lemma SessionExists(build: Build, n: nat) returns (steps: seq<Step>, u: State)
    ensures Run(Next, Init(build, {1}, n), steps) == Some(u)
    ensures u.lock == None && u.clients == {1} && 1 in u.pcs && u.pcs[1] == Idle
    ensures 2 in u.pcs && u.pcs[2].Looping? && u.pcs[2].turn == Polling
  {
    var s := Init(build, {1}, n);
    var call, m := Announces(s, 1, EnableRadio);
    var enabling, session := EnableRuns(m, 1, 2);
    var polling;
    polling, u := ReachesPoll(session, 2, []);
    RunAppends(Next, s, call, enabling);
    RunAppends(Next, s, call + enabling, polling);
    steps := call + enabling + polling;
  }

  /** So the deadlock is reachable from the initial state of every build, with one client. */
  lemma DeadlockIsReachable(build: Build, n: nat) returns (steps: seq<Step>)
    ensures Run(Next, Init(build, {1}, n), steps).Some?
    ensures Deadlocked(Run(Next, Init(build, {1}, n), steps).value, 1, 2)
  {
    var session, u := SessionExists(build, n);
    EveryRunKeepsInv(build, {1}, n, session);
    var rest := AnySessionCanDeadlock(u, 1, 2);
    RunAppends(Next, Init(build, {1}, n), session, rest);
    steps := session + rest;
  }

  // ---------------------------------------------------------------- the failed hard reset

  /** Two channels, of which the second cannot be opened again: DISABLED is what was reported last, the lock is
      free, every call has returned, and a descriptor is open. */
  lemma ReportedDisabledButOpen() returns (steps: seq<Step>, u: State)
    ensures Run(Next, Init(Vfs, {1}, 2), steps) == Some(u)
    ensures u.notices == [Resetting, Disabled] && u.lock == None && 1 in u.pcs && u.pcs[1] == Idle
    ensures StatusOf(u) == Disabling && u.fds == [3, -1]
  {
    var s := Init(Vfs, {1}, 2);
    InitInv(Vfs, {1}, 2);
    var opens := [3, -1];
    assert opens[1] == -1;
    steps, u := HardResetAlone(s, 1, Kernel(true, opens, 2, true));
    assert FirstFailure(Closed(2), opens, 0) == FirstFailure(Closed(2), opens, 1) == 1;
    assert u.fds == [3, -1];
  }
}
