/** Whole calls of the BlueZ transport when nobody interferes, and the end of an rx thread that finds the enable
    lock free; and what is certain while the radio is not enabled, whoever interferes. */
module HciCalls {
  import opened Runs
  import opened HciLifecycle

  lemma OneStep(s: State, step: Step)
    requires Next(s, step).Some?
    ensures Run(Next, s, [step]) == Next(s, step)
  {
  }

  // ---------------------------------------------------------------- sending

  lemma GoesToSend(s: State, a: nat) returns (steps: seq<Step>)
    requires s.txLock == None && a in s.clients && a in s.pcs && s.pcs[a] == Idle && s.status == Enabled
    ensures steps == [Step(a, Begin(Send)), Step(a, Go), Step(a, Go)]
    ensures Run(Next, s, steps) == Some(s.(txLock := Some(a), pcs := s.pcs[a := SendWork]))
  {
    var s1 := At(s, a, SendWantTx);
    var s2 := At(s1, a, SendCheck).(txLock := Some(a));
    var u := s.(txLock := Some(a), pcs := s.pcs[a := SendWork]);
    assert Next(s2, Step(a, Go)).value.pcs == u.pcs;
    steps := [Step(a, Begin(Send)), Step(a, Go), Step(a, Go)];
    TraceIsRun(Next, [s, s1, s2, u], steps);
  }

  lemma ReturnsFromSending(s: State, a: nat) returns (steps: seq<Step>)
    requires a in s.clients && a in s.pcs && s.pcs[a] == SendWork
    ensures OnlyBy(steps, {a}) && Run(Next, s, steps) == Some(s.(txLock := None, pcs := s.pcs[a := Idle]))
  {
    var m := At(s, a, SendUnlockTx);
    var u := s.(txLock := None, pcs := s.pcs[a := Idle]);
    assert Next(m, Step(a, Go)).value.pcs == u.pcs;
    steps := [Step(a, Go), Step(a, Go)];
    TraceIsRun(Next, [s, m, u], steps);
  }

  /** A client that sends while the radio is ENABLED gets to write, and returns. */
  lemma SendAlone(s: State, a: nat) returns (there: seq<Step>, back: seq<Step>)
    requires s.txLock == None && a in s.clients && a in s.pcs && s.pcs[a] == Idle && s.status == Enabled
    ensures there != [] && there[0] == Step(a, Begin(Send)) && OnlyBy(there, {a}) && OnlyBy(back, {a})
    ensures Run(Next, s, there) == Some(s.(txLock := Some(a), pcs := s.pcs[a := SendWork]))
    ensures Run(Next, s, there + back) == Some(s)
  {
    there := GoesToSend(s, a);
    var m := s.(txLock := Some(a), pcs := s.pcs[a := SendWork]);
    back := ReturnsFromSending(m, a);
    RunAppends(Next, s, there, back);
    assert m.pcs[a := Idle] == s.pcs;
  }

  /** The radio is not enabled, nobody is about to enable it, and nobody is in the middle of sending. */
  ghost predicate Silenced(s: State) {
    s.status != Enabled && forall a | a in s.pcs :: !InEnable(s.pcs[a]) && s.pcs[a] != SendWork
  }

  lemma SilencedClient(s: State, a: nat, c: Choice)
    requires a in s.clients && a in s.pcs && c != Begin(Enable) && ClientNext(s, a, c).Some?
    requires s.status != Enabled && !InEnable(s.pcs[a]) && s.pcs[a] != SendWork
    ensures var u := ClientNext(s, a, c).value;
            && u.status != Enabled && a in u.pcs && !InEnable(u.pcs[a]) && u.pcs[a] != SendWork
            && u.pcs == s.pcs[a := u.pcs[a]] && u.clients == s.clients
  {
  }

  lemma SilencedThread(s: State, a: nat, c: Choice)
    requires a in s.pcs && RxNext(s, a, c).Some? && s.status != Enabled
    ensures var u := RxNext(s, a, c).value;
            && u.status != Enabled && a in u.pcs && !InEnable(u.pcs[a]) && u.pcs[a] != SendWork
            && u.pcs == s.pcs[a := u.pcs[a]] && u.clients == s.clients
  {
  }

  /** As long as nobody asks for the radio to be enabled, nothing is sent, whatever else is called and done. */
  lemma {:induction false} NothingIsSentWhileSilenced(s: State, steps: seq<Step>)
    requires Silenced(s) && Run(Next, s, steps).Some?
    requires forall i | 0 <= i < |steps| :: steps[i].choice != Begin(Enable)
    ensures Silenced(Run(Next, s, steps).value)
  {
    if steps != [] {
      var front, last := steps[..|steps| - 1], steps[|steps| - 1];
      NothingIsSentWhileSilenced(s, front);
      var m := Run(Next, s, front).value;
      if last.actor in m.clients {
        SilencedClient(m, last.actor, last.choice);
      } else {
        SilencedThread(m, last.actor, last.choice);
      }
    }
  }

  // ---------------------------------------------------------------- the end of a thread

  lemma TakesAndReports(s: State, t: nat) returns (steps: seq<Step>)
    requires s.enableLock == None && t in s.pcs && t !in s.clients && s.pcs[t] == RxTry
    ensures OnlyBy(steps, {t})
    ensures Run(Next, s, steps) == Some(s.(enableLock := Some(t), status := Disabled, pcs := s.pcs[t := RxForget]))
  {
    var m := At(s, t, RxSetDisabled).(enableLock := Some(t));
    var u := s.(enableLock := Some(t), status := Disabled, pcs := s.pcs[t := RxForget]);
    assert Next(m, Step(t, Go)).value.pcs == u.pcs;
    steps := [Step(t, Go), Step(t, Go)];
    TraceIsRun(Next, [s, m, u], steps);
  }

  lemma UnlocksAndCloses(s: State, t: nat) returns (steps: seq<Step>)
    requires t in s.pcs && t !in s.clients && s.pcs[t] == RxUnlock
    ensures OnlyBy(steps, {t})
    ensures Run(Next, s, steps) == Some(s.(enableLock := None, pcs := s.pcs[t := RxDead]))
  {
    var m := At(s, t, RxClose).(enableLock := None);
    var u := s.(enableLock := None, pcs := s.pcs[t := RxDead]);
    assert Next(m, Step(t, Go)).value.pcs == u.pcs;
    steps := [Step(t, Go), Step(t, Go)];
    TraceIsRun(Next, [s, m, u], steps);
  }

  lemma ForgetsAndCloses(s: State, t: nat) returns (steps: seq<Step>)
    requires t in s.pcs && t !in s.clients && s.pcs[t] == RxForget
    ensures OnlyBy(steps, {t})
    ensures Run(Next, s, steps) == Some(s.(enableLock := None, thread := 0, pcs := s.pcs[t := RxDead]))
  {
    var m := At(s, t, RxUnlock).(thread := 0);
    var rest := UnlocksAndCloses(m, t);
    OneStep(s, Step(t, Go));
    RunAppends(Next, s, [Step(t, Go)], rest);
    steps := [Step(t, Go)] + rest;
    assert m.pcs[t := RxDead] == s.pcs[t := RxDead];
  }

  /** An rx thread that has left its loop and finds the enable lock free: DISABLED, and its handle cleared. */
  lemma CleanupAlone(s: State, t: nat) returns (steps: seq<Step>)
    requires s.enableLock == None && t in s.pcs && t !in s.clients && s.pcs[t] == RxTry
    ensures OnlyBy(steps, {t})
    ensures Run(Next, s, steps) == Some(s.(status := Disabled, thread := 0, pcs := s.pcs[t := RxDead]))
  {
    var begin := TakesAndReports(s, t);
    var m := s.(enableLock := Some(t), status := Disabled, pcs := s.pcs[t := RxForget]);
    var ending := ForgetsAndCloses(m, t);
    RunAppends(Next, s, begin, ending);
    steps := begin + ending;
    assert m.pcs[t := RxDead] == s.pcs[t := RxDead];
  }

  /** A turn of the loop that times out leaves everything as it was ... */
  lemma TimeoutAlone(s: State, t: nat)
    requires t in s.pcs && t !in s.clients && s.pcs[t] == RxLoop && s.status == Enabled
    ensures Run(Next, s, [Step(t, Go), Step(t, Timeout)]) == Some(s)
  {
    var m := At(s, t, RxPoll);
    assert Next(m, Step(t, Timeout)).value.pcs == s.pcs;
    TraceIsRun(Next, [s, m, s], [Step(t, Go), Step(t, Timeout)]);
  }

  /** ... and so does one that reads a message, whatever is in it. */
  lemma MessageAlone(s: State, t: nat)
    requires t in s.pcs && t !in s.clients && s.pcs[t] == RxLoop && s.status == Enabled
    ensures Run(Next, s, [Step(t, Go), Step(t, Go), Step(t, Go)]) == Some(s)
  {
    var m := At(s, t, RxPoll);
    var v := At(m, t, RxRead);
    assert Next(v, Step(t, Go)).value.pcs == s.pcs;
    TraceIsRun(Next, [s, m, v, s], [Step(t, Go), Step(t, Go), Step(t, Go)]);
  }

  /** One in which the poll or the read fails, or a thread whose filter cannot be set, is the end of the thread, and
      with a free lock it cleans up. */
  lemma CrashAlone(s: State, t: nat) returns (steps: seq<Step>)
    requires s.enableLock == None && t in s.pcs && t !in s.clients && s.pcs[t] in {RxFilter, RxPoll, RxRead}
    ensures steps != [] && steps[0] == Step(t, Fail) && OnlyBy(steps, {t})
    ensures Run(Next, s, steps) == Some(s.(status := Disabled, thread := 0, pcs := s.pcs[t := RxDead]))
  {
    var m := At(s, t, RxTry);
    OneStep(s, Step(t, Fail));
    var rest := CleanupAlone(m, t);
    RunAppends(Next, s, [Step(t, Fail)], rest);
    steps := [Step(t, Fail)] + rest;
    assert m.pcs[t := RxDead] == s.pcs[t := RxDead];
  }

  /** A thread without a socket is over at once, and tells nobody. */
  lemma NoSocketAlone(s: State, t: nat)
    requires t in s.pcs && t !in s.clients && s.pcs[t] == RxOpen
    ensures Run(Next, s, [Step(t, Fail)]) == Some(At(s, t, RxDead))
  {
    OneStep(s, Step(t, Fail));
  }

  /** One step of a joined thread toward its end. */
  lemma JoinedThreadGoes(s: State, t: nat) returns (u: State)
    requires t in s.pcs && t !in s.clients && s.enableLock.Some? && s.status != Enabled
    requires IsRx(s.pcs[t]) && !HoldsEnable(s.pcs[t]) && s.pcs[t] != RxDead
    ensures Next(s, Step(t, Go)) == Some(u) && t in u.pcs && u == At(s, t, u.pcs[t])
    ensures IsRx(u.pcs[t]) && !HoldsEnable(u.pcs[t]) && StepsLeft(u.pcs[t]) < StepsLeft(s.pcs[t])
  {
    u := Next(s, Step(t, Go)).value;
  }

  /** What a joined thread does to its end: it moves only itself. */
  lemma JoinedThreadRunsOut(s: State, t: nat) returns (steps: seq<Step>)
    requires t in s.pcs && t !in s.clients && s.enableLock.Some? && s.status != Enabled
    requires IsRx(s.pcs[t]) && !HoldsEnable(s.pcs[t])
    ensures OnlyBy(steps, {t})
    ensures Run(Next, s, steps) == Some(At(s, t, RxDead))
    decreases StepsLeft(s.pcs[t])
  {
    if s.pcs[t] == RxDead {
      steps := [];
      assert s.pcs == s.pcs[t := RxDead];
    } else {
      var m := JoinedThreadGoes(s, t);
      OneStep(s, Step(t, Go));
      var rest := JoinedThreadRunsOut(m, t);
      RunAppends(Next, s, [Step(t, Go)], rest);
      steps := [Step(t, Go)] + rest;
      assert m.pcs[t := RxDead] == s.pcs[t := RxDead];
    }
  }

  /** A join: the thread runs out, and the client goes on to forget it. */
  lemma JoinReturns(s: State, a: nat, t: nat, next: Pc, last: Pc) returns (steps: seq<Step>)
    requires t in s.pcs && t !in s.clients && s.enableLock.Some? && s.status != Enabled
    requires IsRx(s.pcs[t]) && !HoldsEnable(s.pcs[t])
    requires a in s.clients && a in s.pcs
    requires (s.pcs[a] == EnJoin(t) && next == EnForget && last == EnSetEnabling)
          || (s.pcs[a] == DisJoin(t) && next == DisForget && last == UnlockTx)
    ensures OnlyBy(steps, {a, t})
    ensures Run(Next, s, steps) == Some(s.(thread := 0, pcs := s.pcs[t := RxDead][a := last]))
  {
    var ending := JoinedThreadRunsOut(s, t);
    var m := At(s, t, RxDead);
    var v := At(m, a, next);
    var u := s.(thread := 0, pcs := s.pcs[t := RxDead][a := last]);
    assert Next(v, Step(a, Go)).value.pcs == u.pcs;
    TraceIsRun(Next, [m, v, u], [Step(a, Go), Step(a, Go)]);
    RunAppends(Next, s, ending, [Step(a, Go), Step(a, Go)]);
    steps := ending + [Step(a, Go), Step(a, Go)];
  }

  // ---------------------------------------------------------------- disabling

  function ThreadOver(s: State): map<nat, Pc> {
    if s.thread == 0 then s.pcs else s.pcs[s.thread := RxDead]
  }

  lemma GetsBothLocks(s: State, a: nat) returns (steps: seq<Step>)
    requires s.enableLock == None && s.txLock == None && a in s.clients && a in s.pcs && s.pcs[a] == Idle
    ensures steps != [] && steps[0] == Step(a, Begin(Disable)) && OnlyBy(steps, {a})
    ensures Run(Next, s, steps)
         == Some(s.(enableLock := Some(a), txLock := Some(a), status := Disabled, pcs := s.pcs[a := DisTestThread]))
  {
    var s1 := At(s, a, DisWantEnable);
    var s2 := At(s1, a, DisWantTx).(enableLock := Some(a));
    var begin := [Step(a, Begin(Disable)), Step(a, Go)];
    TraceIsRun(Next, [s, s1, s2], begin);
    var rest := TakesTxAndDisables(s2, a);
    RunAppends(Next, s, begin, rest);
    steps := begin + rest;
    assert s2.pcs[a := DisTestThread] == s.pcs[a := DisTestThread];
  }

  lemma TakesTxAndDisables(s: State, a: nat) returns (steps: seq<Step>)
    requires s.txLock == None && a in s.clients && a in s.pcs && s.pcs[a] == DisWantTx
    ensures OnlyBy(steps, {a})
    ensures Run(Next, s, steps) == Some(s.(txLock := Some(a), status := Disabled, pcs := s.pcs[a := DisTestThread]))
  {
    var m := At(s, a, DisSetDisabled).(txLock := Some(a));
    var u := s.(txLock := Some(a), status := Disabled, pcs := s.pcs[a := DisTestThread]);
    assert Next(m, Step(a, Go)).value.pcs == u.pcs;
    steps := [Step(a, Go), Step(a, Go)];
    TraceIsRun(Next, [s, m, u], steps);
  }

  lemma Unlocks(s: State, a: nat) returns (steps: seq<Step>)
    requires a in s.clients && a in s.pcs && s.pcs[a] == UnlockTx
    ensures OnlyBy(steps, {a})
    ensures Run(Next, s, steps) == Some(s.(enableLock := None, txLock := None, pcs := s.pcs[a := Idle]))
  {
    var m := At(s, a, UnlockEnable).(txLock := None);
    var u := s.(enableLock := None, txLock := None, pcs := s.pcs[a := Idle]);
    assert Next(m, Step(a, Go)).value.pcs == u.pcs;
    steps := [Step(a, Go), Step(a, Go)];
    TraceIsRun(Next, [s, m, u], steps);
  }

  /** With both locks: joins the thread, if there is one, and forgets it. */
  lemma JoinsAndForgets(s: State, a: nat) returns (steps: seq<Step>)
    requires a in s.clients && a in s.pcs && s.pcs[a] == DisTestThread && s.status == Disabled
    requires s.thread != 0 && s.thread in s.pcs && s.thread !in s.clients && s.enableLock == Some(a)
    requires IsRx(s.pcs[s.thread]) && !HoldsEnable(s.pcs[s.thread])
    ensures OnlyBy(steps, {a, s.thread})
    ensures Run(Next, s, steps) == Some(s.(thread := 0, pcs := s.pcs[s.thread := RxDead][a := UnlockTx]))
  {
    var m := At(s, a, DisJoin(s.thread));
    OneStep(s, Step(a, Go));
    var joining := JoinReturns(m, a, s.thread, DisForget, UnlockTx);
    RunAppends(Next, s, [Step(a, Go)], joining);
    steps := [Step(a, Go)] + joining;
    assert m.pcs[s.thread := RxDead][a := UnlockTx] == s.pcs[s.thread := RxDead][a := UnlockTx];
  }

  /** While the enable lock is free, the recorded thread is not in the part that it runs with it. */
  lemma ThreadWithoutLock(s: State, a: nat)
    requires s.enableLock == None && a in s.clients && a in s.pcs
    requires Inv(s)
    ensures s.thread != a
    ensures s.thread != 0 ==>
              && s.thread in s.pcs && s.thread !in s.clients
              && IsRx(s.pcs[s.thread]) && !HoldsEnable(s.pcs[s.thread])
    ensures s.status == Enabled ==> s.thread != 0
  {
    if s.thread != 0 {
      assert ActorInv(s, s.thread);
    }
  }

  /** From the test of the handle to the unlocks. */
  lemma EndsThread(s: State, a: nat) returns (steps: seq<Step>)
    requires a in s.clients && a in s.pcs && s.pcs[a] == DisTestThread && s.status == Disabled
    requires s.enableLock == Some(a) && s.thread != a
    requires s.thread != 0 ==>
               && s.thread in s.pcs && s.thread !in s.clients
               && IsRx(s.pcs[s.thread]) && !HoldsEnable(s.pcs[s.thread])
    ensures Run(Next, s, steps) == Some(s.(thread := 0, pcs := ThreadOver(s)[a := UnlockTx]))
  {
    if s.thread == 0 {
      steps := [Step(a, Go)];
      OneStep(s, Step(a, Go));
    } else {
      steps := JoinsAndForgets(s, a);
    }
  }

  /** `ant_disable_radio`, from any moment with free locks: DISABLED, no thread, and the one there was is over. */
  lemma DisableAlone(s: State, a: nat) returns (steps: seq<Step>)
    requires s.enableLock == None && s.txLock == None && a in s.clients && a in s.pcs && s.pcs[a] == Idle
    requires Inv(s)
    ensures steps != [] && steps[0] == Step(a, Begin(Disable))
    ensures Run(Next, s, steps) == Some(s.(status := Disabled, thread := 0, pcs := ThreadOver(s)))
  {
    ThreadWithoutLock(s, a);
    steps := DisablesKnowing(s, a);
  }

  lemma DisablesKnowing(s: State, a: nat) returns (steps: seq<Step>)
    requires s.enableLock == None && s.txLock == None && a in s.clients && a in s.pcs && s.pcs[a] == Idle
    requires s.thread != a
    requires s.thread != 0 ==>
               && s.thread in s.pcs && s.thread !in s.clients
               && IsRx(s.pcs[s.thread]) && !HoldsEnable(s.pcs[s.thread])
    ensures steps != [] && steps[0] == Step(a, Begin(Disable))
    ensures Run(Next, s, steps) == Some(s.(status := Disabled, thread := 0, pcs := ThreadOver(s)))
  {
    var begin := GetsBothLocks(s, a);
    var m := s.(enableLock := Some(a), txLock := Some(a), status := Disabled, pcs := s.pcs[a := DisTestThread]);
    var joining := EndsThread(m, a);
    var v := m.(thread := 0, pcs := ThreadOver(m)[a := UnlockTx]);
    var ending := Unlocks(v, a);
    RunAppends(Next, s, begin, joining);
    RunAppends(Next, s, begin + joining, ending);
    steps := begin + joining + ending;
    assert v.pcs[a := Idle] == ThreadOver(s);
  }

  // ---------------------------------------------------------------- enabling

  lemma AsksToEnable(s: State, a: nat) returns (steps: seq<Step>, u: State)
    requires s.enableLock == None && s.txLock == None && a in s.clients && a in s.pcs && s.pcs[a] == Idle
    ensures Run(Next, s, steps) == Some(u) && OnlyBy(steps, {a})
    ensures steps != [] && steps[0] == Step(a, Begin(Enable))
    ensures u == s.(enableLock := Some(a), txLock := Some(a), pcs := s.pcs[a := EnCheck],
                    status := if s.status == Disabled then Enabling else s.status)
  {
    var s1 := At(s, a, EnWantEnable);
    var s2 := At(s1, a, EnMark).(enableLock := Some(a));
    var s3 := At(s2, a, EnWantTx).(status := if s.status == Disabled then Enabling else s.status);
    u := s.(enableLock := Some(a), txLock := Some(a), pcs := s.pcs[a := EnCheck],
            status := if s.status == Disabled then Enabling else s.status);
    assert Next(s3, Step(a, Go)).value.pcs == u.pcs;
    steps := [Step(a, Begin(Enable)), Step(a, Go), Step(a, Go), Step(a, Go)];
    TraceIsRun(Next, [s, s1, s2, s3, u], steps);
  }

  /** An ENABLED radio with a thread stays as it is. */
  lemma ConfirmsEnabled(s: State, a: nat) returns (steps: seq<Step>)
    requires a in s.clients && a in s.pcs && s.pcs[a] == EnCheck && s.status == Enabled && s.thread != 0
    ensures OnlyBy(steps, {a}) && Run(Next, s, steps) == Some(At(s, a, UnlockTx))
  {
    var s1 := At(s, a, EnTestThread);
    var s2 := At(s1, a, EnSetEnabled);
    assert Next(s2, Step(a, Go)).value.pcs == At(s, a, UnlockTx).pcs;
    steps := [Step(a, Go), Step(a, Go), Step(a, Go)];
    TraceIsRun(Next, [s, s1, s2, At(s, a, UnlockTx)], steps);
  }

  /** A radio that is not: a thread that is still recorded is joined and forgotten. */
  lemma Recovers(s: State, a: nat) returns (steps: seq<Step>)
    requires a in s.clients && a in s.pcs && s.pcs[a] == EnCheck && s.status != Enabled && s.enableLock == Some(a)
    requires s.thread != 0 ==>
               && s.thread in s.pcs && s.thread !in s.clients
               && IsRx(s.pcs[s.thread]) && !HoldsEnable(s.pcs[s.thread])
    ensures OnlyBy(steps, {a, s.thread})
    ensures Run(Next, s, steps) == Some(s.(thread := 0, pcs := ThreadOver(s)[a := EnSetEnabling]))
  {
    OneStep(s, Step(a, Go));
    if s.thread == 0 {
      steps := [Step(a, Go)];
    } else {
      var m := At(s, a, EnJoin(s.thread));
      var joining := JoinReturns(m, a, s.thread, EnForget, EnSetEnabling);
      RunAppends(Next, s, [Step(a, Go)], joining);
      steps := [Step(a, Go)] + joining;
      assert m.pcs[s.thread := RxDead][a := EnSetEnabling] == s.pcs[s.thread := RxDead][a := EnSetEnabling];
    }
  }

  /** ... and a new one is created, or not. */
  lemma StartsThread(s: State, a: nat, t: nat, created: bool) returns (steps: seq<Step>, u: State)
    requires a in s.clients && a in s.pcs && s.pcs[a] == EnSetEnabling && s.thread == 0
    requires t != 0 && t !in s.pcs && t !in s.clients
    ensures Run(Next, s, steps) == Some(u) && OnlyBy(steps, {a})
    ensures u == if created then s.(status := Enabled, thread := t, pcs := s.pcs[t := RxOpen][a := UnlockTx])
                 else s.(status := Enabling, pcs := s.pcs[a := UnlockTx])
  {
    var s1 := At(s, a, EnTestThread).(status := Enabling);
    var s2 := At(s1, a, EnCreate);
    if created {
      var s3 := At(At(s2, t, RxOpen), a, EnSetEnabled).(thread := t);
      u := s.(status := Enabled, thread := t, pcs := s.pcs[t := RxOpen][a := UnlockTx]);
      assert Next(s3, Step(a, Go)).value.pcs == u.pcs;
      steps := [Step(a, Go), Step(a, Go), Step(a, Create(t)), Step(a, Go)];
      TraceIsRun(Next, [s, s1, s2, s3, u], steps);
    } else {
      u := s.(status := Enabling, pcs := s.pcs[a := UnlockTx]);
      assert Next(s2, Step(a, Fail)).value.pcs == u.pcs;
      steps := [Step(a, Go), Step(a, Go), Step(a, Fail)];
      TraceIsRun(Next, [s, s1, s2, u], steps);
    }
  }

  /** The state after `ant_enable_radio`, by whether a thread could be created. */
  function AfterEnable(s: State, t: nat, created: bool): State {
    if s.status == Enabled then s
    else if created then s.(status := Enabled, thread := t, pcs := ThreadOver(s)[t := RxOpen])
    else s.(status := Enabling, thread := 0, pcs := ThreadOver(s))
  }

  /** `ant_enable_radio`, from any moment with free locks: an ENABLED radio stays as it is; otherwise the old thread
      is over, and the radio is ENABLED with a new one, or left ENABLING with none. */
  lemma EnableAlone(s: State, a: nat, t: nat, created: bool) returns (steps: seq<Step>)
    requires s.enableLock == None && s.txLock == None && a in s.clients && a in s.pcs && s.pcs[a] == Idle
    requires t != 0 && t !in s.pcs && t !in s.clients
    requires Inv(s)
    ensures Run(Next, s, steps) == Some(AfterEnable(s, t, created))
    ensures steps != [] && steps[0] == Step(a, Begin(Enable))
  {
    ThreadWithoutLock(s, a);
    steps := EnablesKnowing(s, a, t, created);
  }

  lemma EnablesKnowing(s: State, a: nat, t: nat, created: bool) returns (steps: seq<Step>)
    requires s.enableLock == None && s.txLock == None && a in s.clients && a in s.pcs && s.pcs[a] == Idle
    requires t != 0 && t !in s.pcs && t !in s.clients && s.thread != a && (s.status == Enabled ==> s.thread != 0)
    requires s.thread != 0 ==>
               && s.thread in s.pcs && s.thread !in s.clients
               && IsRx(s.pcs[s.thread]) && !HoldsEnable(s.pcs[s.thread])
    ensures Run(Next, s, steps) == Some(AfterEnable(s, t, created))
    ensures steps != [] && steps[0] == Step(a, Begin(Enable))
  {
    var begin, m := AsksToEnable(s, a);
    var rest := EnablesAndUnlocks(m, a, t, created);
    SameAfterwards(s, a, t, created, EnCheck);
    RunAppends(Next, s, begin, rest);
    steps := begin + rest;
  }

  lemma EnablesAndUnlocks(s: State, a: nat, t: nat, created: bool) returns (steps: seq<Step>)
    requires a in s.clients && a in s.pcs && s.pcs[a] == EnCheck && s.enableLock == Some(a)
    requires t != 0 && t !in s.pcs && t !in s.clients && s.thread != a && (s.status == Enabled ==> s.thread != 0)
    requires s.thread != 0 ==>
               && s.thread in s.pcs && s.thread !in s.clients
               && IsRx(s.pcs[s.thread]) && !HoldsEnable(s.pcs[s.thread])
    ensures Run(Next, s, steps)
         == Some(At(AfterEnable(s, t, created), a, Idle).(enableLock := None, txLock := None))
  {
    var middle, v := GetsEnabled(s, a, t, created);
    var ending := Unlocks(v, a);
    RunAppends(Next, s, middle, ending);
    steps := middle + ending;
    assert v.pcs[a := Idle] == AfterEnable(s, t, created).pcs[a := Idle];
  }

  /** Where the client was in between does not matter. */
  lemma SameAfterwards(s: State, a: nat, t: nat, created: bool, between: Pc)
    requires a in s.pcs && s.pcs[a] == Idle && s.thread != a && t != a
    ensures AfterEnable(At(s, a, between), t, created).pcs[a := Idle] == AfterEnable(s, t, created).pcs
  {
  }

  /** With both locks. */
  lemma GetsEnabled(s: State, a: nat, t: nat, created: bool) returns (steps: seq<Step>, u: State)
    requires a in s.clients && a in s.pcs && s.pcs[a] == EnCheck && s.enableLock == Some(a)
    requires t != 0 && t !in s.pcs && t !in s.clients && s.thread != a && (s.status == Enabled ==> s.thread != 0)
    requires s.thread != 0 ==>
               && s.thread in s.pcs && s.thread !in s.clients
               && IsRx(s.pcs[s.thread]) && !HoldsEnable(s.pcs[s.thread])
    ensures Run(Next, s, steps) == Some(u)
    ensures u == At(AfterEnable(s, t, created), a, UnlockTx)
  {
    u := At(AfterEnable(s, t, created), a, UnlockTx);
    if s.status == Enabled {
      steps := ConfirmsEnabled(s, a);
    } else {
      var recovering := Recovers(s, a);
      var w := s.(thread := 0, pcs := ThreadOver(s)[a := EnSetEnabling]);
      var starting, v := StartsThread(w, a, t, created);
      RunAppends(Next, s, recovering, starting);
      steps := recovering + starting;
      assert v.pcs == u.pcs;
    }
  }
}
