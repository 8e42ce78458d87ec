/** Whole calls of the step system, and the two ways in which an rx thread ends, when nobody interferes: from a free
    lock to a free lock. What they leave behind and report is what the contracts of class RadioThreadInfo say. */
module LifecycleCalls {
  import opened Radio
  import opened Runs
  import opened Lifecycle
  import opened LifecycleInvariant
  import opened LifecycleProperties
  import opened LifecycleJoin
  import opened LifecycleTurn
  import opened RadioControl
  import opened LifecycleAlone
  import opened RxLoop

  // ---------------------------------------------------------------- beginnings and ends

  /** The status check, where the build has one, when the call is not redundant. */
  lemma AsksForStatus(s: State, a: nat, op: Op) returns (steps: seq<Step>, u: State)
    requires a in s.pcs && op in {EnableRadio, DisableRadio}
    requires s.build == Vfs ==>
               DerivedStatus(false, s.run, s.handle != 0, s.fds) != if op == EnableRadio then Enabled else Disabled
    requires s.pcs[a] == Locked(op, InEntry(FirstPoint(s.build, op)))
    ensures Run(Next, s, steps) == Some(u)
    ensures u == s.(pcs := s.pcs[a := Locked(op, InEntry(Announce))])
  {
    u := s.(pcs := s.pcs[a := Locked(op, InEntry(Announce))]);
    if s.build == BtVendor {
      steps := [];
      assert u.pcs == s.pcs;
    } else if s.resetting {
      steps := [Step(a, Go)];
      TraceIsRun(Next, [s, u], steps);
    } else {
      var m := Next(s, Step(a, Go)).value;
      steps := [Step(a, Go), Step(a, Go)];
      assert Next(m, Step(a, Go)).value.pcs == u.pcs;
      TraceIsRun(Next, [s, m, u], steps);
    }
  }

  /** The status check of a redundant call, and out. */
  lemma FindsRedundant(s: State, a: nat, op: Op) returns (steps: seq<Step>, u: State)
    requires a in s.pcs && op in {EnableRadio, DisableRadio} && s.build == Vfs && !s.resetting
    requires StatusOf(s) == if op == EnableRadio then Enabled else Disabled
    requires s.pcs[a] == Locked(op, InEntry(StatusFlag))
    ensures Run(Next, s, steps) == Some(u)
    ensures u == s.(lock := None, pcs := s.pcs[a := Idle])
  {
    var m := At(s, a, Locked(op, InEntry(StatusRest)));
    var v := At(m, a, Locked(op, InFinish(Unlock)));
    u := s.(lock := None, pcs := s.pcs[a := Idle]);
    assert Next(v, Step(a, Go)).value.pcs == u.pcs;
    steps := [Step(a, Go), Step(a, Go), Step(a, Go)];
    TraceIsRun(Next, [s, m, v, u], steps);
  }

  function Home(op: Op): Pc {
    if RxOp(op) then Dead else Idle
  }

  lemma ReportsSuccess(s: State, a: nat) returns (steps: seq<Step>, u: State)
    requires a in s.pcs && s.pcs[a] == Locked(EnableRadio, InFinish(Report(true)))
    ensures Run(Next, s, steps) == Some(u)
    ensures u == s.(lock := None, notices := s.notices + [Enabled], pcs := s.pcs[a := Idle])
  {
    var m := At(Notify(s, Enabled), a, Locked(EnableRadio, InFinish(Unlock)));
    u := s.(lock := None, notices := s.notices + [Enabled], pcs := s.pcs[a := Idle]);
    assert Next(m, Step(a, Go)).value.pcs == u.pcs;
    steps := [Step(a, Go), Step(a, Go)];
    TraceIsRun(Next, [s, m, u], steps);
  }


  /** The report after a completed `ant_disable`. */
  lemma ReportsDisabled(s: State, a: nat, op: Op) returns (steps: seq<Step>, u: State)
    requires a in s.pcs && s.pcs[a] == Locked(op, InFinish(FinalFlag))
    requires !s.resetting && StatusOf(s) == Disabled
    ensures Run(Next, s, steps) == Some(u) && OnlyBy(steps, {a})
    ensures u == s.(lock := None, notices := s.notices + [Disabled], pcs := s.pcs[a := Home(op)])
  {
    var m := At(s, a, Locked(op, InFinish(FinalRest)));
    var v := At(Notify(m, Disabled), a, Locked(op, InFinish(Unlock)));
    u := s.(lock := None, notices := s.notices + [Disabled], pcs := s.pcs[a := Home(op)]);
    assert Next(v, Step(a, Go)).value.pcs == u.pcs;
    steps := [Step(a, Go), Step(a, Go), Step(a, Go)];
    TraceIsRun(Next, [s, m, v, u], steps);
  }

  /** The end of a hard reset ... */
  lemma EndsHardReset(s: State, a: nat, ok: bool) returns (steps: seq<Step>, u: State)
    requires a in s.pcs && s.pcs[a] == Locked(HardReset, InFinish(Report(ok)))
    ensures Run(Next, s, steps) == Some(u) && OnlyBy(steps, {a})
    ensures u == s.(lock := None, resetting := false, notices := s.notices + [if ok then Reset else Disabled],
                    pcs := s.pcs[a := Idle])
  {
    var notice := if ok then Reset else Disabled;
    var m := At(Notify(s, notice), a, Locked(HardReset, InFinish(LowerFlag(ok))));
    var v := At(m, a, Locked(HardReset, InFinish(Unlock))).(resetting := false);
    u := s.(lock := None, resetting := false, notices := s.notices + [notice], pcs := s.pcs[a := Idle]);
    assert Next(v, Step(a, Go)).value.pcs == u.pcs;
    steps := [Step(a, Go), Step(a, Go), Step(a, Go)];
    TraceIsRun(Next, [s, m, v, u], steps);
  }

  /** ... and of `doReset`, with which the thread is over. */
  lemma EndsDoReset(s: State, t: nat, ok: bool) returns (steps: seq<Step>, u: State)
    requires t in s.pcs && s.pcs[t] == Locked(ChipReset, InFinish(LowerFlag(ok)))
    ensures Run(Next, s, steps) == Some(u) && OnlyBy(steps, {t})
    ensures u == s.(lock := None, resetting := false, notices := s.notices + [if ok then Reset else Disabled],
                    pcs := s.pcs[t := Dead])
  {
    var notice := if ok then Reset else Disabled;
    var m := At(s, t, Locked(ChipReset, InFinish(Report(ok)))).(resetting := false);
    var v := At(Notify(m, notice), t, Locked(ChipReset, InFinish(Unlock)));
    u := s.(lock := None, resetting := false, notices := s.notices + [notice], pcs := s.pcs[t := Dead]);
    assert Next(v, Step(t, Go)).value.pcs == u.pcs;
    steps := [Step(t, Go), Step(t, Go), Step(t, Go)];
    TraceIsRun(Next, [s, m, v, u], steps);
  }

  /** The start of `ant_radio_hard_reset`, up to `ant_disable`. */
  lemma BeginsHardReset(s: State, a: nat) returns (steps: seq<Step>, u: State)
    requires s.lock == None && a in s.pcs && s.pcs[a] == Idle
    ensures Run(Next, s, steps) == Some(u) && OnlyBy(steps, {a})
    ensures u == s.(lock := Some(a), resetting := true, notices := s.notices + [Resetting],
                    pcs := s.pcs[a := Locked(HardReset, InDisable(ResetRun))])
  {
    var call, m := GetsLock(s, a, HardReset);
    var v := At(m, a, Locked(HardReset, InEntry(NoticeReset))).(resetting := true);
    u := s.(lock := Some(a), resetting := true, notices := s.notices + [Resetting],
            pcs := s.pcs[a := Locked(HardReset, InDisable(ResetRun))]);
    assert Next(v, Step(a, Go)).value.pcs == u.pcs;
    TraceIsRun(Next, [m, v, u], [Step(a, Go), Step(a, Go)]);
    RunAppends(Next, s, call, [Step(a, Go), Step(a, Go)]);
    steps := call + [Step(a, Go), Step(a, Go)];
  }

  /** The start of `doReset`, up to its lock. */
  lemma AsksForReset(s: State, t: nat) returns (steps: seq<Step>, u: State)
    requires t in s.pcs && s.pcs[t] == Leaving(RaiseResetting)
    ensures Run(Next, s, steps) == Some(u) && OnlyBy(steps, {t})
    ensures u == s.(resetting := true, run := false, notices := s.notices + [Resetting],
                    pcs := s.pcs[t := AtLock(ChipReset)])
  {
    var m := At(s, t, Leaving(NoticeResetting)).(resetting := true);
    var v := At(Notify(m, Resetting), t, Leaving(StopRunning));
    u := s.(resetting := true, run := false, notices := s.notices + [Resetting], pcs := s.pcs[t := AtLock(ChipReset)]);
    assert Next(v, Step(t, Go)).value.pcs == u.pcs;
    steps := [Step(t, Go), Step(t, Go), Step(t, Go)];
    TraceIsRun(Next, [s, m, v, u], steps);
  }

  /** With the lock: the handle is dropped, so that the thread will not join itself. */
  lemma BeginsDoReset(s: State, t: nat) returns (steps: seq<Step>, u: State)
    requires s.lock == None && t in s.pcs && s.pcs[t] == AtLock(ChipReset)
    ensures Run(Next, s, steps) == Some(u) && OnlyBy(steps, {t})
    ensures u == s.(lock := Some(t), handle := 0, pcs := s.pcs[t := Locked(ChipReset, InDisable(ResetRun))])
  {
    var m := At(s, t, Locked(ChipReset, InEntry(DropHandle))).(lock := Some(t));
    u := s.(lock := Some(t), handle := 0, pcs := s.pcs[t := Locked(ChipReset, InDisable(ResetRun))]);
    assert Next(m, Step(t, Go)).value.pcs == u.pcs;
    steps := [Step(t, Go), Step(t, Go)];
    TraceIsRun(Next, [s, m, u], steps);
  }

  // ---------------------------------------------------------------- the two resets

  predicate ResetSucceeds(kernel: Kernel) {
    kernel.eventRead && AllOpen(kernel.opens) && kernel.stays
  }

  /** The status after a reset, by the answers it got. */
  function StatusAfterReset(build: Build, kernel: Kernel): Status
    requires kernel.opens != []
  {
    if ResetSucceeds(kernel) then Enabled
    else if !kernel.eventRead then Disabled
    else if AllOpen(kernel.opens) then Disabling
    else if build == BtVendor then Enabling
    else if kernel.opens[0] == -1 then Disabled else Disabling
  }

  /** What a reset leaves behind. */
  ghost predicate Reopened(kernel: Kernel, build: Build, fds: seq<int>, handle: nat, run: bool)
    requires kernel.opens != []
  {
    && |fds| == |kernel.opens|
    && fds == OpenedBelow(Closed(|fds|), kernel.opens,
                if kernel.eventRead then FirstFailure(Closed(|fds|), kernel.opens, 0) else 0)
    && handle == (if kernel.eventRead && AllOpen(kernel.opens) then kernel.thread else 0)
    && DerivedStatus(false, run, handle != 0, fds) == StatusAfterReset(build, kernel)
  }

  /** Disabling and enabling again, in the course of a reset. */
  lemma Reopens(s: State, a: nat, op: Op, kernel: Kernel) returns (steps: seq<Step>, u: State)
    requires a in s.pcs && ResetOp(op) && s.pcs[a] == Locked(op, InDisable(ResetRun))
    requires s.handle != 0 ==> s.handle in s.pcs && !InReset(s.pcs[s.handle])
    requires |kernel.opens| == |s.fds| > 0 && Answers(kernel.opens, {})
    requires kernel.thread != 0 && kernel.thread !in s.pcs && kernel.thread !in s.clients
    requires Inv(s)
    ensures Run(Next, s, steps) == Some(u)
    ensures a in u.pcs && u.pcs[a] == Locked(op, AfterEnable(op, ResetSucceeds(kernel)))
    ensures Reopened(kernel, u.build, u.fds, u.handle, u.run)
    ensures u.notices == s.notices && u.lock == s.lock && u.build == s.build
  {
    var disabling, m, drained := DisableAlone(s, a, op);
    assert m.fds == Closed(|s.fds|);
    assert Recorded(m.fds) == {};
    var enabling;
    enabling, u := EnableAlone(m, a, op, kernel);
    ReopenedStatus(m.fds, kernel);
    OpenedIsOpen(m.fds, kernel.opens);
    RunAppends(Next, s, disabling, enabling);
    steps := disabling + enabling;
  }

  lemma ReopensAfter(s: State, begin: seq<Step>, m: State, a: nat, op: Op, kernel: Kernel)
      returns (steps: seq<Step>, u: State)
    requires Run(Next, s, begin) == Some(m)
    requires a in m.pcs && ResetOp(op) && m.pcs[a] == Locked(op, InDisable(ResetRun))
    requires m.handle != 0 ==> m.handle in m.pcs && !InReset(m.pcs[m.handle])
    requires |kernel.opens| == |m.fds| > 0 && Answers(kernel.opens, {})
    requires kernel.thread != 0 && kernel.thread !in m.pcs && kernel.thread !in m.clients
    requires Inv(s)
    ensures Run(Next, s, steps) == Some(u)
    ensures a in u.pcs && u.pcs[a] == Locked(op, AfterEnable(op, ResetSucceeds(kernel)))
    ensures Reopened(kernel, u.build, u.fds, u.handle, u.run)
    ensures u.notices == m.notices && u.lock == m.lock && u.build == m.build
  {
    RunKeepsInv(s, begin);
    var reopening;
    reopening, u := Reopens(m, a, op, kernel);
    RunAppends(Next, s, begin, reopening);
    steps := begin + reopening;
  }

  lemma OpenedIsOpen(fds: seq<int>, opens: seq<int>)
    requires |fds| == |opens|
    ensures FirstFailure(fds, opens, 0) == |fds| ==> AllOpen(OpenedBelow(fds, opens, |fds|))
  {
  }

  /** `ant_radio_hard_reset`, from any moment with a free lock: what it reports is RESET or DISABLED by whether it
      succeeded, and what it leaves behind is decided by the answers of the system alone. */
  lemma HardResetAlone(s: State, a: nat, kernel: Kernel) returns (steps: seq<Step>, u: State)
    requires s.lock == None && a in s.clients && a in s.pcs && s.pcs[a] == Idle && |s.fds| > 0
    requires s.handle != 0 ==> s.handle in s.pcs && !InReset(s.pcs[s.handle])
    requires |kernel.opens| == |s.fds| && Answers(kernel.opens, {})
    requires kernel.thread != 0 && kernel.thread !in s.pcs && kernel.thread !in s.clients
    requires Inv(s)
    ensures Run(Next, s, steps) == Some(u)
    ensures u.lock == None && a in u.pcs && u.pcs[a] == Idle && !u.resetting && u.build == s.build
    ensures Reopened(kernel, u.build, u.fds, u.handle, u.run)
    ensures u.notices == s.notices + [Resetting, if ResetSucceeds(kernel) then Reset else Disabled]
  {
    var begin, m := BeginsHardReset(s, a);
    var reopening, v := ReopensAfter(s, begin, m, a, HardReset, kernel);
    var ending;
    ending, u := EndsHardReset(v, a, ResetSucceeds(kernel));
    RunAppends(Next, s, reopening, ending);
    steps := reopening + ending;
  }

  /** `doReset`, from the moment the thread is past its decision, with a free lock: it gets the lock, reopens the
      channels, starts a new thread, reports RESET or DISABLED and is over. */
  lemma DoResetAlone(s: State, t: nat, kernel: Kernel) returns (steps: seq<Step>, u: State)
    requires s.lock == None && t in s.pcs && s.pcs[t] == Leaving(RaiseResetting) && |s.fds| > 0
    requires |kernel.opens| == |s.fds| && Answers(kernel.opens, {})
    requires kernel.thread != 0 && kernel.thread !in s.pcs && kernel.thread !in s.clients
    requires Inv(s)
    ensures Run(Next, s, steps) == Some(u)
    ensures u.lock == None && t in u.pcs && u.pcs[t] == Dead && !u.resetting && u.build == s.build
    ensures Reopened(kernel, u.build, u.fds, u.handle, u.run)
    ensures u.notices == s.notices + [Resetting, if ResetSucceeds(kernel) then Reset else Disabled]
  {
    var asking, m := AsksForReset(s, t);
    var begin, m' := BeginsDoReset(m, t);
    RunAppends(Next, s, asking, begin);
    var reopening, v := ReopensAfter(s, asking + begin, m', t, ChipReset, kernel);
    var ending;
    ending, u := EndsDoReset(v, t, ResetSucceeds(kernel));
    RunAppends(Next, s, reopening, ending);
    steps := reopening + ending;
  }

  // ---------------------------------------------------------------- enabling and disabling

  /** Up to the announcement of a call that is not redundant. */
  lemma Announces(s: State, a: nat, op: Op) returns (steps: seq<Step>, u: State)
    requires s.lock == None && a in s.pcs && s.pcs[a] == Idle && op in {EnableRadio, DisableRadio} && !s.resetting
    requires s.build == Vfs ==> StatusOf(s) != if op == EnableRadio then Enabled else Disabled
    ensures Run(Next, s, steps) == Some(u)
    ensures u == s.(lock := Some(a), notices := s.notices + [if op == EnableRadio then Enabling else Disabling],
                    pcs := s.pcs[a := Locked(op, if op == EnableRadio then InEnable(ReadEvent)
                                                 else InDisable(ResetRun))])
  {
    var call, m := GetsLock(s, a, op);
    var asking, v := AsksForStatus(m, a, op);
    u := Next(v, Step(a, Go)).value;
    OneStep(v, Step(a, Go));
    RunAppends(Next, s, call, asking);
    RunAppends(Next, s, call + asking, [Step(a, Go)]);
    steps := call + asking + [Step(a, Go)];
    assert u.pcs == s.pcs[a := u.pcs[a]];
  }

  /** A redundant call of the VFS build changes nothing and reports nothing. */
  lemma RedundantCallAlone(s: State, a: nat, op: Op) returns (steps: seq<Step>)
    requires s.lock == None && a in s.pcs && s.pcs[a] == Idle && op in {EnableRadio, DisableRadio}
    requires s.build == Vfs && !s.resetting && StatusOf(s) == if op == EnableRadio then Enabled else Disabled
    ensures steps != [] && steps[0] == Step(a, Begin(op)) && Run(Next, s, steps) == Some(s)
  {
    var call, m := GetsLock(s, a, op);
    var finding, u := FindsRedundant(m, a, op);
    RunAppends(Next, s, call, finding);
    steps := call + finding;
    assert u.pcs == s.pcs;
  }

  /** What is left and reported when the enabling part of `ant_enable_radio` has failed. */
  lemma GivesUpEnabling(s: State, a: nat, op: Op) returns (steps: seq<Step>, u: State)
    requires a in s.pcs && s.pcs[a] == Locked(op, InDisable(ResetRun)) && !ResetOp(op) && !s.resetting
    requires s.handle != 0 ==> s.handle in s.pcs && !InReset(s.pcs[s.handle])
    requires Inv(s)
    ensures Run(Next, s, steps) == Some(u)
    ensures u.lock == None && a in u.pcs && u.pcs[a] == Home(op) && u.notices == s.notices + [Disabled]
    ensures StatusOf(u) == Disabled && u.open == {} && AllClosed(u.fds) && u.handle == 0 && !u.run
    ensures s.handle == 0 ==> OnlyBy(steps, {a}) && u.pcs == s.pcs[a := Home(op)] && u.signal == s.signal
  {
    var disabling, m, drained := DisableAlone(s, a, op);
    var reporting;
    reporting, u := ReportsDisabled(m, a, op);
    RunAppends(Next, s, disabling, reporting);
    steps := disabling + reporting;
    assert s.handle == 0 ==> u.pcs == s.pcs[a := Home(op)];
  }

  /** ... after some run from a sound state. */
  lemma GivesUpAfter(s: State, begin: seq<Step>, m: State, a: nat, op: Op) returns (steps: seq<Step>, u: State)
    requires Run(Next, s, begin) == Some(m)
    requires a in m.pcs && m.pcs[a] == Locked(op, InDisable(ResetRun)) && !ResetOp(op) && !m.resetting
    requires m.handle != 0 ==> m.handle in m.pcs && !InReset(m.pcs[m.handle])
    requires Inv(s)
    ensures Run(Next, s, steps) == Some(u)
    ensures u.lock == None && a in u.pcs && u.pcs[a] == Home(op) && u.notices == m.notices + [Disabled]
    ensures StatusOf(u) == Disabled && u.open == {} && AllClosed(u.fds) && u.handle == 0 && !u.run
    ensures m.handle == 0 && OnlyBy(begin, {a}) ==> OnlyBy(steps, {a}) && u.pcs == m.pcs[a := Home(op)]
  {
    RunKeepsInv(s, begin);
    var ending;
    ending, u := GivesUpEnabling(m, a, op);
    RunAppends(Next, s, begin, ending);
    steps := begin + ending;
  }

  /** `ant_disable_radio`, from any moment with a free lock at which no thread is on its way into `doReset`. */
  lemma DisableRadioAlone(s: State, a: nat) returns (steps: seq<Step>, u: State)
    requires s.lock == None && a in s.pcs && s.pcs[a] == Idle && !s.resetting
    requires s.handle != 0 ==> s.handle in s.pcs && !InReset(s.pcs[s.handle])
    requires Inv(s)
    ensures Run(Next, s, steps) == Some(u)
    ensures u.lock == None && a in u.pcs && u.pcs[a] == Idle
    ensures StatusOf(u) == Disabled && AllClosed(u.fds) && u.handle == 0
    ensures u.notices == s.notices + if s.build == Vfs && StatusOf(s) == Disabled then [] else [Disabling, Disabled]
  {
    if s.build == Vfs && StatusOf(s) == Disabled {
      steps := RedundantCallAlone(s, a, DisableRadio);
      u := s;
    } else {
      var begin, m := Announces(s, a, DisableRadio);
      steps, u := GivesUpAfter(s, begin, m, a, DisableRadio);
    }
  }

  /** `ant_enable_radio`, likewise: all or nothing. */
  lemma EnableRadioAlone(s: State, a: nat, kernel: Kernel) returns (steps: seq<Step>, u: State)
    requires s.lock == None && a in s.pcs && s.pcs[a] == Idle && !s.resetting && |s.fds| > 0
    requires s.handle != 0 ==> s.handle in s.pcs && !InReset(s.pcs[s.handle])
    requires |kernel.opens| == |s.fds| && Answers(kernel.opens, s.open)
    requires kernel.thread != 0 && kernel.thread !in s.pcs && kernel.thread !in s.clients
    requires s.build == Vfs ==> StatusOf(s) != Enabled
    requires Inv(s)
    ensures Run(Next, s, steps) == Some(u) && u.lock == None && a in u.pcs && u.pcs[a] == Idle
    ensures var all := FirstFailure(s.fds, kernel.opens, 0) == |s.fds|;
            var ok := kernel.eventRead && all && (s.handle != 0 || kernel.stays);
            && u.notices == s.notices + [Enabling, if ok then Enabled else Disabled]
            && StatusOf(u) == (if ok then Enabled else Disabled)
            && (if ok then AllOpen(u.fds) && u.handle == (if s.handle == 0 then kernel.thread else s.handle)
                else AllClosed(u.fds) && u.handle == 0)
  {
    var begin, m := Announces(s, a, EnableRadio);
    RecordedAreOpen(s);
    var enabling, v := EnableAlone(m, a, EnableRadio, kernel);
    RunAppends(Next, s, begin, enabling);
    OpenedIsOpen(s.fds, kernel.opens);
    steps, u := EndsEnabling(s, begin + enabling, v, a);
  }

  /** The end of `ant_enable_radio`, by whether `ant_enable` succeeded. */
  lemma EndsEnabling(s: State, begin: seq<Step>, m: State, a: nat) returns (steps: seq<Step>, u: State)
    requires Run(Next, s, begin) == Some(m)
    requires a in m.pcs && m.pcs[a].Locked? && m.pcs[a].op == EnableRadio && !m.resetting
    requires m.pcs[a].at == InFinish(Report(true)) || m.pcs[a].at == InDisable(ResetRun)
    requires m.handle != 0 ==> m.handle in m.pcs && !InReset(m.pcs[m.handle])
    requires Inv(s)
    ensures Run(Next, s, steps) == Some(u) && u.lock == None && a in u.pcs && u.pcs[a] == Idle
    ensures var ok := m.pcs[a].at == InFinish(Report(true));
            && u.notices == m.notices + [if ok then Enabled else Disabled]
            && (ok ==> u.fds == m.fds && u.handle == m.handle && StatusOf(u) == StatusOf(m))
            && (!ok ==> StatusOf(u) == Disabled && AllClosed(u.fds) && u.handle == 0)
  {
    if m.pcs[a].at == InFinish(Report(true)) {
      var ending;
      ending, u := ReportsSuccess(m, a);
      RunAppends(Next, s, begin, ending);
      steps := begin + ending;
    } else {
      steps, u := GivesUpAfter(s, begin, m, a, EnableRadio);
    }
  }

  // ---------------------------------------------------------------- the crash cleanup

  /** What a thread that left its loop leaves behind when it found the lock free. */
  ghost predicate CleanedUp(s: State, u: State, t: nat) {
    && u.lock == None && u.handle == 0 && !u.run && AllClosed(u.fds) && u.open == {}
    && t in u.pcs && u.pcs == s.pcs[t := Dead]
    && u.notices == s.notices + [Disabling, Disabled] && StatusOf(u) == Disabled
  }

  /** It takes the lock and drops its handle, so that it will not join itself. */
  lemma BeginsCleanup(s: State, t: nat) returns (steps: seq<Step>, u: State)
    requires s.lock == None && t in s.pcs && s.pcs[t] == Leaving(TryLock)
    ensures Run(Next, s, steps) == Some(u) && OnlyBy(steps, {t})
    ensures u == s.(lock := Some(t), handle := 0, notices := s.notices + [Disabling],
                    pcs := s.pcs[t := Locked(CrashCleanup, InDisable(ResetRun))])
  {
    var m := At(s, t, Locked(CrashCleanup, InEntry(DropHandle))).(lock := Some(t));
    var v := At(m, t, Locked(CrashCleanup, InEntry(Announce))).(handle := 0);
    u := s.(lock := Some(t), handle := 0, notices := s.notices + [Disabling],
            pcs := s.pcs[t := Locked(CrashCleanup, InDisable(ResetRun))]);
    assert Next(v, Step(t, Go)).value.pcs == u.pcs;
    steps := [Step(t, Go), Step(t, Go), Step(t, Go)];
    TraceIsRun(Next, [s, m, v, u], steps);
  }

  lemma NotResettingAtExit(s: State, t: nat)
    requires s.lock == None && t in s.pcs && s.pcs[t] == Leaving(TryLock) && t != 0
    requires Inv(s)
    ensures !s.resetting
  {
    assert ActorInv(s, t);
  }

  /** It can do so, whatever else is going on. */
  lemma CleanupRuns(s: State, t: nat) returns (steps: seq<Step>, u: State)
    requires s.lock == None && t in s.pcs && s.pcs[t] == Leaving(TryLock)
    requires Inv(s)
    ensures Run(Next, s, steps) == Some(u) && OnlyBy(steps, {t}) && CleanedUp(s, u, t)
  {
    NotResettingAtExit(s, t);
    var begin, m := BeginsCleanup(s, t);
    steps, u := GivesUpAfter(s, begin, m, t, CrashCleanup);
    assert u.pcs == s.pcs[t := Dead];
  }

  /** The points of a thread that is cleaning up, or over. At each there is one thing it can do, if any. */
  predicate Cleaning(pc: Pc) {
    pc == Dead || pc == Leaving(TryLock) || (pc.Locked? && pc.op == CrashCleanup && !pc.at.InEnable?)
  }

  lemma CleaningLocked(s: State, t: nat, at: Point, c: Choice)
    requires t in s.pcs && s.pcs[t] == Locked(CrashCleanup, at) && !at.InEnable? && ActorNext(s, t, c).Some?
    ensures c == Go
    ensures t in ActorNext(s, t, c).value.pcs && Cleaning(ActorNext(s, t, c).value.pcs[t])
  {
  }

  lemma CleaningStep(s: State, t: nat, c: Choice)
    requires t in s.pcs && Cleaning(s.pcs[t]) && Next(s, Step(t, c)).Some?
    ensures c == Go && s.pcs[t] != Dead
    ensures t in Next(s, Step(t, c)).value.pcs && Cleaning(Next(s, Step(t, c)).value.pcs[t])
  {
    if s.pcs[t].Locked? {
      CleaningLocked(s, t, s.pcs[t].at, c);
    }
  }

  lemma CleaningOnlyGoes(s: State, t: nat, steps: seq<Step>)
    requires t in s.pcs && Cleaning(s.pcs[t]) && OnlyBy(steps, {t}) && Run(Next, s, steps).Some?
    ensures forall i | 0 <= i < |steps| :: steps[i] == Step(t, Go)
    ensures s.pcs[t] == Dead ==> steps == []
  {
    var keeps := (u: State) => t in u.pcs && Cleaning(u.pcs[t]) && (s.pcs[t] == Dead ==> u.pcs[t] == Dead);
    var may := (step: Step) => step.actor == t;
    var must := (step: Step) => step == Step(t, Go) && s.pcs[t] != Dead;
    forall u, step | keeps(u) && may(step) && Next(u, step).Some?
      ensures keeps(Next(u, step).value) && must(step)
    {
      CleaningStep(u, t, step.choice);
    }
    AlongARun(Next, s, steps, keeps, may, must);
  }

  /** One run to the end is as long as the other. */
  lemma NoLongerRun(s: State, t: nat, short: seq<Step>, long: seq<Step>)
    requires t in s.pcs && Cleaning(s.pcs[t]) && OnlyBy(short, {t}) && OnlyBy(long, {t})
    requires Run(Next, s, short).Some? && Run(Next, s, long).Some? && |short| <= |long|
    requires t in Run(Next, s, short).value.pcs && Run(Next, s, short).value.pcs[t] == Dead
    ensures short == long
  {
    CleaningOnlyGoes(s, t, short);
    CleaningOnlyGoes(s, t, long);
    var rest := long[|short|..];
    assert long == short + rest;
    RunAppends(Next, s, short, rest);
    CleaningOnlyGoes(Run(Next, s, short).value, t, rest);
  }

  /** And it does nothing else: from every state of every run in which a thread is just out of its loop and the lock
      is free, every run of its own steps that ends with its end has cleaned up. */
  lemma EveryEndIsCleanedUp(s: State, t: nat, steps: seq<Step>)
    requires s.lock == None && t in s.pcs && s.pcs[t] == Leaving(TryLock)
    requires OnlyBy(steps, {t}) && Run(Next, s, steps).Some?
    requires t in Run(Next, s, steps).value.pcs && Run(Next, s, steps).value.pcs[t] == Dead
    requires Inv(s)
    ensures CleanedUp(s, Run(Next, s, steps).value, t)
  {
    var known, u := CleanupRuns(s, t);
    if |steps| <= |known| {
      NoLongerRun(s, t, steps, known);
    } else {
      NoLongerRun(s, t, known, steps);
    }
  }

  // ---------------------------------------------------------------- from a poll to the end

  lemma LeavesLoop(s: State, t: nat, fds: seq<int>) returns (steps: seq<Step>)
    requires t in s.pcs && s.pcs[t] == Looping(fds, LoopTest) && !s.run
    ensures Run(Next, s, steps) == Some(At(s, t, Leaving(TryLock))) && OnlyBy(steps, {t})
  {
    steps := [Step(t, Go)];
    TraceIsRun(Next, [s, At(s, t, Leaving(TryLock))], steps);
  }

  /** A thread whose turn ends the loop while the lock is free cleans up after itself. */
  lemma CrashesFromPoll(s: State, t: nat, p: Poll) returns (steps: seq<Step>, u: State)
    requires s.lock == None && t in s.pcs && s.pcs[t].Looping? && s.pcs[t].turn == Polling && s.run
    requires !p.stopped && PollAgrees(p, s.signal) && Outcome(s.build, [p], 0) == LeaveLoop
    requires p.result.Ready? ==> |p.readOk| == |p.result.revents| == |s.fds|
    requires Inv(s)
    ensures Run(Next, s, steps) == Some(u) && OnlyBy(steps, {t}) && CleanedUp(s, u, t)
  {
    var turn, m := TurnsAgree(s, t, s.pcs[t].captured, [p], 0, true);
    var leaving := LeavesLoop(m, t, s.pcs[t].captured);
    var v := At(m, t, Leaving(TryLock));
    RunAppends(Next, s, turn, leaving);
    steps, u := CleansUpAfter(s, turn + leaving, v, t);
    assert u.pcs == s.pcs[t := Dead];
  }

  lemma CleansUpAfter(s: State, begin: seq<Step>, m: State, t: nat) returns (steps: seq<Step>, u: State)
    requires Run(Next, s, begin) == Some(m) && OnlyBy(begin, {t})
    requires m.lock == None && t in m.pcs && m.pcs[t] == Leaving(TryLock)
    requires Inv(s)
    ensures Run(Next, s, steps) == Some(u) && OnlyBy(steps, {t}) && CleanedUp(m, u, t)
  {
    RunKeepsInv(s, begin);
    var cleaning;
    cleaning, u := CleanupRuns(m, t);
    RunAppends(Next, s, begin, cleaning);
    steps := begin + cleaning;
  }

  lemma NoSignalPending(s: State, t: nat)
    requires s.lock == None && t in s.pcs && Registered(s.pcs[t])
    requires Inv(s)
    ensures s.signal == 0
  {
    assert ActorInv(s, t);
  }

  /** In the bt-vendor build: a read fails. */
  lemma CrashesOnFailedRead(s: State, t: nat) returns (steps: seq<Step>, u: State)
    requires s.build == BtVendor && |s.fds| > 0
    requires s.lock == None && t in s.pcs && s.pcs[t].Looping? && s.pcs[t].turn == Polling && s.run
    requires Inv(s)
    ensures Run(Next, s, steps) == Some(u) && OnlyBy(steps, {t}) && CleanedUp(s, u, t)
  {
    NoSignalPending(s, t);
    var p := FailedReads(|s.fds|);
    FailedReadsLeave(|s.fds|);
    steps, u := CrashesFromPoll(s, t, p);
  }

  /** Data on every channel, and no read of it succeeds. */
  function FailedReads(n: nat): Poll {
    Poll(false, Ready(seq(n, _ => 0x0041), 0), 0, seq(n, _ => false))
  }

  lemma FailedReadsLeave(n: nat)
    requires n > 0
    ensures Outcome(BtVendor, [FailedReads(n)], 0) == LeaveLoop
  {
    DataOnly();
    assert FailsAt(FailedReads(n), 0);
    assert forall e: nat :: !RecoversAt(BtVendor, FailedReads(n), e);
  }

  lemma DataOnly()
    ensures BringsData(0x0041) && !CallsForReset(0x0041)
  {
  }

  /** In both builds: `poll` reports an error of the shutdown descriptor. */
  lemma CrashesOnFaultyShutdown(s: State, t: nat) returns (steps: seq<Step>, u: State)
    requires s.lock == None && t in s.pcs && s.pcs[t].Looping? && s.pcs[t].turn == Polling && s.run
    requires Inv(s)
    ensures Run(Next, s, steps) == Some(u) && OnlyBy(steps, {t}) && CleanedUp(s, u, t)
  {
    var p := NothingOnChannels(|s.fds|, 0x0008);
    NothingRecovers(s.build, |s.fds|, 0x0008);
    assert forall e: nat :: !RecoversAt(s.build, p, e);
    steps, u := CrashesFromPoll(s, t, p);
  }
}
