/** The step system of module Lifecycle and the sequential code of module RadioControl are the same code: when
    nobody interferes, the steps of one `ant_enable` or `ant_disable`, with those of the thread it starts or
    joins, add up to exactly what the contract of the corresponding method says. */
module LifecycleAlone {
  import opened Radio
  import opened Runs
  import opened Lifecycle
  import opened LifecycleInvariant
  import opened LifecycleProperties
  import opened LifecycleJoin
  import opened LifecycleTurn
  import opened RadioControl

  /** An idle client makes a call and gets the free lock. */
  lemma GetsLock(s: State, a: nat, op: Op) returns (steps: seq<Step>, u: State)
    requires s.lock == None && a in s.pcs && s.pcs[a] == Idle && !RxOp(op)
    ensures Run(Next, s, steps) == Some(u)
    ensures u == s.(lock := Some(a), pcs := s.pcs[a := Locked(op, InEntry(FirstPoint(s.build, op)))])
    ensures steps == [Step(a, Begin(op)), Step(a, Go)]
  {
    u := s.(lock := Some(a), pcs := s.pcs[a := Locked(op, InEntry(FirstPoint(s.build, op)))]);
    var m := At(s, a, AtLock(op));
    assert At(m, a, u.pcs[a]).pcs == u.pcs;
    steps := [Step(a, Begin(op)), Step(a, Go)];
    TraceIsRun(Next, [s, m, u], steps);
  }

  /** Opening channels from `i` on, up to the first that cannot be opened. `was` is what was recorded before
      channel 0. */
  lemma OpensChannels(s: State, a: nat, op: Op, was: seq<int>, opens: seq<int>, i: nat)
      returns (steps: seq<Step>, u: State)
    requires a in s.pcs && s.pcs[a] == Locked(op, InEnable(OpenChannel(i)))
    requires |was| == |opens| && i <= |was| && Distinct(was) && Answers(opens, Recorded(was))
    requires s.fds == OpenedBelow(was, opens, i) && s.open == Recorded(s.fds) && Distinct(s.fds)
    ensures Run(Next, s, steps) == Some(u) && OnlyBy(steps, {a})
    ensures var first := FirstFailure(was, opens, i);
            u == s.(fds := OpenedBelow(was, opens, first), open := u.open,
                    pcs := s.pcs[a := Locked(op, InEnable(OpenChannel(first)))])
    decreases |was| - i
  {
    if i == FirstFailure(was, opens, i) {
      steps, u := [], s;
      assert s.pcs == s.pcs[a := s.pcs[a]];
    } else {
      var step := Step(a, if was[i] == -1 then Opened(opens[i]) else Go);
      if was[i] == -1 {
        OpeningOne(was, opens, s.open, i);
      } else {
        assert OpenedBelow(was, opens, i + 1) == OpenedBelow(was, opens, i);
      }
      var m := Next(s, step).value;
      var rest;
      rest, u := OpensChannels(m, a, op, was, opens, i + 1);
      var last := Locked(op, InEnable(OpenChannel(FirstFailure(was, opens, i))));
      assert m.pcs[a := last] == s.pcs[a := last];
      assert Run(Next, s, [step]) == Some(m);
      RunAppends(Next, s, [step], rest);
      steps := [step] + rest;
    }
  }

  /** Where an actor goes from the end of `ant_enable`. */
  function AfterEnable(op: Op, ok: bool): Point {
    if op == EnableRadio && !ok then InDisable(ResetRun)
    else if op == ChipReset then InFinish(LowerFlag(ok))
    else InFinish(Report(ok))
  }

  /** All channels are open: the thread is created, unless there is one. */
  lemma GetsThread(s: State, a: nat, op: Op, t: nat) returns (steps: seq<Step>, u: State)
    requires a in s.pcs && s.pcs[a] == Locked(op, InEnable(OpenChannel(|s.fds|)))
    requires t != 0 && t !in s.pcs && t !in s.clients
    ensures Run(Next, s, steps) == Some(u) && OnlyBy(steps, {a})
    ensures u == s.(handle := if s.handle == 0 then t else s.handle, pcs := u.pcs)
    ensures u.pcs == (if s.handle == 0 then s.pcs[t := Looping([], Capture)] else s.pcs)[
                       a := Locked(op, InEnable(CheckRun))]
  {
    var create := if s.handle == 0 then Step(a, Created(t)) else Step(a, Go);
    var m := At(s, a, Locked(op, InEnable(CreateThread)));
    u := Next(m, create).value;
    steps := [Step(a, Go), create];
    TraceIsRun(Next, [s, m, u], steps);
  }

  /** The check of the run flag, and out. */
  lemma ChecksRun(s: State, a: nat, op: Op) returns (steps: seq<Step>, u: State)
    requires a in s.pcs && s.pcs[a] == Locked(op, InEnable(CheckRun)) && s.handle != 0
    ensures Run(Next, s, steps) == Some(u) && OnlyBy(steps, {a})
    ensures u == At(s, a, Locked(op, AfterEnable(op, s.run)))
  {
    var m := At(s, a, Locked(op, InEnable(Out(s.run))));
    u := At(s, a, Locked(op, AfterEnable(op, s.run)));
    assert Next(m, Step(a, Go)).value.pcs == u.pcs;
    steps := [Step(a, Go), Step(a, Go)];
    TraceIsRun(Next, [s, m, u], steps);
  }

  /** A new rx thread captures the descriptors and reaches `poll`. */
  lemma ReachesPoll(s: State, t: nat, captured: seq<int>) returns (steps: seq<Step>, u: State)
    requires t in s.pcs && s.pcs[t] == Looping(captured, Capture) && |captured| <= |s.fds| && s.run
    ensures Run(Next, s, steps) == Some(u) && OnlyBy(steps, {t})
    ensures t in u.pcs && u.pcs[t].Looping? && u.pcs[t].turn == Polling
    ensures u == s.(pcs := s.pcs[t := u.pcs[t]])
    decreases |s.fds| - |captured|
  {
    var m := Next(s, Step(t, Go)).value;
    var rest;
    if |captured| < |s.fds| {
      rest, u := ReachesPoll(m, t, captured + [s.fds[|captured|]]);
    } else {
      rest, u := [Step(t, Go)], Next(m, Step(t, Go)).value;
      assert Run(Next, m, rest) == Some(u);
    }
    assert m.pcs[t := u.pcs[t]] == s.pcs[t := u.pcs[t]];
    assert Run(Next, s, [Step(t, Go)]) == Some(m);
    RunAppends(Next, s, [Step(t, Go)], rest);
    steps := [Step(t, Go)] + rest;
  }


  /** A new thread takes the run flag down by itself. */
  lemma StopsItself(s: State, t: nat) returns (steps: seq<Step>, u: State)
    requires t in s.pcs && s.pcs[t] == Looping([], Capture) && s.run
    ensures Run(Next, s, steps) == Some(u) && OnlyBy(steps, {t})
    ensures t in u.pcs && u.pcs[t].Looping? && u == s.(run := false, pcs := s.pcs[t := u.pcs[t]])
  {
    var polling, m := ReachesPoll(s, t, []);
    var stopping;
    NothingRecovers(m.build, |m.fds|, 0x0008);
    stopping, u := ReadyTurn(m, t, m.pcs[t].captured, NothingOnChannels(|m.fds|, 0x0008), true);
    RunAppends(Next, s, polling, stopping);
    steps := polling + stopping;
    assert u.pcs == s.pcs[t := u.pcs[t]];
  }

  /** The end of an `ant_enable` that opened every channel: a thread, the check of the run flag, and out. */
  lemma CreatesThread(s: State, a: nat, op: Op, t: nat) returns (steps: seq<Step>, u: State)
    requires a in s.pcs && s.pcs[a] == Locked(op, InEnable(OpenChannel(|s.fds|))) && s.run
    requires t != 0 && t !in s.pcs && t !in s.clients
    ensures Run(Next, s, steps) == Some(u) && OnlyBy(steps, {a})
    ensures u == s.(handle := if s.handle == 0 then t else s.handle, pcs := u.pcs)
    ensures u.pcs == (if s.handle == 0 then s.pcs[t := Looping([], Capture)] else s.pcs)[
                       a := Locked(op, AfterEnable(op, true))]
  {
    var getting, m := GetsThread(s, a, op, t);
    var checking;
    checking, u := ChecksRun(m, a, op);
    RunAppends(Next, s, getting, checking);
    steps := getting + checking;
    assert u.pcs == m.pcs[a := u.pcs[a]];
  }

  /** ... or a new thread that has cleared the run flag by the time of the check. */
  lemma CrashesInInit(s: State, a: nat, op: Op, t: nat) returns (steps: seq<Step>, u: State)
    requires a in s.pcs && s.pcs[a] == Locked(op, InEnable(OpenChannel(|s.fds|))) && s.run && s.handle == 0
    requires t != 0 && t !in s.pcs && t !in s.clients
    ensures Run(Next, s, steps) == Some(u) && OnlyBy(steps, {a, t})
    ensures u == s.(handle := t, run := false, pcs := u.pcs)
    ensures a in u.pcs && u.pcs[a] == Locked(op, AfterEnable(op, false))
    ensures t in u.pcs && u.pcs[t].Looping?
    ensures forall b | b in s.pcs && b != a :: b in u.pcs && u.pcs[b] == s.pcs[b]
  {
    var getting, m := GetsThread(s, a, op, t);
    var stopping, v := StopsItself(m, t);
    var checking;
    checking, u := ChecksRun(v, a, op);
    RunAppends(Next, s, getting, stopping);
    RunAppends(Next, s, getting + stopping, checking);
    steps := getting + stopping + checking;
  }

  /** From the start of `ant_enable` to its channel loop. */
  lemma BeginsEnable(s: State, a: nat, op: Op) returns (steps: seq<Step>, u: State)
    requires a in s.pcs && s.pcs[a] == Locked(op, InEnable(ReadEvent))
    ensures Run(Next, s, steps) == Some(u) && OnlyBy(steps, {a})
    ensures u == s.(signal := 0, run := true, pcs := s.pcs[a := Locked(op, InEnable(OpenChannel(0)))])
  {
    var m := Next(s, Step(a, EventRead(true))).value;
    u := s.(signal := 0, run := true, pcs := s.pcs[a := Locked(op, InEnable(OpenChannel(0)))]);
    assert Next(m, Step(a, Go)).value.pcs == u.pcs;
    steps := [Step(a, EventRead(true)), Step(a, Go)];
    TraceIsRun(Next, [s, m, u], steps);
  }

  /** A failure inside `ant_enable`, and out. */
  lemma FailsEnable(s: State, a: nat, op: Op, trouble: Choice) returns (steps: seq<Step>, u: State)
    requires a in s.pcs
    requires Next(s, Step(a, trouble)) == Some(At(s, a, Locked(op, InEnable(Out(false)))))
    ensures Run(Next, s, steps) == Some(u) && OnlyBy(steps, {a})
    ensures u == s.(run := s.run && (s.handle != 0 || s.build == BtVendor),
                    pcs := s.pcs[a := Locked(op, AfterEnable(op, false))])
  {
    var m := Next(s, Step(a, trouble)).value;
    u := s.(run := s.run && (s.handle != 0 || s.build == BtVendor),
            pcs := s.pcs[a := Locked(op, AfterEnable(op, false))]);
    assert Next(m, Step(a, Go)).value.pcs == u.pcs;
    steps := [Step(a, trouble), Step(a, Go)];
    TraceIsRun(Next, [s, m, u], steps);
  }

  /** `ant_enable` with nobody but its own new thread moving: the contract of `RadioThreadInfo.AntEnable`, and for
      the bt-vendor build the same but for the run flag, which a failure leaves up. */
  lemma EnableAlone(s: State, a: nat, op: Op, kernel: Kernel) returns (steps: seq<Step>, u: State)
    requires a in s.pcs && s.pcs[a] == Locked(op, InEnable(ReadEvent))
    requires s.open == Recorded(s.fds) && Distinct(s.fds)
    requires |kernel.opens| == |s.fds| && Answers(kernel.opens, s.open)
    requires kernel.thread != 0 && kernel.thread !in s.pcs && kernel.thread !in s.clients
    ensures Run(Next, s, steps) == Some(u) && OnlyBy(steps, if kernel.stays then {a} else {a, kernel.thread})
    ensures var all := FirstFailure(s.fds, kernel.opens, 0) == |s.fds|;
            var ok := kernel.eventRead && all && (s.handle != 0 || kernel.stays);
            && u.handle == (if s.handle == 0 && kernel.eventRead && all then kernel.thread else s.handle)
            && u.run == (ok || (!(kernel.eventRead && all)
                                && (s.handle != 0 || s.build == BtVendor) && (kernel.eventRead || s.run)))
            && a in u.pcs && u.pcs[a] == Locked(op, AfterEnable(op, ok))
    ensures forall b | b in s.pcs && b != a :: b in u.pcs && u.pcs[b] == s.pcs[b]
    ensures kernel.thread in u.pcs ==> u.pcs[kernel.thread].Looping?
    ensures u.handle == s.handle || kernel.thread in u.pcs
    ensures u.fds == OpenedBelow(s.fds, kernel.opens,
                       if kernel.eventRead then FirstFailure(s.fds, kernel.opens, 0) else 0)
    ensures u.signal == if kernel.eventRead then 0 else s.signal
    ensures u.notices == s.notices && u.resetting == s.resetting && u.lock == s.lock && u.clients == s.clients
    ensures u.build == s.build
  {
    assert OpenedBelow(s.fds, kernel.opens, 0) == s.fds;
    if !kernel.eventRead {
      steps, u := FailsEnable(s, a, op, EventRead(false));
    } else {
      var begin, m := BeginsEnable(s, a, op);
      var opening, v := OpensChannels(m, a, op, s.fds, kernel.opens, 0);
      var ending;
      ending, u := AfterOpening(v, a, op, FirstFailure(s.fds, kernel.opens, 0), kernel.thread, kernel.stays);
      RunAppends(Next, s, begin, opening);
      RunAppends(Next, s, begin + opening, ending);
      steps := begin + opening + ending;
    }
  }

  /** `ant_enable` from channel `i` on, which cannot be opened, or is one too many. */
  lemma AfterOpening(s: State, a: nat, op: Op, i: nat, t: nat, stays: bool) returns (steps: seq<Step>, u: State)
    requires a in s.pcs && s.pcs[a] == Locked(op, InEnable(OpenChannel(i))) && s.run
    requires i < |s.fds| ==> s.fds[i] == -1
    requires i <= |s.fds| && t != 0 && t !in s.pcs && t !in s.clients
    ensures Run(Next, s, steps) == Some(u) && OnlyBy(steps, if stays then {a} else {a, t})
    ensures var all := i == |s.fds|;
            var ok := all && (s.handle != 0 || stays);
            && u == s.(handle := u.handle, run := u.run, pcs := u.pcs)
            && u.handle == (if s.handle == 0 && all then t else s.handle)
            && u.run == (ok || (!all && (s.handle != 0 || s.build == BtVendor)))
            && a in u.pcs && u.pcs[a] == Locked(op, AfterEnable(op, ok))
    ensures forall b | b in s.pcs && b != a :: b in u.pcs && u.pcs[b] == s.pcs[b]
    ensures t in u.pcs ==> u.pcs[t].Looping?
    ensures u.handle == s.handle || t in u.pcs
  {
    if i < |s.fds| {
      steps, u := FailsEnable(s, a, op, Opened(-1));
    } else if s.handle != 0 || stays {
      steps, u := CreatesThread(s, a, op, t);
    } else {
      steps, u := CrashesInInit(s, a, op, t);
    }
  }

  /** Closing channels `i` and up. */
  lemma ClosesChannels(s: State, a: nat, op: Op, i: nat) returns (steps: seq<Step>, u: State)
    requires a in s.pcs && s.pcs[a] == Locked(op, InDisable(CloseChannel(i))) && i <= |s.fds|
    requires s.open == Recorded(s.fds) && Distinct(s.fds) && forall j | 0 <= j < i :: s.fds[j] == -1
    ensures Run(Next, s, steps) == Some(u) && OnlyBy(steps, {a})
    ensures u == s.(fds := Closed(|s.fds|), open := {}, pcs := s.pcs[a := Locked(op, InDisable(CloseChannel(|s.fds|)))])
    decreases |s.fds| - i
  {
    var last := Locked(op, InDisable(CloseChannel(|s.fds|)));
    if i == |s.fds| {
      steps, u := [], s;
      assert s.pcs == s.pcs[a := last] && s.fds == Closed(|s.fds|);
    } else {
      ClosingOne(s.fds, i);
      var step := Step(a, Go);
      var m := Next(s, step).value;
      assert -1 !in s.open;
      var rest;
      rest, u := ClosesChannels(m, a, op, i + 1);
      assert m.pcs[a := last] == s.pcs[a := last];
      assert Run(Next, s, [step]) == Some(m);
      RunAppends(Next, s, [step], rest);
      steps := [step] + rest;
    }
  }

  lemma RecordedAreOpen(s: State)
    requires Inv(s)
    ensures s.open == Recorded(s.fds) && Distinct(s.fds)
  {
    forall fd | fd in s.open
      ensures fd in Recorded(s.fds)
    {
      var i :| 0 <= i < |s.fds| && s.fds[i] == fd;
    }
  }

  /** `ant_disable` with nobody but the joined thread moving, wherever that thread is, unless it has gone into
      `doReset`: the contract of `RadioThreadInfo.AntDisable`. */
  lemma DisableAlone(s: State, a: nat, op: Op) returns (steps: seq<Step>, u: State, drained: bool)
    requires a in s.pcs && s.pcs[a] == Locked(op, InDisable(ResetRun))
    requires s.handle != 0 ==> s.handle in s.pcs && !InReset(s.pcs[s.handle])
    requires Inv(s)
    ensures Run(Next, s, steps) == Some(u) && OnlyBy(steps, if s.handle == 0 then {a} else {a, s.handle})
    ensures !u.run && u.handle == 0 && AllClosed(u.fds) && |u.fds| == |s.fds| && u.open == {}
    ensures u.signal == if s.handle == 0 then s.signal else if drained then 0 else 1
    ensures u.pcs == WithThreadOver(s)[
                       a := Locked(op, if ResetOp(op) then InEnable(ReadEvent) else InFinish(FinalFlag))]
    ensures u.notices == s.notices && u.resetting == s.resetting && u.lock == s.lock
    ensures u.clients == s.clients && u.build == s.build
  {
    RecordedAreOpen(s);
    var stopping, m, drained' := StopsThread(s, a, op);
    drained := drained';
    var closing;
    closing, u := ClosesAndClears(m, a, op);
    RunAppends(Next, s, stopping, closing);
    steps := stopping + closing;
    assert u.pcs == m.pcs[a := u.pcs[a]];
  }

  lemma ClosesAndClears(s: State, a: nat, op: Op) returns (steps: seq<Step>, u: State)
    requires a in s.pcs && s.pcs[a] == Locked(op, InDisable(CloseChannel(0)))
    requires s.open == Recorded(s.fds) && Distinct(s.fds)
    ensures Run(Next, s, steps) == Some(u) && OnlyBy(steps, {a})
    ensures u == s.(handle := 0, fds := Closed(|s.fds|), open := {},
                    pcs := s.pcs[a := Locked(op, if ResetOp(op) then InEnable(ReadEvent) else InFinish(FinalFlag))])
  {
    var closing, m := ClosesChannels(s, a, op, 0);
    var clearing;
    clearing, u := ClearsHandle(m, a, op);
    RunAppends(Next, s, closing, clearing);
    steps := closing + clearing;
    assert u.pcs == s.pcs[a := u.pcs[a]];
  }

  lemma ClearsHandle(s: State, a: nat, op: Op) returns (steps: seq<Step>, u: State)
    requires a in s.pcs && s.pcs[a] == Locked(op, InDisable(CloseChannel(|s.fds|)))
    ensures Run(Next, s, steps) == Some(u) && OnlyBy(steps, {a})
    ensures u == s.(handle := 0,
                    pcs := s.pcs[a := Locked(op, if ResetOp(op) then InEnable(ReadEvent) else InFinish(FinalFlag))])
  {
    var m := Next(s, Step(a, Go)).value;
    u := s.(handle := 0,
            pcs := s.pcs[a := Locked(op, if ResetOp(op) then InEnable(ReadEvent) else InFinish(FinalFlag))]);
    assert Next(m, Step(a, Go)).value.pcs == u.pcs;
    steps := [Step(a, Go), Step(a, Go)];
    TraceIsRun(Next, [s, m, u], steps);
  }

  /** Where everybody is once the thread, if there is one, is over. */
  function WithThreadOver(s: State): map<nat, Pc> {
    if s.handle == 0 then s.pcs else s.pcs[s.handle := Dead]
  }

  lemma StopsThread(s: State, a: nat, op: Op) returns (steps: seq<Step>, u: State, drained: bool)
    requires a in s.pcs && s.pcs[a] == Locked(op, InDisable(ResetRun))
    requires s.handle != 0 ==> s.handle in s.pcs && !InReset(s.pcs[s.handle])
    requires Inv(s)
    ensures Run(Next, s, steps) == Some(u) && OnlyBy(steps, if s.handle == 0 then {a} else {a, s.handle})
    ensures u == s.(run := false, signal := if s.handle == 0 then s.signal else if drained then 0 else 1,
                    pcs := WithThreadOver(s)[a := Locked(op, InDisable(CloseChannel(0)))])
  {
    if s.handle == 0 {
      drained := false;
      steps, u := FindsNoThread(s, a, op);
    } else {
      steps, u, drained := JoinsThread(s, a, op);
    }
  }

  lemma FindsNoThread(s: State, a: nat, op: Op) returns (steps: seq<Step>, u: State)
    requires a in s.pcs && s.pcs[a] == Locked(op, InDisable(ResetRun)) && s.handle == 0
    ensures Run(Next, s, steps) == Some(u) && OnlyBy(steps, {a})
    ensures u == s.(run := false, pcs := s.pcs[a := Locked(op, InDisable(CloseChannel(0)))])
  {
    var m := At(s, a, Locked(op, InDisable(TestHandle))).(run := false);
    u := s.(run := false, pcs := s.pcs[a := Locked(op, InDisable(CloseChannel(0)))]);
    assert Next(m, Step(a, Go)).value.pcs == u.pcs;
    steps := [Step(a, Go), Step(a, Go)];
    TraceIsRun(Next, [s, m, u], steps);
  }

  lemma JoinsThread(s: State, a: nat, op: Op) returns (steps: seq<Step>, u: State, drained: bool)
    requires a in s.pcs && s.pcs[a] == Locked(op, InDisable(ResetRun))
    requires s.handle != 0 && s.handle in s.pcs && !InReset(s.pcs[s.handle])
    requires Inv(s)
    ensures Run(Next, s, steps) == Some(u) && OnlyBy(steps, if s.handle == 0 then {a} else {a, s.handle})
    ensures u == s.(run := false, signal := if drained then 0 else 1,
                    pcs := s.pcs[s.handle := Dead][a := Locked(op, InDisable(CloseChannel(0)))])
  {
    SignalIsDown(s, a, op);
    var entering, m := EntersJoin(s, a, op);
    RunKeepsInv(s, entering);
    var joining;
    joining, u, drained := JoinsToTheEnd(m, a, op, s.handle);
    RunAppends(Next, s, entering, joining);
    steps := entering + joining;
    assert u.pcs == s.pcs[s.handle := Dead][a := u.pcs[a]];
  }

  lemma SignalIsDown(s: State, a: nat, op: Op)
    requires a in s.pcs && s.pcs[a] == Locked(op, InDisable(ResetRun)) && s.handle != 0 && s.handle in s.pcs
    requires Inv(s)
    ensures s.signal == 0 && s.handle != a
  {
    assert ActorInv(s, a);
  }

  lemma EntersJoin(s: State, a: nat, op: Op) returns (steps: seq<Step>, u: State)
    requires a in s.pcs && s.pcs[a] == Locked(op, InDisable(ResetRun)) && s.handle != 0 && s.signal == 0
    ensures Run(Next, s, steps) == Some(u) && OnlyBy(steps, {a})
    ensures u == s.(run := false, signal := 1, pcs := s.pcs[a := Locked(op, InDisable(Join(s.handle)))])
  {
    var m := At(s, a, Locked(op, InDisable(TestHandle))).(run := false);
    var v := At(m, a, Locked(op, InDisable(Signal)));
    u := s.(run := false, signal := 1, pcs := s.pcs[a := Locked(op, InDisable(Join(s.handle)))]);
    assert Next(v, Step(a, Go)).value.pcs == u.pcs;
    steps := [Step(a, Go), Step(a, Go), Step(a, Go)];
    TraceIsRun(Next, [s, m, v, u], steps);
  }

  lemma JoinsToTheEnd(s: State, a: nat, op: Op, t: nat) returns (steps: seq<Step>, u: State, drained: bool)
    requires a in s.pcs && s.pcs[a] == Locked(op, InDisable(Join(t))) && a != t
    requires t in s.pcs && !InReset(s.pcs[t]) && s.signal == 1
    requires Inv(s)
    ensures Run(Next, s, steps) == Some(u) && OnlyBy(steps, {a, t})
    ensures u == s.(signal := if drained then 0 else 1,
                    pcs := s.pcs[t := Dead][a := Locked(op, InDisable(CloseChannel(0)))])
  {
    assert ActorInv(s, a);
    var ending := JoinCanComplete(s, a, t);
    var v := Run(Next, s, ending).value;
    drained := v.signal == 0;
    u := JoinReturns(v, a, op, t);
    OneStep(v, Step(a, Go));
    RunAppends(Next, s, ending, [Step(a, Go)]);
    steps := ending + [Step(a, Go)];
  }

  lemma JoinReturns(s: State, a: nat, op: Op, t: nat) returns (u: State)
    requires a in s.pcs && s.pcs[a] == Locked(op, InDisable(Join(t))) && t in s.pcs && s.pcs[t] == Dead
    ensures Next(s, Step(a, Go)) == Some(u) && u == At(s, a, Locked(op, InDisable(CloseChannel(0))))
  {
    u := Next(s, Step(a, Go)).value;
  }
}
