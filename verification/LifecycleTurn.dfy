/** One turn of the poll loop, in the step system of module Lifecycle and in the loop of module RxLoop: what the
    steps of the thread add up to is the outcome that the loop's specification names, for every result of `poll`. */
module LifecycleTurn {
  import opened Radio
  import opened Runs
  import opened Lifecycle
  import opened RxLoop

  /** The choice that channel `i` stands for. */
  function ChannelChoice(p: Poll, i: nat): Choice
    requires p.result.Ready? && |p.readOk| == |p.result.revents| && i < |p.readOk|
  {
    if CallsForReset(p.result.revents[i]) then ChannelTrouble
    else if BringsData(p.result.revents[i]) && !p.readOk[i] then ReadFailed
    else Go
  }

  /** What the bits of the shutdown descriptor stand for. */
  function ShutdownOf(bits: bv16): Shutdown {
    if Bit(bits, 0x0001) then Signalled else if bits != 0 then Faulty else Quiet
  }

  /** `poll` tells the truth about the shutdown signal, and does not time out while it is raised. */
  predicate PollAgrees(p: Poll, signal: nat) {
    match p.result
    case TimedOut => signal == 0
    case PollFailed => true
    case Ready(_, shutdown) =>
      && (ShutdownOf(shutdown) == Quiet ==> signal == 0)
      && (ShutdownOf(shutdown) == Signalled ==> signal > 0)
  }

  ghost predicate FailsFrom(p: Poll, i: nat) {
    exists e: nat :: i <= e && FailsAt(p, e)
  }

  ghost predicate RecoversFrom(build: Build, p: Poll, i: nat) {
    exists e: nat :: i <= e && RecoversAt(build, p, e)
  }

  lemma FromHereOrLater(build: Build, p: Poll, i: nat)
    ensures FailsFrom(p, i) <==> FailsAt(p, i) || FailsFrom(p, i + 1)
    ensures RecoversFrom(build, p, i) <==> RecoversAt(build, p, i) || RecoversFrom(build, p, i + 1)
  {
    if FailsFrom(p, i) && !FailsAt(p, i) {
      var e: nat :| i <= e && FailsAt(p, e);
      assert i + 1 <= e;
    }
    if RecoversFrom(build, p, i) && !RecoversAt(build, p, i) {
      var e: nat :| i <= e && RecoversAt(build, p, e);
      assert i + 1 <= e;
    }
  }

  /** One channel that does not call for a reset: a failed read takes the run flag down. */
  lemma PassesChannel(s: State, t: nat, fds: seq<int>, p: Poll, i: nat, sd: Shutdown)
      returns (steps: seq<Step>, u: State)
    requires t in s.pcs && s.pcs[t] == Looping(fds, Dispatch(i, sd)) && i < |s.fds|
    requires p.result.Ready? && |p.readOk| == |p.result.revents| == |s.fds| && !RecoversAt(s.build, p, i)
    ensures Run(Next, s, steps) == Some(u) && OnlyBy(steps, {t})
    ensures u == s.(run := s.run && !FailsAt(p, i), pcs := s.pcs[t := Looping(fds, Dispatch(i + 1, sd))])
  {
    u := s.(run := s.run && !FailsAt(p, i), pcs := s.pcs[t := Looping(fds, Dispatch(i + 1, sd))]);
    if FailsAt(p, i) {
      var m := At(s, t, Looping(fds, FailRun(i, sd)));
      assert Next(m, Step(t, Go)).value.pcs == u.pcs;
      steps := [Step(t, ReadFailed), Step(t, Go)];
      TraceIsRun(Next, [s, m, u], steps);
    } else {
      steps := [Step(t, Go)];
      TraceIsRun(Next, [s, u], steps);
    }
  }

  /** No channel from `i` on calls for a reset. */
  lemma PassesChannels(s: State, t: nat, fds: seq<int>, p: Poll, i: nat, sd: Shutdown)
      returns (steps: seq<Step>, u: State)
    requires t in s.pcs && s.pcs[t] == Looping(fds, Dispatch(i, sd)) && i <= |s.fds|
    requires p.result.Ready? && |p.readOk| == |p.result.revents| == |s.fds| && !RecoversFrom(s.build, p, i)
    ensures Run(Next, s, steps) == Some(u) && OnlyBy(steps, {t})
    ensures u == s.(run := s.run && !FailsFrom(p, i), pcs := s.pcs[t := Looping(fds, Dispatch(|s.fds|, sd))])
    decreases |s.fds| - i
  {
    if i == |s.fds| {
      steps, u := [], s;
      assert s.pcs == s.pcs[t := s.pcs[t]];
    } else {
      FromHereOrLater(s.build, p, i);
      var first, m := PassesChannel(s, t, fds, p, i, sd);
      var rest;
      rest, u := PassesChannels(m, t, fds, p, i + 1, sd);
      assert u.pcs == s.pcs[t := u.pcs[t]];
      RunAppends(Next, s, first, rest);
      steps := first + rest;
    }
  }

  /** Some channel from `i` on calls for a reset: the first that does is the end of the turn. */
  lemma ResetsAtChannel(s: State, t: nat, fds: seq<int>, p: Poll, i: nat, sd: Shutdown)
      returns (steps: seq<Step>, u: State)
    requires t in s.pcs && s.pcs[t] == Looping(fds, Dispatch(i, sd)) && i <= |s.fds|
    requires p.result.Ready? && |p.readOk| == |p.result.revents| == |s.fds| && RecoversFrom(s.build, p, i)
    ensures Run(Next, s, steps) == Some(u) && OnlyBy(steps, {t})
    ensures u == s.(run := u.run, pcs := s.pcs[t := Leaving(RaiseResetting)])
    decreases |s.fds| - i
  {
    FromHereOrLater(s.build, p, i);
    if RecoversAt(s.build, p, i) {
      u := At(s, t, Leaving(RaiseResetting));
      steps := [Step(t, ChannelChoice(p, i))];
      TraceIsRun(Next, [s, u], steps);
    } else {
      var first, m := PassesChannel(s, t, fds, p, i, sd);
      var rest;
      rest, u := ResetsAtChannel(m, t, fds, p, i + 1, sd);
      assert u.pcs == s.pcs[t := u.pcs[t]];
      RunAppends(Next, s, first, rest);
      steps := first + rest;
    }
  }

  /** After the channels: the shutdown descriptor. The read that should take the signal down may fail. */
  lemma LooksAtShutdown(s: State, t: nat, fds: seq<int>, sd: Shutdown, drained: bool)
      returns (steps: seq<Step>, u: State)
    requires t in s.pcs && s.pcs[t] == Looping(fds, Dispatch(|s.fds|, sd))
    ensures Run(Next, s, steps) == Some(u) && OnlyBy(steps, {t})
    ensures u == s.(run := s.run && sd == Quiet, signal := if sd == Signalled && drained then 0 else s.signal,
                    pcs := s.pcs[t := Looping(fds, LoopTest)])
  {
    u := s.(run := s.run && sd == Quiet, signal := if sd == Signalled && drained then 0 else s.signal,
            pcs := s.pcs[t := Looping(fds, LoopTest)]);
    match sd {
      case Quiet =>
        steps := [Step(t, Go)];
        TraceIsRun(Next, [s, u], steps);
      case Faulty =>
        var m := At(s, t, Looping(fds, ClearRun));
        assert Next(m, Step(t, Go)).value.pcs == u.pcs;
        steps := [Step(t, Go), Step(t, Go)];
        TraceIsRun(Next, [s, m, u], steps);
      case Signalled =>
        var v;
        steps, v := Drains(s, t, fds, drained);
    }
  }

  lemma Drains(s: State, t: nat, fds: seq<int>, drained: bool) returns (steps: seq<Step>, u: State)
    requires t in s.pcs && s.pcs[t] == Looping(fds, Dispatch(|s.fds|, Signalled))
    ensures Run(Next, s, steps) == Some(u) && OnlyBy(steps, {t})
    ensures u == s.(run := false, signal := if drained then 0 else s.signal, pcs := s.pcs[t := Looping(fds, LoopTest)])
  {
    var m := At(s, t, Looping(fds, Drain));
    var v := At(m, t, Looping(fds, ClearRun)).(signal := if drained then 0 else s.signal);
    u := s.(run := false, signal := if drained then 0 else s.signal, pcs := s.pcs[t := Looping(fds, LoopTest)]);
    assert Next(v, Step(t, Go)).value.pcs == u.pcs;
    steps := [Step(t, Go), Step(t, EventRead(drained)), Step(t, Go)];
    TraceIsRun(Next, [s, m, v, u], steps);
  }

  lemma PollReturns(s: State, t: nat, fds: seq<int>, sd: Shutdown)
    requires t in s.pcs && s.pcs[t] == Looping(fds, Polling)
    requires (sd == Quiet ==> s.signal == 0) && (sd == Signalled ==> s.signal > 0)
    ensures Run(Next, s, [Step(t, PollReady(sd))]) == Some(At(s, t, Looping(fds, Dispatch(0, sd))))
  {
    TraceIsRun(Next, [s, At(s, t, Looping(fds, Dispatch(0, sd)))], [Step(t, PollReady(sd))]);
  }

  /** A turn in which `poll` found something. */
  lemma ReadyTurn(s: State, t: nat, fds: seq<int>, p: Poll, drained: bool) returns (steps: seq<Step>, u: State)
    requires t in s.pcs && s.pcs[t] == Looping(fds, Polling) && PollAgrees(p, s.signal)
    requires p.result.Ready? && |p.readOk| == |p.result.revents| == |s.fds|
    ensures Run(Next, s, steps) == Some(u) && OnlyBy(steps, {t})
    ensures RecoversFrom(s.build, p, 0) ==> u == s.(run := u.run, pcs := s.pcs[t := Leaving(RaiseResetting)])
    ensures !RecoversFrom(s.build, p, 0) ==>
              var sd := ShutdownOf(p.result.shutdown);
              u == s.(run := s.run && !FailsFrom(p, 0) && sd == Quiet,
                      signal := if sd == Signalled && drained then 0 else s.signal,
                      pcs := s.pcs[t := Looping(fds, LoopTest)])
  {
    var sd := ShutdownOf(p.result.shutdown);
    var m := At(s, t, Looping(fds, Dispatch(0, sd)));
    PollReturns(s, t, fds, sd);
    var rest;
    if RecoversFrom(s.build, p, 0) {
      rest, u := ResetsAtChannel(m, t, fds, p, 0, sd);
    } else {
      rest, u := PassesAndLooks(m, t, fds, p, sd, drained);
    }
    RunAppends(Next, s, [Step(t, PollReady(sd))], rest);
    steps := [Step(t, PollReady(sd))] + rest;
    assert u.pcs == s.pcs[t := u.pcs[t]];
  }

  lemma PassesAndLooks(s: State, t: nat, fds: seq<int>, p: Poll, sd: Shutdown, drained: bool)
      returns (steps: seq<Step>, u: State)
    requires t in s.pcs && s.pcs[t] == Looping(fds, Dispatch(0, sd))
    requires p.result.Ready? && |p.readOk| == |p.result.revents| == |s.fds| && !RecoversFrom(s.build, p, 0)
    ensures Run(Next, s, steps) == Some(u) && OnlyBy(steps, {t})
    ensures u == s.(run := s.run && !FailsFrom(p, 0) && sd == Quiet,
                    signal := if sd == Signalled && drained then 0 else s.signal,
                    pcs := s.pcs[t := Looping(fds, LoopTest)])
  {
    var passing, m := PassesChannels(s, t, fds, p, 0, sd);
    var looking;
    looking, u := LooksAtShutdown(m, t, fds, sd, drained);
    RunAppends(Next, s, passing, looking);
    steps := passing + looking;
    assert u.pcs == s.pcs[t := u.pcs[t]];
  }

  /** What the state is after a turn with that outcome. */
  ghost predicate AfterTurn(s: State, u: State, t: nat, fds: seq<int>, outcome: Turn) {
    match outcome
    case GoOn => u == s.(pcs := s.pcs[t := Looping(fds, LoopTest)])
    case LeaveLoop =>
      u == s.(run := false, signal := u.signal, pcs := s.pcs[t := Looping(fds, LoopTest)]) && u.signal in {s.signal, 0}
    case _ => u == s.(run := u.run, pcs := s.pcs[t := Leaving(RaiseResetting)])
  }

  /** The turns of the two models agree: whatever `poll` returned, the steps of the thread lead to the next turn
      with nothing changed if the outcome is to go on, out of the loop with the run flag down if it is to leave,
      and into `doReset` otherwise. */
  lemma TurnsAgree(s: State, t: nat, fds: seq<int>, polls: seq<Poll>, k: nat, drained: bool)
      returns (steps: seq<Step>, u: State)
    requires t in s.pcs && s.pcs[t] == Looping(fds, Polling) && s.run
    requires k < |polls| && !polls[k].stopped && PollAgrees(polls[k], s.signal)
    requires polls[k].result.Ready? ==> |polls[k].readOk| == |polls[k].result.revents| == |s.fds|
    ensures Run(Next, s, steps) == Some(u) && OnlyBy(steps, {t})
    ensures AfterTurn(s, u, t, fds, Outcome(s.build, polls, k))
  {
    var p := polls[k];
    if p.result.Ready? {
      assert RecoversFrom(s.build, p, 0) <==> exists e: nat :: RecoversAt(s.build, p, e);
      assert FailsFrom(p, 0) <==> exists e: nat :: FailsAt(p, e);
      steps, u := ReadyTurn(s, t, fds, p, drained);
    } else {
      var goesOn := Outcome(s.build, polls, k) == GoOn;
      u := At(s, t, if goesOn then Looping(fds, LoopTest) else Leaving(RaiseResetting));
      steps := [Step(t, if goesOn then PollTimeout else PollTrouble)];
      TraceIsRun(Next, [s, u], steps);
    }
  }

  /** A poll that finds nothing on any channel. */
  function NothingOnChannels(n: nat, shutdown: bv16): Poll {
    Poll(false, Ready(seq(n, _ => 0), shutdown), 0, seq(n, _ => true))
  }

  lemma NothingRecovers(build: Build, n: nat, shutdown: bv16)
    ensures !RecoversFrom(build, NothingOnChannels(n, shutdown), 0)
    ensures !FailsFrom(NothingOnChannels(n, shutdown), 0)
  {
    NoBitsNoReset();
  }

  lemma NoBitsNoReset()
    ensures !CallsForReset(0) && !BringsData(0)
  {
  }
}
