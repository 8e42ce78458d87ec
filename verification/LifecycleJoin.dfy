/** What becomes of a client that joins an rx thread, in every run: either the thread ends after a bounded
    number of its own steps, or it has gone into `doReset`, and then both wait for ever. Whether a join can
    still complete, and whether it is certain to, can be told from where the thread is. */
module LifecycleJoin {
  import opened Radio
  import opened Runs
  import opened Lifecycle
  import opened LifecycleInvariant
  import opened LifecycleProperties

  /** On the way into `doReset`: past the decision, not yet past its lock. */
  predicate InReset(pc: Pc) {
    pc == AtLock(ChipReset) || (pc.Leaving? && pc.exit != TryLock)
  }

  /** Steps an rx thread has left once the run flag is down, the signal is raised and the lock is taken. */
  function StepsLeft(n: nat, pc: Pc): nat {
    match pc
    case Looping(captured, Capture) => 3 + if |captured| < n then n - |captured| else 0
    case Looping(_, Polling) => 6 + 2 * n
    case Looping(_, Dispatch(i, _)) => 5 + if i < n then 2 * (n - i) else 0
    case Looping(_, FailRun(i, _)) => if i < n then 4 + 2 * (n - i) else 6
    case Looping(_, Drain) => 4
    case Looping(_, ClearRun) => 3
    case Looping(_, LoopTest) => 2
    case Leaving(TryLock) => 1
    case _ => 0
  }

  /** Client `a` is joining `t`, or `t` is over. */
  ghost predicate JoiningOrOver(s: State, a: nat, t: nat) {
    Inv(s) && t in s.pcs && t !in s.clients && (s.pcs[t] == Dead || Joining(s, a, t))
  }

  /** `t` is on its way into `doReset` while `a`, which has the lock, is joining it. */
  ghost predicate Deadlocked(s: State, a: nat, t: nat) {
    JoiningOrOver(s, a, t) && InReset(s.pcs[t])
  }

  /** A step of the joined thread in its loop: toward its end, or into `doReset`. */
  lemma JoinedThreadLoops(s: State, t: nat, fds: seq<int>, turn: LoopPoint, c: Choice)
    requires !s.run && (s.signal > 0 || PastShutdown(Looping(fds, turn)))
    requires LoopNext(s, t, fds, turn, c).Some?
    ensures var u := LoopNext(s, t, fds, turn, c).value;
            && t in u.pcs
            && (u.pcs[t] == Leaving(RaiseResetting)
                || (!InReset(u.pcs[t])
                    && StepsLeft(|s.fds|, u.pcs[t]) < StepsLeft(|s.fds|, Looping(fds, turn))))
  {
  }

  /** ... and out of its loop: over, or - on its way into `doReset` - up to the lock that it cannot get. */
  lemma JoinedThreadLeaves(s: State, t: nat, c: Choice)
    requires t in s.pcs && s.lock.Some? && ActorNext(s, t, c).Some?
    requires s.pcs[t].Leaving? || s.pcs[t] == AtLock(ChipReset)
    ensures var u := ActorNext(s, t, c).value;
            && t in u.pcs
            && (if InReset(s.pcs[t]) then InReset(u.pcs[t]) else u.pcs[t] == Dead)
  {
  }

  /** One step of anybody, seen from the join: it has returned, or it is still going on and the joined thread
      is closer to its end, or it never will return. */
  lemma StepWhileJoining(s: State, a: nat, t: nat, step: Step)
    requires JoiningOrOver(s, a, t) && Next(s, step).Some?
    ensures var u := Next(s, step).value;
            && JoiningOrOver(u, a, t) && |u.fds| == |s.fds|
            && (InReset(s.pcs[t]) ==> InReset(u.pcs[t]))
            && (!InReset(u.pcs[t]) ==>
                  StepsLeft(|s.fds|, u.pcs[t]) + (if step.actor == t then 1 else 0) <= StepsLeft(|s.fds|, s.pcs[t]))
  {
    StepKeepsInv(s, step);
    StepOnlyMoves(s, step.actor, step.choice);
    assert ActorInv(s, t);
    if s.pcs[t] != Dead {
      assert ActorInv(s, a);
      if step.actor == t {
        match s.pcs[t] {
          case Looping(fds, turn) => JoinedThreadLoops(s, t, fds, turn, step.choice);
          case _ => JoinedThreadLeaves(s, t, step.choice);
        }
      }
    }
  }

  /** What becomes of a join, in every run from it: either the joined thread has taken no more than the steps
      it had left, or it has gone into `doReset`. */
  lemma {:induction false} JoinOutcome(s: State, a: nat, t: nat, steps: seq<Step>)
    requires JoiningOrOver(s, a, t) && Run(Next, s, steps).Some?
    ensures var u := Run(Next, s, steps).value;
            && JoiningOrOver(u, a, t) && |u.fds| == |s.fds|
            && (InReset(s.pcs[t]) ==> InReset(u.pcs[t]))
            && (!InReset(u.pcs[t]) ==>
                  StepsOf(steps, t) + StepsLeft(|s.fds|, u.pcs[t]) <= StepsLeft(|s.fds|, s.pcs[t]))
  {
    if steps != [] {
      var front, last := steps[..|steps| - 1], steps[|steps| - 1];
      JoinOutcome(s, a, t, front);
      StepWhileJoining(Run(Next, s, front).value, a, t, last);
    }
  }

  /** Going into `doReset` while being joined is final: in no run from there does the thread end, the join
      return or the lock become free. */
  lemma DeadlockIsForever(s: State, a: nat, t: nat, steps: seq<Step>)
    requires Deadlocked(s, a, t) && Run(Next, s, steps).Some?
    ensures Deadlocked(Run(Next, s, steps).value, a, t)
    ensures Run(Next, s, steps).value.pcs[t] != Dead && Joining(Run(Next, s, steps).value, a, t)
    ensures Run(Next, s, steps).value.lock == Some(a)
  {
    JoinOutcome(s, a, t, steps);
    assert ActorInv(Run(Next, s, steps).value, a);
  }

  /** The choice with which a joined thread heads straight for its end. */
  function EndingChoice(pc: Pc): Choice {
    match pc
    case Looping(_, Polling) => PollReady(Signalled)
    case Looping(_, Drain) => EventRead(true)
    case _ => Go
  }

  /** A step that moves only thread `t`, not into `doReset`, and at most takes the signal down. */
  ghost predicate OwnMove(s: State, u: State, t: nat) {
    && t in u.pcs && !InReset(u.pcs[t])
    && u == s.(signal := u.signal, pcs := s.pcs[t := u.pcs[t]]) && (u.signal == s.signal || u.signal == 0)
  }

  lemma LoopingThreadCanMove(s: State, t: nat, fds: seq<int>, turn: LoopPoint)
    requires !s.run && (s.signal > 0 || PastShutdown(Looping(fds, turn)))
    ensures var c := EndingChoice(Looping(fds, turn));
            && LoopNext(s, t, fds, turn, c).Some?
            && OwnMove(s, LoopNext(s, t, fds, turn, c).value, t)
  {
  }

  lemma JoinedThreadCanMove(s: State, a: nat, t: nat)
    requires JoiningOrOver(s, a, t) && s.pcs[t] != Dead && !InReset(s.pcs[t])
    ensures var step := Step(t, EndingChoice(s.pcs[t]));
            Next(s, step).Some? && OwnMove(s, Next(s, step).value, t)
  {
    assert ActorInv(s, a) && ActorInv(s, t);
    if s.pcs[t].Looping? {
      LoopingThreadCanMove(s, t, s.pcs[t].captured, s.pcs[t].turn);
    } else {
      assert s.pcs[t] == Leaving(TryLock);
    }
  }

  ghost predicate LeadsToItsEnd(s: State, t: nat, steps: seq<Step>) {
    match Run(Next, s, steps)
    case Some(u) => t in u.pcs && u.pcs[t] == Dead
    case None => false
  }

  /** A thread that is not in `doReset` can run to its end by itself, whatever it was doing. */
  lemma JoinCanComplete(s: State, a: nat, t: nat) returns (steps: seq<Step>)
    requires JoiningOrOver(s, a, t) && !InReset(s.pcs[t])
    ensures LeadsToItsEnd(s, t, steps) && OnlyBy(steps, {t})
    ensures var u := Run(Next, s, steps).value;
            u == s.(signal := u.signal, pcs := s.pcs[t := Dead]) && (u.signal == s.signal || u.signal == 0)
    decreases StepsLeft(|s.fds|, s.pcs[t])
  {
    if s.pcs[t] == Dead {
      steps := [];
      assert s.pcs == s.pcs[t := Dead];
    } else {
      JoinedThreadCanMove(s, a, t);
      var step := Step(t, EndingChoice(s.pcs[t]));
      var m := Next(s, step).value;
      StepWhileJoining(s, a, t, step);
      var rest := JoinCanComplete(m, a, t);
      assert Run(Next, s, [step]) == Some(m);
      RunAppends(Next, s, [step], rest);
      steps := [step] + rest;
      assert m.pcs[t := Dead] == s.pcs[t := Dead];
    }
  }

  /** A joined thread can end exactly when it has not gone into `doReset`. */
  lemma JoinCompletesIffNotInReset(s: State, a: nat, t: nat)
    requires JoiningOrOver(s, a, t)
    ensures (exists steps :: LeadsToItsEnd(s, t, steps)) <==> !InReset(s.pcs[t])
  {
    if InReset(s.pcs[t]) {
      forall steps
        ensures !LeadsToItsEnd(s, t, steps)
      {
        if Run(Next, s, steps).Some? {
          DeadlockIsForever(s, a, t, steps);
        }
      }
    } else {
      var steps := JoinCanComplete(s, a, t);
    }
  }

  ghost predicate LeadsOutOfJoin(s: State, a: nat, steps: seq<Step>) {
    match Run(Next, s, steps)
    case Some(u) => a in u.pcs && u.pcs[a].Locked? && u.pcs[a].at == InDisable(CloseChannel(0))
    case None => false
  }

  /** The join is over only when the joined thread is. */
  lemma {:induction false} NotOutBeforeTheEnd(s: State, a: nat, t: nat, steps: seq<Step>)
    requires Joining(s, a, t) && JoiningOrOver(s, a, t) && Run(Next, s, steps).Some?
    ensures JoiningOrOver(Run(Next, s, steps).value, a, t)
    ensures LeadsOutOfJoin(s, a, steps) ==> Run(Next, s, steps).value.pcs[t] == Dead
  {
    JoinOutcome(s, a, t, steps);
  }

  /** ... and exactly then `pthread_join` can return. */
  lemma JoinCanReturnIffNotInReset(s: State, a: nat, t: nat)
    requires Inv(s) && Joining(s, a, t)
    ensures t in s.pcs
    ensures (exists steps :: LeadsOutOfJoin(s, a, steps)) <==> !InReset(s.pcs[t])
  {
    assert ActorInv(s, a);
    if InReset(s.pcs[t]) {
      forall steps
        ensures !LeadsOutOfJoin(s, a, steps)
      {
        if LeadsOutOfJoin(s, a, steps) {
          NotOutBeforeTheEnd(s, a, t, steps);
          DeadlockIsForever(s, a, t, steps);
        }
      }
    } else {
      var steps := JoinCanComplete(s, a, t);
      var u := Run(Next, s, steps).value;
      assert Run(Next, u, [Step(a, Go)]) == Next(u, Step(a, Go));
      RunAppends(Next, s, steps, [Step(a, Go)]);
      assert LeadsOutOfJoin(s, a, steps + [Step(a, Go)]);
    }
  }

  // ---------------------------------------------------------------- when it is certain

  /** Past the last point at which a joined thread can still decide to reset: it will not poll again, and has
      no channel left to look at. */
  predicate PastDispatch(n: nat, pc: Pc) {
    match pc
    case Dead => true
    case Leaving(exit) => exit == TryLock
    case Looping(_, turn) =>
      (match turn
       case Polling => false
       case Dispatch(i, _) => i >= n
       case FailRun(i, _) => i + 1 >= n
       case _ => true)
    case _ => false
  }

  /** A joined thread past that point stays past it ... */
  lemma PastDispatchLoops(s: State, t: nat, fds: seq<int>, turn: LoopPoint, c: Choice)
    requires !s.run && PastDispatch(|s.fds|, Looping(fds, turn)) && LoopNext(s, t, fds, turn, c).Some?
    ensures t in LoopNext(s, t, fds, turn, c).value.pcs
    ensures PastDispatch(|s.fds|, LoopNext(s, t, fds, turn, c).value.pcs[t])
  {
  }

  lemma PastDispatchStays(s: State, a: nat, t: nat, step: Step)
    requires JoiningOrOver(s, a, t) && PastDispatch(|s.fds|, s.pcs[t]) && Next(s, step).Some?
    ensures var u := Next(s, step).value;
            JoiningOrOver(u, a, t) && |u.fds| == |s.fds| && PastDispatch(|u.fds|, u.pcs[t])
  {
    StepWhileJoining(s, a, t, step);
    if step.actor != t {
      StepOnlyMoves(s, step.actor, step.choice);
    } else if s.pcs[t].Looping? {
      assert ActorInv(s, a) && ActorInv(s, t);
      PastDispatchLoops(s, t, s.pcs[t].captured, s.pcs[t].turn, step.choice);
    } else if s.pcs[t].Leaving? {
      assert ActorInv(s, a) && ActorInv(s, t);
      JoinedThreadLeaves(s, t, step.choice);
    }
  }

  lemma {:induction false} PastDispatchForGood(s: State, a: nat, t: nat, steps: seq<Step>)
    requires JoiningOrOver(s, a, t) && PastDispatch(|s.fds|, s.pcs[t]) && Run(Next, s, steps).Some?
    ensures var u := Run(Next, s, steps).value;
            JoiningOrOver(u, a, t) && |u.fds| == |s.fds| && PastDispatch(|u.fds|, u.pcs[t])
  {
    if steps != [] {
      PastDispatchForGood(s, a, t, steps[..|steps| - 1]);
      PastDispatchStays(Run(Next, s, steps[..|steps| - 1]).value, a, t, steps[|steps| - 1]);
    }
  }

  ghost predicate LeadsIntoReset(s: State, t: nat, steps: seq<Step>) {
    match Run(Next, s, steps)
    case Some(u) => t in u.pcs && InReset(u.pcs[t])
    case None => false
  }

  lemma LoopingCanReset(s: State, t: nat, fds: seq<int>, turn: LoopPoint) returns (steps: seq<Step>)
    requires t in s.pcs && s.pcs[t] == Looping(fds, turn) && !PastDispatch(|s.fds|, s.pcs[t])
    ensures LeadsIntoReset(s, t, steps)
  {
    if turn.FailRun? {
      var m := Next(s, Step(t, Go)).value;
      steps := [Step(t, Go), Step(t, ChannelTrouble)];
      TraceIsRun(Next, [s, m, Next(m, Step(t, ChannelTrouble)).value], steps);
    } else {
      var trouble := Step(t, if turn == Polling then PollTrouble else ChannelTrouble);
      steps := [trouble];
      TraceIsRun(Next, [s, Next(s, trouble).value], steps);
    }
  }

  /** ... and one before it can still go into `doReset`. */
  lemma CanStillReset(s: State, a: nat, t: nat) returns (steps: seq<Step>)
    requires JoiningOrOver(s, a, t) && !PastDispatch(|s.fds|, s.pcs[t])
    ensures LeadsIntoReset(s, t, steps)
  {
    assert ActorInv(s, t);
    if s.pcs[t].Looping? {
      steps := LoopingCanReset(s, t, s.pcs[t].captured, s.pcs[t].turn);
    } else {
      assert s.pcs[t] != Dead ==> ActorInv(s, a);
      steps := [];
      assert Run(Next, s, steps) == Some(s);
    }
  }

  /** No run leads a joined thread into `doReset` exactly when it is past that point. Then, and only then, is
      the join certain: whatever happens, the thread has at most `StepsLeft` steps to its end (`JoinOutcome`). */
  lemma JoinIsCertainIffPastDispatch(s: State, a: nat, t: nat)
    requires JoiningOrOver(s, a, t)
    ensures (exists steps :: LeadsIntoReset(s, t, steps)) <==> !PastDispatch(|s.fds|, s.pcs[t])
  {
    if PastDispatch(|s.fds|, s.pcs[t]) {
      forall steps
        ensures !LeadsIntoReset(s, t, steps)
      {
        if LeadsIntoReset(s, t, steps) {
          PastDispatchForGood(s, a, t, steps);
        }
      }
    } else {
      var steps := CanStillReset(s, a, t);
    }
  }
}
