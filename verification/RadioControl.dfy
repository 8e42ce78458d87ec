/** The calls of the VFS transport that bring the radio up and down, one at a time: the code of the channel
    loops, the shutdown event and the rx thread's handle, in the form it has in the source. What happens when
    calls and rx threads interleave is the matter of module Lifecycle. */
module RadioControl {
  import opened Radio

  /** What the system answers in the course of one `ant_enable`. */
  datatype Kernel = Kernel(
    eventRead: bool,        // the read of the shutdown event did not fail, or failed with EAGAIN
    opens: seq<int>,        // what `open` returns for each channel, should it be called; -1 if it fails
    thread: nat,            // the id of a new thread
    stays: bool)            // the new thread has not cleared the run flag by the time it is looked at

  /** Distinct descriptors that are not in use. */
  ghost predicate Answers(opens: seq<int>, open: set<int>) {
    && (forall i | 0 <= i < |opens| :: opens[i] >= -1 && opens[i] !in open)
    && Distinct(opens)
  }

  ghost predicate Distinct(fds: seq<int>) {
    forall i, j | 0 <= i < j < |fds| && fds[i] != -1 :: fds[i] != fds[j]
  }

  ghost function Recorded(fds: seq<int>): set<int> {
    set i | 0 <= i < |fds| && fds[i] != -1 :: fds[i]
  }

  /** The first channel from `i` on that is closed and cannot be opened. */
  function FirstFailure(fds: seq<int>, opens: seq<int>, i: nat): (first: nat)
    requires |fds| == |opens| && i <= |fds|
    ensures i <= first <= |fds|
    ensures first < |fds| ==> fds[first] == -1 && opens[first] == -1
    ensures forall j | i <= j < first :: fds[j] != -1 || opens[j] != -1
    decreases |fds| - i
  {
    if i == |fds| || (fds[i] == -1 && opens[i] == -1) then i else FirstFailure(fds, opens, i + 1)
  }

  function Closed(channels: nat): seq<int> {
    seq(channels, _ => -1)
  }

  /** The channels below `n` opened where they were closed. */
  function OpenedBelow(fds: seq<int>, opens: seq<int>, n: nat): seq<int>
    requires |fds| == |opens|
  {
    seq(|fds|, i requires 0 <= i < |fds| => if i < n && fds[i] == -1 then opens[i] else fds[i])
  }

  lemma OpeningOne(fds: seq<int>, opens: seq<int>, open: set<int>, n: nat)
    requires |fds| == |opens| && n < |fds| && Distinct(fds) && Answers(opens, Recorded(fds))
    requires open == Recorded(OpenedBelow(fds, opens, n)) && Distinct(OpenedBelow(fds, opens, n))
    requires fds[n] == -1 && opens[n] != -1
    ensures OpenedBelow(fds, opens, n + 1) == OpenedBelow(fds, opens, n)[n := opens[n]]
    ensures opens[n] !in open
    ensures open + {opens[n]} == Recorded(OpenedBelow(fds, opens, n + 1))
    ensures Distinct(OpenedBelow(fds, opens, n + 1))
  {
    var before, after := OpenedBelow(fds, opens, n), OpenedBelow(fds, opens, n + 1);
    assert after == before[n := opens[n]];
    forall i | 0 <= i < |fds| && i != n && before[i] != -1
      ensures before[i] != opens[n]
    {
      if before[i] == fds[i] {
        assert fds[i] in Recorded(fds);
      }
    }
    assert after[n] in Recorded(after);
    forall fd | fd in open
      ensures fd in Recorded(after)
    {
      var i :| 0 <= i < |fds| && before[i] == fd;
      assert after[i] == fd;
    }
  }

  class RadioThreadInfo {
    const fds: array<int>            // astChannels[i].iFd
    var handle: nat                  // stRxThread
    var run: bool                    // ucRunThread
    var resetting: bool              // ucChipResetting
    var signal: nat                  // the counter behind iRxShutdownEventFd
    var notices: seq<Status>         // what the state callback has been told
    ghost var open: set<int>         // the descriptors that are open in the kernel

    ghost predicate Valid()
      reads this, fds
    {
      && fds.Length > 0
      && (forall i | 0 <= i < fds.Length :: fds[i] >= -1)
      && Distinct(fds[..])
      && open == Recorded(fds[..])
      && signal <= 1
      && (handle != 0 ==> signal == 0)
    }

    ghost function StatusNow(): Status
      reads this, fds
    {
      DerivedStatus(resetting, run, handle != 0, fds[..])
    }

    constructor (channels: nat)
      requires channels > 0
      ensures Valid() && fresh(fds) && fds.Length == channels
      ensures StatusNow() == Disabled && open == {} && notices == []
    {
      fds := new int[channels](_ => -1);
      handle, run, resetting, signal, notices, open := 0, false, false, 0, [], {};
    }

    /** `ant_radio_enabled_status` counts the open channels; what it returns depends only on whether that is
        all of them, none of them or some of them. */
    method RadioEnabledStatus() returns (status: Status)
      requires fds.Length > 0
      ensures status == DerivedStatus(resetting, run, handle != 0, fds[..])
    {
      if resetting {
        return Resetting;
      }
      var openFiles := 0;
      for i := 0 to fds.Length
        invariant openFiles == OpenFiles(fds[..i])
      {
        assert fds[..i + 1][..i] == fds[..i];
        if fds[i] != -1 {
          openFiles := openFiles + 1;
        }
      }
      assert fds[..fds.Length] == fds[..];
      CountsMeanAllOrNone(fds[..]);
      if !run {
        status := if openFiles != 0 || handle != 0 then Disabling else Disabled;
      } else if openFiles == fds.Length && handle != 0 {
        status := Enabled;
      } else if openFiles == 0 && handle != 0 {
        status := Unknown;
      } else {
        status := Enabling;
      }
    }

    method EnableChannel(i: nat, answer: int) returns (ok: bool)
      requires i < fds.Length && answer >= -1
      modifies fds, this`open
      ensures ok <==> fds[i] != -1
      ensures fds[..] == old(fds[..])[i := if old(fds[i]) == -1 then answer else old(fds[i])]
      ensures open == if old(fds[i]) == -1 && answer != -1 then old(open) + {answer} else old(open)
    {
      if fds[i] == -1 {
        fds[i] := answer;
        if fds[i] < 0 {
          return false;
        }
        open := open + {answer};
      }
      ok := true;
    }

    method DisableChannel(i: nat)
      requires i < fds.Length
      modifies fds, this`open
      ensures fds[..] == old(fds[..])[i := -1]
      ensures open == old(open) - if old(fds[i]) == -1 then {} else {old(fds[i])}
    {
      if fds[i] != -1 {
        open := open - {fds[i]};
        fds[i] := -1;
      }
    }

    /** The channel loop of `ant_enable`, up to the first channel that cannot be opened. */
    method OpenChannels(opens: seq<int>) returns (all: bool)
      requires Valid() && |opens| == fds.Length && Answers(opens, open)
      modifies fds, this`open
      ensures Valid()
      ensures all <==> FirstFailure(old(fds[..]), opens, 0) == fds.Length
      ensures fds[..] == OpenedBelow(old(fds[..]), opens, FirstFailure(old(fds[..]), opens, 0))
    {
      ghost var was := fds[..];
      assert OpenedBelow(was, opens, 0) == was;
      for i := 0 to fds.Length
        invariant fds[..] == OpenedBelow(was, opens, i)
        invariant FirstFailure(was, opens, 0) == FirstFailure(was, opens, i)
        invariant open == Recorded(fds[..]) && Distinct(fds[..])
      {
        assert fds[i] == fds[..][i] == was[i];
        if was[i] == -1 && opens[i] != -1 {
          OpeningOne(was, opens, open, i);
        } else {
          assert OpenedBelow(was, opens, i + 1) == OpenedBelow(was, opens, i);
          assert fds[..][i := fds[i]] == fds[..];
        }
        var ok := EnableChannel(i, opens[i]);
        if !ok {
          return false;
        }
      }
      all := true;
    }

    /** `ant_enable`: the channels are opened up to the first that cannot be; the run flag is left up only
        if there is a thread. */
    method AntEnable(kernel: Kernel) returns (ok: bool)
      requires Valid() && kernel.thread != 0 && |kernel.opens| == fds.Length && Answers(kernel.opens, open)
      modifies this`signal, this`run, this`handle, this`open, fds
      ensures Valid()
      ensures var all := FirstFailure(old(fds[..]), kernel.opens, 0) == fds.Length;
              && (ok <==> kernel.eventRead && all && (old(handle) != 0 || kernel.stays))
              && handle == if old(handle) == 0 && kernel.eventRead && all then kernel.thread else old(handle)
      ensures fds[..] == OpenedBelow(old(fds[..]), kernel.opens,
                           if kernel.eventRead then FirstFailure(old(fds[..]), kernel.opens, 0) else 0)
      ensures run == (ok || (old(handle) != 0 && (kernel.eventRead || old(run))))
      ensures signal == if kernel.eventRead then 0 else old(signal)
    {
      ok := false;
      if kernel.eventRead {
        signal := 0;
        run := true;
        var all := OpenChannels(kernel.opens);
        if all {
          if handle == 0 {
            handle := kernel.thread;
            if !kernel.stays { run := false; }
          }
          ok := run;
        }
      } else {
        assert OpenedBelow(fds[..], kernel.opens, 0) == fds[..];
      }
      if handle == 0 {
        run := false;
      }
    }

    /** `ant_disable`: signals and joins the rx thread, if there is one, and closes every channel. The thread
        has taken the signal down again if `drained`. */
    method AntDisable(drained: bool)
      requires Valid()
      modifies this`signal, this`run, this`handle, this`open, fds
      ensures Valid()
      ensures !run && handle == 0 && AllClosed(fds[..]) && open == {}
      ensures signal == if old(handle) == 0 then old(signal) else if drained then 0 else 1
    {
      run := false;
      if handle != 0 {
        signal := signal + 1;
        if drained { signal := 0; }
      }
      for i := 0 to fds.Length
        invariant forall j | 0 <= j < i :: fds[j] == -1
        invariant forall j | i <= j < fds.Length :: fds[j] == old(fds[j])
        invariant open == Recorded(fds[..])
        modifies fds, this`open
      {
        ghost var before := fds[..];
        DisableChannel(i);
        assert fds[..] == before[i := -1];
        ClosingOne(before, i);
      }
      handle := 0;
    }

    /** `ant_enable_radio`. All or nothing: every channel open, a thread registered and the status ENABLED, or
        - whichever `open` it was that failed - every channel closed and the status DISABLED. */
    method EnableRadio(kernel: Kernel, drained: bool) returns (ok: bool)
      requires Valid() && !resetting
      requires kernel.thread != 0 && |kernel.opens| == fds.Length && Answers(kernel.opens, open)
      modifies this`signal, this`run, this`handle, this`open, this`notices, fds
      ensures Valid()
      ensures if ok then StatusNow() == Enabled && AllOpen(fds[..]) && handle != 0
              else StatusNow() == Disabled && open == {}
      ensures var all := FirstFailure(old(fds[..]), kernel.opens, 0) == fds.Length;
              ok <==> old(StatusNow()) == Enabled || (kernel.eventRead && all && (old(handle) != 0 || kernel.stays))
      ensures ok ==> forall i | 0 <= i < fds.Length ::
                fds[i] == if old(fds[i]) == -1 then kernel.opens[i] else old(fds[i])
      ensures ok ==> handle == if old(handle) == 0 then kernel.thread else old(handle)
      ensures notices == old(notices) + if old(StatusNow()) == Enabled then []
                                        else if ok then [Enabling, Enabled] else [Enabling, Disabled]
    {
      var status := RadioEnabledStatus();
      if status == Enabled {
        return true;
      }
      notices := notices + [Enabling];
      ok := AntEnable(kernel);
      if !ok {
        AntDisable(drained);
        status := RadioEnabledStatus();
        notices := notices + [status];
      } else {
        notices := notices + [Enabled];
      }
    }

    /** `ant_disable_radio`, from any state: everything closed and DISABLED, and reported unless it was so. */
    method DisableRadio(drained: bool)
      requires Valid() && !resetting
      modifies this`signal, this`run, this`handle, this`open, this`notices, fds
      ensures Valid() && StatusNow() == Disabled && open == {}
      ensures notices == old(notices) + if old(StatusNow()) == Disabled then [] else [Disabling, Disabled]
    {
      var status := RadioEnabledStatus();
      if status != Disabled {
        notices := notices + [Disabling];
        AntDisable(drained);
        status := RadioEnabledStatus();
        notices := notices + [status];
      } else {
        assert forall i | 0 <= i < fds.Length :: fds[i] == fds[..][i] == -1;
      }
    }

    /** `ant_radio_hard_reset`. A failed reopening is reported as DISABLED but is not undone: the status is
        what was reported exactly when the reset failed before it had opened a channel. */
    method HardReset(kernel: Kernel, drained: bool) returns (ok: bool)
      requires Valid() && !resetting
      requires kernel.thread != 0 && |kernel.opens| == fds.Length && Answers(kernel.opens, {})
      modifies this`signal, this`run, this`handle, this`resetting, this`open, this`notices, fds
      ensures Valid() && !resetting
      ensures ok <==> kernel.eventRead && AllOpen(kernel.opens) && kernel.stays
      ensures fds[..] == OpenedBelow(Closed(fds.Length), kernel.opens,
                           if kernel.eventRead then FirstFailure(Closed(fds.Length), kernel.opens, 0) else 0)
      ensures handle == if kernel.eventRead && AllOpen(kernel.opens) then kernel.thread else 0
      ensures ok ==> StatusNow() == Enabled && fds[..] == kernel.opens
      ensures !ok ==> (StatusNow() == Disabled <==> !kernel.eventRead || kernel.opens[0] == -1)
      ensures !ok ==> StatusNow() in {Disabled, Disabling}
      ensures notices == old(notices) + [Resetting, if ok then Reset else Disabled]
    {
      resetting := true;
      notices := notices + [Resetting];
      AntDisable(drained);
      ghost var closed := Closed(fds.Length);
      assert fds[..] == closed;
      ok := AntEnable(kernel);
      if !ok {
        notices := notices + [Disabled];
      } else {
        notices := notices + [Reset];
      }
      resetting := false;
      ReopenedStatus(closed, kernel);
    }
  }

  lemma ClosingOne(fds: seq<int>, i: nat)
    requires i < |fds| && Distinct(fds)
    ensures Recorded(fds[i := -1]) == Recorded(fds) - if fds[i] == -1 then {} else {fds[i]}
  {
    var after := fds[i := -1];
    forall fd | fd in Recorded(fds) && fd != fds[i]
      ensures fd in Recorded(after)
    {
      var j :| 0 <= j < |fds| && fds[j] == fd && fd != -1;
      assert after[j] == fd;
    }
  }

  /** Reopening closed channels: what is open afterwards, in terms of the answers alone. */
  lemma ReopenedStatus(closed: seq<int>, kernel: Kernel)
    requires AllClosed(closed) && |closed| == |kernel.opens| > 0
    ensures FirstFailure(closed, kernel.opens, 0) == |closed| <==> AllOpen(kernel.opens)
    ensures AllOpen(kernel.opens) ==> OpenedBelow(closed, kernel.opens, |closed|) == kernel.opens
    ensures AllClosed(OpenedBelow(closed, kernel.opens, FirstFailure(closed, kernel.opens, 0)))
       <==> kernel.opens[0] == -1
    ensures AllClosed(OpenedBelow(closed, kernel.opens, 0))
  {
    var first := FirstFailure(closed, kernel.opens, 0);
    var reopened := OpenedBelow(closed, kernel.opens, first);
    if kernel.opens[0] != -1 {
      assert first > 0 && reopened[0] == kernel.opens[0];
    }
  }
}
