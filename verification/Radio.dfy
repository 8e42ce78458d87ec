/** What a client of the VFS transport can see of the radio: the derived status and the state notices. */
module Radio {

  /** The two transports over character devices. */
  datatype Build = Vfs | BtVendor

  datatype Status = Unknown | Enabling | Enabled | Disabling | Disabled | Resetting | Reset

  /** Open channels; -1 marks a closed one. */
  function OpenFiles(fds: seq<int>): nat {
    if fds == [] then 0 else OpenFiles(fds[..|fds| - 1]) + if fds[|fds| - 1] != -1 then 1 else 0
  }

  predicate AllOpen(fds: seq<int>) {
    forall i | 0 <= i < |fds| :: fds[i] != -1
  }

  predicate AllClosed(fds: seq<int>) {
    forall i | 0 <= i < |fds| :: fds[i] == -1
  }

  lemma {:induction false} CountsMeanAllOrNone(fds: seq<int>)
    ensures OpenFiles(fds) <= |fds|
    ensures OpenFiles(fds) == |fds| <==> AllOpen(fds)
    ensures OpenFiles(fds) == 0 <==> AllClosed(fds)
  {
    if fds != [] {
      var front := fds[..|fds| - 1];
      CountsMeanAllOrNone(front);
      assert AllOpen(fds) <==> AllOpen(front) && fds[|fds| - 1] != -1;
      assert AllClosed(fds) <==> AllClosed(front) && fds[|fds| - 1] == -1;
    }
  }

  /** The status as a function of what it is derived from: all channels, none, or some of them open. */
  function DerivedStatus(resetting: bool, run: bool, thread: bool, fds: seq<int>): Status {
    if resetting then Resetting
    else if !run then
      if !AllClosed(fds) || thread then Disabling else Disabled
    else if AllOpen(fds) && thread then Enabled
    else if AllClosed(fds) && thread then Unknown
    else Enabling
  }

  /** What each status means, in terms of the count of open channels. RESET is never derived. */
  lemma StatusByCount(resetting: bool, run: bool, thread: bool, fds: seq<int>)
    ensures var status, n := DerivedStatus(resetting, run, thread, fds), OpenFiles(fds);
            && (status == Resetting <==> resetting)
            && (status == Disabled <==> !resetting && !run && n == 0 && !thread)
            && (status == Disabling <==> !resetting && !run && (n > 0 || thread))
            && (status == Enabled <==> !resetting && run && n == |fds| && thread)
            && (status == Unknown <==> !resetting && run && n == 0 < |fds| && thread)
            && (status == Enabling <==> !resetting && run && (!thread || 0 < n < |fds|))
            && status != Reset
  {
    CountsMeanAllOrNone(fds);
  }

  // ---------------------------------------------------------------- notices

  /** The notices without the RESETTING ones, which the rx thread may slip in anywhere. */
  function Erase(notices: seq<Status>): seq<Status> {
    if notices == [] then []
    else
      var last := notices[|notices| - 1];
      Erase(notices[..|notices| - 1]) + if last == Resetting then [] else [last]
  }

  lemma EraseAppend(notices: seq<Status>, next: Status)
    ensures Erase(notices + [next]) == Erase(notices) + if next == Resetting then [] else [next]
  {
    assert (notices + [next])[..|notices|] == notices;
  }

  /** A concatenation of the blocks ENABLING-ENABLED, ENABLING-DISABLED, DISABLING-DISABLED, RESET, DISABLED. */
  predicate Blocks(t: seq<Status>) {
    || t == []
    || (t[|t| - 1] in {Reset, Disabled} && Blocks(t[..|t| - 1]))
    || (|t| >= 2
        && (t[|t| - 2], t[|t| - 1]) in {(Enabling, Enabled), (Enabling, Disabled), (Disabling, Disabled)}
        && Blocks(t[..|t| - 2]))
  }

  /** The notices so far are whole blocks, or whole blocks and the first half of one more. */
  predicate Halfway(t: seq<Status>, first: Status) {
    t != [] && t[|t| - 1] == first && Blocks(t[..|t| - 1])
  }

  lemma OpenBlock(t: seq<Status>, first: Status)
    requires Blocks(t)
    ensures Halfway(t + [first], first)
  {
    assert (t + [first])[..|t|] == t;
  }

  lemma CloseBlock(t: seq<Status>, first: Status, closing: Status)
    requires Halfway(t, first)
    requires (first, closing) in {(Enabling, Enabled), (Enabling, Disabled), (Disabling, Disabled)}
    ensures Blocks(t + [closing])
  {
    var u := t + [closing];
    assert u[..|u| - 2] == t[..|t| - 1];
  }

  lemma SingleBlock(t: seq<Status>, single: Status)
    requires Blocks(t) && single in {Reset, Disabled}
    ensures Blocks(t + [single])
  {
    assert (t + [single])[..|t|] == t;
  }
}
