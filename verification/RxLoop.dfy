/** The poll loop of `fnRxThread`: how poll results are dispatched, when the keepalive watchdog fires, and
    which of the two ways out of the loop is taken. One `Poll` record is one turn of the loop. */
module RxLoop {
  import opened Radio

  const POLL_TIMEOUT := 30000
  const KEEPALIVE_TIMEOUT := 5000

  // The poll event bits of the Linux ABI.
  const POLLIN: bv16 := 0x0001
  const POLLPRI: bv16 := 0x0002
  const POLLERR: bv16 := 0x0008
  const POLLHUP: bv16 := 0x0010
  const POLLNVAL: bv16 := 0x0020
  const POLLRDNORM: bv16 := 0x0040
  const POLLRDHUP: bv16 := 0x2000

  const DATA_AVAILABLE: bv16 := POLLIN | POLLRDNORM
  const CHIP_SHUTDOWN: bv16 := POLLHUP
  const HARD_RESET: bv16 := POLLERR | POLLPRI | POLLRDHUP

  predicate AllFlagsSet(value: bv16, flags: bv16) {
    value & flags == flags
  }

  datatype Action = Recover | ReadData | Nothing

  /** What the thread does about one channel's `revents`. */
  function ChannelAction(revents: bv16): Action {
    if AllFlagsSet(revents, HARD_RESET) then Recover
    else if AllFlagsSet(revents, CHIP_SHUTDOWN) then Recover
    else if AllFlagsSet(revents, DATA_AVAILABLE) then ReadData
    else if AllFlagsSet(revents, POLLNVAL) then Recover
    else if AllFlagsSet(revents, POLLERR) then Recover
    else Nothing
  }

  predicate Bit(revents: bv16, bit: bv16) {
    revents & bit != 0
  }

  /** Bit by bit, what sends the thread into `doReset`: a hang-up (0x0010); an error, urgent data and a closed
      writing half together (0x0008, 0x0002, 0x2000); or, unless there is data to read (0x0001 and 0x0040), a bad
      descriptor (0x0020) or an error. */
  predicate CallsForReset(revents: bv16) {
    || Bit(revents, 0x0010)
    || (Bit(revents, 0x0008) && Bit(revents, 0x0002) && Bit(revents, 0x2000))
    || (!(Bit(revents, 0x0001) && Bit(revents, 0x0040)) && (Bit(revents, 0x0020) || Bit(revents, 0x0008)))
  }

  /** ... and what makes it read: both data bits, and neither of the first two. */
  predicate BringsData(revents: bv16) {
    && Bit(revents, 0x0001) && Bit(revents, 0x0040)
    && !Bit(revents, 0x0010)
    && !(Bit(revents, 0x0008) && Bit(revents, 0x0002) && Bit(revents, 0x2000))
  }

  lemma ActionByBits(revents: bv16)
    ensures ChannelAction(revents) == Recover <==> CallsForReset(revents)
    ensures ChannelAction(revents) == ReadData <==> BringsData(revents)
    ensures ChannelAction(revents) == Nothing <==> !CallsForReset(revents) && !BringsData(revents)
  {
    FlagsAreBits(revents);
  }

  lemma FlagsAreBits(revents: bv16)
    ensures AllFlagsSet(revents, HARD_RESET) <==> Bit(revents, 0x0008) && Bit(revents, 0x0002) && Bit(revents, 0x2000)
    ensures AllFlagsSet(revents, CHIP_SHUTDOWN) <==> Bit(revents, 0x0010)
    ensures AllFlagsSet(revents, DATA_AVAILABLE) <==> Bit(revents, 0x0001) && Bit(revents, 0x0040)
    ensures AllFlagsSet(revents, POLLNVAL) <==> Bit(revents, 0x0020)
    ensures AllFlagsSet(revents, POLLERR) <==> Bit(revents, 0x0008)
  {
  }

  datatype Result =
    | TimedOut
    | PollFailed
    | Ready(revents: seq<bv16>, shutdown: bv16)

  /** One turn: whether another thread had cleared the run flag by the loop test, what `poll` returned and
      after how many milliseconds, and for each channel whether a read of it would succeed. */
  datatype Poll = Poll(stopped: bool, result: Result, elapsed: nat, readOk: seq<bool>)

  ghost predicate ForChannels(polls: seq<Poll>, n: nat) {
    forall k | 0 <= k < |polls| ::
      && |polls[k].readOk| == n
      && (polls[k].result.Ready? ==> |polls[k].result.revents| == n)
  }

  ghost predicate ReadsAt(p: Poll, e: nat) {
    p.result.Ready? && e < |p.result.revents| && BringsData(p.result.revents[e])
  }

  /** A data event: proof that the chip is alive. */
  ghost predicate HasData(p: Poll) {
    exists e: nat :: ReadsAt(p, e)
  }

  ghost predicate FailsAt(p: Poll, e: nat) {
    ReadsAt(p, e) && e < |p.readOk| && !p.readOk[e]
  }

  /** Channel `e` sends the thread into `doReset`. */
  ghost predicate RecoversAt(build: Build, p: Poll, e: nat) {
    || (p.result.Ready? && e < |p.result.revents| && CallsForReset(p.result.revents[e]))
    || (build == Vfs && FailsAt(p, e))
  }

  /** No data event strictly between turns j and k. */
  ghost predicate Silent(polls: seq<Poll>, j: nat, k: nat) {
    forall i | j < i < k && i < |polls| :: !HasData(polls[i])
  }

  /** Before turn k there was a timeout with no data event since. */
  ghost predicate SilentSinceTimeout(polls: seq<Poll>, k: nat) {
    exists j: nat :: j < k && j < |polls| && polls[j].result.TimedOut? && Silent(polls, j, k)
  }

  datatype Turn = GoOn | KeepAliveReset | FaultReset | LeaveLoop

  /** The outcome of turn k, in terms of the poll history alone. */
  ghost function Outcome(build: Build, polls: seq<Poll>, k: nat): Turn
    requires k < |polls|
  {
    var p := polls[k];
    if p.stopped then LeaveLoop
    else match p.result
      case TimedOut => if SilentSinceTimeout(polls, k) then KeepAliveReset else GoOn
      case PollFailed => FaultReset
      case Ready(_, shutdown) =>
        if exists e: nat :: RecoversAt(build, p, e) then FaultReset
        else if shutdown != 0 || exists e: nat :: FailsAt(p, e) then LeaveLoop
        else GoOn
  }

  /** The timeout turn k waits with: shorter while a keepalive is unanswered. */
  ghost function TimeoutAt(polls: seq<Poll>, k: nat): nat {
    if SilentSinceTimeout(polls, k) then 5000 else 30000
  }

  /** Turn k sends a keepalive. */
  ghost predicate SendsKeepAlive(polls: seq<Poll>, k: nat) {
    k < |polls| && !polls[k].stopped && polls[k].result.TimedOut? && !SilentSinceTimeout(polls, k)
  }

  /** The channel part of one turn, with its early ways out. */
  method ServeChannels(build: Build, p: Poll, n: nat, waiting: bool)
      returns (recover: bool, stop: bool, stillWaiting: bool)
    requires p.result.Ready? && |p.readOk| == |p.result.revents| == n
    ensures recover <==> exists e: nat :: RecoversAt(build, p, e)
    ensures !recover ==> (stop <==> exists e: nat :: FailsAt(p, e))
    ensures !recover ==> (stillWaiting <==> waiting && !HasData(p))
  {
    stop, stillWaiting := false, waiting;
    var e := 0;
    while e < n
      invariant 0 <= e <= n
      invariant forall d: nat | d < e :: !RecoversAt(build, p, d)
      invariant stop <==> exists d: nat :: d < e && FailsAt(p, d)
      invariant stillWaiting <==> waiting && !exists d: nat :: d < e && ReadsAt(p, d)
    {
      ActionByBits(p.result.revents[e]);
      match ChannelAction(p.result.revents[e]) {
        case Recover =>
          assert RecoversAt(build, p, e);
          return true, stop, stillWaiting;
        case ReadData =>
          assert ReadsAt(p, e);
          stillWaiting := false;
          if !p.readOk[e] {
            assert FailsAt(p, e);
            if build == Vfs {
              assert RecoversAt(build, p, e);
              return true, stop, stillWaiting;
            }
            stop := true;
          }
        case Nothing =>
      }
      e := e + 1;
    }
    recover := false;
  }

  /** The loop over a history of polls. It ends at the first turn whose outcome is not to go on, with that
      outcome, having sent keepalives at exactly the turns that call for one. `asked` are the timeouts
      given to `poll`, one for each turn that got as far as calling it. */
  method RunLoop(build: Build, polls: seq<Poll>, n: nat)
      returns (turns: nat, end: Turn, sent: seq<nat>, asked: seq<nat>)
    requires ForChannels(polls, n)
    ensures turns <= |polls| && forall k | 0 <= k < turns :: Outcome(build, polls, k) == GoOn
    ensures end == GoOn <==> turns == |polls|
    ensures turns < |polls| ==> end == Outcome(build, polls, turns)
    ensures forall k: nat | k < turns :: k in sent <==> SendsKeepAlive(polls, k)
    ensures forall k | k in sent :: k < turns
    ensures forall a, b | 0 <= a < b < |sent| :: sent[a] < sent[b]
    ensures |asked| == if turns < |polls| && !polls[turns].stopped then turns + 1 else turns
    ensures forall k | 0 <= k < |asked| :: asked[k] == TimeoutAt(polls, k)
  {
    var waiting := false;
    turns, end, sent, asked := 0, GoOn, [], [];
    while turns < |polls|
      invariant turns <= |polls| && end == GoOn
      invariant forall k | 0 <= k < turns :: Outcome(build, polls, k) == GoOn
      invariant waiting <==> SilentSinceTimeout(polls, turns)
      invariant forall k: nat | k < turns :: k in sent <==> SendsKeepAlive(polls, k)
      invariant forall a | 0 <= a < |sent| :: sent[a] < turns
      invariant forall a, b | 0 <= a < b < |sent| :: sent[a] < sent[b]
      invariant |asked| == turns && forall k | 0 <= k < turns :: asked[k] == TimeoutAt(polls, k)
    {
      var p := polls[turns];
      if p.stopped {
        end := LeaveLoop;
        return;
      }
      asked := asked + [if waiting then KEEPALIVE_TIMEOUT else POLL_TIMEOUT];
      match p.result {
        case TimedOut =>
          if waiting {
            end := KeepAliveReset;
            return;
          }
          waiting := true;
          sent := sent + [turns];
        case PollFailed =>
          end := FaultReset;
          return;
        case Ready(_, shutdown) =>
          var recover, stop, stillWaiting := ServeChannels(build, p, n, waiting);
          if recover {
            end := FaultReset;
            return;
          }
          if stop || shutdown != 0 {
            end := LeaveLoop;
            return;
          }
          waiting := stillWaiting;
      }
      SilenceStep(polls, turns);
      turns := turns + 1;
    }
  }

  /** A channel that hangs up resets the thread, in both builds, whatever the other channels say and whatever
      else the turn found. */
  lemma HangUpResets(build: Build, polls: seq<Poll>, k: nat, e: nat)
    requires k < |polls| && !polls[k].stopped && polls[k].result.Ready?
    requires e < |polls[k].result.revents| && polls[k].result.revents[e] & 0x0010 != 0
    ensures Outcome(build, polls, k) == FaultReset
  {
    assert RecoversAt(build, polls[k], e);
  }

  /** How the watchdog's memory moves across one turn. */
  lemma SilenceStep(polls: seq<Poll>, k: nat)
    requires k < |polls|
    ensures SilentSinceTimeout(polls, k + 1)
       <==> polls[k].result.TimedOut? || (SilentSinceTimeout(polls, k) && !HasData(polls[k]))
  {
    if polls[k].result.TimedOut? {
      assert Silent(polls, k, k + 1);
    }
    if SilentSinceTimeout(polls, k) && !HasData(polls[k]) {
      var j: nat :| j < k && polls[j].result.TimedOut? && Silent(polls, j, k);
      assert Silent(polls, j, k + 1);
    }
  }

  /** At most one keepalive per silent period: between two of them there is a data event. */
  lemma OneKeepAlivePerSilence(polls: seq<Poll>, i: nat, j: nat)
    requires i < j && SendsKeepAlive(polls, i) && SendsKeepAlive(polls, j)
    ensures exists d :: i < d < j && HasData(polls[d])
  {
    if !exists d :: i < d < j && HasData(polls[d]) {
      assert Silent(polls, i, j);
    }
  }

  function Elapsed(polls: seq<Poll>): nat {
    if polls == [] then 0 else Elapsed(polls[..|polls| - 1]) + polls[|polls| - 1].elapsed
  }

  lemma {:induction false} ElapsedCoversOne(polls: seq<Poll>, f: nat)
    requires f < |polls|
    ensures Elapsed(polls) >= polls[f].elapsed
  {
    if f < |polls| - 1 {
      ElapsedCoversOne(polls[..|polls| - 1], f);
    }
  }

  lemma {:induction false} ElapsedCoversTwo(polls: seq<Poll>, f: nat, k: nat)
    requires f < k < |polls|
    ensures Elapsed(polls) >= polls[f].elapsed + polls[k].elapsed
  {
    if k < |polls| - 1 {
      ElapsedCoversTwo(polls[..|polls| - 1], f, k);
    } else {
      ElapsedCoversOne(polls[..|polls| - 1], f);
    }
  }

  lemma SpanCoversTwo(polls: seq<Poll>, s: nat, f: nat, k: nat)
    requires s <= f < k < |polls|
    ensures Elapsed(polls[s..k + 1]) >= polls[f].elapsed + polls[k].elapsed
  {
    ElapsedCoversTwo(polls[s..k + 1], f - s, k - s);
  }

  /** `poll` does not report a timeout before the timeout it was given. */
  ghost predicate TimeoutsTakeTheirTime(polls: seq<Poll>) {
    forall k: nat | k < |polls| && polls[k].result.TimedOut? ::
      polls[k].elapsed >= TimeoutAt(polls, k)
  }

  /** The first timeout of a silent period was waited for at full length. */
  lemma FirstTimeoutOfSilence(polls: seq<Poll>, s: nat, j: nat) returns (first: nat)
    requires s <= j < |polls| && polls[j].result.TimedOut?
    requires s == 0 || HasData(polls[s - 1])
    requires Silent(polls, s, j)
    ensures s <= first <= j && polls[first].result.TimedOut? && !SilentSinceTimeout(polls, first)
  {
    first := s;
    while !polls[first].result.TimedOut?
      invariant s <= first <= j
      invariant forall i | s <= i < first :: !polls[i].result.TimedOut?
      decreases j - first
    {
      first := first + 1;
    }
  }

  /** The watchdog never fires early: a keepalive reset at turn k comes at least 35 seconds after the start
      of the thread or the last data event, whichever is later (turn s is the first after it). */
  lemma KeepAliveResetTakesLong(build: Build, polls: seq<Poll>, s: nat, k: nat)
    requires s <= k < |polls| && Outcome(build, polls, k) == KeepAliveReset
    requires s == 0 || HasData(polls[s - 1])
    requires forall i | s <= i < k :: !HasData(polls[i])
    requires TimeoutsTakeTheirTime(polls)
    ensures Elapsed(polls[s..k + 1]) >= 35000
  {
    var j: nat :| j < k && polls[j].result.TimedOut? && Silent(polls, j, k);
    assert s <= j;
    var f := FirstTimeoutOfSilence(polls, s, j);
    SpanCoversTwo(polls, s, f, k);
  }
}
