/** `ant_tx_message` of the BlueZ transport: write a command, wait for its Command Complete event (Bluetooth
    Core Specification, Vol 4 Part E, section 7.7.14), and retry under two budgets, one counted and one
    timed. The kernel is an oracle: the k-th write, poll, read and clock reading each have a given answer. */
module HciTransmit {
  import opened Packets
  import opened Runs
  import opened HciFraming

  datatype Status = Success | Failed | NoValueAvailable | CommandWriteFailed | UnspecifiedError | NotEnabled

  const EVT_CMD_COMPLETE: byte := 0x0E
  const HCI_UNSPECIFIED_ERROR: byte := 0x1F
  const MAX_RETRIES_WRITE_FAIL := 10
  const MAX_RETRY_TIME_SECS := 10
  const SLEEP_MS := 50

  /** `get_command_complete_result` on what the read returned, or on a failed read. */
  function CommandCompleteResult(chip: Chip, got: Option<seq<byte>>): Status {
    match got
    case None => Failed
    case Some(p) =>
      if |p| != 7 then Failed
      else if p[0] != HCI_EVENT_PKT || p[1] != EVT_CMD_COMPLETE then NoValueAvailable
      else if LEtoHost16(p[4], p[5]) != CommandOpcode(chip) then NoValueAvailable
      else if p[6] == 0 then Success
      else if p[6] == HCI_UNSPECIFIED_ERROR then UnspecifiedError
      else CommandWriteFailed
  }

  /** A Command Complete event for the ANT opcode with return code `code`. Its parameter length and its
      count of free command packets are not looked at. */
  ghost predicate CommandComplete(chip: Chip, p: seq<byte>, code: byte) {
    exists plen: byte, ncmd: byte ::
      p == [0x04, 0x0E, plen, ncmd] + (match chip case Wl12xx => [0xD1, 0xFD] case Bcm433x => [0xEC, 0xFC]) + [code]
  }

  lemma IsCommandComplete(chip: Chip, p: seq<byte>)
    requires |p| == 7 && p[0] == HCI_EVENT_PKT && p[1] == EVT_CMD_COMPLETE
    requires LEtoHost16(p[4], p[5]) == CommandOpcode(chip)
    ensures CommandComplete(chip, p, p[6])
  {
    assert p == [0x04, 0x0E, p[2], p[3]] + [p[4], p[5]] + [p[6]];
  }

  /** What each response means. A Command Complete event with the ANT opcode: sent if its code is 0, the chip is
      busy if it is 0x1F, an error otherwise. Any other event of that length: not the one awaited. Anything of
      another length, or nothing: a failure. */
  lemma ResultReadsCommandComplete(chip: Chip, got: Option<seq<byte>>)
    ensures forall code: byte | got.Some? && CommandComplete(chip, got.value, code) ::
              CommandCompleteResult(chip, got)
                == if code == 0 then Success else if code == 0x1F then UnspecifiedError else CommandWriteFailed
    ensures CommandCompleteResult(chip, got) == Failed <==> got == None || |got.value| != 7
    ensures CommandCompleteResult(chip, got) == NoValueAvailable
       <==> got.Some? && |got.value| == 7 && forall code: byte :: !CommandComplete(chip, got.value, code)
  {
    if got.Some? {
      var p := got.value;
      if |p| == 7 && CommandCompleteResult(chip, got) != NoValueAvailable {
        IsCommandComplete(chip, p);
      }
    }
  }

  /** The kernel's answers. `clock(j)` is the reading after the j-th sleep; None is a failed reading. */
  datatype Kernel = Kernel(
    writeOk: nat -> bool,
    dataReady: nat -> bool,
    response: nat -> Option<seq<byte>>,
    start: Option<nat>,
    clock: nat -> Option<nat>)

  function ResultAt(chip: Chip, k: Kernel, r: nat): Status {
    CommandCompleteResult(chip, k.response(r))
  }

  function Count(chip: Chip, k: Kernel, n: nat, s: Status): nat {
    if n == 0 then 0 else Count(chip, k, n - 1, s) + if ResultAt(chip, k, n - 1) == s then 1 else 0
  }

  // ---------------------------------------------------------------- when the call goes on

  function EndTime(k: Kernel): nat {
    if k.start.Some? then k.start.value + MAX_RETRY_TIME_SECS else 0
  }

  /** The call goes on after response r: it was not the awaited event; or it reports a failed write, and not
      for the tenth time; or it reports an unspecified error, and after a pause there is time left. */
  predicate GoesOn(chip: Chip, k: Kernel, r: nat) {
    match ResultAt(chip, k, r)
    case NoValueAvailable => true
    case CommandWriteFailed => Count(chip, k, r + 1, CommandWriteFailed) < MAX_RETRIES_WRITE_FAIL
    case UnspecifiedError =>
      var now := k.clock(Count(chip, k, r, UnspecifiedError));
      now.Some? && now.value < EndTime(k)
    case _ => false
  }

  /** Frames written by the time `r` responses have all been followed by another attempt. */
  function FramesFor(chip: Chip, k: Kernel, r: nat): nat {
    1 + Count(chip, k, r, CommandWriteFailed) + Count(chip, k, r, UnspecifiedError)
  }

  /** The call gets as far as waiting for response `r`. */
  ghost predicate Reaches(chip: Chip, k: Kernel, r: nat) {
    forall q: nat | q < r ::
      k.writeOk(FramesFor(chip, k, q) - 1) && k.dataReady(q) && GoesOn(chip, k, q)
  }

  datatype End = WriteFailed | NoAnswer | Answered

  /** The call ends with `status` after `r` responses that it followed with another attempt: because a write
      fails, because nothing arrives, or with a response that it does not follow. */
  ghost predicate Ends(chip: Chip, k: Kernel, r: nat, end: End, status: Status) {
    && Reaches(chip, k, r)
    && match end
       case WriteFailed => !k.writeOk(FramesFor(chip, k, r) - 1) && status == Failed
       case NoAnswer =>
         && k.writeOk(FramesFor(chip, k, r) - 1) && !k.dataReady(r)
         && status == if r == 0 then Failed else ResultAt(chip, k, r - 1)
       case Answered =>
         && k.writeOk(FramesFor(chip, k, r) - 1) && k.dataReady(r) && !GoesOn(chip, k, r)
         && status == ResultAt(chip, k, r)
  }

  /** The kernel's answers leave one way for the call to end. */
  lemma EndIsUnique(chip: Chip, k: Kernel, r: nat, end: End, status: Status, r': nat, end': End, status': Status)
    requires Ends(chip, k, r, end, status) && Ends(chip, k, r', end', status')
    ensures r == r' && end == end' && status == status'
  {
  }

  /** SUCCESS is returned exactly when the last response consumed is a Command Complete event with the ANT
      opcode and code 0. */
  lemma SuccessIffLastResponseIsOk(chip: Chip, k: Kernel, r: nat, end: End, status: Status)
    requires Ends(chip, k, r, end, status)
    ensures status == Success
       <==> end == Answered && k.response(r).Some? && CommandComplete(chip, k.response(r).value, 0)
    ensures forall q: nat | q < r && k.response(q).Some? :: !CommandComplete(chip, k.response(q).value, 0)
  {
    AnswersDecide(chip, k, r);
    assert r > 0 ==> GoesOn(chip, k, r - 1);
    forall q: nat | q < r && k.response(q).Some?
      ensures !CommandComplete(chip, k.response(q).value, 0)
    {
      assert GoesOn(chip, k, q);
      AnswersDecide(chip, k, q);
    }
  }

  // ---------------------------------------------------------------- by the codes of the answers

  ghost predicate AnswersWith(chip: Chip, k: Kernel, r: nat, code: byte) {
    k.response(r).Some? && CommandComplete(chip, k.response(r).value, code)
  }

  /** The chip reports an error other than being busy. */
  ghost predicate AnswersError(chip: Chip, k: Kernel, r: nat) {
    exists code: byte :: code != 0 && code != 0x1F && AnswersWith(chip, k, r, code)
  }

  ghost predicate AnswersBusy(chip: Chip, k: Kernel, r: nat) {
    AnswersWith(chip, k, r, 0x1F)
  }

  lemma AnswersDecide(chip: Chip, k: Kernel, r: nat)
    ensures ResultAt(chip, k, r) == Success <==> AnswersWith(chip, k, r, 0)
    ensures ResultAt(chip, k, r) == UnspecifiedError <==> AnswersBusy(chip, k, r)
    ensures ResultAt(chip, k, r) == CommandWriteFailed <==> AnswersError(chip, k, r)
    ensures ResultAt(chip, k, r) != NotEnabled
  {
    ResultReadsCommandComplete(chip, k.response(r));
    if ResultAt(chip, k, r) !in {Failed, NoValueAvailable} {
      var code: byte :| CommandComplete(chip, k.response(r).value, code);
      assert AnswersWith(chip, k, r, code);
    }
  }

  ghost function ErrorAnswers(chip: Chip, k: Kernel, n: nat): nat {
    if n == 0 then 0 else ErrorAnswers(chip, k, n - 1) + if AnswersError(chip, k, n - 1) then 1 else 0
  }

  ghost function BusyAnswers(chip: Chip, k: Kernel, n: nat): nat {
    if n == 0 then 0 else BusyAnswers(chip, k, n - 1) + if AnswersBusy(chip, k, n - 1) then 1 else 0
  }

  lemma {:induction false} AnswersAreCounted(chip: Chip, k: Kernel, n: nat)
    ensures ErrorAnswers(chip, k, n) == Count(chip, k, n, CommandWriteFailed)
    ensures BusyAnswers(chip, k, n) == Count(chip, k, n, UnspecifiedError)
  {
    if n > 0 {
      AnswersAreCounted(chip, k, n - 1);
      AnswersDecide(chip, k, n - 1);
    }
  }

  /** The counted budget is for errors: the call goes on after the first nine. */
  lemma ErrorsAreRetriedNineTimes(chip: Chip, k: Kernel, r: nat)
    requires AnswersError(chip, k, r)
    ensures GoesOn(chip, k, r) <==> ErrorAnswers(chip, k, r + 1) <= 9
  {
    AnswersDecide(chip, k, r);
    AnswersAreCounted(chip, k, r + 1);
  }

  /** The timed one is for a busy chip: the call goes on exactly while the clock, read after the pause that
      follows the answer, is below its start plus ten seconds. */
  lemma BusyIsRetriedForTenSeconds(chip: Chip, k: Kernel, r: nat)
    requires AnswersBusy(chip, k, r)
    ensures var now := k.clock(BusyAnswers(chip, k, r));
            GoesOn(chip, k, r) <==> now.Some? && k.start.Some? && now.value < k.start.value + 10
  {
    AnswersDecide(chip, k, r);
    AnswersAreCounted(chip, k, r);
  }

  /** The call ends on an error exactly when that is the tenth, and then it returns COMMAND_WRITE_FAILED; on a busy
      chip exactly when the time is up, and then it returns UNSPECIFIED_ERROR. */
  lemma EndsByTheCodes(chip: Chip, k: Kernel, r: nat, status: Status)
    requires Ends(chip, k, r, Answered, status)
    ensures status == CommandWriteFailed <==> AnswersError(chip, k, r) && ErrorAnswers(chip, k, r + 1) == 10
    ensures status == UnspecifiedError <==> AnswersBusy(chip, k, r) && !TimeLeft(k, BusyAnswers(chip, k, r))
    ensures status == Success <==> AnswersWith(chip, k, r, 0)
    ensures status == Failed <==> k.response(r) == None || |k.response(r).value| != 7
    ensures status in {Success, Failed, CommandWriteFailed, UnspecifiedError}
  {
    AnswersDecide(chip, k, r);
    ResultReadsCommandComplete(chip, k.response(r));
    ErrorsAreFew(chip, k, r);
    AnswersAreCounted(chip, k, r);
    AnswersAreCounted(chip, k, r + 1);
  }

  predicate TimeLeft(k: Kernel, sleep: nat) {
    k.clock(sleep).Some? && k.start.Some? && k.clock(sleep).value < k.start.value + 10
  }

  lemma {:induction false} ErrorsAreFew(chip: Chip, k: Kernel, r: nat)
    requires forall q: nat | q < r :: GoesOn(chip, k, q)
    ensures ErrorAnswers(chip, k, r) <= 9
  {
    if r > 0 {
      ErrorsAreFew(chip, k, r - 1);
      if AnswersError(chip, k, r - 1) {
        ErrorsAreRetriedNineTimes(chip, k, r - 1);
      }
    }
  }

  // ---------------------------------------------------------------- the budgets

  /** Finitely many events that are not the awaited one. */
  ghost predicate UnrelatedEventsEnd(chip: Chip, k: Kernel, bound: nat) {
    forall r: nat | r >= bound :: ResultAt(chip, k, r) != NoValueAvailable
  }

  /** The clock shows whole seconds of a monotonic time in ms, and every sleep lasts its full 50 ms. */
  ghost predicate ClockKeepsTime(k: Kernel, startMs: nat, ms: nat -> nat) {
    && (k.start.Some? ==> k.start.value == startMs / 1000)
    && (forall j: nat :: ms(j) >= startMs + SLEEP_MS * (j + 1))
    && (forall j: nat :: k.clock(j).Some? ==> k.clock(j).value == ms(j) / 1000)
  }

  /** Another timed retry is granted only in the first 199 sleeps. */
  lemma TimedRetriesRunOut(k: Kernel, startMs: nat, ms: nat -> nat, j: nat)
    requires ClockKeepsTime(k, startMs, ms)
    requires k.clock(j).Some? && k.clock(j).value < EndTime(k)
    ensures j + 1 <= 199
  {
    if k.start.Some? {
      assert ms(j) < 1000 * (startMs / 1000 + MAX_RETRY_TIME_SECS);
    }
  }

  /** At most 9 counted and 199 timed retries are granted. */
  lemma {:induction false} RetriesRunOut(chip: Chip, k: Kernel, startMs: nat, ms: nat -> nat, r: nat)
    requires ClockKeepsTime(k, startMs, ms)
    requires forall q: nat | q < r :: GoesOn(chip, k, q)
    ensures Count(chip, k, r, CommandWriteFailed) <= 9
    ensures Count(chip, k, r, UnspecifiedError) <= 199
  {
    if r > 0 {
      RetriesRunOut(chip, k, startMs, ms, r - 1);
      assert GoesOn(chip, k, r - 1);
      if ResultAt(chip, k, r - 1) == UnspecifiedError {
        TimedRetriesRunOut(k, startMs, ms, Count(chip, k, r - 1, UnspecifiedError));
      }
    }
  }

  /** However the call ends, it has written at most 1 + 9 + 199 frames. */
  lemma AtMost209Frames(chip: Chip, k: Kernel, startMs: nat, ms: nat -> nat, r: nat, end: End, status: Status)
    requires ClockKeepsTime(k, startMs, ms) && Ends(chip, k, r, end, status)
    ensures FramesFor(chip, k, r) <= 209
  {
    RetriesRunOut(chip, k, startMs, ms, r);
  }

  /** Where the call stands after `r` responses that it followed with another attempt. */
  ghost predicate Stands(chip: Chip, k: Kernel, r: nat, status: Status, writeFailures: nat, sleeps: nat) {
    && Reaches(chip, k, r)
    && writeFailures == Count(chip, k, r, CommandWriteFailed)
    && sleeps == Count(chip, k, r, UnspecifiedError)
    && status == if r == 0 then Failed else ResultAt(chip, k, r - 1)
  }

  /** The call is over, with `responses` consumed. */
  ghost predicate Over(chip: Chip, k: Kernel, responses: nat, end: End, status: Status, frames: nat) {
    && (end == Answered ==> responses > 0)
    && var r := if end == Answered then responses - 1 else responses;
       Ends(chip, k, r, end, status) && frames == FramesFor(chip, k, r)
  }

  /** Following response r with another attempt. */
  lemma StandsNext(chip: Chip, k: Kernel, r: nat, status: Status, writeFailures: nat, sleeps: nat)
    requires Stands(chip, k, r, status, writeFailures, sleeps)
    requires k.writeOk(FramesFor(chip, k, r) - 1) && k.dataReady(r) && GoesOn(chip, k, r)
    ensures Stands(chip, k, r + 1, ResultAt(chip, k, r),
                   Count(chip, k, r + 1, CommandWriteFailed), Count(chip, k, r + 1, UnspecifiedError))
    ensures FramesFor(chip, k, r + 1)
         == FramesFor(chip, k, r) + if ResultAt(chip, k, r) == NoValueAvailable then 0 else 1
  {
  }

  /** The switch on the result of a response: wait for another one, write again, or leave it at that. */
  method Decide(chip: Chip, k: Kernel, r: nat, result: Status, writeFailuresBefore: nat, sleepsBefore: nat)
      returns (retryRx: bool, retryTx: bool, writeFailures: nat, sleeps: nat)
    requires result == ResultAt(chip, k, r)
    requires writeFailuresBefore == Count(chip, k, r, CommandWriteFailed)
    requires sleepsBefore == Count(chip, k, r, UnspecifiedError)
    ensures retryRx <==> result == NoValueAvailable
    ensures retryTx <==> result != NoValueAvailable && GoesOn(chip, k, r)
    ensures writeFailures == Count(chip, k, r + 1, CommandWriteFailed)
    ensures sleeps == Count(chip, k, r + 1, UnspecifiedError)
  {
    retryRx, retryTx, writeFailures, sleeps := false, false, writeFailuresBefore, sleepsBefore;
    match result {
      case NoValueAvailable =>
        retryRx := true;
      case CommandWriteFailed =>
        writeFailures := writeFailures + 1;
        retryTx := writeFailures < MAX_RETRIES_WRITE_FAIL;
      case UnspecifiedError =>
        var now := k.clock(sleeps);
        sleeps := sleeps + 1;
        retryTx := now.Some? && now.value < EndTime(k);
      case _ =>
    }
  }

  /** One turn of the inner loop: wait for a response, and decide what it means for the frame. */
  method TakeResponse(chip: Chip, k: Kernel, frames: nat, r: nat, statusBefore: Status,
                      writeFailuresBefore: nat, sleepsBefore: nat)
      returns (retryRx: bool, retryTx: bool, responses: nat, status: Status, writeFailures: nat, sleeps: nat, end: End)
    requires Stands(chip, k, r, statusBefore, writeFailuresBefore, sleepsBefore)
    requires frames == FramesFor(chip, k, r) && k.writeOk(frames - 1)
    ensures retryRx ==> !retryTx && responses == r + 1 && ResultAt(chip, k, r) == NoValueAvailable
    ensures retryRx || retryTx ==>
              && Stands(chip, k, responses, status, writeFailures, sleeps)
              && FramesFor(chip, k, responses) == frames + if retryTx then 1 else 0
    ensures !retryRx && !retryTx ==> Over(chip, k, responses, end, status, frames)
  {
    retryRx, retryTx, responses, status, end := false, false, r, statusBefore, NoAnswer;
    writeFailures, sleeps := writeFailuresBefore, sleepsBefore;
    if k.dataReady(r) {
      status, responses, end := ResultAt(chip, k, r), r + 1, Answered;
      retryRx, retryTx, writeFailures, sleeps := Decide(chip, k, r, status, writeFailures, sleeps);
      if retryRx || retryTx {
        StandsNext(chip, k, r, statusBefore, writeFailuresBefore, sleepsBefore);
      }
    }
  }

  /** The inner loop: after a frame was written, wait until there is a response that decides about it. */
  method AwaitResult(chip: Chip, k: Kernel, frames: nat, before: nat, statusBefore: Status,
                     writeFailuresBefore: nat, sleepsBefore: nat, ghost bound: nat)
      returns (retryTx: bool, responses: nat, status: Status, writeFailures: nat, sleeps: nat, end: End)
    requires UnrelatedEventsEnd(chip, k, bound)
    requires Stands(chip, k, before, statusBefore, writeFailuresBefore, sleepsBefore)
    requires frames == FramesFor(chip, k, before) && k.writeOk(frames - 1)
    ensures retryTx ==>
              && Stands(chip, k, responses, status, writeFailures, sleeps)
              && frames + 1 == FramesFor(chip, k, responses)
    ensures !retryTx ==> Over(chip, k, responses, end, status, frames)
  {
    retryTx, responses, status, end := false, before, statusBefore, NoAnswer;
    writeFailures, sleeps := writeFailuresBefore, sleepsBefore;
    var retryRx := true;
    while retryRx
      invariant retryRx || retryTx ==>
                  && Stands(chip, k, responses, status, writeFailures, sleeps)
                  && FramesFor(chip, k, responses) == frames + if retryTx then 1 else 0
      invariant retryRx ==> !retryTx
      invariant !retryRx && !retryTx ==> Over(chip, k, responses, end, status, frames)
      decreases retryRx, if bound > responses then bound - responses else 0
    {
      retryRx, retryTx, responses, status, writeFailures, sleeps, end :=
        TakeResponse(chip, k, frames, responses, status, writeFailures, sleeps);
    }
  }

  /** The whole call. `frames` counts the calls of `write_data`, `responses` the responses consumed. */
  method AntTxMessage(chip: Chip, k: Kernel, enabled: bool, socketOpened: bool,
                      ghost bound: nat, ghost startMs: nat, ghost ms: nat -> nat)
      returns (status: Status, frames: nat, responses: nat, end: End)
    requires UnrelatedEventsEnd(chip, k, bound) && ClockKeepsTime(k, startMs, ms)
    ensures !enabled ==> status == NotEnabled && frames == responses == 0
    ensures enabled && !socketOpened ==> status == Failed && frames == responses == 0
    ensures enabled && socketOpened ==> Over(chip, k, responses, end, status, frames) && frames <= 209
  {
    status, frames, responses, end := NotEnabled, 0, 0, WriteFailed;
    if !enabled {
      return;
    }
    status := Failed;
    if !socketOpened {
      return;
    }
    var writeFailures, sleeps := 0, 0;
    var retryTx := true;
    while retryTx
      invariant retryTx ==>
                  && Stands(chip, k, responses, status, writeFailures, sleeps)
                  && frames + 1 == FramesFor(chip, k, responses)
      invariant !retryTx ==> Over(chip, k, responses, end, status, frames)
      invariant frames <= 209
      decreases 209 - frames, retryTx
    {
      RetriesRunOut(chip, k, startMs, ms, responses);
      retryTx := false;
      frames := frames + 1;
      if k.writeOk(frames - 1) {
        retryTx, responses, status, writeFailures, sleeps, end :=
          AwaitResult(chip, k, frames, responses, status, writeFailures, sleeps, bound);
      } else {
        status, end := Failed, WriteFailed;
      }
    }
  }
}
