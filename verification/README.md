# Verification of the ANT radio transport layer

libantradio carries ANT messages between applications and a radio chip, over character devices (the VFS
transport and its bt-vendor variant) or over a Bluetooth HCI socket (the BlueZ transport). This project models
the parts of it that are hard to get right - an in-place stream reassembler, a lifecycle protocol between API
calls and a receive thread, a flow-control handshake, and a transmit loop with two retry budgets - and proves what
they guarantee. Some guarantees that one would expect do not hold; each of them is shown with a run that breaks it and
with the exact condition under which it does hold.

`dafny verify dfyconfig.toml` checks everything (Dafny 4.11).

## How it is organised

| file | contents |
|---|---|
| `Packets.dfy` | the byte stream of a VFS channel: reference parser, framing, parsing in chunks, round trip |
| `Receiver.dfy` | `readChannelMsg` on the two-dimensional byte buffer, refining the parser |
| `Transmit.dfy` | `ant_tx_message` of the VFS builds: the frame, the 8-bit length, the path |
| `RxLoop.dfy` | the poll loop: dispatch of poll results, keepalive watchdog |
| `Radio.dfy` | derived radio status, state notices and the blocks they come in |
| `RadioControl.dfy` | `ant_enable`, `ant_disable` and the calls built on them, one at a time, as a class |
| `Runs.dfy` | runs of a step system |
| `Lifecycle.dfy` | the VFS lifecycle protocol as an interleaved step system |
| `LifecycleInvariant.dfy` | its inductive invariant |
| `LifecycleProperties.dfy` | threads, descriptors, shutdown signal and notices in every reachable state |
| `LifecycleTurn.dfy` | the turns of the poll loop in the step system and in `RxLoop` agree |
| `LifecycleJoin.dfy` | what becomes of a client that joins an rx thread |
| `LifecycleAlone.dfy` | an `ant_enable` or `ant_disable` of the step system that nobody interferes with meets the contracts of the class |
| `LifecycleCalls.dfy` | whole calls, `doReset` and the crash cleanup of the step system, from a free lock to a free lock |
| `LifecycleScenarios.dfy` | runs that end badly: the deadlock, the failed hard reset |
| `FlowHandshake.dfy` | FLOW_STOP / FLOW_GO between senders and the rx thread as a step system |
| `HciFraming.dfy` | HCI command headers and event validation, both chips |
| `HciTransmit.dfy` | `ant_tx_message` of the BlueZ transport with its nested retry loops |
| `HciLifecycle.dfy` | the two locks of the BlueZ transport as a step system |
| `HciCalls.dfy` | its whole calls, the turns and the end of its rx thread, and what is certain while it is not enabled |

Loops and in-place updates of the source are methods with loops on arrays and fields. Concurrency is a function
from a state and a step to the next state (`None` when the step is not possible); "every run" means every sequence of
such steps, by any number of clients and threads. A step is one access to what the actors share, with a few
exceptions: the status check reads handle, descriptors and run flag in one step, and `ant_enable_radio` of the BlueZ
transport tests and sets the status, or tests status and handle, in one step. Nothing is lost by that. While somebody
holds the lock, nobody else writes the handle and the descriptors (`LifecycleProperties.OnlyHolderWrites`) or the BlueZ
status and handle (`HciLifecycle.OnlyHolderWrites`); only the run flag can change under the check, and it is read last.

## What does not hold

* **A join can wait for ever.** `ant_disable` joins the rx thread while it holds the status lock; a thread that
  has decided to reset itself blocks on that lock in `doReset` (src/vfs/ant_rx_chardev.c:271). A join *can* still
  complete if and only if the joined thread has not gone into `doReset` (`JoinCompletesIffNotInReset`,
  `JoinCanReturnIffNotInReset`). It is *certain* to complete, given that the thread is scheduled, if and only
  if the thread is past its last look at poll results (`JoinIsCertainIffPastDispatch`, `JoinOutcome`). Every session
  has a run into the deadlock (`AnySessionCanDeadlock`, `DeadlockIsReachable`).
* **A FLOW_GO can miss the sender it came for.** Either its one `pthread_cond_signal` wakes somebody else, and the
  sender sleeps with its flag at FLOW_GO; or the sender is woken, but before it looks another sender has stored a
  FLOW_STOP over it, or the chip another setting. Which it is, the flag tells (`StrandedIffPassedOver`,
  `WhyAGoIsMissed`). The first can happen if and only if there are two senders (`WakeupsAreLostIffTwoSenders`), and so
  can the second through a FLOW_STOP (`GoIsOverwrittenIffTwoSenders`). Nor does a FLOW_GO belong to one frame: one can
  give SUCCESS to two senders (`OneGoServesTwo`). In a build with a single path the keepalive thread is a sender of its
  own (src/vfs/ant_rx_chardev.c:97-101), so there an application with one sending thread has two senders.
* **BlueZ can be ENABLED without a receiver.** The thread gives up without a trace when it cannot open its socket, or
  when it has left its loop and finds the enable lock taken. While the status is ENABLED there is a receiver if and
  only if the recorded thread has not given up (`EnabledHasReceiverIffItDidNotGiveUp`). It can give up either way
  (`EnabledWithoutSocket`, `EnabledWithDeadReceiver`), the second already because it is created before the status says
  ENABLED.
* **A failed hard reset reports DISABLED without being disabled.** Channels opened before the failure stay open.
  The status is what was reported if and only if the shutdown event could not be read or, in the VFS build, the first
  channel could not be opened (`HardResetAlone`, and `HardReset` for the sequential code); the same goes for `doReset`
  (`DoResetAlone`). `ReportedDisabledButOpen` is a run in which it is not.
* **A session can begin in the middle of a packet.** Nothing clears the receive buffers between sessions. What a
  session sends is parsed as such if and only if nothing was left over (`SessionParsesAsSuchIffNothingWasLeft`);
  `MessageSwallowedByLeftover` is a case.
* **The 8-bit length variable wraps.** A message arrives as sent if and only if it has at most 254 bytes, or 253 in the
  bt-vendor build (`SentWholeIffLengthDoesNotWrap`).

The comment above `ant_radio_enabled_status` says UNKNOWN when there *are* open files and a thread
(src/vfs/ant_native_chardev.c:429-430); the code says UNKNOWN when there are none
(src/vfs/ant_native_chardev.c:468). The model follows the code.

## Assumptions

* Mutex operations, `pthread_create` (VFS), `pthread_join` and writes to the eventfd succeed; a failing `close`
  still releases its descriptor; `open` returns a descriptor that is not in use; thread ids are not reused; the
  store of the new handle by `pthread_create` is one step with the creation. `open`, `poll`, `read` and the read of
  the eventfd may fail, and so may `pthread_create` in the BlueZ transport.
* State callbacks are registered and do not call back into the API.
* Framing: one size byte, no opcode, sync byte, checksum or channel byte; the first ANT message of a frame fits in
  it, and a flow-control message has its data byte. `memcmp` compares from left to right and stops at the first
  difference; the overlapping `memcpy` copies upwards.
* BlueZ retry budget: a monotonic clock read in whole seconds, sleeps of at least 50 ms, finitely many unrelated
  events.

## Model

| member | source | states |
|---|---|---|
| Packets.PacketsAndTailMakeTheStream | src/vfs/ant_rx_chardev.c:419-457 | Splitting a stream into packets loses and invents nothing: the stream is its packets re-framed plus a tail without a whole packet |
| Packets.FramedPacketsParseBack | src/vfs/ant_rx_chardev.c:419-457 | ... and that decomposition is the only one: framed packets followed by an incomplete one parse back to exactly those |
| Packets.TailIsShort | src/vfs/ant_rx_chardev.c:424-430 | What stays in the buffer is a strict prefix of one packet, at most 255 bytes |
| Packets.ParseResumes | src/vfs/ant_rx_chardev.c:383-392 | Parsing may stop at any byte and resume from the kept tail with the same packets and the same final tail |
| Packets.EventsResume | src/vfs/ant_rx_chardev.c:432-455 | The same for the classified events: flow settings, dropped keepalive responses and delivered messages |
| Packets.ReceiveExtendsTheParse | src/vfs/ant_rx_chardev.c:350-467 | One more read keeps a channel equal to the parse of everything read so far |
| Packets.SessionParsesAsSuchIffNothingWasLeft | src/vfs/ant_rx_chardev.c:51-57 | A session gives the packets and the tail that it would give from an empty buffer if and only if nothing was left in the buffer when it began |
| Packets.MessageSwallowedByLeftover | src/vfs/ant_rx_chardev.c:51-57 | One byte left over from the last session, and a whole message of the new one is not delivered |
| Packets.ReceiveAll | src/vfs/ant_rx_chardev.c:350-467 | After any interleaving of reads of several channels, a channel is the parse of its own bytes: neither chunking nor other channels can be seen |
| Packets.RoundTrip | src/vfs/ant_rx_chardev.c:419-457 | Framed messages received under any chunking come back in order, each classified, with an empty buffer |
| Packets.EncodedIsClassified | src/vfs/ant_rx_chardev.c:432-455 | The bytes with which the chip sends a flow setting, a keepalive response or an ordinary message are classified as that |
| Packets.EventsComeBack | src/vfs/ant_rx_chardev.c:419-457 | Any list of events that the chip sends, framed and received in any chunks, is exactly the list of events that the receiver records, drops and delivers |
| Receiver.ReceiveBuffers.IsKeepAliveResponse | src/vfs/ant_rx_chardev.c:444 | The comparison answers whether the packet starts with the keepalive response and never looks beyond the packet |
| Receiver.ReceiveBuffers.SlideToFront | src/vfs/ant_rx_chardev.c:429 | The overlapping copy puts the partial packet at the start of its row and touches no other row |
| Receiver.ReceiveBuffers.HandlePacket | src/vfs/ant_rx_chardev.c:432-455 | A packet with id 0xC9 records its first data byte as the flow setting; any other leaves the flag alone and is dropped if it starts with the five bytes of a keepalive response, delivered whole otherwise |
| Receiver.ReceiveBuffers.PacketTurn | src/vfs/ant_rx_chardev.c:419-458 | One turn of the loop handles the next whole packet, or keeps the partial one and moves beyond the end; the offset always grows |
| Receiver.ReceiveBuffers.SplitPackets | src/vfs/ant_rx_chardev.c:415-459 | The packet loop ends, produces exactly the parser's events in order and keeps exactly its tail, also past a partial packet |
| Receiver.ReceiveBuffers.Consume | src/vfs/ant_rx_chardev.c:383-459 | Whether or not the first packet is complete, the bytes read become the parser's events and tail, and at most 255 bytes stay |
| Receiver.ReceiveBuffers.ReadRetrying | src/vfs/ant_rx_chardev.c:358-361 | The retry loop takes the first attempt that is not EAGAIN: there is an attempt with that outcome, and EAGAIN is all that came before it |
| Receiver.ReceiveBuffers.ReadChannelMsg | src/vfs/ant_rx_chardev.c:350-467 | A read advances its channel as the parser does, a failed one returns -1 and changes nothing, other channels are untouched, and at least five bytes stay free |
| Receiver.Serve | src/vfs/ant_rx_chardev.c:170-181 | Any sequence of reads on any channels leaves every buffer, log and flow flag where the parser of that channel's stream stands |
| Receiver.ServeEvents | src/vfs/ant_rx_chardev.c:350-467 | What the chip sent on each channel comes out as the same events in the same order, the buffers empty and the flow flags the last settings sent |
| Receiver.FlowAfterAppend | src/vfs/ant_rx_chardev.c:335 | The flow flag after two batches of packets is that of the second batch started from the first |
| Receiver.FlowIsTheLastSetting | src/vfs/ant_rx_chardev.c:335 | The flow flag is the last setting received, or as it was if there was none |
| Transmit.FillBuffer | src/vfs/ant_native_chardev.c:794-802 | The buffer filled in place holds the frame of the message, for every length |
| Transmit.DataMessageIds | src/vfs/ant_native_chardev.c:764-776 | Data messages are those with ids 0x4E to 0x50, 0x5D to 0x5F and 0x72 |
| Transmit.PrepareMessage | src/vfs/ant_native_chardev.c:743-825 | For messages of every length, the bytes passed to write are the frame cut to the 8-bit length; path, flow channel and waiting follow the build and the message id; nothing is sent unless ENABLED |
| Transmit.SentWholeIffLengthDoesNotWrap | src/bt-vendor_vfs/ant_native_chardev.c:765 | The peer recovers the message if and only if it has at most 254 bytes, or 253 with the packet-type byte |
| Transmit.SentThenReceived | src/vfs/ant_native_chardev.c:755-802 | Messages of up to 254 bytes sent by ant_tx_message and received in any chunks are recovered in order |
| RxLoop.ActionByBits | src/vfs/ant_rx_chardev.c:157-197 | Bit by bit, which poll results of a channel send the thread into doReset, which make it read and which it passes over |
| RxLoop.HangUpResets | src/vfs/ant_rx_chardev.c:162-169 | A channel that hangs up resets the thread in both builds, whatever the other channels say |
| RxLoop.ServeChannels | src/vfs/ant_rx_chardev.c:156-198 | One turn resets if some channel calls for it, stops if a read failed in the bt-vendor build, and data from any channel ends the silence |
| RxLoop.RunLoop | src/vfs/ant_rx_chardev.c:129-208 | The loop ends at the first turn whose outcome, read off the poll history, is not to go on; keepalives go out at exactly the first timeouts of silent periods, and poll is given the right timeout |
| RxLoop.SilenceStep | src/vfs/ant_rx_chardev.c:133-150 | The waiting flag is set exactly when there was a timeout with no data event since |
| RxLoop.OneKeepAlivePerSilence | src/vfs/ant_rx_chardev.c:134-143 | Between two keepalives there is a data event |
| RxLoop.KeepAliveResetTakesLong | src/vfs/ant_rx_chardev.c:131-149 | A keepalive reset comes no earlier than 35000 ms after the thread started or the last data event |
| Radio.CountsMeanAllOrNone | src/vfs/ant_native_chardev.c:450-454 | The count of open channels is the number of channels, or 0, exactly when all, or none, are open |
| Radio.StatusByCount | src/vfs/ant_native_chardev.c:445-473 | For each status, exactly when it is derived, in terms of flags, thread and the count of open channels |
| RadioControl.RadioThreadInfo.constructor | src/vfs/ant_native_chardev.c:92-122 | A new radio is DISABLED with every channel closed |
| RadioControl.RadioThreadInfo.RadioEnabledStatus | src/vfs/ant_native_chardev.c:438-480 | The counting loop returns a status that depends only on the flags and on whether all, none or some channels are open |
| RadioControl.RadioThreadInfo.EnableChannel | src/vfs/ant_native_chardev.c:882-904 | Opens a closed channel only, and records what was opened |
| RadioControl.RadioThreadInfo.DisableChannel | src/vfs/ant_native_chardev.c:859-880 | Closes an open channel only |
| RadioControl.FirstFailure | src/vfs/ant_native_chardev.c:926-933 | Names the first closed channel that cannot be opened; all before it are open or can be |
| RadioControl.OpeningOne | src/vfs/ant_native_chardev.c:894-895 | Opening one more channel keeps the recorded descriptors distinct and equal to the open ones |
| RadioControl.ClosingOne | src/vfs/ant_native_chardev.c:869-874 | Closing a channel releases exactly its own descriptor |
| RadioControl.RadioThreadInfo.OpenChannels | src/vfs/ant_native_chardev.c:926-933 | The channel loop opens exactly the channels before the first failure |
| RadioControl.RadioThreadInfo.AntEnable | src/vfs/ant_native_chardev.c:908-957 | When ant_enable succeeds, and every field it leaves behind on success and on each failure |
| RadioControl.RadioThreadInfo.AntDisable | src/vfs/ant_native_chardev.c:959-993 | Everything closed, no thread, run flag down, at most one unread signal |
| RadioControl.RadioThreadInfo.EnableRadio | src/vfs/ant_native_chardev.c:194-240 | All or nothing: ENABLED with every channel open and a thread, or DISABLED with none, and exactly when which; the notices match |
| RadioControl.RadioThreadInfo.DisableRadio | src/vfs/ant_native_chardev.c:361-398 | From any state to DISABLED with everything closed, reported unless it was so already |
| RadioControl.RadioThreadInfo.HardReset | src/vfs/ant_native_chardev.c:284-335 | Exactly when the reset succeeds, and that after a failure the status is the DISABLED that was reported if and only if nothing had been opened |
| RadioControl.ReopenedStatus | src/vfs/ant_native_chardev.c:926-949 | Reopening closed channels: all are open, or none, depending on the answers of open alone |
| LifecycleInvariant.StepKeepsInv | src/vfs/ant_native_chardev.c:194-398 | Every step of every actor keeps the invariant that ties locks, handle, flags, signal, descriptors and notices together |
| LifecycleInvariant.EveryRunKeepsInv | src/vfs/ant_rx_chardev.c:107-304 | The invariant holds after every interleaving of any number of clients and rx threads, in both builds |
| LifecycleInvariant.NoticeFits | src/vfs/ant_native_chardev.c:208-227 | A notice that fits the open block keeps the trace made of whole blocks |
| LifecycleInvariant.FinalStatusIsDisabled | src/vfs/ant_native_chardev.c:382-384 | At the closing report the resetting flag is down and the derived status is DISABLED |
| LifecycleProperties.OneRegisteredThread | src/vfs/ant_native_chardev.c:935-942 | At most one rx thread is between its creation and the clearing of its handle, and stRxThread names it |
| LifecycleProperties.HandleNamesAThread | src/vfs/ant_native_chardev.c:935-942 | A nonzero stRxThread names that thread or one that is over, never a client |
| LifecycleProperties.NoThreadJoinsItself | src/vfs/ant_rx_chardev.c:280-283 | Only clients join, they join the named thread, and nobody joins itself |
| LifecycleProperties.OnlyHolderWrites | src/vfs/ant_native_chardev.c:438-480 | While somebody holds the status lock, no step of anybody else changes the handle or the descriptors, or takes the lock away |
| LifecycleProperties.RunningMeansOpen | src/vfs/ant_native_chardev.c:924-935 | In every reachable state a thread and a raised run flag mean that every channel is open |
| LifecycleProperties.NeverUnknown | src/vfs/ant_native_chardev.c:466-472 | In no reachable state is the status UNKNOWN, and it is ENABLED exactly when there is a thread, the run flag is up and nobody is resetting |
| LifecycleProperties.CapturedDescriptorsStayOpen | src/vfs/ant_rx_chardev.c:117-132 | While a thread is in its poll loop, the descriptors it captured are the recorded ones and all open |
| LifecycleProperties.DescriptorsConserved | src/vfs/ant_native_chardev.c:859-904 | The open descriptors are exactly the recorded ones, each recorded once, with failing opens and in every run |
| LifecycleProperties.ClosesAreProper | src/vfs/ant_native_chardev.c:983-985 | A close closes an open descriptor, at a time when no thread is in its poll loop |
| LifecycleProperties.SignalIsAddressed | src/vfs/ant_native_chardev.c:965-981 | The shutdown signal is 0 or 1, and a registered thread sees it raised only while a client is joining that thread |
| LifecycleProperties.OnlyCreateThreadAdds | src/vfs/ant_native_chardev.c:935-939 | No step but pthread_create adds a thread, and it makes the thread the handle |
| LifecycleProperties.SignalDownAtCreation | src/vfs/ant_native_chardev.c:914-936 | No signal leaks into a later session: it is 0 whenever an rx thread is created |
| LifecycleProperties.NoticesAreBlocks | src/vfs/ant_native_chardev.c:208-227 | Without RESETTING, every run's notices are a prefix of a concatenation of the five blocks |
| LifecycleProperties.ReportAfterDisableIsDisabled | src/vfs/ant_native_chardev.c:375-384 | The status reported after a completed ant_disable by enable, disable or crash cleanup is DISABLED, never RESETTING |
| LifecycleTurn.ReadyTurn | src/vfs/ant_rx_chardev.c:156-207 | The steps of one turn: a channel that calls for it sends the thread into doReset, a failed read or a shutdown event takes the run flag down, and nothing else changes |
| LifecycleTurn.TurnsAgree | src/vfs/ant_rx_chardev.c:129-208 | For every result of poll, the steps of the thread lead to what the loop's specification names as the outcome of the turn |
| LifecycleAlone.EnableAlone | src/vfs/ant_native_chardev.c:908-957 | The steps of one ant_enable, with those of a new thread that clears the run flag at once if it does, add up to the contract of AntEnable |
| LifecycleAlone.DisableAlone | src/vfs/ant_native_chardev.c:959-993 | The steps of one ant_disable, with those of the thread it joins, wherever that thread is outside doReset, add up to the contract of AntDisable |
| LifecycleCalls.EnableRadioAlone | src/vfs/ant_native_chardev.c:194-240 | From any moment with a free lock, a call that is not redundant ends ENABLED with every channel open and a thread, or DISABLED with none, by the answers of the system, and reports it |
| LifecycleCalls.DisableRadioAlone | src/vfs/ant_native_chardev.c:361-398 | From any such moment a call ends DISABLED with every channel closed, and reports it unless it was redundant |
| LifecycleCalls.RedundantCallAlone | src/vfs/ant_native_chardev.c:228-231 | A redundant call of the VFS build changes and reports nothing |
| LifecycleCalls.HardResetAlone | src/vfs/ant_native_chardev.c:284-335 | A hard reset reports RESETTING and then RESET or DISABLED by whether it succeeded, and the status it leaves, in both builds, is decided by the answers of the system |
| LifecycleCalls.DoResetAlone | src/vfs/ant_rx_chardev.c:255-304 | So does a thread that resets itself, which starts a new thread, frees the lock and is over |
| LifecycleCalls.CleanupRuns | src/vfs/ant_rx_chardev.c:210-246 | A thread just out of its loop that finds the lock free can run to its end, leaving the lock free, no handle, every channel closed, DISABLING and DISABLED reported and the status DISABLED |
| LifecycleCalls.EveryEndIsCleanedUp | src/vfs/ant_rx_chardev.c:210-246 | Every run of its own steps to its end does so |
| LifecycleCalls.CrashesFromPoll | src/vfs/ant_rx_chardev.c:129-246 | So does a thread in poll whose turn ends the loop while the lock is free |
| LifecycleCalls.CrashesOnFailedRead | src/bt-vendor_vfs/ant_rx_chardev.c:169-178 | In the bt-vendor build, after a failed read |
| LifecycleCalls.CrashesOnFaultyShutdown | src/vfs/ant_rx_chardev.c:207-211 | In both builds, after an error of the shutdown descriptor |
| LifecycleJoin.JoinOutcome | src/vfs/ant_rx_chardev.c:129-246 | In every run from a join, the joined thread takes no more than the steps it had left, or it goes into doReset |
| LifecycleJoin.JoinCanComplete | src/vfs/ant_rx_chardev.c:199-246 | A joined thread that is not in doReset can run to its end by itself |
| LifecycleJoin.DeadlockIsForever | src/vfs/ant_rx_chardev.c:255-283 | A joined thread in doReset never ends, the join never returns and the lock is never released |
| LifecycleJoin.JoinCompletesIffNotInReset | src/vfs/ant_rx_chardev.c:271 | A joined thread can end if and only if it has not gone into doReset |
| LifecycleJoin.JoinCanReturnIffNotInReset | src/vfs/ant_native_chardev.c:974 | pthread_join can return if and only if the joined thread has not gone into doReset |
| LifecycleJoin.PastDispatchForGood | src/vfs/ant_rx_chardev.c:199-246 | A joined thread past its last look at poll results stays so in every run |
| LifecycleJoin.JoinIsCertainIffPastDispatch | src/vfs/ant_rx_chardev.c:129-208 | No run from a join leads the thread into doReset if and only if it is past its last look at poll results |
| LifecycleScenarios.AnySessionCanDeadlock | src/vfs/ant_rx_chardev.c:255-271 | From every state with a thread in poll, a free lock and an idle client there is a run into the deadlock |
| LifecycleScenarios.SessionExists | src/vfs/ant_native_chardev.c:194-240 | Such a state is reachable in both builds with any number of channels |
| LifecycleScenarios.DeadlockIsReachable | src/vfs/ant_rx_chardev.c:255-271 | So the deadlock is reachable from the initial state |
| LifecycleScenarios.ReportedDisabledButOpen | src/vfs/ant_native_chardev.c:317-325 | A run after which DISABLED was reported last, every call has returned and a descriptor is open |
| FlowHandshake.EveryRunKeepsInv | src/vfs/ant_native_chardev.c:596-654 | The handshake invariant holds after every interleaving of any number of senders and the rx thread |
| FlowHandshake.ResultsAreTrue | src/vfs/ant_native_chardev.c:617-648 | In every run, FAILED exactly if the whole frame was not written after the STOP of the call, HARDWARE_ERR exactly if it was and the wait of this call expired, SUCCESS exactly if it was and it did not |
| FlowHandshake.SuccessMeansGoRecorded | src/vfs/ant_native_chardev.c:606-648 | SUCCESS means the whole frame was written after this call's FLOW_STOP and a FLOW_GO was recorded after that |
| FlowHandshake.LastSetIsTheFlag | src/vfs/ant_native_chardev.c:613 | The flag is what the last STOP stored or setting recorded on its channel says |
| FlowHandshake.StrandedIffPassedOver | src/vfs/ant_native_chardev.c:630-646 | A sender waits with its flag at FLOW_GO and no signal to come if and only if the signal for that very FLOW_GO woke somebody else |
| FlowHandshake.WhyAGoIsMissed | src/vfs/ant_native_chardev.c:613-646 | A FLOW_GO that came for a sender and left it waiting either was signalled to somebody else, if and only if the flag still is FLOW_GO, or was overwritten by another sender's STOP or another setting, if and only if it is not |
| FlowHandshake.NoLostWakeupAlone | src/vfs/ant_rx_chardev.c:335-341 | With one sender it is only while the rx thread is between storing the flag and signalling |
| FlowHandshake.WakeupsAreLostIffTwoSenders | src/vfs/ant_rx_chardev.c:341 | For any set of senders and any number of channels, a wakeup can be lost if and only if there are two senders |
| FlowHandshake.WakeupLostWithTwo | src/vfs/ant_rx_chardev.c:341 | A run in which one signal serves the first sender and the second waits with its flag at FLOW_GO and no signal to come |
| FlowHandshake.GoIsOverwrittenIffTwoSenders | src/vfs/ant_native_chardev.c:613 | A FLOW_GO that came for a waiting sender can be overwritten by a FLOW_STOP if and only if there are two senders |
| FlowHandshake.GoOverwrittenWithTwo | src/vfs/ant_native_chardev.c:613-646 | A run in which the woken sender finds another sender's FLOW_STOP over its FLOW_GO and waits on |
| FlowHandshake.OneGoServesTwo | src/vfs/ant_rx_chardev.c:335-341 | A run in which one recorded FLOW_GO gives SUCCESS to two senders |
| HciFraming.CreateCommandHeader | src/bluez_hci/inc/ant_framing.h:111-121 | The struct filled in place is the command header |
| HciFraming.CommandOnTheWire | src/bluez_hci/inc/ant_framing.h:111-121 | The bytes of the command header on both chips, as long as the parameter length can hold the message |
| HciFraming.CommandDecodesIffItFits | src/bluez_hci/inc/ant_framing.h:111-121 | Header and message decode back to opcode and message if and only if the message has at most 253 (WL12XX) or 254 (BCM433X) bytes |
| HciFraming.EncodingsAccepted | src/bluez_hci/inc/ant_framing.h:158-193 | Every standard encoding of an ANT vendor event is accepted with the length of its payload |
| HciFraming.AcceptedOnlyEncodings | src/bluez_hci/inc/ant_framing.h:158-193 | What is accepted is the standard encoding of the payload it is taken to hold |
| HciFraming.AcceptsExactlyEncodings | src/bluez_hci/inc/ant_framing.h:128-193 | Accepted if and only if it is an encoding of some payload, with any status byte on the BCM433X |
| HciTransmit.ResultReadsCommandComplete | src/bluez_hci/ant_tx.c:254-334 | For every response: SUCCESS, UNSPECIFIED_ERROR or COMMAND_WRITE_FAILED by the code 0, 0x1F or another of a Command Complete with the ANT opcode; NO_VALUE_AVAILABLE for anything else of its length; FAILED otherwise |
| HciTransmit.AnswersDecide | src/bluez_hci/ant_tx.c:294-312 | The other way round: each of these results comes from such a code only |
| HciTransmit.ErrorsAreRetriedNineTimes | src/bluez_hci/ant_native_hci.c:773-790 | After an answer with another code than 0 and 0x1F the call goes on exactly if it is one of the first nine |
| HciTransmit.BusyIsRetriedForTenSeconds | src/bluez_hci/ant_native_hci.c:791-822 | After an answer 0x1F it goes on exactly while the clock, read after the pause, is below its start plus ten seconds |
| HciTransmit.EndsByTheCodes | src/bluez_hci/ant_native_hci.c:745-847 | The call ends with COMMAND_WRITE_FAILED for an answer exactly at the tenth such answer, with UNSPECIFIED_ERROR exactly at a 0x1F when the time is up, with SUCCESS exactly at a 0 |
| HciTransmit.EndIsUnique | src/bluez_hci/ant_native_hci.c:745-847 | The answers of the kernel leave exactly one way for the call to end |
| HciTransmit.SuccessIffLastResponseIsOk | src/bluez_hci/ant_native_hci.c:757-827 | SUCCESS exactly when the last response consumed is a Command Complete with ANT opcode and code 0, and no earlier one was |
| HciTransmit.TimedRetriesRunOut | src/bluez_hci/ant_native_hci.c:795-815 | The time budget grants another attempt only in the first 199 sleeps |
| HciTransmit.RetriesRunOut | src/bluez_hci/ant_native_hci.c:773-815 | At most 9 counted and 199 timed retries are granted |
| HciTransmit.AtMost209Frames | src/bluez_hci/ant_native_hci.c:745-847 | However the call ends it has written at most 209 frames |
| HciTransmit.Decide | src/bluez_hci/ant_native_hci.c:760-831 | The switch on a result waits again, writes again or stops, as the budgets say |
| HciTransmit.TakeResponse | src/bluez_hci/ant_native_hci.c:751-838 | One turn of the inner loop goes on or ends the call exactly as the answers of the kernel require |
| HciTransmit.AwaitResult | src/bluez_hci/ant_native_hci.c:751-838 | The inner loop ends with a response that decides about the frame, or for want of one |
| HciTransmit.AntTxMessage | src/bluez_hci/ant_native_hci.c:681-860 | The nested loops terminate in the one end that the kernel's answers leave, with at most 209 frames |
| HciLifecycle.EveryRunKeepsInv | src/bluez_hci/ant_native_hci.c:227-470 | Lock ownership and thread handle are consistent after every interleaving of clients, senders and rx threads |
| HciLifecycle.WaitsGoDown | src/bluez_hci/ant_native_hci.c:235-264 | Whoever is waited for is further down the order enableLock, txLock, join |
| HciLifecycle.NoCycleOfWaits | src/bluez_hci/ant_native_hci.c:427-470 | In no reachable state does a chain of waits close into a cycle |
| HciLifecycle.BlockedOnlyByWaiting | src/bluez_hci/ant_native_hci.c:693 | An actor that cannot move waits for a lock holder or a joined thread |
| HciLifecycle.SomeoneCanMove | src/bluez_hci/ant_rx.c:180-205 | At the end of every chain of waits there is an actor that can move |
| HciLifecycle.JoinedThreadEnds | src/bluez_hci/ant_rx.c:117-207 | A joined rx thread takes at most five more steps in every run |
| HciLifecycle.JoinedThreadCanMove | src/bluez_hci/ant_rx.c:117-207 | Until it is over it can always take one, and then the join returns |
| HciCalls.EnableAlone | src/bluez_hci/ant_native_hci.c:227-350 | From any moment with free locks, ant_enable_radio leaves an ENABLED radio as it is; otherwise it joins the old thread and ends ENABLED with a new one, or ENABLING with none |
| HciCalls.DisableAlone | src/bluez_hci/ant_native_hci.c:420-475 | ant_disable_radio ends DISABLED with no thread, and the one there was is over |
| HciCalls.SendAlone | src/bluez_hci/ant_native_hci.c:681-712 | A client that sends while the radio is ENABLED gets to write, and returns |
| HciCalls.NothingIsSentWhileSilenced | src/bluez_hci/ant_native_hci.c:703-712 | From a moment at which the radio is not ENABLED and nobody enables it or is writing, nobody gets to write in any run in which nobody asks for it to be enabled |
| HciCalls.CleanupAlone | src/bluez_hci/ant_rx.c:180-207 | A thread that has left its loop and finds the enable lock free sets DISABLED, clears its handle and is over |
| HciCalls.CrashAlone | src/bluez_hci/ant_rx.c:107-160 | So does one whose filter cannot be set, or whose poll or read fails |
| HciCalls.TimeoutAlone | src/bluez_hci/ant_rx.c:140-145 | A turn that times out leaves everything as it was |
| HciCalls.MessageAlone | src/bluez_hci/ant_rx.c:147-177 | So does one that reads a message |
| HciLifecycle.OnlyHolderWrites | src/bluez_hci/ant_native_hci.c:243-246 | While somebody holds the enable lock, no step of anybody else changes the status or the thread handle |
| HciLifecycle.EnabledHasReceiverIffItDidNotGiveUp | src/bluez_hci/ant_rx.c:93-205 | In every run, while the status is ENABLED the recorded thread is still on duty if and only if it has neither failed to open its socket nor found the lock taken on its way out |
| HciLifecycle.EnabledWithDeadReceiver | src/bluez_hci/ant_native_hci.c:295-320 | A run after which the status is ENABLED, every call has returned and the thread, created too early, is dead |
| HciLifecycle.EnabledWithoutSocket | src/bluez_hci/ant_rx.c:93-100 | A run after which the status is ENABLED, every call has returned and the thread, without a socket, is dead |

## Left out

- System calls, sockets and the clock: answers are parameters or choices of a step, under the assumptions above.
- `write_data` and `wait_for_message` (src/bluez_hci/ant_tx.c:125-244): their EAGAIN loops have the shape of `ReadRetrying`; `AntTxMessage` takes their outcome as an answer.
- The opcode path and resending (`ANT_FLOW_RESEND`): no driver header of the repository enables them.
- `init_transport_bdroid` and the vendor library: foreign calls, treated as an `open` and a `close` that may fail.
- The build with the external power library (BlueZ) and its notices.
- The JNI glue, the test application, logging, version strings, `ant_deinit` and the setters of callbacks.
- A null rx callback, which drops the message, and a failing flow-control lock inside `readChannelMsg`.
- Errors of the timed wait other than a timeout, which end the call with FAILED instead of HARDWARE_ERR.
- Whether a descriptor stays valid between the status check and the write in `ant_tx_message`: no lifecycle lock is held there.
- Cleanup after a failed reopening in `doReset`: there is none; `DoResetAlone` says what stays open.
- The keepalive flag in the lifecycle step system: any timeout may be the first or the second; `RxLoop` says which.
- Liveness without scheduling: joins are bounded in the thread's own steps; that a thread which can move is scheduled is not modelled.
- RadioControl.RadioThreadInfo.AntEnable: models the VFS build only; the bt-vendor build leaves the run flag up after a failure, which `LifecycleAlone.EnableAlone` states.
