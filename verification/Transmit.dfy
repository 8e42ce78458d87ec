/** The transmit side of the VFS transports: how `ant_tx_message` frames a message and chooses the path,
    for the split-path and single-path builds and for the bt-vendor build that puts a packet-type byte
    in front of the frame. */
module Transmit {
  import opened Packets

  datatype Build = VfsSplitPath | VfsSinglePath | BtVendorSinglePath

  datatype Path = DataChannel | CommandChannel | SingleChannel

  /** What is handed to the write routines: where to write, whose flow flag to use, whether to wait for
      FLOW_GO, and the bytes actually passed to `write`. */
  datatype Request =
    | NotEnabled
    | Send(path: Path, flowPath: Path, waitForGo: bool, bytes: seq<byte>)

  const COMMAND_TYPE: byte := 0x0C
  const DATA_TYPE: byte := 0x0E

  predicate IsDataMessage(id: byte) {
    id in {0x4E, 0x4F, 0x50, 0x5D, 0x5E, 0x5F, 0x72}
  }

  /** Broadcast, acknowledged and burst data; the same three in extended form; advanced burst data. */
  lemma DataMessageIds(id: byte)
    ensures IsDataMessage(id) <==> 0x4E <= id <= 0x50 || 0x5D <= id <= 0x5F || id == 0x72
  {
  }

  function PrefixSize(build: Build): nat {
    if build.BtVendorSinglePath? then 1 else 0
  }

  /** The whole frame of message `m` on the wire, taken for a data message or not. */
  function Wire(build: Build, m: seq<byte>, data: bool): seq<byte>
    requires |m| <= 255
  {
    (if build.BtVendorSinglePath? then [if data then DATA_TYPE else COMMAND_TYPE] else []) + Frame(m)
  }

  /** The 8-bit length variable that the frame length is stored in. */
  function WriteLength(build: Build, m: seq<byte>): nat {
    (PrefixSize(build) + 1 + |m|) % 256
  }

  /** The bytes passed to `write` for message `m`. */
  function Written(build: Build, m: seq<byte>, data: bool): seq<byte>
    requires |m| <= 255
  {
    Wire(build, m, data)[..WriteLength(build, m)]
  }

  /** Filling `txBuffer`: the frame, behind the packet-type byte if the build has one. */
  method FillBuffer(build: Build, ucLen: byte, mesg: array<byte>) returns (txBuffer: array<byte>)
    requires ucLen as int <= mesg.Length
    ensures fresh(txBuffer) && txBuffer.Length == PrefixSize(build) + ROW_SIZE
    ensures txBuffer[PrefixSize(build)..PrefixSize(build) + 1 + ucLen as int] == Frame(mesg[..ucLen])
  {
    var p, n: nat := PrefixSize(build), ucLen;
    txBuffer := new byte[p + ROW_SIZE];
    txBuffer[p] := ucLen;
    var i := 0;
    while i < n
      invariant 0 <= i <= n
      invariant txBuffer[p] == ucLen
      invariant forall j | 0 <= j < i :: txBuffer[p + 1 + j] == mesg[j]
    {
      txBuffer[p + 1 + i] := mesg[i];
      i := i + 1;
    }
  }

  /** `ant_tx_message` up to the write: the status check, the frame built in place in `txBuffer`, the path. The
      split-path build looks at the caller's second byte, whatever `ucLen`; the bt-vendor build looks at the
      buffer, so that a message without an id may be taken for either kind. */
  method PrepareMessage(build: Build, enabled: bool, ucLen: byte, mesg: array<byte>)
      returns (r: Request, data: bool)
    requires ucLen as int <= mesg.Length && (build.VfsSplitPath? ==> mesg.Length >= 2)
    ensures r.Send? <==> enabled
    ensures enabled && (build.VfsSplitPath? || (ucLen >= 2 && build.BtVendorSinglePath?)) ==>
              (data <==> 0x4E <= mesg[1] <= 0x50 || 0x5D <= mesg[1] <= 0x5F || mesg[1] == 0x72)
    ensures enabled ==>
              && r.bytes == Written(build, mesg[..ucLen], data)
              && (r.waitForGo <==> build.VfsSinglePath? || data)
              && (build.VfsSplitPath? ==>
                    r.flowPath == CommandChannel && r.path == if data then DataChannel else CommandChannel)
              && (!build.VfsSplitPath? ==> r.path == r.flowPath == SingleChannel)
  {
    data := false;
    if !enabled {
      return NotEnabled, false;
    }
    var p, n: nat := PrefixSize(build), ucLen;
    var txMessageLength := (p + 1 + n) % 256;
    var txBuffer := FillBuffer(build, ucLen, mesg);
    ghost var frame := txBuffer[p..p + 1 + n];
    match build {
      case VfsSplitPath => data := IsDataMessage(mesg[1]);
      case VfsSinglePath =>
      case BtVendorSinglePath =>
        assert ucLen >= 2 ==> txBuffer[p + 2] == frame[2] == mesg[1];
        data := IsDataMessage(txBuffer[p + 2]);
        txBuffer[0] := if data then DATA_TYPE else COMMAND_TYPE;
    }
    assert txBuffer[..p + 1 + n] == Wire(build, mesg[..ucLen], data);
    var bytes := txBuffer[..txMessageLength];
    assert bytes == txBuffer[..p + 1 + n][..txMessageLength];
    match build
    case VfsSplitPath =>
      r := Send(if data then DataChannel else CommandChannel, CommandChannel, data, bytes);
    case VfsSinglePath =>
      r := Send(SingleChannel, SingleChannel, true, bytes);
    case BtVendorSinglePath =>
      r := Send(SingleChannel, SingleChannel, data, bytes);
  }

  /** A peer that strips the packet-type byte, if the build has one, reads exactly `m`. */
  predicate Recovers(build: Build, bytes: seq<byte>, m: seq<byte>, data: bool) {
    if build.BtVendorSinglePath? then
      && bytes != [] && bytes[0] == (if data then 0x0E else 0x0C)
      && Payloads(bytes[1..]) == [m] && Tail(bytes[1..]) == []
    else
      Payloads(bytes) == [m] && Tail(bytes) == []
  }

  lemma FrameParses(m: seq<byte>)
    requires |m| <= 255
    ensures Payloads(Frame(m)) == [m] && Tail(Frame(m)) == []
  {
    OneFrame(m, []);
    assert Frame(m) + [] == Frame(m);
  }

  lemma UnwrappedFrameIsWhole(build: Build, m: seq<byte>, data: bool)
    requires |m| <= 254 - PrefixSize(build)
    ensures Written(build, m, data) == Wire(build, m, data)
    ensures Wire(build, m, data)[PrefixSize(build)..] == Frame(m)
  {
  }

  /** Exactly when the 8-bit length does not wrap, the message on the wire is the message sent: up to 254
      bytes in the VFS builds, up to 253 with the packet-type byte. */
  lemma SentWholeIffLengthDoesNotWrap(build: Build, m: seq<byte>, data: bool)
    requires |m| <= 255
    ensures Recovers(build, Written(build, m, data), m, data) <==> |m| <= 254 - PrefixSize(build)
  {
    if |m| <= 254 - PrefixSize(build) {
      UnwrappedFrameIsWhole(build, m, data);
      FrameParses(m);
    } else {
      assert |Written(build, m, data)| <= PrefixSize(build);
    }
  }

  /** What the VFS builds write for a list of messages; it does not depend on what they are taken for. */
  function WrittenAll(build: Build, ms: seq<seq<byte>>): seq<byte>
    requires !build.BtVendorSinglePath? && forall i | 0 <= i < |ms| :: |ms[i]| <= 255
  {
    if ms == [] then [] else Written(build, ms[0], false) + WrittenAll(build, ms[1..])
  }

  lemma {:induction false} WrittenAllIsFrames(build: Build, ms: seq<seq<byte>>)
    requires !build.BtVendorSinglePath?
    requires forall i | 0 <= i < |ms| :: |ms[i]| <= 254
    ensures Frameable(ms) && WrittenAll(build, ms) == Frames(ms)
  {
    if ms != [] {
      WrittenAllIsFrames(build, ms[1..]);
      UnwrappedFrameIsWhole(build, ms[0], false);
    }
  }

  /** End to end: what `ant_tx_message` writes for a list of messages, echoed back to a receiver in any
      chunks, is delivered as exactly those messages in order, less the ones the receiver keeps for itself. */
  lemma SentThenReceived(build: Build, ms: seq<seq<byte>>, arrivals: seq<Read>, c: nat)
    requires !build.BtVendorSinglePath?
    requires forall i | 0 <= i < |ms| :: |ms[i]| <= 254
    requires AllWellFormed(ms)
    requires Stream(arrivals, c) == WrittenAll(build, ms)
    ensures Framed(Stream(arrivals, c))
    ensures ReceiveAll(arrivals, c) == Rx(ClassifyAll(ms), [])
  {
    WrittenAllIsFrames(build, ms);
    RoundTrip(ms, arrivals, c);
  }
}
