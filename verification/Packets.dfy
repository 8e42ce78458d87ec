/** The byte stream of one VFS channel and the packets it carries: one size byte followed by that many
    payload bytes, with no opcode, sync byte or checksum (the layout of every VFS driver header).
    This is the reference parser against which the in-place receiver is proved. */
module Packets {

  type byte = b: int | 0 <= b < 256

  /** The size of a packet buffer, on both sides. */
  const ROW_SIZE := 260

  const FLOW_CONTROL_ID: byte := 0xC9
  const FLOW_GO: byte := 0x00
  const FLOW_STOP: byte := 0x80
  const KEEPALIVE_RESPONSE: seq<byte> := [0x03, 0x40, 0x00, 0x00, 0x28]

  /** What the receiver does with one packet. */
  datatype Event =
    | Message(data: seq<byte>)
    | FlowSetting(setting: byte)
    | KeepAliveDropped

  /** The framing assumption on one packet: the first ANT message (length byte, id byte, data) fits in the
      frame, and a flow-control message carries its setting. */
  predicate WellFormed(data: seq<byte>) {
    && |data| >= 2
    && |data| - 2 >= data[0]
    && (data[1] == FLOW_CONTROL_ID ==> |data| >= 3)
  }

  function Classify(data: seq<byte>): Event
    requires WellFormed(data)
  {
    if data[1] == FLOW_CONTROL_ID then FlowSetting(data[2])
    else if KEEPALIVE_RESPONSE <= data then KeepAliveDropped
    else Message(data)
  }

  /** The stream starts with a whole packet. */
  predicate Complete(s: seq<byte>) {
    s != [] && s[0] < |s|
  }

  function First(s: seq<byte>): seq<byte>
    requires Complete(s)
  {
    s[1..1 + s[0]]
  }

  function Rest(s: seq<byte>): seq<byte>
    requires Complete(s)
  {
    s[1 + s[0]..]
  }

  function Payloads(s: seq<byte>): seq<seq<byte>> {
    if Complete(s) then [First(s)] + Payloads(Rest(s)) else []
  }

  function Tail(s: seq<byte>): seq<byte> {
    if Complete(s) then Tail(Rest(s)) else s
  }

  predicate AllWellFormed(ps: seq<seq<byte>>) {
    forall i | 0 <= i < |ps| :: WellFormed(ps[i])
  }

  predicate Framed(s: seq<byte>) {
    AllWellFormed(Payloads(s))
  }

  function ClassifyAll(ps: seq<seq<byte>>): seq<Event>
    requires AllWellFormed(ps)
  {
    seq(|ps|, i requires 0 <= i < |ps| => Classify(ps[i]))
  }

  function Events(s: seq<byte>): seq<Event>
    requires Framed(s)
  {
    ClassifyAll(Payloads(s))
  }

  // ---------------------------------------------------------------- framing

  function Frame(m: seq<byte>): seq<byte>
    requires |m| <= 255
  {
    [|m|] + m
  }

  predicate Frameable(ms: seq<seq<byte>>) {
    forall i | 0 <= i < |ms| :: |ms[i]| <= 255
  }

  function Frames(ms: seq<seq<byte>>): seq<byte>
    requires Frameable(ms)
  {
    if ms == [] then [] else Frame(ms[0]) + Frames(ms[1..])
  }

  lemma FrameOfFirst(s: seq<byte>)
    requires Complete(s)
    ensures |First(s)| <= 255 && s == Frame(First(s)) + Rest(s)
  {
  }

  /** The parser loses nothing and invents nothing: the stream is its packets re-framed, then the tail, and
      the tail holds no whole packet. */
  lemma {:induction false} PacketsAndTailMakeTheStream(s: seq<byte>)
    ensures Frameable(Payloads(s))
    ensures s == Frames(Payloads(s)) + Tail(s)
    ensures !Complete(Tail(s))
  {
    if Complete(s) {
      PacketsAndTailMakeTheStream(Rest(s));
      assert Payloads(s)[1..] == Payloads(Rest(s));
      FrameOfFirst(s);
    }
  }

  lemma OneFrame(m: seq<byte>, rest: seq<byte>)
    requires |m| <= 255
    ensures Complete(Frame(m) + rest)
    ensures First(Frame(m) + rest) == m
    ensures Rest(Frame(m) + rest) == rest
  {
    var s := Frame(m) + rest;
    assert s[0] == |m|;
    assert s[1..1 + |m|] == m;
    assert s[1 + |m|..] == rest;
  }

  /** ... and it is the only such decomposition: parsing framed packets gives back those packets. */
  lemma {:induction false} FramedPacketsParseBack(ms: seq<seq<byte>>, tail: seq<byte>)
    requires Frameable(ms)
    requires !Complete(tail)
    ensures Payloads(Frames(ms) + tail) == ms
    ensures Tail(Frames(ms) + tail) == tail
  {
    if ms == [] {
      assert Frames(ms) + tail == tail;
    } else {
      FramedPacketsParseBack(ms[1..], tail);
      assert Frames(ms) + tail == Frame(ms[0]) + (Frames(ms[1..]) + tail);
      OneFrame(ms[0], Frames(ms[1..]) + tail);
    }
  }

  /** What is left over is a strict prefix of one packet, so at most 255 bytes. */
  lemma {:induction false} TailIsShort(s: seq<byte>)
    ensures |Tail(s)| <= 255
    ensures Tail(s) != [] ==> |Tail(s)| <= Tail(s)[0]
    ensures |Tail(s)| <= |s|
  {
    if Complete(s) {
      TailIsShort(Rest(s));
    }
  }

  /** Parsing can stop after `a` and resume later from the tail of `a`. */
  lemma {:induction false} ParseResumes(a: seq<byte>, b: seq<byte>)
    ensures Payloads(a + b) == Payloads(a) + Payloads(Tail(a) + b)
    ensures Tail(a + b) == Tail(Tail(a) + b)
  {
    if Complete(a) {
      ParseResumes(Rest(a), b);
      assert First(a + b) == First(a);
      assert Rest(a + b) == Rest(a) + b;
    }
  }

  lemma ClassifyAppend(p: seq<seq<byte>>, q: seq<seq<byte>>)
    requires AllWellFormed(p + q)
    ensures AllWellFormed(p) && AllWellFormed(q)
    ensures ClassifyAll(p + q) == ClassifyAll(p) + ClassifyAll(q)
  {
    forall i | 0 <= i < |p| ensures WellFormed(p[i]) {
      assert (p + q)[i] == p[i];
    }
    forall i | 0 <= i < |q| ensures WellFormed(q[i]) {
      assert (p + q)[|p| + i] == q[i];
    }
  }

  lemma EventsResume(a: seq<byte>, b: seq<byte>)
    requires Framed(a + b)
    ensures Framed(a) && Framed(Tail(a) + b)
    ensures Events(a + b) == Events(a) + Events(Tail(a) + b)
  {
    ParseResumes(a, b);
    ClassifyAppend(Payloads(a), Payloads(Tail(a) + b));
  }

  lemma EventsStep(s: seq<byte>)
    requires Framed(s) && Complete(s)
    ensures WellFormed(First(s)) && Framed(Rest(s))
    ensures Events(s) == [Classify(First(s))] + Events(Rest(s))
  {
    ClassifyAppend([First(s)], Payloads(Rest(s)));
    assert WellFormed([First(s)][0]);
  }

  // ---------------------------------------------------------------- receiving in chunks

  /** What one channel has produced so far, and the bytes it still holds. */
  datatype Rx = Rx(log: seq<Event>, tail: seq<byte>)

  const START := Rx([], [])

  /** The effect of one successful read of `chunk`. */
  function Receive(rx: Rx, chunk: seq<byte>): Rx
    requires Framed(rx.tail + chunk)
  {
    Rx(rx.log + Events(rx.tail + chunk), Tail(rx.tail + chunk))
  }

  function Parsed(stream: seq<byte>): Rx
    requires Framed(stream)
  {
    Rx(Events(stream), Tail(stream))
  }

  /** One more read keeps a channel equal to the parse of everything read so far. */
  lemma ReceiveExtendsTheParse(stream: seq<byte>, chunk: seq<byte>)
    requires Framed(stream + chunk)
    ensures Framed(stream) && Framed(Tail(stream) + chunk)
    ensures Receive(Parsed(stream), chunk) == Parsed(stream + chunk)
  {
    EventsResume(stream, chunk);
    ParseResumes(stream, chunk);
  }

  /** The framing assumption on a prefix of a framed stream. */
  lemma PrefixFramed(a: seq<byte>, b: seq<byte>)
    requires Framed(a + b)
    ensures Framed(a)
  {
    EventsResume(a, b);
  }

  // ---------------------------------------------------------------- a tail left over from an earlier session

  /** Nothing clears a channel's buffer between sessions. What a session sends is parsed as such - the same
      packets and the same tail as from an empty buffer - exactly when the buffer was empty when it began. */
  lemma SessionParsesAsSuchIffNothingWasLeft(left: seq<byte>, session: seq<byte>)
    ensures Payloads(left + session) == Payloads(session) && Tail(left + session) == Tail(session) <==> left == []
  {
    PacketsAndTailMakeTheStream(left + session);
    PacketsAndTailMakeTheStream(session);
    if left == [] {
      assert left + session == session;
    } else {
      assert |left + session| > |session|;
    }
  }

  /** A case in point: one byte left over, and a whole message of the new session is not delivered. */
  lemma MessageSwallowedByLeftover() returns (left: seq<byte>, session: seq<byte>)
    ensures Tail(left) == left && Framed(session) && Framed(left + session)
    ensures Events(session) == [Message([1, 2, 9])]
    ensures Receive(Rx([], left), session) == Rx([], left + session)
  {
    left, session := [5], [3, 1, 2, 9];
    var all := left + session;
    assert all == [5, 3, 1, 2, 9];
    assert !Complete(left) && !Complete(all);
    assert Payloads(all) == [];
    assert First(session) == [1, 2, 9] && Rest(session) == [];
    assert !Complete(Rest(session));
    assert Payloads(session) == [[1, 2, 9]];
    assert [] + Events(all) == [];
  }

  // ---------------------------------------------------------------- several channels

  /** One successful read: the channel it came from and the bytes it returned. */
  datatype Read = Read(channel: nat, chunk: seq<byte>)

  /** The bytes of one channel among interleaved reads. */
  function Stream(arrivals: seq<Read>, c: nat): seq<byte> {
    if arrivals == [] then []
    else
      var last := arrivals[|arrivals| - 1];
      Stream(arrivals[..|arrivals| - 1], c) + (if last.channel == c then last.chunk else [])
  }

  /** Channel `c` after all its reads, taken one at a time, is the parse of its whole stream: neither the
      chunking nor the other channels' reads can be seen in it. */
  function ReceiveAll(arrivals: seq<Read>, c: nat): (rx: Rx)
    requires Framed(Stream(arrivals, c))
    ensures rx == Parsed(Stream(arrivals, c))
  {
    if arrivals == [] then START
    else
      var front, last := arrivals[..|arrivals| - 1], arrivals[|arrivals| - 1];
      if last.channel != c then
        assert Stream(arrivals, c) == Stream(front, c);
        ReceiveAll(front, c)
      else
        PrefixFramed(Stream(front, c), last.chunk);
        ReceiveExtendsTheParse(Stream(front, c), last.chunk);
        Receive(ReceiveAll(front, c), last.chunk)
  }

  /** Round trip: messages framed for sending and received under any chunking come back as those messages,
      in order, each classified, with nothing left in the buffer. */
  lemma RoundTrip(ms: seq<seq<byte>>, arrivals: seq<Read>, c: nat)
    requires Frameable(ms) && AllWellFormed(ms)
    requires Stream(arrivals, c) == Frames(ms)
    ensures Framed(Stream(arrivals, c))
    ensures ReceiveAll(arrivals, c) == Rx(ClassifyAll(ms), [])
  {
    FramedPacketsParseBack(ms, []);
    assert Frames(ms) + [] == Frames(ms);
  }

  // ---------------------------------------------------------------- the chip's side

  /** What the chip sends for an event, byte for byte: a flow-control message with its setting, the answer to a
      keepalive, or an ordinary message. */
  function Encoded(e: Event): seq<byte> {
    match e
    case FlowSetting(v) => [0x01, 0xC9, v]
    case KeepAliveDropped => [0x03, 0x40, 0x00, 0x00, 0x28]
    case Message(m) => m
  }

  /** Every setting and every answer can be sent; an ordinary message has a length byte that fits in the frame, is
      not a flow-control message and does not start like the answer to a keepalive. */
  predicate Sendable(e: Event) {
    e.Message? ==>
      && 2 <= |e.data| <= 255 && |e.data| - 2 >= e.data[0]
      && e.data[1] != 0xC9 && !([0x03, 0x40, 0x00, 0x00, 0x28] <= e.data)
  }

  predicate AllSendable(es: seq<Event>) {
    forall i | 0 <= i < |es| :: Sendable(es[i])
  }

  function EncodedAll(es: seq<Event>): (ms: seq<seq<byte>>)
    ensures AllSendable(es) ==> Frameable(ms)
  {
    seq(|es|, i requires 0 <= i < |es| => Encoded(es[i]))
  }

  lemma EncodedIsClassified(e: Event)
    requires Sendable(e)
    ensures |Encoded(e)| <= 255 && WellFormed(Encoded(e)) && Classify(Encoded(e)) == e
  {
  }

  /** Whatever events the chip sends, framed and received in any chunks they are exactly the events that the
      receiver records, drops and delivers, in order, with nothing left over. */
  lemma EventsComeBack(es: seq<Event>, arrivals: seq<Read>, c: nat)
    requires AllSendable(es) && Stream(arrivals, c) == Frames(EncodedAll(es))
    ensures Framed(Stream(arrivals, c))
    ensures ReceiveAll(arrivals, c) == Rx(es, [])
  {
    var ms := EncodedAll(es);
    forall i | 0 <= i < |es|
      ensures WellFormed(ms[i]) && Classify(ms[i]) == es[i]
    {
      EncodedIsClassified(es[i]);
    }
    assert ClassifyAll(ms) == es;
    RoundTrip(ms, arrivals, c);
  }
}
