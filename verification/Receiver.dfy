/** The receive side of the VFS transport: `readChannelMsg` over the static two-dimensional byte buffer,
    with its in-place packet loop and its overlapping ascending copy, refining the parser of `Packets`. */
module Receiver {
  import opened Packets

  /** One attempt of the `read` system call. */
  datatype Attempt =
    | Data(bytes: seq<byte>)
    | TryAgain
    | Failed

  /** The first attempt that is not EAGAIN: the one the retry loop stops at. */
  function Settled(attempts: seq<Attempt>): Attempt
    requires exists i :: 0 <= i < |attempts| && attempts[i] != TryAgain
  {
    if attempts[0] == TryAgain then Settled(attempts[1..]) else attempts[0]
  }

  /** The flow flag after a channel with flag `flag` handled `events`. */
  function FlowAfter(flag: byte, events: seq<Event>): byte {
    if events == [] then flag
    else
      var last := events[|events| - 1];
      if last.FlowSetting? then last.setting else FlowAfter(flag, events[..|events| - 1])
  }

  /** The setting at `i` is the last one among `es`. */
  ghost predicate LastSetting(es: seq<Event>, i: nat) {
    i < |es| && es[i].FlowSetting? && forall j | i < j < |es| :: !es[j].FlowSetting?
  }

  /** The flag is the last setting, or as it was if there is none. */
  lemma {:induction false} FlowIsTheLastSetting(flag: byte, es: seq<Event>)
    ensures forall i: nat | LastSetting(es, i) :: FlowAfter(flag, es) == es[i].setting
    ensures (forall j | 0 <= j < |es| :: !es[j].FlowSetting?) ==> FlowAfter(flag, es) == flag
  {
    if es != [] && !es[|es| - 1].FlowSetting? {
      var front := es[..|es| - 1];
      FlowIsTheLastSetting(flag, front);
      forall i: nat | LastSetting(es, i)
        ensures FlowAfter(flag, es) == es[i].setting
      {
        assert LastSetting(front, i);
      }
    }
  }

  lemma {:induction false} FlowAfterAppend(flag: byte, a: seq<Event>, b: seq<Event>)
    ensures FlowAfter(flag, a + b) == FlowAfter(FlowAfter(flag, a), b)
  {
    if b == [] {
      assert a + b == a;
    } else {
      assert (a + b)[..|a + b| - 1] == a + b[..|b| - 1];
      FlowAfterAppend(flag, a, b[..|b| - 1]);
    }
  }

  /** Progress of the packet loop: the packets before `at` produced `done`, the rest is still to come. */
  ghost predicate Pending(stream: seq<byte>, at: nat, done: seq<Event>) {
    && at <= |stream|
    && Framed(stream) && Framed(stream[at..])
    && done + Events(stream[at..]) == Events(stream)
    && Tail(stream[at..]) == Tail(stream)
  }

  lemma NextPacket(stream: seq<byte>, at: nat)
    requires at < |stream| && at + 1 + stream[at] <= |stream| && Framed(stream[at..])
    ensures var next := at + 1 + stream[at];
            && WellFormed(stream[at + 1..next]) && Framed(stream[next..])
            && Events(stream[at..]) == [Classify(stream[at + 1..next])] + Events(stream[next..])
            && Tail(stream[at..]) == Tail(stream[next..])
  {
    var left := stream[at..];
    var next := at + 1 + stream[at];
    EventsStep(left);
    assert First(left) == stream[at + 1..next];
    assert Rest(left) == stream[next..];
  }

  lemma Regroup(a: seq<Event>, b: seq<Event>, c: seq<Event>)
    ensures a + (b + c) == a + b + c
  {
  }

  /** One turn of the packet loop on a whole packet, at the level of the parser. */
  lemma PendingStep(stream: seq<byte>, at: nat, done: seq<Event>)
    requires Pending(stream, at, done) && at < |stream| && at + 1 + stream[at] <= |stream|
    ensures WellFormed(stream[at + 1..at + 1 + stream[at]])
    ensures Pending(stream, at + 1 + stream[at], done + [Classify(stream[at + 1..at + 1 + stream[at]])])
  {
    NextPacket(stream, at);
    var next := at + 1 + stream[at];
    var event := Classify(stream[at + 1..next]);
    Regroup(done, [event], Events(stream[next..]));
    assert done + [event] + Events(stream[next..]) == Events(stream);
  }

  /** ... and on the partial packet at the end. */
  lemma PendingPartial(stream: seq<byte>, at: nat, done: seq<Event>)
    requires Pending(stream, at, done) && at < |stream| < at + 1 + stream[at]
    ensures done == Events(stream) && Tail(stream) == stream[at..]
  {
    assert !Complete(stream[at..]);
  }

  lemma PendingEnd(stream: seq<byte>, done: seq<Event>)
    requires Pending(stream, |stream|, done)
    ensures done == Events(stream) && Tail(stream) == []
  {
    assert stream[|stream|..] == [];
  }

  class ReceiveBuffers {
    const channels: nat
    const buffer: array2<byte>       // aucRxBuffer
    const length: array<nat>         // iRxBufferLength
    var flow: seq<byte>              // ucFlowControlResp of each channel
    var log: seq<seq<Event>>         // what each channel delivered, recorded or dropped

    ghost predicate Shape()
      reads this
    {
      && buffer.Length0 == channels && buffer.Length1 == ROW_SIZE
      && length.Length == channels
      && |log| == |flow| == channels
    }

    ghost predicate Valid()
      reads this, buffer, length
    {
      && Shape()
      && (forall c | 0 <= c < channels :: length[c] <= ROW_SIZE && !Complete(Row(c, 0, length[c])))
    }

    /** Bytes lo..hi of a channel's row. */
    ghost function Row(c: nat, lo: nat, hi: nat): (s: seq<byte>)
      requires c < buffer.Length0 && lo <= hi <= buffer.Length1
      reads buffer
      ensures |s| == hi - lo
      ensures forall i | 0 <= i < hi - lo :: s[i] == buffer[c, lo + i]
    {
      seq(hi - lo, i requires 0 <= i < hi - lo reads buffer => buffer[c, lo + i])
    }

    ghost function View(c: nat): Rx
      requires Valid() && c < channels
      reads this, buffer, length
    {
      Rx(log[c], Row(c, 0, length[c]))
    }

    constructor (n: nat)
      ensures Valid() && channels == n && fresh(buffer) && fresh(length)
      ensures forall c | 0 <= c < n :: View(c) == START && flow[c] == FLOW_GO
    {
      channels := n;
      buffer := new byte[n, ROW_SIZE]((i, j) => 0);
      length := new nat[n](i => 0);
      flow := seq(n, i => FLOW_GO);
      log := seq(n, i => []);
    }

    /** `memcmp` of a packet's data with the keepalive response: left to right, stopping at the first
        difference, so that it never looks past the packet. */
    method IsKeepAliveResponse(c: nat, at: nat, size: nat) returns (same: bool)
      requires c < buffer.Length0 && at + size <= buffer.Length1
      requires WellFormed(Row(c, at, at + size))
      ensures same <==> KEEPALIVE_RESPONSE <= Row(c, at, at + size)
    {
      ghost var data := Row(c, at, at + size);
      var i := 0;
      while i < |KEEPALIVE_RESPONSE|
        invariant 0 <= i <= |KEEPALIVE_RESPONSE|
        invariant i <= size && data[..i] == KEEPALIVE_RESPONSE[..i]
      {
        assert i > 0 ==> data[0] == 3 && size >= 5;
        if buffer[c, at + i] != KEEPALIVE_RESPONSE[i] {
          assert data[i] != KEEPALIVE_RESPONSE[i];
          return false;
        }
        assert data[..i + 1] == data[..i] + [data[i]];
        i := i + 1;
      }
      return true;
    }

    /** The overlapping copy of the partial packet to the start of the row. */
    method SlideToFront(c: nat, from: nat, count: nat)
      requires c < buffer.Length0 && from + count <= buffer.Length1
      modifies buffer
      ensures Row(c, 0, count) == old(Row(c, from, from + count))
      ensures forall d, j | 0 <= d < buffer.Length0 && d != c && 0 <= j < buffer.Length1 ::
                buffer[d, j] == old(buffer[d, j])
    {
      for i := 0 to count
        invariant forall j | 0 <= j < i :: buffer[c, j] == old(buffer[c, from + j])
        invariant forall j | i <= j < buffer.Length1 :: buffer[c, j] == old(buffer[c, j])
        invariant forall d, j | 0 <= d < buffer.Length0 && d != c && 0 <= j < buffer.Length1 ::
                    buffer[d, j] == old(buffer[d, j])
      {
        buffer[c, i] := buffer[c, from + i];
      }
    }

    lemma RowSlice(c: nat, total: nat, lo: nat, hi: nat)
      requires c < buffer.Length0 && lo <= hi <= total <= buffer.Length1
      ensures Row(c, lo, hi) == Row(c, 0, total)[lo..hi]
    {
    }

    /** The other channels are as they were. */
    twostate predicate OthersKept(c: nat)
      requires old(Shape()) && Shape()
      reads this, buffer, length
    {
      && (forall d, j | 0 <= d < channels && d != c && 0 <= j < ROW_SIZE :: buffer[d, j] == old(buffer[d, j]))
      && (forall d | 0 <= d < channels && d != c ::
            length[d] == old(length[d]) && log[d] == old(log[d]) && flow[d] == old(flow[d]))
    }

    /** The incomplete last packet of `stream`: remember its length and slide it to the front. */
    method KeepPartial(c: nat, at: nat, total: nat, ghost stream: seq<byte>)
      requires Shape() && c < channels && at <= total <= ROW_SIZE
      requires Row(c, 0, total) == stream
      modifies buffer, length
      ensures length[c] <= ROW_SIZE && Row(c, 0, length[c]) == stream[at..]
      ensures OthersKept(c)
    {
      RowSlice(c, total, at, total);
      length[c] := total - at;
      SlideToFront(c, at, total - at);
      assert stream[at..total] == stream[at..];
    }

    /** One whole packet: record the flow setting, drop the keepalive response, or deliver the message. */
    method HandlePacket(c: nat, at: nat, size: nat, ghost data: seq<byte>)
      requires Shape() && c < channels && at + 1 + size <= ROW_SIZE
      requires WellFormed(data) && Row(c, at + 1, at + 1 + size) == data
      modifies this`log, this`flow
      ensures Shape() && OthersKept(c)
      ensures data[1] == 0xC9 ==> flow[c] == data[2] && log[c] == old(log[c]) + [FlowSetting(data[2])]
      ensures data[1] != 0xC9 ==>
                && flow[c] == old(flow[c])
                && log[c] == old(log[c]) + [if [0x03, 0x40, 0x00, 0x00, 0x28] <= data then KeepAliveDropped
                                            else Message(data)]
      ensures log[c] == old(log[c]) + [Classify(data)]
      ensures flow[c] == FlowAfter(old(flow[c]), [Classify(data)])
    {
      if buffer[c, at + 2] == FLOW_CONTROL_ID {
        var setting := buffer[c, at + 3];
        flow := flow[c := setting];
        log := log[c := log[c] + [FlowSetting(setting)]];
      } else {
        var dropped := IsKeepAliveResponse(c, at + 1, size);
        if dropped {
          log := log[c := log[c] + [KeepAliveDropped]];
        } else {
          var msg := seq(size, i requires 0 <= i < size reads buffer => buffer[c, at + 1 + i]);
          assert msg == data;
          log := log[c := log[c] + [Message(msg)]];
        }
      }
    }

    /** One turn of the packet loop: a whole packet is handled, or the partial one at the end is kept and
        `next` lies beyond the end. */
    method PacketTurn(c: nat, at: nat, total: nat, ghost stream: seq<byte>, ghost done: seq<Event>)
        returns (next: nat, ghost events: seq<Event>)
      requires Shape() && c < channels && at < total <= ROW_SIZE
      requires Row(c, 0, total) == stream && Pending(stream, at, done)
      modifies this`log, this`flow, buffer, length
      ensures Shape() && OthersKept(c) && next > at
      ensures log[c] == old(log[c]) + events && flow[c] == FlowAfter(old(flow[c]), events)
      ensures next <= total ==> unchanged(buffer) && unchanged(length) && Pending(stream, next, done + events)
      ensures next > total ==>
                && done + events == Events(stream)
                && length[c] <= ROW_SIZE && Row(c, 0, length[c]) == Tail(stream)
    {
      var size: nat := buffer[c, at];
      assert stream[at] == size;
      next := at + 1 + size;
      if next > total {
        PendingPartial(stream, at, done);
        KeepPartial(c, at, total, stream);
        events := [];
        assert done + events == done && log[c] + events == log[c];
      } else {
        PendingStep(stream, at, done);
        RowSlice(c, total, at + 1, next);
        events := [Classify(stream[at + 1..next])];
        HandlePacket(c, at, size, stream[at + 1..next]);
      }
    }

    /** The packet loop: handles every whole packet of the first `total` bytes and keeps the rest. */
    method SplitPackets(c: nat, total: nat)
      requires Shape() && c < channels && total <= ROW_SIZE
      requires Framed(Row(c, 0, total)) && length[c] == 0
      modifies this`log, this`flow, buffer, length
      ensures Shape() && OthersKept(c)
      ensures length[c] <= ROW_SIZE
      ensures Row(c, 0, length[c]) == old(Tail(Row(c, 0, total)))
      ensures log[c] == old(log[c]) + old(Events(Row(c, 0, total)))
      ensures flow[c] == FlowAfter(old(flow[c]), old(Events(Row(c, 0, total))))
    {
      ghost var stream := Row(c, 0, total);
      ghost var done: seq<Event> := [];
      var at := 0;
      assert log[c] + done == log[c] && stream[at..] == stream;
      while at < total
        invariant Shape() && 0 <= at && OthersKept(c)
        invariant log[c] == old(log[c]) + done && flow[c] == FlowAfter(old(flow[c]), done)
        invariant at <= total ==> unchanged(buffer) && unchanged(length) && Pending(stream, at, done)
        invariant at > total ==>
                    && done == Events(stream)
                    && length[c] <= ROW_SIZE && Row(c, 0, length[c]) == Tail(stream)
        decreases total - at
      {
        ghost var events;
        at, events := PacketTurn(c, at, total, stream, done);
        FlowAfterAppend(old(flow[c]), done, events);
        Regroup(old(log[c]), done, events);
        done := done + events;
      }
      if at == total {
        PendingEnd(stream, done);
      }
    }

    /** The kernel's side of a successful read: `bytes` appear after what the row already holds. */
    method Append(c: nat, bytes: seq<byte>) returns (total: nat)
      requires Shape() && c < channels && length[c] + |bytes| <= ROW_SIZE
      modifies buffer
      ensures total == length[c] + |bytes|
      ensures Row(c, 0, total) == old(Row(c, 0, length[c])) + bytes
      ensures OthersKept(c)
    {
      var held := length[c];
      total := held + |bytes|;
      for i := 0 to |bytes|
        invariant forall j | 0 <= j < held :: buffer[c, j] == old(buffer[c, j])
        invariant forall j | 0 <= j < i :: buffer[c, held + j] == bytes[j]
        invariant OthersKept(c)
      {
        buffer[c, held + i] := bytes[i];
      }
    }

    /** The retry loop around `read`: stops at the first attempt that is not EAGAIN. */
    method ReadRetrying(attempts: seq<Attempt>) returns (got: Attempt)
      requires exists i :: 0 <= i < |attempts| && attempts[i] != TryAgain
      ensures got == Settled(attempts) && got != TryAgain
      ensures exists i :: 0 <= i < |attempts| && attempts[i] == got && forall j | 0 <= j < i :: attempts[j] == TryAgain
    {
      var i := 0;
      while attempts[i] == TryAgain
        invariant 0 <= i < |attempts|
        invariant exists j :: i <= j < |attempts| && attempts[j] != TryAgain
        invariant forall j | 0 <= j < i :: attempts[j] == TryAgain
        invariant Settled(attempts[i..]) == Settled(attempts)
        decreases |attempts| - i
      {
        assert attempts[i..][1..] == attempts[i + 1..];
        i := i + 1;
      }
      assert attempts[i..][0] == attempts[i];
      got := attempts[i];
    }

    /** After the read: leave an incomplete first packet where it is, or run the packet loop. */
    method Consume(c: nat, total: nat)
      requires Shape() && c < channels && total <= ROW_SIZE
      requires Framed(Row(c, 0, total))
      modifies this`log, this`flow, buffer, length
      ensures Shape() && OthersKept(c)
      ensures length[c] <= 255 && !Complete(Row(c, 0, length[c]))
      ensures Row(c, 0, length[c]) == old(Tail(Row(c, 0, total)))
      ensures log[c] == old(log[c]) + old(Events(Row(c, 0, total)))
      ensures flow[c] == FlowAfter(old(flow[c]), old(Events(Row(c, 0, total))))
    {
      ghost var stream := Row(c, 0, total);
      TailIsShort(stream);
      PacketsAndTailMakeTheStream(stream);
      if total < buffer[c, 0] as int + 1 {
        assert !Complete(stream);
        length[c] := total;
      } else {
        length[c] := 0;
        SplitPackets(c, total);
      }
    }

    /** `readChannelMsg`: one poll event's worth of reading on channel `c`. EAGAIN is retried; any other
        failure returns -1 and touches nothing; a read advances the channel exactly as the parser says,
        leaves every other channel alone, and leaves room for at least five more bytes. */
    method ReadChannelMsg(c: nat, attempts: seq<Attempt>) returns (ret: int)
      requires Valid() && c < channels
      requires exists i :: 0 <= i < |attempts| && attempts[i] != TryAgain
      requires var got := Settled(attempts);
               got.Data? ==> length[c] + |got.bytes| <= ROW_SIZE && Framed(View(c).tail + got.bytes)
      modifies this`log, this`flow, buffer, length
      ensures Valid()
      ensures ret == if Settled(attempts).Data? then 0 else -1
      ensures var got := Settled(attempts);
              if got.Data? then
                && View(c) == Receive(old(View(c)), got.bytes)
                && flow[c] == FlowAfter(old(flow[c]), Events(old(View(c)).tail + got.bytes))
                && length[c] <= 255
              else View(c) == old(View(c)) && flow == old(flow)
      ensures forall d | 0 <= d < channels && d != c :: View(d) == old(View(d)) && flow[d] == old(flow[d])
    {
      var got := ReadRetrying(attempts);
      if got == Failed {
        return -1;
      }
      var total := Append(c, got.bytes);
      Consume(c, total);
      return 0;
    }
  }

  /** Reads that the kernel can return: on an existing channel and no longer than the free space, which is
      what the parser left over subtracted from the row. */
  ghost predicate FitsAndFramed(arrivals: seq<Read>, channels: nat) {
    && (forall i | 0 <= i < |arrivals| ::
          && arrivals[i].channel < channels
          && |arrivals[i].chunk| <= ROW_SIZE - |Tail(Stream(arrivals[..i], arrivals[i].channel))|)
    && (forall c | 0 <= c < channels :: Framed(Stream(arrivals, c)))
  }

  lemma {:induction false} EarlierReadsFramed(arrivals: seq<Read>, i: nat, c: nat)
    requires i <= |arrivals| && Framed(Stream(arrivals, c))
    ensures Framed(Stream(arrivals[..i], c))
    decreases |arrivals|
  {
    if i < |arrivals| {
      var front := arrivals[..|arrivals| - 1];
      var last := arrivals[|arrivals| - 1];
      PrefixFramed(Stream(front, c), if last.channel == c then last.chunk else []);
      EarlierReadsFramed(front, i, c);
      assert front[..i] == arrivals[..i];
    } else {
      assert arrivals[..i] == arrivals;
    }
  }

  lemma NextReadFits(arrivals: seq<Read>, channels: nat, i: nat)
    requires FitsAndFramed(arrivals, channels) && i < |arrivals|
    ensures arrivals[..i + 1] == arrivals[..i] + [arrivals[i]]
    ensures arrivals[i].channel < channels
    ensures |arrivals[i].chunk| <= ROW_SIZE - |Tail(Stream(arrivals[..i], arrivals[i].channel))|
    ensures Framed(Stream(arrivals[..i] + [arrivals[i]], arrivals[i].channel))
  {
    EarlierReadsFramed(arrivals, i + 1, arrivals[i].channel);
    assert arrivals[..i + 1] == arrivals[..i] + [arrivals[i]];
  }

  /** A channel stands exactly where the parser stands after `stream`. */
  ghost predicate Tracks(view: Rx, flag: byte, stream: seq<byte>) {
    && Framed(stream)
    && view == Parsed(stream)
    && flag == FlowAfter(FLOW_GO, view.log)
  }

  method ServeOne(rx: ReceiveBuffers, c: nat, chunk: seq<byte>, ghost before: seq<byte>)
    requires rx.Valid() && c < rx.channels && Tracks(rx.View(c), rx.flow[c], before)
    requires |chunk| <= ROW_SIZE - |Tail(before)| && Framed(before + chunk)
    modifies rx`log, rx`flow, rx.buffer, rx.length
    ensures rx.Valid() && Tracks(rx.View(c), rx.flow[c], before + chunk)
    ensures forall d | 0 <= d < rx.channels && d != c ::
              rx.View(d) == old(rx.View(d)) && rx.flow[d] == old(rx.flow[d])
  {
    ReceiveExtendsTheParse(before, chunk);
    FlowAfterAppend(FLOW_GO, rx.log[c], Events(rx.View(c).tail + chunk));
    var attempts := [Data(chunk)];
    assert attempts[0] != TryAgain;
    var ret := rx.ReadChannelMsg(c, attempts);
  }

  lemma StreamStep(served: seq<Read>, next: Read, c: nat)
    ensures Stream(served + [next], c) == Stream(served, c) + (if next.channel == c then next.chunk else [])
  {
    assert (served + [next])[..|served|] == served;
  }

  method ServeNext(rx: ReceiveBuffers, ghost served: seq<Read>, next: Read)
    requires rx.Valid() && next.channel < rx.channels
    requires |next.chunk| <= ROW_SIZE - |Tail(Stream(served, next.channel))|
    requires Framed(Stream(served + [next], next.channel))
    requires forall d | 0 <= d < rx.channels :: Tracks(rx.View(d), rx.flow[d], Stream(served, d))
    modifies rx`log, rx`flow, rx.buffer, rx.length
    ensures rx.Valid()
    ensures forall d | 0 <= d < rx.channels :: Tracks(rx.View(d), rx.flow[d], Stream(served + [next], d))
  {
    ghost var after := served + [next];
    StreamStep(served, next, next.channel);
    ServeOne(rx, next.channel, next.chunk, Stream(served, next.channel));
    forall d | 0 <= d < rx.channels
      ensures Tracks(rx.View(d), rx.flow[d], Stream(after, d))
    {
      StreamStep(served, next, d);
      if d != next.channel {
        assert old(Tracks(rx.View(d), rx.flow[d], Stream(served, d)));
        assert Stream(after, d) == Stream(served, d);
      }
    }
  }

  /** Any number of data events on any interleaving of channels: every channel ends up exactly where the
      parser, run on that channel's own bytes alone, ends up. */
  method Serve(rx: ReceiveBuffers, arrivals: seq<Read>)
    requires rx.Valid() && FitsAndFramed(arrivals, rx.channels)
    requires forall c | 0 <= c < rx.channels :: rx.View(c) == START && rx.flow[c] == FLOW_GO
    modifies rx`log, rx`flow, rx.buffer, rx.length
    ensures rx.Valid()
    ensures forall c | 0 <= c < rx.channels :: Tracks(rx.View(c), rx.flow[c], Stream(arrivals, c))
  {
    var i := 0;
    ghost var served: seq<Read> := [];
    while i < |arrivals|
      invariant 0 <= i <= |arrivals| && served == arrivals[..i]
      invariant rx.Valid()
      invariant forall c | 0 <= c < rx.channels :: Tracks(rx.View(c), rx.flow[c], Stream(served, c))
    {
      NextReadFits(arrivals, rx.channels, i);
      ServeNext(rx, served, arrivals[i]);
      served := served + [arrivals[i]];
      i := i + 1;
    }
    assert served == arrivals;
  }

  /** What the chip sent on each channel, whatever it was and however it was cut into reads, is what the receiver
      made of it: the same events in the same order, the buffers empty, and the flow flags the last settings sent. */
  method ServeEvents(rx: ReceiveBuffers, arrivals: seq<Read>, ghost sent: seq<seq<Event>>)
    requires rx.Valid() && |sent| == rx.channels
    requires forall c | 0 <= c < rx.channels :: rx.View(c) == START && rx.flow[c] == FLOW_GO
    requires forall c | 0 <= c < rx.channels :: AllSendable(sent[c])
    requires forall c | 0 <= c < rx.channels :: Stream(arrivals, c) == Frames(EncodedAll(sent[c]))
    requires forall i | 0 <= i < |arrivals| ::
               && arrivals[i].channel < rx.channels
               && |arrivals[i].chunk| <= ROW_SIZE - |Tail(Stream(arrivals[..i], arrivals[i].channel))|
    modifies rx`log, rx`flow, rx.buffer, rx.length
    ensures rx.Valid()
    ensures forall c | 0 <= c < rx.channels :: rx.View(c) == Rx(sent[c], [])
    ensures forall c, i: nat | 0 <= c < rx.channels && LastSetting(sent[c], i) :: rx.flow[c] == sent[c][i].setting
    ensures forall c | 0 <= c < rx.channels && (forall i | 0 <= i < |sent[c]| :: !sent[c][i].FlowSetting?) ::
              rx.flow[c] == 0x00
  {
    forall c | 0 <= c < rx.channels
      ensures Framed(Stream(arrivals, c)) && Parsed(Stream(arrivals, c)) == Rx(sent[c], [])
    {
      EventsComeBack(sent[c], arrivals, c);
    }
    Serve(rx, arrivals);
    forall c | 0 <= c < rx.channels
      ensures rx.View(c) == Rx(sent[c], []) && rx.flow[c] == FlowAfter(0x00, sent[c])
    {
      assert Tracks(rx.View(c), rx.flow[c], Stream(arrivals, c));
    }
    forall c | 0 <= c < rx.channels
      ensures forall i: nat | LastSetting(sent[c], i) :: FlowAfter(0x00, sent[c]) == sent[c][i].setting
      ensures (forall i | 0 <= i < |sent[c]| :: !sent[c][i].FlowSetting?) ==> FlowAfter(0x00, sent[c]) == 0x00
    {
      FlowIsTheLastSetting(0x00, sent[c]);
    }
  }
}
