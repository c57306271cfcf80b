/** The two halves of a connection's input and output handling, over in-place buffers. */
module ServiceHandler {
  import opened Octets
  import opened Options
  import opened SendQueue
  import opened Framing

  const OK := 0
  const CLOSE := -1

  /** Receiving into a buffer at a position. */
  method Receive(buffer: array<byte>, position: nat, chunk: seq<byte>)
    requires position + |chunk| <= buffer.Length
    modifies buffer
    ensures buffer[..position + |chunk|] == old(buffer[..position]) + chunk
  {
    var i := 0;
    while i < |chunk|
      invariant 0 <= i <= |chunk|
      invariant buffer[..position] == old(buffer[..position])
      invariant buffer[position..position + i] == chunk[..i]
    {
      buffer[position + i] := chunk[i];
      i := i + 1;
    }
    assert buffer[..position + |chunk|] == buffer[..position] + buffer[position..position + |chunk|];
  }

  /** What a receive call comes to; no bytes at all mean that the other side has closed the connection. */
  datatype Receipt = Bytes(chunk: seq<byte>) | WouldBlock | Failed

  /** The reader after a receive call: a failed call, or no memory for a frame announced, closes it. */
  function Handled<M>(c: Codec<M>, r: Reader<M>, receipt: Receipt, allocates: bool): Reader<M>
    requires receipt.Bytes? ==> |receipt.chunk| <= Wanted(r.state)
  {
    match receipt
    case WouldBlock => r
    case Failed => r.(state := Closed)
    case Bytes(chunk) =>
      if chunk == [] then r.(state := Closed)
      else
        var r' := Absorb(c, r, chunk);
        if r.state.InHeader? && r'.state.InData? && !allocates then r.(state := Closed) else r'
  }

  /** The receipt completes a header. */
  ghost predicate CompletesHeader<M>(r: Reader<M>, receipt: Receipt)
  {
    r.state.InHeader? && receipt.Bytes? && receipt.chunk != [] && |r.state.got| + |receipt.chunk| == HEADER_SIZE
  }

  /** The call fails, gets the end of the stream, or completes a header for whose data there is no memory. */
  ghost predicate Fails<M>(r: Reader<M>, receipt: Receipt, allocates: bool)
  {
    receipt == Failed || receipt == Bytes([]) || (CompletesHeader(r, receipt) && !allocates)
  }

  /** The receipt completes a header with another magic number or a checksum that is not its own. */
  ghost predicate BadHeader<M>(c: Codec<M>, r: Reader<M>, receipt: Receipt)
  {
    CompletesHeader(r, receipt) &&
    var h := r.state.got + receipt.chunk;
    ReadWord(h, 0) != c.magicNumber || ReadWord(h, 16) != c.crc32(h[..16])
  }

  /** One receive call closes its end exactly if it fails or completes a header that is not accepted. */
  lemma ClosesIff<M>(c: Codec<M>, r: Reader<M>, receipt: Receipt, allocates: bool)
    requires !r.state.Closed? && (receipt.Bytes? ==> |receipt.chunk| <= Wanted(r.state))
    ensures Handled(c, r, receipt, allocates).state.Closed? <==>
            Fails(r, receipt, allocates) || BadHeader(c, r, receipt)
    ensures receipt == WouldBlock ==> Handled(c, r, receipt, allocates) == r
  {
  }

  class InputHandler<M(!new)> {
    const codec: Codec<M>
    const messageHeader: array<byte>
    var readingData: bool
    var closed: bool
    var collectedData: array<byte>
    var position: nat
    /** The messages passed to the event handler so far. */
    var delivered: seq<M>

    ghost predicate Valid()
      reads this, messageHeader, collectedData
    {
      && messageHeader.Length == HEADER_SIZE
      && collectedData != messageHeader
      && (!closed ==>
        if readingData then
          && collectedData.Length == Size(messageHeader[..])
          && (position < collectedData.Length || (position == 0 && collectedData.Length == 0))
        else position < HEADER_SIZE)
    }

    ghost function Value(): Reader<M>
      reads this, messageHeader, collectedData
      requires Valid()
    {
      Reader(if closed then Closed
             else if readingData then InData(messageHeader[..], collectedData[..position])
             else InHeader(messageHeader[..position]), delivered)
    }

    constructor (codec: Codec<M>)
      ensures Valid() && Value() == Reader(InHeader([]), []) && this.codec == codec
      ensures fresh(messageHeader) && fresh(collectedData)
    {
      this.codec := codec;
      messageHeader := new byte[HEADER_SIZE];
      collectedData := new byte[0];
      readingData, closed, position, delivered := false, false, 0, [];
    }

    /** Hands on a frame's data if its checksum is right and it parses. */
    method ProcessData(data: seq<byte>, checksum: nat) returns (result: int)
      modifies this`delivered
      ensures delivered == old(delivered) + Accepted(codec, data, checksum)
      ensures result == OK <==> Accepted(codec, data, checksum) != []
      ensures result == OK || result == CLOSE
    {
      if codec.crc32(data) != checksum {
        return CLOSE;
      }
      var m := codec.parse(data);
      if m.None? {
        return CLOSE;
      }
      delivered := delivered + [m.value];
      return OK;
    }

    /** More bytes of a header; the last ones are checked, and the buffer for the data is allocated. */
    method HandleHeader(chunk: seq<byte>, allocates: bool) returns (result: int)
      requires Valid() && !closed && !readingData && 0 < |chunk| <= HEADER_SIZE - position
      modifies this, messageHeader
      ensures Valid() && (collectedData == old(collectedData) || fresh(collectedData))
      ensures Value() == Handled(codec, old(Value()), Bytes(chunk), allocates)
      ensures result == if closed then CLOSE else OK
    {
      Receive(messageHeader, position, chunk);
      position := position + |chunk|;
      if position == HEADER_SIZE {
        var h := messageHeader[..];
        assert h == messageHeader[..position];
        if Magic(h) == codec.magicNumber {
          if codec.crc32(h[..HEADER_SIZE - 4]) != HeaderChecksum(h) {
            closed := true;
            return CLOSE;
          }
        } else {
          closed := true;
          return CLOSE;
        }
        if !allocates {
          closed := true;
          return CLOSE;
        }
        collectedData := new byte[Size(h)];
        position := 0;
        readingData := true;
      }
      return OK;
    }

    /** More bytes of a frame's data; the last ones complete it. */
    method HandleData(chunk: seq<byte>)
      requires Valid() && !closed && readingData && 0 < |chunk| <= collectedData.Length - position
      modifies this, messageHeader, collectedData
      ensures Valid() && collectedData == old(collectedData) && !closed
      ensures Value() == Absorb(codec, old(Value()), chunk)
    {
      Receive(collectedData, position, chunk);
      position := position + |chunk|;
      if position == collectedData.Length {
        assert collectedData[..] == collectedData[..position];
        var _ := ProcessData(collectedData[..], Checksum(messageHeader[..]));
        // magic number, size and both checksums
        forall i | 0 <= i < HEADER_SIZE && !(8 <= i < 12) {
          messageHeader[i] := 0;
        }
        position := 0;
        readingData := false;
      }
    }

    /** Handles what one receive call returned, `allocates` being whether there is memory for a frame. */
    method HandleInput(receipt: Receipt, allocates: bool) returns (result: int)
      requires Valid() && !closed && (receipt.Bytes? ==> |receipt.chunk| <= Wanted(Value().state))
      modifies this, messageHeader, collectedData
      ensures Valid() && (collectedData == old(collectedData) || fresh(collectedData))
      ensures Value() == Handled(codec, old(Value()), receipt, allocates)
      ensures closed <==> Fails(old(Value()), receipt, allocates) || BadHeader(codec, old(Value()), receipt)
      ensures receipt == WouldBlock ==> Value() == old(Value())
      ensures result == if closed then CLOSE else OK
    {
      ClosesIff(codec, Value(), receipt, allocates);
      result := OK;
      match receipt
      case WouldBlock =>
      case Failed =>
        closed := true;
        result := CLOSE;
      case Bytes(chunk) =>
        if chunk == [] {
          closed := true;
          result := CLOSE;
        } else if !readingData {
          result := HandleHeader(chunk, allocates);
        } else {
          HandleData(chunk);
        }
    }
  }

  // ----- writing -----

  /** What is still queued, what of the current frame is still unsent, and what was taken off the queue. */
  datatype Writer<M> = Writer(queue: Queue<M>, unsent: seq<byte>, taken: seq<Entry<M>>)

  ghost function Loaded<M(!new)>(c: Codec<M>, w: Writer<M>): Writer<M>
    requires Valid(c) && w.queue.entries != []
  {
    var e := w.queue.entries[Top(w.queue.entries)];
    Writer(Dequeue(w.queue), PacketBytes(c, PacketOf(c, e.message)), w.taken + [e])
  }

  ghost function Refilled<M(!new)>(c: Codec<M>, w: Writer<M>): Writer<M>
    requires Valid(c)
  {
    if w.unsent == [] && w.queue.entries != [] then Loaded(c, w) else w
  }

  function Least(a: nat, b: nat): nat
  {
    if a <= b then a else b
  }

  /**
   Sending until nothing is left, or until the socket blocks: it accepts at most
   `limits[i]` bytes of the i-th send call and blocks at the first call after those.
   */
  ghost function Output<M(!new)>(c: Codec<M>, w: Writer<M>, limits: seq<nat>): (r: (Writer<M>, seq<byte>))
    requires Valid(c)
    decreases |limits|
  {
    var full := Refilled(c, w);
    if full.unsent == [] || limits == [] then (full, [])
    else
      var n := Least(limits[0], |full.unsent|);
      var rest := Output(c, full.(unsent := full.unsent[n..]), limits[1..]);
      (rest.0, full.unsent[..n] + rest.1)
  }

  /** Sending with these limits after `sent` has gone out comes to the given result. */
  ghost predicate LeadsTo<M(!new)>(c: Codec<M>, w: Writer<M>, limits: seq<nat>, sent: seq<byte>,
                                   result: (Writer<M>, seq<byte>))
    requires Valid(c)
  {
    var r := Output(c, w, limits);
    result == (r.0, sent + r.1)
  }

  lemma RefillLeadsOn<M(!new)>(c: Codec<M>, w: Writer<M>, limits: seq<nat>, sent: seq<byte>,
                               result: (Writer<M>, seq<byte>))
    requires Valid(c) && LeadsTo(c, w, limits, sent, result)
    ensures LeadsTo(c, Refilled(c, w), limits, sent, result)
    ensures Refilled(c, w).unsent == [] || limits == [] ==> result == (Refilled(c, w), sent)
  {
    assert Refilled(c, Refilled(c, w)) == Refilled(c, w);
    assert sent + [] == sent;
  }

  lemma SendLeadsOn<M(!new)>(c: Codec<M>, w: Writer<M>, limits: seq<nat>, sent: seq<byte>,
                             result: (Writer<M>, seq<byte>))
    requires Valid(c) && LeadsTo(c, w, limits, sent, result) && w.unsent != [] && limits != []
    ensures var n := Least(limits[0], |w.unsent|);
      LeadsTo(c, w.(unsent := w.unsent[n..]), limits[1..], sent + w.unsent[..n], result)
  {
    var n := Least(limits[0], |w.unsent|);
    var rest := Output(c, w.(unsent := w.unsent[n..]), limits[1..]);
    assert sent + (w.unsent[..n] + rest.1) == (sent + w.unsent[..n]) + rest.1;
  }

  class OutputHandler<M(!new)> {
    const codec: Codec<M>
    const queue: MessageQueue<M>
    var dataToSend: array?<byte>
    var sendPosition: nat
    var sendBufferSize: nat
    ghost var taken: seq<Entry<M>>

    ghost predicate Ready()
      reads this, queue, dataToSend
    {
      && Valid(codec)
      && Distinct(queue.sendQueue)
      && (dataToSend != null ==> sendPosition < sendBufferSize == dataToSend.Length)
    }

    ghost function Value(): Writer<M>
      reads this, queue, dataToSend
      requires Ready()
    {
      Writer(queue.Contents(), if dataToSend == null then [] else dataToSend[sendPosition..], taken)
    }

    constructor (codec: Codec<M>)
      requires Valid(codec)
      ensures Ready() && fresh(queue) && this.codec == codec
      ensures Value() == Writer(Queue([], 0, false), [], []) && dataToSend == null
    {
      this.codec := codec;
      queue := new MessageQueue();
      dataToSend, sendPosition, sendBufferSize, taken := null, 0, 0, [];
    }

    /** Makes the next queued message's frame the one to be sent. */
    method Load() returns (loaded: bool)
      requires Ready() && dataToSend == null
      modifies this, queue
      ensures Ready() && loaded == (old(queue.sendQueue) != []) && loaded == (dataToSend != null)
      ensures dataToSend != null ==> fresh(dataToSend)
      ensures Value() == Refilled(codec, old(Value()))
    {
      ghost var before := queue.Contents();
      var m := queue.GetNextMessageToSend();
      if m == None {
        return false;
      }
      RemoveDistinct(before.entries, Top(before.entries));
      var payload := codec.serialize(m.value);
      var unsealed := Unsealed(codec, Packet(codec.priority(m.value) % 256, payload, codec.crc32(payload)));
      var frame := unsealed + Word(codec.crc32(unsealed)) + payload;
      dataToSend := new byte[|frame|](i requires 0 <= i < |frame| => frame[i]);
      sendBufferSize, sendPosition := |frame|, 0;
      taken := taken + [before.entries[Top(before.entries)]];
      assert dataToSend[sendPosition..] == dataToSend[..] == frame;
      assert frame == PacketBytes(codec, PacketOf(codec, m.value));
      return true;
    }

    /** Sees to it that there is a frame to send, if there is any message left. */
    method Refill() returns (ready: bool)
      requires Ready()
      modifies this, queue
      ensures Ready() && (dataToSend == old(dataToSend) || fresh(dataToSend))
      ensures Value() == Refilled(codec, old(Value())) && ready == (dataToSend != null)
    {
      ready := true;
      if dataToSend == null {
        ready := Load();
      }
    }

    /** One send call, of which the socket accepts at most `limit` bytes. */
    method Send(limit: nat) returns (sent: seq<byte>)
      requires Ready() && dataToSend != null
      modifies this
      ensures Ready() && (dataToSend == old(dataToSend) || dataToSend == null)
      ensures sent == old(Value()).unsent[..Least(limit, |old(Value()).unsent|)]
      ensures Value() == old(Value()).(unsent := old(Value()).unsent[|sent|..])
    {
      var count := Least(limit, sendBufferSize - sendPosition);
      sent := dataToSend[sendPosition..sendPosition + count];
      sendPosition := sendPosition + count;
      if sendPosition >= sendBufferSize {
        dataToSend := null;
        sendBufferSize, sendPosition := 0, 0;
      }
    }

    /** One round of the output loop: false if there is nothing to send, or the socket blocks. */
    method Round(limits: seq<nat>, ghost before: seq<byte>, ghost goal: (Writer<M>, seq<byte>))
      returns (more: bool, sent: seq<byte>)
      requires Ready() && LeadsTo(codec, Value(), limits, before, goal)
      modifies this, queue
      ensures Ready() && (dataToSend == old(dataToSend) || dataToSend == null || fresh(dataToSend))
      ensures more ==> limits != [] && LeadsTo(codec, Value(), limits[1..], before + sent, goal)
      ensures !more ==> sent == [] && goal == (Value(), before)
    {
      RefillLeadsOn(codec, Value(), limits, before, goal);
      more := Refill();
      if !more || limits == [] {
        return false, [];
      }
      SendLeadsOn(codec, Value(), limits, before, goal);
      sent := Send(limits[0]);
    }

    /**
     Handles one wake-up for output; `sent` is what the socket accepted.  The send call
     after the last of `limits` fails, because it would block or because the socket is broken.
     */
    method HandleOutput(limits: seq<nat>, broken: bool) returns (sent: seq<byte>, result: int)
      requires Ready()
      modifies this, queue
      ensures Ready() && (dataToSend == old(dataToSend) || dataToSend == null || fresh(dataToSend))
      ensures (Value(), sent) == Output(codec, old(Value()), limits)
      ensures result == if Value().unsent != [] && broken then CLOSE else OK
    {
      sent := [];
      ghost var goal := Output(codec, Value(), limits);
      assert [] + goal.1 == goal.1;
      var left, more := limits, true;
      while more
        invariant Ready() && (dataToSend == old(dataToSend) || dataToSend == null || fresh(dataToSend))
        invariant if more then LeadsTo(codec, Value(), left, sent, goal) else goal == (Value(), sent)
        decreases more, |left|
      {
        var piece;
        more, piece := Round(left, sent, goal);
        sent := sent + piece;
        if more {
          left := left[1..];
        }
      }
      result := if dataToSend != null && broken then CLOSE else OK;
    }
  }
}

/** Whole runs of a connection: queueing, sending in pieces, receiving in pieces. */
module FramedTransport {
  import opened Octets
  import opened Sequences
  import opened Options
  import opened SendQueue
  import opened Framing
  import opened ServiceHandler

  datatype Event<M> =
    | Queued(priority: int, message: M)
    | Writable(limits: seq<nat>)
    | Readable(receipt: Receipt, allocates: bool)

  /** Both ends of a connection, and the bytes the socket has accepted and not yet handed over. */
  datatype Connection<M> = Connection(writer: Writer<M>, wire: seq<byte>, reader: Reader<M>)

  /** A receive call gets the next bytes on the wire, and no more than are asked for; a closed end makes none. */
  ghost predicate Possible<M>(k: Connection<M>, receipt: Receipt)
  {
    && !k.reader.state.Closed?
    && (receipt.Bytes? ==> receipt.chunk <= k.wire && |receipt.chunk| <= Wanted(k.reader.state))
  }

  ghost function Received<M>(c: Codec<M>, k: Connection<M>, receipt: Receipt, allocates: bool): Connection<M>
  {
    if Possible(k, receipt) then
      k.(wire := if receipt.Bytes? then k.wire[|receipt.chunk|..] else k.wire,
         reader := Handled(c, k.reader, receipt, allocates))
    else k
  }

  ghost function After<M(!new)>(c: Codec<M>, k: Connection<M>, e: Event<M>): Connection<M>
    requires Valid(c)
  {
    match e
    case Queued(p, m) => k.(writer := k.writer.(queue := Enqueue(k.writer.queue, p, m)))
    case Writable(limits) =>
      var (w, sent) := Output(c, k.writer, limits);
      k.(writer := w, wire := k.wire + sent)
    case Readable(receipt, allocates) => Received(c, k, receipt, allocates)
  }

  ghost function AfterAll<M(!new)>(c: Codec<M>, es: seq<Event<M>>): Connection<M>
    requires Valid(c)
  {
    if es == [] then Connection(Writer(Queue([], 0, false), [], []), [], Fresh([]))
    else After(c, AfterAll(c, es[..|es| - 1]), es[|es| - 1])
  }

  ghost function Packets<M(!new)>(c: Codec<M>, es: seq<Entry<M>>): (ps: seq<Packet>)
    requires Valid(c)
    ensures AllFit(ps)
  {
    if es == [] then [] else [PacketOf(c, es[0].message)] + Packets(c, es[1..])
  }

  function Messages<M>(es: seq<Entry<M>>): (ms: seq<M>)
    ensures |ms| == |es| && forall i :: 0 <= i < |es| ==> ms[i] == es[i].message
  {
    if es == [] then [] else [es[0].message] + Messages(es[1..])
  }

  ghost predicate SomeBytes<M(!new)>(c: Codec<M>, es: seq<Entry<M>>)
  {
    forall e :: e in es ==> c.serialize(e.message) != []
  }

  lemma {:induction false} PacketsSnoc<M(!new)>(c: Codec<M>, es: seq<Entry<M>>, e: Entry<M>)
    requires Valid(c)
    ensures Packets(c, es + [e]) == Packets(c, es) + [PacketOf(c, e.message)]
  {
    if es == [] {
      assert [e][1..] == [] && [] + [e] == [e];
    } else {
      assert (es + [e])[1..] == es[1..] + [e];
      PacketsSnoc(c, es[1..], e);
    }
  }

  /** The bytes of everything taken off the queue. */
  ghost function Frames<M(!new)>(c: Codec<M>, es: seq<Entry<M>>): seq<byte>
    requires Valid(c)
  {
    StreamOf(c, Packets(c, es))
  }

  lemma FramesSnoc<M(!new)>(c: Codec<M>, es: seq<Entry<M>>, e: Entry<M>)
    requires Valid(c)
    ensures Frames(c, es + [e]) == Frames(c, es) + PacketBytes(c, PacketOf(c, e.message))
  {
    PacketsSnoc(c, es, e);
    StreamConcat(c, Packets(c, es), [PacketOf(c, e.message)]);
    assert StreamOf(c, [PacketOf(c, e.message)]) == PacketBytes(c, PacketOf(c, e.message)) + [];
  }

  /** Of the frames of messages that serialise to some bytes a reader delivers just these messages. */
  lemma {:induction false} OwnPacketsAccepted<M(!new)>(c: Codec<M>, es: seq<Entry<M>>)
    requires Valid(c)
    ensures AcceptedAll(c, Packets(c, es)) <= Messages(es)
    ensures SomeBytes(c, es) ==> AcceptedAll(c, Packets(c, es)) == Messages(es) && NoneEmpty(Packets(c, es))
  {
    if es != [] {
      OwnPacketsAccepted(c, es[1..]);
      FirstAccepted(c, es);
    }
  }

  lemma FirstAccepted<M(!new)>(c: Codec<M>, es: seq<Entry<M>>)
    requires Valid(c) && es != []
    ensures SomeBytes(c, es) <==> c.serialize(es[0].message) != [] && SomeBytes(c, es[1..])
    ensures AcceptedAll(c, Packets(c, es)) ==
            if c.serialize(es[0].message) == [] then []
            else [es[0].message] + AcceptedAll(c, Packets(c, es[1..]))
    ensures NoneEmpty(Packets(c, es)) <==> c.serialize(es[0].message) != [] && NoneEmpty(Packets(c, es[1..]))
  {
    var p, rest := PacketOf(c, es[0].message), Packets(c, es[1..]);
    assert Packets(c, es) == [p] + rest && ([p] + rest)[1..] == rest;
    assert Accepted(c, p.payload, p.checksum) == [es[0].message];
    assert es == [es[0]] + es[1..];
  }

  // ----- sending -----

  ghost predicate Whole<M(!new)>(c: Codec<M>, sent: seq<byte>, w: Writer<M>)
    requires Valid(c)
  {
    sent + w.unsent == Frames(c, w.taken)
  }

  lemma RefillKeepsWhole<M(!new)>(c: Codec<M>, w: Writer<M>, sent: seq<byte>)
    requires Valid(c) && Whole(c, sent, w)
    ensures Whole(c, sent, Refilled(c, w))
  {
    if w.unsent == [] && w.queue.entries != [] {
      FramesSnoc(c, w.taken, w.queue.entries[Top(w.queue.entries)]);
      assert sent + [] == sent;
    }
  }

  lemma MoveBytes(sent: seq<byte>, unsent: seq<byte>, n: nat)
    requires n <= |unsent|
    ensures (sent + unsent[..n]) + unsent[n..] == sent + unsent
  {
    assert unsent[..n] + unsent[n..] == unsent;
  }

  lemma SendKeepsWhole<M(!new)>(c: Codec<M>, sent: seq<byte>, w: Writer<M>, n: nat)
    requires Valid(c) && Whole(c, sent, w) && n <= |w.unsent|
    ensures Whole(c, sent + w.unsent[..n], w.(unsent := w.unsent[n..]))
  {
    MoveBytes(sent, w.unsent, n);
  }

  /** Sending moves bytes from the front of what is unsent, and takes messages in the process. */
  lemma {:induction false} OutputKeepsWhole<M(!new)>(c: Codec<M>, w: Writer<M>, limits: seq<nat>, sent: seq<byte>)
    requires Valid(c) && Whole(c, sent, w)
    ensures Whole(c, sent + Output(c, w, limits).1, Output(c, w, limits).0)
    decreases |limits|
  {
    var full, r := Refilled(c, w), Output(c, w, limits);
    RefillKeepsWhole(c, w, sent);
    if full.unsent == [] || limits == [] {
      assert sent + [] == sent;
    } else {
      var n := Least(limits[0], |full.unsent|);
      var next := full.(unsent := full.unsent[n..]);
      var rest := Output(c, next, limits[1..]);
      SendKeepsWhole(c, sent, full, n);
      OutputKeepsWhole(c, next, limits[1..], sent + full.unsent[..n]);
      Regroup(sent, full.unsent[..n], rest.1);
      assert r == (rest.0, full.unsent[..n] + rest.1);
    }
  }

  /** The length of the frames of what is queued. */
  ghost function QueuedBytes<M(!new)>(c: Codec<M>, es: seq<Entry<M>>): nat
    requires Valid(c)
  {
    if es == [] then 0 else HEADER_SIZE + |c.serialize(es[0].message)| + QueuedBytes(c, es[1..])
  }

  ghost function BytesToSend<M(!new)>(c: Codec<M>, w: Writer<M>): nat
    requires Valid(c)
  {
    |w.unsent| + QueuedBytes(c, w.queue.entries)
  }

  lemma {:induction false} QueuedWithout<M(!new)>(c: Codec<M>, es: seq<Entry<M>>, i: nat)
    requires Valid(c) && i < |es|
    ensures QueuedBytes(c, es) == HEADER_SIZE + |c.serialize(es[i].message)| + QueuedBytes(c, Remove(es, i))
  {
    if i == 0 {
      assert Remove(es, 0) == es[1..];
    } else {
      QueuedWithout(c, es[1..], i - 1);
      assert Remove(es, i)[0] == es[0] && Remove(es, i)[1..] == Remove(es[1..], i - 1);
    }
  }

  lemma RefillKeepsBytes<M(!new)>(c: Codec<M>, w: Writer<M>)
    requires Valid(c)
    ensures BytesToSend(c, Refilled(c, w)) == BytesToSend(c, w)
    ensures Refilled(c, w).unsent == [] <==> BytesToSend(c, w) == 0
  {
    if w.unsent == [] && w.queue.entries != [] { QueuedWithout(c, w.queue.entries, Top(w.queue.entries)); }
  }

  ghost predicate AllPositive(limits: seq<nat>)
  {
    forall l :: l in limits ==> l >= 1
  }

  /**
   No byte is lost or sent twice, and none is kept back: as many send calls as there are bytes to
   send, each of which takes at least one, empty the queue.
   */
  lemma {:induction false} NothingKeptBack<M(!new)>(c: Codec<M>, w: Writer<M>, limits: seq<nat>)
    requires Valid(c)
    ensures |Output(c, w, limits).1| + BytesToSend(c, Output(c, w, limits).0) == BytesToSend(c, w)
    ensures AllPositive(limits) && |limits| >= BytesToSend(c, w) ==>
              Output(c, w, limits).0.unsent == [] && Output(c, w, limits).0.queue.entries == []
    decreases |limits|
  {
    var full := Refilled(c, w);
    RefillKeepsBytes(c, w);
    if full.unsent != [] && limits != [] {
      var n := Least(limits[0], |full.unsent|);
      assert limits[0] in limits && forall l :: l in limits[1..] ==> l in limits;
      NothingKeptBack(c, full.(unsent := full.unsent[n..]), limits[1..]);
    }
  }

  // ----- runs -----

  /**
   `read` is what has been received: with the bytes on the wire and those unsent it makes up the
   frames.
   */
  ghost predicate InStep<M(!new)>(c: Codec<M>, k: Connection<M>, read: seq<byte>)
    requires Valid(c)
  {
    var fed := FeedAll(c, Fresh([]), read);
    && read + k.wire + k.writer.unsent == Frames(c, k.writer.taken)
    && k.reader.delivered == fed.delivered
    && (k.reader == fed || k.reader.state.Closed?)
  }

  lemma WritingKeepsStep<M(!new)>(c: Codec<M>, k: Connection<M>, limits: seq<nat>, read: seq<byte>)
    requires Valid(c) && InStep(c, k, read)
    ensures InStep(c, After(c, k, Writable(limits)), read)
  {
    OutputKeepsWhole(c, k.writer, limits, read + k.wire);
    var r := Output(c, k.writer, limits);
    Regroup(read, k.wire, r.1);
    assert After(c, k, Writable(limits)) == Connection(r.0, k.wire + r.1, k.reader);
  }

  lemma ReadingKeepsStep<M(!new)>(c: Codec<M>, k: Connection<M>, receipt: Receipt, allocates: bool, read: seq<byte>)
    returns (more: seq<byte>)
    requires Valid(c) && InStep(c, k, read)
    ensures InStep(c, Received(c, k, receipt, allocates), more)
  {
    more := read;
    if Possible(k, receipt) && receipt.Bytes? {
      more := read + receipt.chunk;
      if receipt.chunk == [] {
        assert more == read;
      } else {
        AbsorbIsFeeding(c, k.reader, receipt.chunk);
        FeedConcat(c, Fresh([]), read, receipt.chunk);
        MoveBytes(read, k.wire, |receipt.chunk|);
      }
    }
  }

  lemma {:induction false} RunsStayInStep<M(!new)>(c: Codec<M>, es: seq<Event<M>>) returns (read: seq<byte>)
    requires Valid(c)
    ensures InStep(c, AfterAll(c, es), read)
  {
    read := [];
    if es != [] {
      var rest, e := es[..|es| - 1], es[|es| - 1];
      var k := AfterAll(c, rest);
      read := RunsStayInStep(c, rest);
      match e {
        case Queued(_, _) =>
        case Writable(limits) => WritingKeepsStep(c, k, limits, read);
        case Readable(receipt, allocates) => read := ReadingKeepsStep(c, k, receipt, allocates, read);
      }
    }
  }

  /** What has been delivered of the first bytes of the frames. */
  lemma PrefixDelivered<M(!new)>(c: Codec<M>, es: seq<Entry<M>>, read: seq<byte>, rest: seq<byte>)
    requires Valid(c) && read + rest == Frames(c, es)
    ensures FeedAll(c, Fresh([]), read).delivered <= AcceptedAll(c, Packets(c, es))
  {
    StreamRead(c, [], Packets(c, es));
    FeedConcat(c, Fresh([]), read, rest);
    DeliveredGrows(c, FeedAll(c, Fresh([]), read), rest);
    assert [] + AcceptedAll(c, Packets(c, es)) == AcceptedAll(c, Packets(c, es));
  }

  /** Reading the first bytes of non-empty frames always leaves more to be asked for. */
  lemma PrefixGoesOn<M(!new)>(c: Codec<M>, es: seq<Entry<M>>, read: seq<byte>, rest: seq<byte>)
    requires Valid(c) && SomeBytes(c, es) && read + rest == Frames(c, es)
    ensures Wanted(FeedAll(c, Fresh([]), read).state) > 0
  {
    var fed := FeedAll(c, Fresh([]), read);
    OwnPacketsAccepted(c, es);
    StreamRead(c, [], Packets(c, es));
    FeedConcat(c, Fresh([]), read, rest);
    if Wanted(fed.state) <= 0 && rest != [] {
      ClosedStays(c, fed.(state := Closed), rest[1..]);
    }
  }

  /**
   However the stream is cut up on its way, what has been delivered is always a prefix of
   what was taken off the queue.
   */
  lemma DeliveredIsPrefix<M(!new)>(c: Codec<M>, es: seq<Event<M>>)
    requires Valid(c)
    ensures AfterAll(c, es).reader.delivered <= Messages(AfterAll(c, es).writer.taken)
  {
    var k := AfterAll(c, es);
    var read := RunsStayInStep(c, es);
    Regroup(read, k.wire, k.writer.unsent);
    PrefixDelivered(c, k.writer.taken, read, k.wire + k.writer.unsent);
    OwnPacketsAccepted(c, k.writer.taken);
  }

  /** Nothing is lost: once all bytes have been sent and read by an end still open, all taken have been delivered. */
  lemma EverythingDelivered<M(!new)>(c: Codec<M>, es: seq<Event<M>>)
    requires Valid(c) && SomeBytes(c, AfterAll(c, es).writer.taken)
    requires !AfterAll(c, es).reader.state.Closed?
    requires AfterAll(c, es).wire == [] && AfterAll(c, es).writer.unsent == []
    ensures AfterAll(c, es).reader == Fresh(Messages(AfterAll(c, es).writer.taken))
  {
    var k := AfterAll(c, es);
    var read := RunsStayInStep(c, es);
    assert read + k.wire + k.writer.unsent == read;
    StreamRead(c, [], Packets(c, k.writer.taken));
    OwnPacketsAccepted(c, k.writer.taken);
  }

  // ----- staying open -----

  /** Inserting a receive call that would block, wherever, makes no difference to a run. */
  lemma {:induction false} BlockingChangesNothing<M(!new)>(c: Codec<M>, before: seq<Event<M>>, allocates: bool,
                                                           later: seq<Event<M>>)
    requires Valid(c)
    ensures AfterAll(c, before + [Readable(WouldBlock, allocates)] + later) == AfterAll(c, before + later)
  {
    var blocked := before + [Readable(WouldBlock, allocates)];
    if later == [] {
      assert blocked + later == blocked && before + later == before && blocked[..|blocked| - 1] == before;
    } else {
      var first, last := later[..|later| - 1], later[|later| - 1];
      assert (blocked + later)[..|blocked + later| - 1] == blocked + first;
      assert (before + later)[..|before + later| - 1] == before + first;
      BlockingChangesNothing(c, before, allocates, first);
    }
  }

  /** The i-th event is a receive call that was made and failed. */
  ghost predicate FailsAt<M(!new)>(c: Codec<M>, es: seq<Event<M>>, i: nat)
    requires Valid(c) && i < |es|
  {
    && es[i].Readable? && Possible(AfterAll(c, es[..i]), es[i].receipt)
    && Fails(AfterAll(c, es[..i]).reader, es[i].receipt, es[i].allocates)
  }

  ghost predicate BadHeaderAt<M(!new)>(c: Codec<M>, es: seq<Event<M>>, i: nat)
    requires Valid(c) && i < |es|
  {
    && es[i].Readable? && Possible(AfterAll(c, es[..i]), es[i].receipt)
    && BadHeader(c, AfterAll(c, es[..i]).reader, es[i].receipt)
  }

  lemma EarlierSame<M(!new)>(c: Codec<M>, es: seq<Event<M>>, i: nat)
    requires Valid(c) && i < |es| - 1
    ensures FailsAt(c, es[..|es| - 1], i) <==> FailsAt(c, es, i)
    ensures BadHeaderAt(c, es[..|es| - 1], i) <==> BadHeaderAt(c, es, i)
  {
    assert es[..|es| - 1][..i] == es[..i];
  }

  /** One of the receive calls of the run has failed or completed a header that is not accepted. */
  ghost predicate SomeCallCloses<M(!new)>(c: Codec<M>, es: seq<Event<M>>)
    requires Valid(c)
  {
    exists i :: 0 <= i < |es| && (FailsAt(c, es, i) || BadHeaderAt(c, es, i))
  }

  lemma CallsOneMore<M(!new)>(c: Codec<M>, es: seq<Event<M>>)
    requires Valid(c) && es != []
    ensures SomeCallCloses(c, es) <==>
            SomeCallCloses(c, es[..|es| - 1]) || FailsAt(c, es, |es| - 1) || BadHeaderAt(c, es, |es| - 1)
  {
    var rest := es[..|es| - 1];
    if i :| 0 <= i < |rest| && (FailsAt(c, rest, i) || BadHeaderAt(c, rest, i)) { EarlierSame(c, es, i); }
    if i :| 0 <= i < |es| && (FailsAt(c, es, i) || BadHeaderAt(c, es, i)) {
      if i < |rest| { EarlierSame(c, es, i); }
    }
  }

  /** A run has closed the reading end exactly if one of its receive calls did. */
  lemma {:induction false} ClosedIff<M(!new)>(c: Codec<M>, es: seq<Event<M>>)
    requires Valid(c)
    ensures AfterAll(c, es).reader.state.Closed? <==> SomeCallCloses(c, es)
  {
    if es != [] {
      ClosedIff(c, es[..|es| - 1]);
      CallsOneMore(c, es);
      LastCloses(c, es);
    }
  }

  lemma LastCloses<M(!new)>(c: Codec<M>, es: seq<Event<M>>)
    requires Valid(c) && es != []
    ensures AfterAll(c, es).reader.state.Closed? <==>
            || AfterAll(c, es[..|es| - 1]).reader.state.Closed?
            || FailsAt(c, es, |es| - 1) || BadHeaderAt(c, es, |es| - 1)
  {
    var k, e := AfterAll(c, es[..|es| - 1]), es[|es| - 1];
    if e.Readable? && Possible(k, e.receipt) { ClosesIff(c, k.reader, e.receipt, e.allocates); }
  }

  lemma BadHeaderStops<M(!new)>(c: Codec<M>, r: Reader<M>, receipt: Receipt, read: seq<byte>)
    requires r == FeedAll(c, Fresh([]), read) && BadHeader(c, r, receipt)
    ensures FeedAll(c, Fresh([]), read + receipt.chunk).state.Closed?
  {
    AbsorbIsFeeding(c, r, receipt.chunk);
    FeedConcat(c, Fresh([]), read, receipt.chunk);
  }

  lemma ReceivedIsNext(read: seq<byte>, wire: seq<byte>, unsent: seq<byte>, chunk: seq<byte>)
    requires chunk <= wire
    ensures (read + chunk) + (wire[|chunk|..] + unsent) == read + wire + unsent
  {
    assert wire == chunk + wire[|chunk|..];
  }

  /** The frames of the other end have good headers. */
  lemma OwnHeadersGood<M(!new)>(c: Codec<M>, es: seq<Event<M>>, receipt: Receipt)
    requires Valid(c) && SomeBytes(c, AfterAll(c, es).writer.taken) && Possible(AfterAll(c, es), receipt)
    ensures !BadHeader(c, AfterAll(c, es).reader, receipt)
  {
    var k := AfterAll(c, es);
    if BadHeader(c, k.reader, receipt) {
      var read := RunsStayInStep(c, es);
      BadHeaderStops(c, k.reader, receipt, read);
      ReceivedIsNext(read, k.wire, k.writer.unsent, receipt.chunk);
      PrefixGoesOn(c, k.writer.taken, read + receipt.chunk, k.wire[|receipt.chunk|..] + k.writer.unsent);
    }
  }

  lemma EventKeepsTaken<M(!new)>(c: Codec<M>, k: Connection<M>, e: Event<M>)
    requires Valid(c)
    ensures k.writer.taken <= After(c, k, e).writer.taken
  {
    if e.Writable? { OutputTakes(c, k.writer, e.limits); }
  }

  lemma {:induction false} OutputTakes<M(!new)>(c: Codec<M>, w: Writer<M>, limits: seq<nat>)
    requires Valid(c)
    ensures w.taken <= Output(c, w, limits).0.taken
    decreases |limits|
  {
    var full := Refilled(c, w);
    if full.unsent != [] && limits != [] {
      var n := Least(limits[0], |full.unsent|);
      OutputTakes(c, full.(unsent := full.unsent[n..]), limits[1..]);
    }
  }

  lemma {:induction false} TakenStay<M(!new)>(c: Codec<M>, es: seq<Event<M>>, i: nat)
    requires Valid(c) && i <= |es|
    ensures AfterAll(c, es[..i]).writer.taken <= AfterAll(c, es).writer.taken
    decreases |es|
  {
    if i == |es| {
      assert es[..i] == es;
    } else {
      var rest := es[..|es| - 1];
      assert rest[..i] == es[..i];
      TakenStay(c, rest, i);
      EventKeepsTaken(c, AfterAll(c, rest), es[|es| - 1]);
    }
  }

  /**
   A connection on which no message serialises to nothing is closed exactly if one of its receive
   calls has failed; as long as it is open it goes on asking for more.
   */
  lemma StaysOpen<M(!new)>(c: Codec<M>, es: seq<Event<M>>)
    requires Valid(c) && SomeBytes(c, AfterAll(c, es).writer.taken)
    ensures AfterAll(c, es).reader.state.Closed? <==> exists i :: 0 <= i < |es| && FailsAt(c, es, i)
    ensures !AfterAll(c, es).reader.state.Closed? ==> Wanted(AfterAll(c, es).reader.state) > 0
  {
    var k := AfterAll(c, es);
    ClosedIff(c, es);
    forall i | 0 <= i < |es| ensures !BadHeaderAt(c, es, i) {
      TakenStay(c, es, i);
      assert forall e :: e in AfterAll(c, es[..i]).writer.taken ==> e in k.writer.taken;
      if BadHeaderAt(c, es, i) { OwnHeadersGood(c, es[..i], es[i].receipt); }
    }
    var read := RunsStayInStep(c, es);
    Regroup(read, k.wire, k.writer.unsent);
    PrefixGoesOn(c, k.writer.taken, read, k.wire + k.writer.unsent);
  }

  // ----- end to end -----

  /** What was offered to the queue, in order. */
  function Offered<M>(es: seq<Event<M>>): seq<Offer<M>>
  {
    if es == [] then []
    else
      var rest, e := es[..|es| - 1], es[|es| - 1];
      if e.Queued? then Offered(rest) + [Offer(e.priority, e.message)] else Offered(rest)
  }

  ghost predicate FairSoFar<M(!new)>(w: Writer<M>, queued: seq<Entry<M>>, offers: seq<Offer<M>>)
  {
    && Fair(History(w.queue, queued, w.taken)) && InTurn(queued, offers)
    && w.queue.sentMessageCount == |offers|
    && !w.queue.connectionClosing
  }

  lemma {:induction false} OutputKeepsFair<M(!new)>(c: Codec<M>, w: Writer<M>, limits: seq<nat>, queued: seq<Entry<M>>,
                                                    offers: seq<Offer<M>>)
    requires Valid(c) && FairSoFar(w, queued, offers)
    ensures FairSoFar(Output(c, w, limits).0, queued, offers)
    decreases |limits|
  {
    var full := Refilled(c, w);
    if w.unsent == [] && w.queue.entries != [] {
      TakeKeepsFair(History(w.queue, queued, w.taken));
    }
    assert FairSoFar(full, queued, offers);
    if full.unsent != [] && limits != [] {
      var n := Least(limits[0], |full.unsent|);
      OutputKeepsFair(c, full.(unsent := full.unsent[n..]), limits[1..], queued, offers);
    }
  }

  lemma QueueingKeepsFair<M(!new)>(w: Writer<M>, queued: seq<Entry<M>>, offers: seq<Offer<M>>, p: int, m: M)
    requires FairSoFar(w, queued, offers) && |offers| + 1 < COUNTER_RANGE
    ensures FairSoFar(w.(queue := Enqueue(w.queue, p, m)),
                      Perform(History(w.queue, queued, w.taken), Send(p, m)).queued, offers + [Offer(p, m)])
  {
    OpKeepsFair(History(w.queue, queued, w.taken), Send(p, m));
    OpInTurn(History(w.queue, queued, w.taken), offers, Send(p, m));
  }

  lemma {:induction false} RunsAreFair<M(!new)>(c: Codec<M>, es: seq<Event<M>>) returns (queued: seq<Entry<M>>)
    requires Valid(c) && |Offered(es)| < COUNTER_RANGE
    ensures FairSoFar(AfterAll(c, es).writer, queued, Offered(es))
  {
    queued := [];
    if es != [] {
      var rest, e := es[..|es| - 1], es[|es| - 1];
      queued := RunsAreFair(c, rest);
      var w := AfterAll(c, rest).writer;
      match e {
        case Queued(p, m) =>
          QueueingKeepsFair(w, queued, Offered(rest), p, m);
          queued := Perform(History(w.queue, queued, w.taken), Send(p, m)).queued;
        case Writable(limits) => OutputKeepsFair(c, w, limits, queued, Offered(rest));
        case Readable(_, _) =>
      }
    }
  }

  /** The first ones of those that have been taken are, at any one priority, the first of those offered. */
  lemma FirstAtPriority<M>(taken: seq<Entry<M>>, waiting: seq<Entry<M>>, offers: seq<Offer<M>>, n: nat, p: int)
    requires n <= |taken| && AllEntriesFor(taken, offers) && AllEntriesFor(waiting, offers)
    requires At(OffersOf(taken, offers), p) + At(OffersOf(waiting, offers), p) == At(offers, p)
    ensures At(OffersOf(taken, offers)[..n], p) <= At(offers, p)
  {
    var all, later := OffersOf(taken, offers), At(OffersOf(waiting, offers), p);
    AtConcat(all[..n], all[n..], p);
    assert all == all[..n] + all[n..];
    Regroup(At(all[..n], p), At(all[n..], p), later);
  }

  ghost predicate CarriesMessages<M(!new)>(sent: seq<Offer<M>>, delivered: seq<M>)
  {
    |sent| == |delivered| && forall i :: 0 <= i < |sent| ==> sent[i].message == delivered[i]
  }

  /** The delivered messages are offers; at each priority they are the first ones offered at it. */
  ghost predicate FirstOffered<M(!new)>(sent: seq<Offer<M>>, delivered: seq<M>, offers: seq<Offer<M>>)
  {
    && CarriesMessages(sent, delivered)
    && (forall o :: o in sent ==> o in offers)
    && forall p :: At(sent, p) <= At(offers, p)
  }

  /**
   From one end to the other: the messages delivered so far, taken at any one priority, are
   the first ones of those offered at that priority, in the order in which they were offered.
   */
  lemma OfferedInOrder<M(!new)>(c: Codec<M>, es: seq<Event<M>>)
    requires Valid(c) && |Offered(es)| < COUNTER_RANGE
    ensures exists sent: seq<Offer<M>> :: FirstOffered(sent, AfterAll(c, es).reader.delivered, Offered(es))
  {
    var k, offers := AfterAll(c, es), Offered(es);
    var taken, n := k.writer.taken, |k.reader.delivered|;
    DeliveredIsPrefix(c, es);
    var queued := RunsAreFair(c, es);
    var h := History(k.writer.queue, queued, taken);
    AllQueued(h, offers);
    var sent := OffersOf(taken, offers)[..n];
    forall p ensures At(sent, p) <= At(offers, p) {
      OfferedOrder(h, offers, p);
      FirstAtPriority(taken, k.writer.queue.entries, offers, n, p);
    }
    forall i | 0 <= i < n ensures sent[i].message == k.reader.delivered[i] && sent[i] in offers {
      assert IsEntryFor(taken[i], offers);
    }
    assert FirstOffered(sent, k.reader.delivered, offers);
  }
}
