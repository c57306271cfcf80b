/**
 The frames two connected services exchange: a 20-byte header (magic number, size,
 priority, error code, two reserved bytes, data checksum, header checksum) and the
 serialised message. Checksum and serialisation are parameters.
 */
module Framing {
  import opened Octets
  import opened Options
  import opened SendQueue

  const HEADER_SIZE := 20
  const WORD := 0x1_0000_0000
  const NO_MESSAGE_ERROR: byte := 0

  datatype Codec<!M> = Codec(
    magicNumber: nat,
    crc32: seq<byte> -> nat,
    serialize: M -> seq<byte>,
    parse: seq<byte> -> Option<M>,
    priority: M -> int)

  /** Words fit in 32 bits, and parsing undoes serialising. */
  ghost predicate Valid<M(!new)>(c: Codec<M>)
  {
    && c.magicNumber < WORD
    && (forall s :: c.crc32(s) < WORD)
    && (forall m :: |c.serialize(m)| + HEADER_SIZE < WORD && c.parse(c.serialize(m)) == Some(m))
  }

  function Word(x: nat): (s: seq<byte>)
    requires x < WORD
    ensures |s| == 4
  {
    [x % 256, x / 256 % 256, x / 65536 % 256, x / 16777216]
  }

  function ReadWord(s: seq<byte>, at: nat): (x: nat)
    requires at + 4 <= |s|
  {
    s[at] as int + 256 * s[at + 1] as int + 65536 * s[at + 2] as int + 16777216 * s[at + 3] as int
  }

  lemma WordRoundTrip(before: seq<byte>, x: nat, after: seq<byte>)
    requires x < WORD
    ensures ReadWord(before + Word(x) + after, |before|) == x
  {
    var s := before + Word(x) + after;
    assert forall k :: 0 <= k < 4 ==> s[|before| + k] == Word(x)[k];
    assert x / 65536 == x / 256 / 256 && x / 16777216 == x / 65536 / 256;
  }

  // ----- the header -----

  type Header = h: seq<byte> | |h| == HEADER_SIZE witness seq(HEADER_SIZE, _ => 0)

  function Magic(h: Header): nat { ReadWord(h, 0) }
  function Size(h: Header): nat { ReadWord(h, 4) }
  function Checksum(h: Header): nat { ReadWord(h, 12) }
  function HeaderChecksum(h: Header): nat { ReadWord(h, 16) }

  /** A packet as it may arrive: its data checksum need not be the one of its payload. */
  datatype Packet = Packet(priority: byte, payload: seq<byte>, checksum: nat)

  ghost predicate Fits(p: Packet)
  {
    |p.payload| < WORD && p.checksum < WORD
  }

  function Unsealed<M>(c: Codec<M>, p: Packet): (s: seq<byte>)
    requires c.magicNumber < WORD && |p.payload| < WORD && p.checksum < WORD
    ensures |s| == HEADER_SIZE - 4
  {
    Word(c.magicNumber) + Word(|p.payload|) + [p.priority, NO_MESSAGE_ERROR, 0, 0] + Word(p.checksum)
  }

  ghost function HeaderOf<M(!new)>(c: Codec<M>, p: Packet): Header
    requires Valid(c) && Fits(p)
  {
    Unsealed(c, p) + Word(c.crc32(Unsealed(c, p)))
  }

  predicate HeaderAccepted<M>(c: Codec<M>, h: Header)
  {
    Magic(h) == c.magicNumber && c.crc32(h[..HEADER_SIZE - 4]) == HeaderChecksum(h)
  }

  /** The reader gets back from a header what was put into it, and accepts it. */
  lemma HeaderReadBack<M(!new)>(c: Codec<M>, p: Packet)
    requires Valid(c) && Fits(p)
    ensures HeaderAccepted(c, HeaderOf(c, p))
    ensures Size(HeaderOf(c, p)) == |p.payload| && Checksum(HeaderOf(c, p)) == p.checksum
  {
    var h := HeaderOf(c, p);
    var m, n, k := Word(c.magicNumber), Word(|p.payload|), Word(p.checksum);
    var seal := Word(c.crc32(Unsealed(c, p)));
    var flags: seq<byte> := [p.priority, NO_MESSAGE_ERROR, 0, 0];
    assert h == [] + m + (n + flags + k + seal);
    WordRoundTrip([], c.magicNumber, n + flags + k + seal);
    assert h == m + n + (flags + k + seal);
    WordRoundTrip(m, |p.payload|, flags + k + seal);
    assert h == (m + n + flags) + k + seal;
    WordRoundTrip(m + n + flags, p.checksum, seal);
    assert h == Unsealed(c, p) + seal + [];
    WordRoundTrip(Unsealed(c, p), c.crc32(Unsealed(c, p)), []);
    assert h[..HEADER_SIZE - 4] == Unsealed(c, p);
  }

  /** Where everything stands on the wire: words with their low byte first. */
  lemma HeaderLayout<M(!new)>(c: Codec<M>, p: Packet, k: nat)
    requires Valid(c) && Fits(p) && k < HEADER_SIZE
    ensures HeaderOf(c, p)[..16] == Unsealed(c, p)
    ensures HeaderOf(c, p)[k] ==
            if k < 4 then [c.magicNumber % 256, c.magicNumber / 0x100 % 256, c.magicNumber / 0x1_0000 % 256,
                           c.magicNumber / 0x100_0000][k]
            else if k < 8 then [|p.payload| % 256, |p.payload| / 0x100 % 256, |p.payload| / 0x1_0000 % 256,
                                |p.payload| / 0x100_0000][k - 4]
            else if k < 12 then [p.priority, 0, 0, 0][k - 8]
            else if k < 16 then [p.checksum % 256, p.checksum / 0x100 % 256, p.checksum / 0x1_0000 % 256,
                                 p.checksum / 0x100_0000][k - 12]
            else var seal := c.crc32(HeaderOf(c, p)[..16]);
              [seal % 256, seal / 0x100 % 256, seal / 0x1_0000 % 256, seal / 0x100_0000][k - 16]
  {
    var h := HeaderOf(c, p);
    assert h[..16] == Unsealed(c, p);
  }

  ghost function PacketBytes<M(!new)>(c: Codec<M>, p: Packet): seq<byte>
    requires Valid(c) && Fits(p)
  {
    HeaderOf(c, p) + p.payload
  }

  /** The packet the writer makes of a message. */
  ghost function PacketOf<M(!new)>(c: Codec<M>, m: M): (p: Packet)
    requires Valid(c)
    ensures Fits(p)
  {
    Packet(c.priority(m) % 256, c.serialize(m), c.crc32(c.serialize(m)))
  }

  // ----- reading -----

  datatype ReaderState = InHeader(got: seq<byte>) | InData(header: Header, got: seq<byte>) | Closed

  datatype Reader<M> = Reader(state: ReaderState, delivered: seq<M>)

  /** How many bytes the reader asks the socket for. */
  function Wanted(s: ReaderState): (n: int)
  {
    match s
    case InHeader(got) => HEADER_SIZE - |got|
    case InData(h, got) => Size(h) - |got|
    case Closed => 0
  }

  /** What is handed on of one frame's data: nothing if the checksum or the parser rejects it. */
  function Accepted<M>(c: Codec<M>, data: seq<byte>, checksum: nat): (ms: seq<M>)
    ensures |ms| <= 1
  {
    if c.crc32(data) != checksum then []
    else match c.parse(data) { case None => [] case Some(m) => [m] }
  }

  /** The effect of receiving a non-empty chunk, no longer than wanted. */
  function Absorb<M>(c: Codec<M>, r: Reader<M>, chunk: seq<byte>): Reader<M>
    requires 0 < |chunk| <= Wanted(r.state)
  {
    match r.state
    case InHeader(got) =>
      var h := got + chunk;
      if |h| < HEADER_SIZE then r.(state := InHeader(h))
      else if HeaderAccepted(c, h) then r.(state := InData(h, []))
      else r.(state := Closed)
    case InData(h, got) =>
      var data := got + chunk;
      if |data| < Size(h) then r.(state := InData(h, data))
      else Reader(InHeader([]), r.delivered + Accepted(c, data, Checksum(h)))
  }

  /** One byte of the stream; a reader that asks for no byte is told that the stream has ended. */
  function Feed<M>(c: Codec<M>, r: Reader<M>, b: byte): Reader<M>
  {
    if Wanted(r.state) <= 0 then r.(state := Closed) else Absorb(c, r, [b])
  }

  function FeedAll<M>(c: Codec<M>, r: Reader<M>, s: seq<byte>): Reader<M>
    decreases |s|
  {
    if s == [] then r else FeedAll(c, Feed(c, r, s[0]), s[1..])
  }

  lemma {:induction false} FeedConcat<M>(c: Codec<M>, r: Reader<M>, s: seq<byte>, t: seq<byte>)
    ensures FeedAll(c, r, s + t) == FeedAll(c, FeedAll(c, r, s), t)
    decreases |s|
  {
    if s == [] {
      assert s + t == t;
    } else {
      assert (s + t)[1..] == s[1..] + t;
      FeedConcat(c, Feed(c, r, s[0]), s[1..], t);
    }
  }

  lemma AbsorbOneMore<M>(c: Codec<M>, r: Reader<M>, chunk: seq<byte>)
    requires 1 < |chunk| <= Wanted(r.state)
    ensures var next := Absorb(c, r, [chunk[0]]);
      |chunk[1..]| <= Wanted(next.state) && Absorb(c, next, chunk[1..]) == Absorb(c, r, chunk)
  {
    assert r.state.got + chunk == r.state.got + [chunk[0]] + chunk[1..];
  }

  /** Where the stream is cut into chunks makes no difference. */
  lemma {:induction false} AbsorbIsFeeding<M>(c: Codec<M>, r: Reader<M>, chunk: seq<byte>)
    requires 0 < |chunk| <= Wanted(r.state)
    ensures Absorb(c, r, chunk) == FeedAll(c, r, chunk)
    decreases |chunk|
  {
    if |chunk| == 1 {
      assert chunk == [chunk[0]];
      assert FeedAll(c, Feed(c, r, chunk[0]), chunk[1..]) == Feed(c, r, chunk[0]);
    } else {
      AbsorbOneMore(c, r, chunk);
      AbsorbIsFeeding(c, Absorb(c, r, [chunk[0]]), chunk[1..]);
    }
  }

  lemma {:induction false} ClosedStays<M>(c: Codec<M>, r: Reader<M>, s: seq<byte>)
    requires r.state.Closed?
    ensures FeedAll(c, r, s) == r
    decreases |s|
  {
    if s != [] { ClosedStays(c, r, s[1..]); }
  }

  /** What has been delivered stays delivered. */
  lemma {:induction false} DeliveredGrows<M>(c: Codec<M>, r: Reader<M>, s: seq<byte>)
    ensures r.delivered <= FeedAll(c, r, s).delivered
    decreases |s|
  {
    if s != [] { DeliveredGrows(c, Feed(c, r, s[0]), s[1..]); }
  }

  // ----- streams of packets -----

  ghost predicate AllFit(ps: seq<Packet>)
  {
    forall p :: p in ps ==> Fits(p)
  }

  ghost function StreamOf<M(!new)>(c: Codec<M>, ps: seq<Packet>): seq<byte>
    requires Valid(c) && AllFit(ps)
  {
    if ps == [] then [] else PacketBytes(c, ps[0]) + StreamOf(c, ps[1..])
  }

  lemma {:induction false} StreamConcat<M(!new)>(c: Codec<M>, ps: seq<Packet>, qs: seq<Packet>)
    requires Valid(c) && AllFit(ps) && AllFit(qs)
    ensures AllFit(ps + qs) && StreamOf(c, ps + qs) == StreamOf(c, ps) + StreamOf(c, qs)
  {
    if ps == [] {
      assert ps + qs == qs;
    } else {
      assert (ps + qs)[1..] == ps[1..] + qs;
      StreamConcat(c, ps[1..], qs);
    }
  }

  /** What a reader hands on of a stream of packets, which it stops reading at an empty one. */
  ghost function AcceptedAll<M>(c: Codec<M>, ps: seq<Packet>): seq<M>
  {
    if ps == [] || ps[0].payload == [] then []
    else Accepted(c, ps[0].payload, ps[0].checksum) + AcceptedAll(c, ps[1..])
  }

  ghost predicate NoneEmpty(ps: seq<Packet>)
  {
    forall p :: p in ps ==> p.payload != []
  }

  /** A reader that has delivered `d` and waits for the next header. */
  ghost function Fresh<M>(d: seq<M>): Reader<M>
  {
    Reader(InHeader([]), d)
  }

  lemma PacketRead<M(!new)>(c: Codec<M>, d: seq<M>, p: Packet)
    requires Valid(c) && Fits(p)
    ensures FeedAll(c, Fresh(d), HeaderOf(c, p)) == Reader(InData(HeaderOf(c, p), []), d)
    ensures p.payload != [] ==>
      FeedAll(c, Fresh(d), PacketBytes(c, p))
        == Reader(InHeader([]), d + Accepted(c, p.payload, p.checksum))
  {
    var start, h := Fresh(d), HeaderOf(c, p);
    HeaderReadBack(c, p);
    AbsorbIsFeeding(c, start, h);
    assert [] + h == h;
    if p.payload != [] {
      FeedConcat(c, start, h, p.payload);
      AbsorbIsFeeding(c, Reader(InData(h, []), d), p.payload);
      assert [] + p.payload == p.payload;
    }
  }

  lemma EmptyPacketStops<M(!new)>(c: Codec<M>, d: seq<M>, p: Packet, rest: seq<byte>)
    requires Valid(c) && Fits(p) && p.payload == []
    ensures FeedAll(c, Fresh(d), PacketBytes(c, p) + rest).delivered == d
  {
    PacketRead(c, d, p);
    HeaderReadBack(c, p);
    assert PacketBytes(c, p) == HeaderOf(c, p);
    FeedConcat(c, Fresh(d), HeaderOf(c, p), rest);
    if rest != [] {
      ClosedStays(c, Reader(Closed, d), rest[1..]);
    }
  }

  lemma FirstRead<M(!new)>(c: Codec<M>, d: seq<M>, p: Packet, rest: seq<byte>)
    requires Valid(c) && Fits(p) && p.payload != []
    ensures FeedAll(c, Fresh(d), PacketBytes(c, p) + rest)
            == FeedAll(c, Fresh(d + Accepted(c, p.payload, p.checksum)), rest)
  {
    PacketRead(c, d, p);
    FeedConcat(c, Fresh(d), PacketBytes(c, p), rest);
  }

  lemma RestAccepted<M>(c: Codec<M>, d: seq<M>, ps: seq<Packet>)
    requires ps != [] && ps[0].payload != []
    ensures (d + Accepted(c, ps[0].payload, ps[0].checksum)) + AcceptedAll(c, ps[1..]) == d + AcceptedAll(c, ps)
    ensures NoneEmpty(ps) ==> NoneEmpty(ps[1..])
  {
    if NoneEmpty(ps) {
      forall p | p in ps[1..] ensures p.payload != [] { assert p in ps; }
    }
  }

  /**
   Of a stream of packets with intact headers the reader delivers exactly what it accepts
   of each, in order: a packet with a bad data checksum is dropped and the next one is read.
   */
  lemma {:induction false} StreamRead<M(!new)>(c: Codec<M>, d: seq<M>, ps: seq<Packet>)
    requires Valid(c) && AllFit(ps)
    ensures FeedAll(c, Fresh(d), StreamOf(c, ps)).delivered == d + AcceptedAll(c, ps)
    ensures NoneEmpty(ps) ==> FeedAll(c, Fresh(d), StreamOf(c, ps)).state == InHeader([])
    decreases |ps|
  {
    if ps == [] {
      assert d + [] == d;
    } else if ps[0].payload == [] {
      EmptyPacketStops(c, d, ps[0], StreamOf(c, ps[1..]));
      assert d + [] == d;
      assert ps[0] in ps;
    } else {
      FirstRead(c, d, ps[0], StreamOf(c, ps[1..]));
      StreamRead(c, d + Accepted(c, ps[0].payload, ps[0].checksum), ps[1..]);
      RestAccepted(c, d, ps);
    }
  }

  lemma {:induction false} AcceptedConcat<M>(c: Codec<M>, ps: seq<Packet>, qs: seq<Packet>)
    requires NoneEmpty(ps)
    ensures AcceptedAll(c, ps + qs) == AcceptedAll(c, ps) + AcceptedAll(c, qs)
  {
    if ps == [] {
      assert ps + qs == qs;
    } else {
      assert (ps + qs)[1..] == ps[1..] + qs && ps[0] in ps;
      AcceptedConcat(c, ps[1..], qs);
    }
  }

  lemma DroppedPacket<M>(c: Codec<M>, bad: Packet, after: seq<Packet>)
    requires bad.payload != [] && c.crc32(bad.payload) != bad.checksum
    ensures AcceptedAll(c, [bad] + after) == AcceptedAll(c, after)
  {
    assert ([bad] + after)[1..] == after;
  }

  /**
   A packet whose data checksum is wrong costs that packet only: whatever surrounds it is
   delivered as if it had not been sent.
   */
  lemma BadChecksumDropsOnePacket<M(!new)>(c: Codec<M>, before: seq<Packet>, bad: Packet, after: seq<Packet>)
    requires Valid(c) && AllFit(before) && Fits(bad) && AllFit(after)
    requires NoneEmpty(before) && bad.payload != [] && c.crc32(bad.payload) != bad.checksum
    ensures AllFit(before + [bad] + after) && AllFit(before + after)
    ensures FeedAll(c, Fresh([]), StreamOf(c, before + [bad] + after)).delivered
         == FeedAll(c, Fresh([]), StreamOf(c, before + after)).delivered
  {
    var all, others := before + ([bad] + after), before + after;
    assert before + [bad] + after == all;
    StreamRead(c, [], all);
    StreamRead(c, [], others);
    AcceptedConcat(c, before, [bad] + after);
    AcceptedConcat(c, before, after);
    DroppedPacket(c, bad, after);
  }
}
