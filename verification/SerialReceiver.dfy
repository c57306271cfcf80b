/** Taking relay packets apart, and keeping for every name only positions that are not older than the last. */
module SerialMessageProcessor {
  import opened Arithmetic
  import opened Octets
  import opened TerseFields
  import opened TersePackets
  import opened TerseStreams
  import Relay = GatewayReceiver

  datatype Located = Located(name: bytes, lat: int, lon: int, created: nat, hops: int)

  /** Reduction to 32 bits, signed or not. */
  function Word(v: int): nat
  {
    v % Relay.WORD
  }

  function SignedWord(v: int): int
  {
    AsSigned(Word(v), 4)
  }

  /** A relayed position, from its differences to the sender's. */
  function LocatedAt(e: PliEntry, lat: int, lon: int, created: nat, rangeScale: int, timeScale: int): Located
  {
    Located(e.name, SignedWord((lat - e.dLat) * rangeScale), SignedWord((lon - e.dLon) * rangeScale),
            Word((created - e.dTime) * timeScale), e.hops)
  }

  function LocatedAll(es: seq<PliEntry>, lat: int, lon: int, created: nat, rangeScale: int,
                      timeScale: int): (s: seq<Located>)
    ensures |s| == |es|
  {
    if es == [] then []
    else LocatedAll(es[..|es| - 1], lat, lon, created, rangeScale, timeScale)
         + [LocatedAt(es[|es| - 1], lat, lon, created, rangeScale, timeScale)]
  }

  // ----- keeping the newest -----

  /** The last time of every name, and the positions handed on. */
  datatype Received = Received(latest: map<bytes, nat>, forwarded: seq<Located>)

  predicate TooOld(latest: map<bytes, nat>, x: Located)
  {
    x.name in latest && x.created < latest[x.name]
  }

  function Taken(r: Received, x: Located): Received
  {
    if TooOld(r.latest, x) then r else Received(r.latest[x.name := x.created], r.forwarded + [x])
  }

  function TakenAll(r: Received, xs: seq<Located>): Received
  {
    if xs == [] then r else Taken(TakenAll(r, xs[..|xs| - 1]), xs[|xs| - 1])
  }

  function OfName(xs: seq<Located>, name: bytes): seq<nat>
  {
    if xs == [] then []
    else OfName(xs[..|xs| - 1], name) + if xs[|xs| - 1].name == name then [xs[|xs| - 1].created] else []
  }

  /** The times that none of those before them exceeds, beginning with `first`. */
  function Records(first: nat, ts: seq<nat>): (r: seq<nat>)
  {
    if ts == [] then []
    else
      var before := Records(first, ts[..|ts| - 1]);
      var highest := if before == [] then first else before[|before| - 1];
      before + if ts[|ts| - 1] >= highest then [ts[|ts| - 1]] else []
  }

  function LatestOf(r: Received, name: bytes): nat
  {
    if name in r.latest then r.latest[name] else 0
  }

  function LastOr(first: nat, s: seq<nat>): nat
  {
    if s == [] then first else s[|s| - 1]
  }

  lemma OfNameSnoc(xs: seq<Located>, x: Located, name: bytes)
    ensures OfName(xs + [x], name) == OfName(xs, name) + if x.name == name then [x.created] else []
  {
    assert (xs + [x])[..|xs|] == xs;
  }

  lemma RecordsSnoc(first: nat, ts: seq<nat>, t: nat)
    ensures var before := Records(first, ts);
      Records(first, ts + [t]) == before + if t >= LastOr(first, before) then [t] else []
  {
    assert (ts + [t])[..|ts|] == ts;
  }

  /**
   As long as only entries come: of each name exactly those are handed on whose time is not
   below any earlier one of that name, and the time kept is the last of these.
   */
  lemma {:induction false} OnlyNewerForwarded(r: Received, xs: seq<Located>, name: bytes)
    ensures var ts := Records(LatestOf(r, name), OfName(xs, name));
      && OfName(TakenAll(r, xs).forwarded, name) == OfName(r.forwarded, name) + ts
      && LatestOf(TakenAll(r, xs), name) == LastOr(LatestOf(r, name), ts)
  {
    if xs == [] {
      assert OfName(r.forwarded, name) + [] == OfName(r.forwarded, name);
    } else {
      var rest, x := xs[..|xs| - 1], xs[|xs| - 1];
      OnlyNewerForwarded(r, rest, name);
      OfNameSnoc(rest, x, name);
      assert rest + [x] == xs;
      OneTaken(r, TakenAll(r, rest), x, name, OfName(rest, name));
      assert OfName(rest, name) + [] == OfName(rest, name);
    }
  }

  /** What one position does to what is known of a name. */
  lemma TakenEffect(r: Received, x: Located, name: bytes)
    ensures var newer := x.name == name && x.created >= LatestOf(r, name);
      && OfName(Taken(r, x).forwarded, name) == OfName(r.forwarded, name) + (if newer then [x.created] else [])
      && LatestOf(Taken(r, x), name) == if newer then x.created else LatestOf(r, name)
  {
    OfNameSnoc(r.forwarded, x, name);
    assert OfName(r.forwarded, name) + [] == OfName(r.forwarded, name);
  }

  lemma NoRecord(first: nat, before: seq<nat>, f: seq<nat>, all: seq<nat>, last: nat, t: nat, newer: bool)
    requires all == f + before && last == LastOr(first, before)
    ensures var after := before + (if newer then [t] else []);
      all + (if newer then [t] else []) == f + after && (if newer then t else last) == LastOr(first, after)
  {
    if newer {
      assert (f + before) + [t] == f + (before + [t]);
    } else {
      assert (f + before) + [] == f + before && before + [] == before;
    }
  }

  lemma OneTaken(first: Received, r: Received, x: Located, name: bytes, ts: seq<nat>)
    requires OfName(r.forwarded, name) == OfName(first.forwarded, name) + Records(LatestOf(first, name), ts)
    requires LatestOf(r, name) == LastOr(LatestOf(first, name), Records(LatestOf(first, name), ts))
    ensures var all := if x.name == name then ts + [x.created] else ts;
      && OfName(Taken(r, x).forwarded, name) == OfName(first.forwarded, name) + Records(LatestOf(first, name), all)
      && LatestOf(Taken(r, x), name) == LastOr(LatestOf(first, name), Records(LatestOf(first, name), all))
  {
    var start := LatestOf(first, name);
    var newer := x.name == name && x.created >= LatestOf(r, name);
    TakenEffect(r, x, name);
    RecordsSnoc(start, ts, x.created);
    NoRecord(start, Records(start, ts), OfName(first.forwarded, name), OfName(r.forwarded, name), LatestOf(r, name),
             x.created, newer);
    assert Records(start, ts) + [] == Records(start, ts);
  }

  /** Among entries alone the times handed on do not fall. */
  lemma {:induction false} RecordsRise(first: nat, ts: seq<nat>)
    ensures forall i, j :: 0 <= i < j < |Records(first, ts)| ==> Records(first, ts)[i] <= Records(first, ts)[j]
    ensures forall i :: 0 <= i < |Records(first, ts)| ==> first <= Records(first, ts)[i]
  {
    if ts != [] { RecordsRise(first, ts[..|ts| - 1]); }
  }

  // ----- parsing -----

  class SerialMessageProcessor {
    const rangeScale: int
    const timeScale: int
    var latestPliTimestamps: map<bytes, nat>
    /** The positions pushed to the gateway, relayed ones and senders' own; each is also offered for relaying. */
    var forwarded: seq<Located>

    ghost function Value(): Received
      reads this
    {
      Received(latestPliTimestamps, forwarded)
    }

    constructor (rangeScale: int, timeScale: int)
      ensures Value() == Received(map[], []) && this.rangeScale == rangeScale && this.timeScale == timeScale
    {
      this.rangeScale, this.timeScale := rangeScale, timeScale;
      latestPliTimestamps, forwarded := map[], [];
    }

    method TakeEntry(reader: TerseReader) returns (e: PliEntry)
      requires reader.Valid()
      modifies reader
      ensures reader.Valid() && Read(e, reader.Rest()) == EntryOf(old(reader.Rest()))
    {
      var name := reader.ExtractString();
      var dLat := reader.ExtractInt(2);
      var dLon := reader.ExtractInt(2);
      var dTime := reader.ExtractInt(1);
      var hops := reader.ExtractInt(1);
      e := PliEntry(name, dLat, dLon, dTime, hops);
    }

    method Forward(x: Located)
      modifies this
      ensures Value() == Taken(old(Value()), x)
    {
      if x.name in latestPliTimestamps && x.created < latestPliTimestamps[x.name] {
        return;
      }
      latestPliTimestamps := latestPliTimestamps[x.name := x.created];
      forwarded := forwarded + [x];
    }

    /** What has been done once the entries `es` have been read, of `count` in the whole blob. */
    ghost predicate ReadSoFar(reader: TerseReader, all: Read<seq<PliEntry>>, es: seq<PliEntry>, count: int,
                              from: Received, lat: int, lon: int, time: nat)
      reads this, reader
    {
      && reader.Valid()
      && all.value == es + EntriesOf(reader.Rest(), count - |es|).value
      && Value() == TakenAll(from, LocatedAll(es, lat, lon, time, rangeScale, timeScale))
    }

    method ParseOne(reader: TerseReader, baseLat: int, baseLon: int, baseTime: nat, count: int,
                    ghost all: Read<seq<PliEntry>>, ghost es: seq<PliEntry>, ghost from: Received)
      returns (ghost read: seq<PliEntry>)
      requires ReadSoFar(reader, all, es, count, from, baseLat, baseLon, baseTime) && |es| < count
      modifies this, reader
      ensures |read| == |es| + 1 && ReadSoFar(reader, all, read, count, from, baseLat, baseLon, baseTime)
    {
      ghost var rest := reader.Rest();
      var e := TakeEntry(reader);
      var x := LocatedAt(e, baseLat, baseLon, baseTime, rangeScale, timeScale);
      ghost var xs := LocatedAll(es, baseLat, baseLon, baseTime, rangeScale, timeScale);
      Forward(x);
      read := es + [e];
      assert read[..|es|] == es && (xs + [x])[..|xs|] == xs;
      ghost var more := EntriesOf(reader.Rest(), count - |read|).value;
      assert es + ([e] + more) == read + more;
    }

    method ParseEntries(reader: TerseReader, count: int, baseLat: int, baseLon: int, baseTime: nat)
      requires reader.Valid()
      modifies this, reader
      ensures Value() == TakenAll(old(Value()),
        LocatedAll(EntriesOf(old(reader.Rest()), count).value, baseLat, baseLon, baseTime, rangeScale, timeScale))
    {
      ghost var all, from := EntriesOf(reader.Rest(), count), Value();
      var i := 0;
      ghost var es: seq<PliEntry> := [];
      assert [] + all.value == all.value;
      while i < count
        invariant 0 <= i == |es| && (i <= count || (i == 0 && count < 0))
        invariant ReadSoFar(reader, all, es, count, from, baseLat, baseLon, baseTime)
      {
        es := ParseOne(reader, baseLat, baseLon, baseTime, count, all, es, from);
        i := i + 1;
      }
      NothingLeft(reader.Rest(), count - |es|, es);
    }

    method ParseGroupPliBlob(blob: bytes, baseLat: int, baseLon: int, baseTime: nat)
      modifies this
      ensures Value() == TakenAll(old(Value()),
        LocatedAll(BlobEntries(blob).value, baseLat, baseLon, baseTime, rangeScale, timeScale))
    {
      var reader := new TerseReader(blob);
      var count := reader.ExtractInt(1);
      ParseEntries(reader, count, baseLat, baseLon, baseTime);
    }

    method ReadRelayFields(terse: bytes) returns (f: RelayFields)
      ensures f == RelayFieldsOf(terse).value
    {
      var reader := new TerseReader(terse);
      var name := reader.ExtractString();
      var lat := reader.ExtractInt(4);
      var lon := reader.ExtractInt(4);
      var time := reader.ExtractInt(4);
      var blob := reader.ExtractBlob();
      f := RelayFields(name, lat, lon, AsUnsigned(time, 4), blob);
    }

    /** A relay packet: its entries are pushed first, and the sender's own time is kept in any case. */
    method ParseRelayPacket(terse: bytes) returns (own: Located)
      modifies this
      ensures var p := RelayOf(terse).value;
        && own == Located(p.name, p.lat, p.lon, Word(p.created), 0)
        && Value() == Parsed(old(Value()), p, rangeScale, timeScale)
    {
      var f := ReadRelayFields(terse);
      RelayIs(terse, f);
      var created := Word(f.created);
      ParseGroupPliBlob(f.blob, f.lat, f.lon, created);
      latestPliTimestamps := latestPliTimestamps[f.name := created];
      own := Located(f.name, f.lat, f.lon, created, 0);
    }

    /** A message with a relay packet: after what parsing has pushed, the sender's own position is. */
    method ProcessRelayMessage(terse: bytes)
      modifies this
      ensures Value() == AfterPacket(old(Value()), RelayOf(terse).value, rangeScale, timeScale)
    {
      var own := ParseRelayPacket(terse);
      forwarded := forwarded + [own];
    }
  }

  lemma NothingLeft(s: bytes, count: int, es: seq<PliEntry>)
    requires count <= 0
    ensures es + EntriesOf(s, count).value == es
  {}

  function AfterEntries(r: Received, p: RelayPacket, rangeScale: int, timeScale: int): Received
  {
    TakenAll(r, LocatedAll(p.entries, p.lat, p.lon, Word(p.created), rangeScale, timeScale))
  }

  /** What is known and handed on once a packet has been parsed. */
  function Parsed(r: Received, p: RelayPacket, rangeScale: int, timeScale: int): Received
  {
    var taken := AfterEntries(r, p, rangeScale, timeScale);
    taken.(latest := taken.latest[p.name := Word(p.created)])
  }

  /** And once the sender's own position has been handed on, too. */
  function AfterPacket(r: Received, p: RelayPacket, rangeScale: int, timeScale: int): Received
  {
    var parsed := Parsed(r, p, rangeScale, timeScale);
    parsed.(forwarded := parsed.forwarded + [Located(p.name, p.lat, p.lon, Word(p.created), 0)])
  }

  lemma RelayIs(s: bytes, f: RelayFields)
    requires f == RelayFieldsOf(s).value
    ensures RelayOf(s).value == RelayPacket(f.name, f.lat, f.lon, f.created, BlobEntries(f.blob).value)
  {}

  /**
   A position is dropped exactly if a later time is kept for its name; otherwise it is handed on
   and its time kept.
   */
  lemma DroppedIffOlder(r: Received, x: Located)
    ensures (x.name in r.latest && r.latest[x.name] > x.created) ==> Taken(r, x) == r
    ensures !(x.name in r.latest && r.latest[x.name] > x.created) ==>
              && Taken(r, x).forwarded == r.forwarded + [x]
              && Taken(r, x).latest == r.latest[x.name := x.created]
  {
  }

  /** Whatever the packet brings besides, the sender's own position is pushed last, and its time is kept. */
  lemma OwnPushedLast(r: Received, p: RelayPacket, rangeScale: int, timeScale: int)
    ensures var after := AfterPacket(r, p, rangeScale, timeScale);
      && after.forwarded != []
      && after.forwarded[|after.forwarded| - 1] == Located(p.name, p.lat, p.lon, p.created % Relay.WORD, 0)
      && p.name in after.latest && after.latest[p.name] == p.created % Relay.WORD
  {
  }

  lemma PacketIsGood(m: seq<Relay.Known>, base: Relay.Base, c: Relay.Settings, from: nat, count: nat)
    requires Relay.GoodSettings(c) && from < |m| && GoodName(c.nodeName)
    requires forall i :: 0 <= i < |m| ==> GoodName(m[i].name)
    requires FitsSigned(base.lat, 4) && FitsSigned(base.lon, 4)
    requires |Relay.EntriesSent(m, base, c, from, count)| <= 127
    ensures GoodRelay(Relay.RelayPacketOf(m, base, c, from, count))
  {
    Relay.EntriesAreGood(m, base, c, from, count);
    Powers();
  }

  /**
   The sender's own name, position and time are read as the scheduler put them in, whatever becomes
   of the entries.
   */
  lemma OwnPositionArrives(m: seq<Relay.Known>, base: Relay.Base, c: Relay.Settings, from: nat, count: nat)
    requires Relay.GoodSettings(c) && from < |m| && GoodName(c.nodeName)
    requires forall i :: 0 <= i < |m| ==> GoodName(m[i].name)
    requires FitsSigned(base.lat, 4) && FitsSigned(base.lon, 4)
    requires |Relay.EntriesSent(m, base, c, from, count)| <= 127
    ensures var q := RelayOf(EncodeRelay(Relay.RelayPacketOf(m, base, c, from, count), [])).value;
      q.name == c.nodeName && q.lat == base.lat && q.lon == base.lon && q.created == base.time % Relay.WORD
  {
    PacketIsGood(m, base, c, from, count);
    RelayRead(Relay.RelayPacketOf(m, base, c, from, count), []);
  }

  // ----- scaling there and back -----

  /** What an entry is taken to mean: the sender's own less the difference, times the scale, in 32 bits. */
  lemma LocatedMeans(e: PliEntry, lat: int, lon: int, created: nat, rangeScale: int, timeScale: int)
    ensures var x := LocatedAt(e, lat, lon, created, rangeScale, timeScale);
      && x.name == e.name && x.hops == e.hops
      && FitsSigned(x.lat, 4) && (x.lat - (lat - e.dLat) * rangeScale) % Relay.WORD == 0
      && FitsSigned(x.lon, 4) && (x.lon - (lon - e.dLon) * rangeScale) % Relay.WORD == 0
      && x.created < Relay.WORD && (x.created - (created - e.dTime) * timeScale) % Relay.WORD == 0
  {
    SignedWordIs((lat - e.dLat) * rangeScale);
    SignedWordIs((lon - e.dLon) * rangeScale);
    WordIs((created - e.dTime) * timeScale);
  }

  lemma WordIs(v: int)
    ensures Word(v) < Relay.WORD && (Word(v) - v) % Relay.WORD == 0
  {
  }

  lemma SignedWordIs(v: int)
    ensures FitsSigned(SignedWord(v), 4) && (SignedWord(v) - v) % Relay.WORD == 0
  {
    Powers();
    WordIs(v);
  }

  /** A number sent as a scaled difference and put together again. */
  function Rescaled(base: int, x: int, scale: int): int
    requires scale != 0
  {
    (base - Quotient(base - x, scale)) * scale
  }

  /** The receiver multiplies the whole difference, not what was divided: it is right only for scale 1. */
  lemma ScalingInvertsIff(scale: int)
    requires scale != 0
    ensures (forall base, x :: Rescaled(base, x, scale) == x) <==> scale == 1
  {
    if scale == 1 {
      forall base, x ensures Rescaled(base, x, 1) == x {
        assert Quotient(base - x, 1) == base - x;
      }
    } else {
      assert Quotient(1 - 1, scale) == 0;
      assert Rescaled(1, 1, scale) == scale;
    }
  }

  lemma WordBack(v: int)
    requires FitsSigned(v, 4)
    ensures SignedWord(v) == v
  {
    Powers();
  }

  /** With both scales 1 a relayed position arrives as it is known at the sender. */
  lemma RelayedAsKnown(k: Relay.Known, base: Relay.Base, c: Relay.Settings)
    requires Relay.GoodSettings(c) && c.rangeScale == 1 && c.timeScale == 1
    requires FitsSigned(k.info.lat, 4) && FitsSigned(k.info.lon, 4) && 0 <= k.info.createdTime < Relay.WORD
    ensures LocatedAt(Relay.EntryOf(k, base, c), base.lat, base.lon, Word(base.time), 1, 1)
         == Located(k.name, k.info.lat, k.info.lon, k.info.createdTime, 1)
  {
    var e := Relay.EntryOf(k, base, c);
    assert e.dLat == base.lat - k.info.lat && e.dLon == base.lon - k.info.lon;
    assert e.dTime == base.time - k.info.createdTime;
    WordBack(k.info.lat);
    WordBack(k.info.lon);
  }
}
