/**
 The field encodings of terse messages: big-endian numbers and length-prefixed strings.
 What a receiver has still to read is the rest of the message behind its cursor.
 */
module TerseFields {
  import opened Octets
  import opened Sequences

  const MAX_STRING := 65535

  function Power256(width: nat): (p: nat)
    ensures p >= 1
  {
    if width == 0 then 1 else 256 * Power256(width - 1)
  }

  /** The lowest bytes of a number, the lowest last; a negative number is in two's complement. */
  function EncodeInt(v: int, width: nat): (s: bytes)
    ensures |s| == width
    decreases width
  {
    if width == 0 then [] else EncodeInt(v / 256, width - 1) + [v % 256]
  }

  /** The two's complement reading of a number of `width` bytes. */
  function AsSigned(n: nat, width: nat): int
  {
    if 2 * n < Power256(width) then n else n - Power256(width)
  }

  /** A signed number taken as an unsigned one. */
  function AsUnsigned(v: int, width: nat): int
  {
    if v >= 0 then v else v + Power256(width)
  }

  predicate FitsSigned(v: int, width: nat)
  {
    0 <= 2 * v + Power256(width) && 2 * v < Power256(width)
  }

  /** A string too long for its length field is sent as an empty one. */
  function EncodeString(str: bytes): bytes
  {
    if |str| > MAX_STRING then EncodeInt(0, 2) else EncodeInt(|str|, 2) + str
  }

  // ----- reading -----

  /** What is read, and the rest behind it. */
  datatype Read<T> = Read(value: T, rest: bytes)

  /** The number in the first bytes. */
  function UnsignedOf(s: bytes, width: nat): nat
    requires width <= |s|
  {
    if width == 0 then 0 else 256 * UnsignedOf(s, width - 1) + s[width - 1] as int
  }

  function IntOf(s: bytes, width: nat): Read<int>
  {
    if width > |s| then Read(0, s) else Read(AsSigned(UnsignedOf(s, width), width), s[width..])
  }

  /** Every second byte. */
  function LowBytes(s: bytes, count: nat): (r: bytes)
    requires 2 * count <= |s|
    ensures |r| == count
  {
    if count == 0 then [] else LowBytes(s, count - 1) + [s[2 * count - 1]]
  }

  function OldStyleStringOf(s: bytes): Read<bytes>
  {
    if 4 > |s| then Read([], s)
    else
      var n := UnsignedOf(s, 4);
      if 4 + 2 * n > |s| then Read([], s[4..]) else Read(LowBytes(s[4..], n), s[4 + 2 * n..])
  }

  function StringOf(s: bytes): Read<bytes>
  {
    if 2 > |s| then Read([], s)
    else
      var n := UnsignedOf(s, 2);
      if n == 0 then OldStyleStringOf(s)
      else if 2 + n > |s| then Read([], s[2..])
      else Read(s[2..2 + n], s[2 + n..])
  }

  function BlobOf(s: bytes): Read<bytes>
  {
    if 2 > |s| then Read([], s)
    else
      var n := UnsignedOf(s, 2);
      if 2 + n > |s| then Read([], s[2..]) else Read(s[2..2 + n], s[2 + n..])
  }

  // ----- there and back, one field -----

  /** Adding what is too high for the bytes changes none of them. */
  lemma {:induction false} HighPartLost(v: int, k: int, width: nat)
    ensures EncodeInt(v + k * Power256(width), width) == EncodeInt(v, width)
    decreases width
  {
    if width > 0 {
      var p := k * Power256(width - 1);
      assert k * Power256(width) == 256 * p;
      HigherByte(v, p);
      HighPartLost(v / 256, k, width - 1);
    }
  }

  lemma HigherByte(v: int, p: int)
    ensures (v + 256 * p) / 256 == v / 256 + p && (v + 256 * p) % 256 == v % 256
  {}

  lemma Behind(a: bytes, b: bytes)
    ensures (a + b)[..|a|] == a && (a + b)[|a|..] == b
  {}

  /** Reading the bytes of a number that they can hold gives it back. */
  lemma {:induction false} UnsignedBack(v: nat, width: nat, rest: bytes)
    requires v < Power256(width)
    ensures UnsignedOf(EncodeInt(v, width) + rest, width) == v
  {
    if width > 0 {
      Regroup(EncodeInt(v / 256, width - 1), [v % 256], rest);
      UnsignedBack(v / 256, width - 1, [v % 256] + rest);
    }
  }

  lemma IntRoundTrip(v: int, width: nat, rest: bytes)
    requires FitsSigned(v, width)
    ensures IntOf(EncodeInt(v, width) + rest, width) == Read(v, rest)
  {
    if v < 0 { HighPartLost(v, 1, width); }
    UnsignedBack(AsUnsigned(v, width), width, rest);
    Behind(EncodeInt(v, width), rest);
  }

  /** Read as signed, and then taken as unsigned: as the reader takes times. */
  lemma UnsignedRoundTrip(v: int, width: nat, rest: bytes)
    requires 0 <= v < Power256(width)
    ensures var r := IntOf(EncodeInt(v, width) + rest, width); AsUnsigned(r.value, width) == v && r.rest == rest
  {
    UnsignedBack(v, width, rest);
    Behind(EncodeInt(v, width), rest);
  }

  lemma LastByte(v: int, width: nat)
    requires width > 0
    ensures EncodeInt(v, width) == EncodeInt(v / 256, width - 1) + [v % 256]
  {
  }

  lemma DividedAgain(v: int)
    ensures v / 256 / 256 == v / 0x1_0000 && v / 256 / 256 / 256 == v / 0x100_0000
  {
  }

  /** Network order: the highest byte comes first, on the way out and on the way in. */
  lemma HighestFirst(v: int)
    ensures EncodeInt(v, 1) == [v % 256]
    ensures EncodeInt(v, 2) == [v / 0x100 % 256, v % 256]
    ensures EncodeInt(v, 4) == [v / 0x100_0000 % 256, v / 0x1_0000 % 256, v / 0x100 % 256, v % 256]
  {
    var a, b, c := v / 256, v / 256 / 256, v / 256 / 256 / 256;
    DividedAgain(v);
    LastByte(v, 1);
    LastByte(v, 2);
    LastByte(a, 1);
    LastByte(v, 4);
    LastByte(a, 3);
    LastByte(b, 2);
    LastByte(c, 1);
    assert EncodeInt(v, 4) == [] + [c % 256] + [b % 256] + [a % 256] + [v % 256];
  }

  lemma HighestReadFirst(s: bytes)
    requires |s| >= 4
    ensures UnsignedOf(s, 1) == s[0] as int
    ensures UnsignedOf(s, 2) == 0x100 * s[0] as int + s[1] as int
    ensures UnsignedOf(s, 4) == 0x100_0000 * s[0] as int + 0x1_0000 * s[1] as int + 0x100 * s[2] as int + s[3] as int
  {
    assert UnsignedOf(s, 1) == s[0] as int && UnsignedOf(s, 2) == 0x100 * s[0] as int + s[1] as int;
    assert UnsignedOf(s, 3) == 0x1_0000 * s[0] as int + 0x100 * s[1] as int + s[2] as int;
  }

  lemma {:induction false} UnsignedFits(s: bytes, width: nat)
    requires width <= |s|
    ensures UnsignedOf(s, width) < Power256(width)
  {
    if width > 0 { UnsignedFits(s, width - 1); }
  }

  /** A number is read back, with the cursor behind it, exactly if its bytes can hold it in two's complement. */
  lemma IntRoundTripIff(v: int, width: nat, rest: bytes)
    ensures IntOf(EncodeInt(v, width) + rest, width) == Read(v, rest) <==> FitsSigned(v, width)
  {
    if FitsSigned(v, width) {
      IntRoundTrip(v, width, rest);
    } else {
      UnsignedFits(EncodeInt(v, width) + rest, width);
    }
  }

  lemma FieldRanges(v: int)
    ensures FitsSigned(v, 1) <==> -128 <= v < 128
    ensures FitsSigned(v, 2) <==> -32768 <= v < 32768
    ensures FitsSigned(v, 4) <==> -0x8000_0000 <= v < 0x8000_0000
  {
    Powers();
  }

  lemma Powers()
    ensures Power256(1) == 256 && Power256(2) == 65536 && Power256(4) == 0x1_0000_0000
  {
    assert Power256(0) == 1 && Power256(3) == 16777216;
  }

  lemma LengthBack(n: nat, rest: bytes)
    requires n <= MAX_STRING
    ensures UnsignedOf(EncodeInt(n, 2) + rest, 2) == n && (EncodeInt(n, 2) + rest)[2..] == rest
  {
    Powers();
    UnsignedBack(n, 2, rest);
    Behind(EncodeInt(n, 2), rest);
  }

  lemma Prefixed(l: bytes, str: bytes, rest: bytes)
    requires |l| == 2
    ensures ((l + str) + rest)[2..2 + |str|] == str && ((l + str) + rest)[2 + |str|..] == rest
  {}

  lemma GoodStringRead(str: bytes, rest: bytes)
    requires 1 <= |str| <= MAX_STRING
    ensures StringOf(EncodeString(str) + rest) == Read(str, rest)
  {
    Regroup(EncodeInt(|str|, 2), str, rest);
    LengthBack(|str|, str + rest);
    Prefixed(EncodeInt(|str|, 2), str, rest);
  }

  /** A string is read back as it was written, with the cursor left behind it, exactly if it has 1 to 65535 bytes. */
  lemma StringRoundTripIff(str: bytes, rest: bytes)
    ensures StringOf(EncodeString(str) + rest) == Read(str, rest) <==> 1 <= |str| <= MAX_STRING
  {
    if 1 <= |str| <= MAX_STRING {
      GoodStringRead(str, rest);
    } else {
      assert EncodeInt(0, 2) + [] == EncodeInt(0, 2);
      assert EncodeString(str) == EncodeInt(0, 2);
      LengthBack(0, rest);
      NeverTwoBytes(EncodeInt(0, 2) + rest);
    }
  }

  /** The older encoding never takes just the two bytes of an empty string. */
  lemma NeverTwoBytes(s: bytes)
    ensures |OldStyleStringOf(s).rest| != |s| - 2
  {}

  /** A blob of up to 65535 bytes is read back; a longer one is read as empty. */
  lemma BlobRoundTrip(blob: bytes, rest: bytes)
    ensures BlobOf(EncodeString(blob) + rest) == Read(if |blob| <= MAX_STRING then blob else [], rest)
  {
    if |blob| <= MAX_STRING {
      Regroup(EncodeInt(|blob|, 2), blob, rest);
      LengthBack(|blob|, blob + rest);
      Prefixed(EncodeInt(|blob|, 2), blob, rest);
    } else {
      LengthBack(0, rest);
      assert (EncodeInt(0, 2) + rest)[2..2 + 0] == [];
    }
  }
}

/** The stream a sender appends fields to, and the cursor a receiver takes them off with. */
module TerseStreams {
  import opened Octets
  import opened Sequences
  import opened TerseFields

  class TerseWriter {
    var contents: bytes

    constructor ()
      ensures contents == []
    {
      contents := [];
    }

    /** The bytes of a number in network order. */
    method AppendInt(v: int, width: nat)
      modifies this
      ensures contents == old(contents) + EncodeInt(v, width)
    {
      contents := contents + EncodeInt(v, width);
    }

    method AppendString(str: bytes)
      modifies this
      ensures contents == old(contents) + EncodeString(str)
    {
      if |str| > MAX_STRING {
        AppendInt(0, 2);
      } else {
        AppendInt(|str|, 2);
        Regroup(old(contents), EncodeInt(|str|, 2), str);
        contents := contents + str;
      }
    }

    /** A blob has the format of a string. */
    method AppendBlob(blob: bytes)
      modifies this
      ensures contents == old(contents) + EncodeString(blob)
    {
      AppendString(blob);
    }
  }

  class TerseReader {
    const terse: bytes
    var cursor: nat

    ghost predicate Valid()
      reads this
    {
      cursor <= |terse|
    }

    /** What has not been read yet. */
    ghost function Rest(): bytes
      reads this
      requires Valid()
    {
      terse[cursor..]
    }

    constructor (terse: bytes)
      ensures Valid() && this.terse == terse && Rest() == terse
    {
      this.terse, cursor := terse, 0;
    }

    /** The big-endian number of the next bytes. */
    method TakeUnsigned(width: nat) returns (n: nat)
      requires Valid() && cursor + width <= |terse|
      modifies this
      ensures Valid() && cursor == old(cursor) + width
      ensures n == UnsignedOf(old(Rest()), width) && Rest() == old(Rest())[width..]
    {
      n := 0;
      ghost var s := Rest();
      var start := cursor;
      while cursor < start + width
        invariant start <= cursor <= start + width && n == UnsignedOf(s, cursor - start)
      {
        n := 256 * n + terse[cursor] as int;
        cursor := cursor + 1;
      }
    }

    method ExtractInt(width: nat) returns (v: int)
      requires Valid()
      modifies this
      ensures Valid() && Read(v, Rest()) == IntOf(old(Rest()), width)
    {
      if cursor + width > |terse| {
        return 0;
      }
      var n := TakeUnsigned(width);
      v := AsSigned(n, width);
    }

    method ExtractString() returns (str: bytes)
      requires Valid()
      modifies this
      ensures Valid() && Read(str, Rest()) == StringOf(old(Rest()))
    {
      str := [];
      if cursor + 2 > |terse| {
        return;
      }
      ghost var s := Rest();
      var start := cursor;
      var length := TakeUnsigned(2);
      cursor := start;
      if length > 0 {
        cursor := cursor + 2;
        if cursor + length > |terse| {
          return;
        }
        var i := 0;
        while i < length
          invariant 0 <= i <= length && cursor == start + 2 + i && str == terse[start + 2..cursor]
        {
          str := str + [terse[cursor]];
          cursor := cursor + 1;
          i := i + 1;
        }
        assert s[2..2 + length] == terse[start + 2..cursor] && s[2 + length..] == terse[cursor..];
      } else {
        str := ExtractOldStyleString();
      }
    }

    method ExtractOldStyleString() returns (str: bytes)
      requires Valid()
      modifies this
      ensures Valid() && Read(str, Rest()) == OldStyleStringOf(old(Rest()))
    {
      str := [];
      if cursor + 4 > |terse| {
        return;
      }
      var length := TakeUnsigned(4);
      if cursor + length * 2 > |terse| {
        return;
      }
      ghost var s, start := Rest(), cursor;
      var i := 0;
      while i < length
        invariant 0 <= i <= length && cursor == start + 2 * i && str == LowBytes(s, i)
      {
        assert terse[cursor + 1] == s[2 * (i + 1) - 1];
        str := str + [terse[cursor + 1]];
        cursor := cursor + 2;
        i := i + 1;
      }
    }

    method ExtractBlob() returns (blob: bytes)
      requires Valid()
      modifies this
      ensures Valid() && Read(blob, Rest()) == BlobOf(old(Rest()))
    {
      if cursor + 2 > |terse| {
        return [];
      }
      ghost var s := Rest();
      var length := TakeUnsigned(2);
      if cursor + length > |terse| {
        return [];
      }
      blob := terse[cursor..cursor + length];
      cursor := cursor + length;
      assert s[2..2 + length] == blob && s[2 + length..] == terse[cursor..];
    }
  }
}

/** Relay packets and chat packets. */
module TersePackets {
  import opened Octets
  import opened Sequences
  import opened TerseFields

  /** One relayed position, as differences to the sender's own. */
  datatype PliEntry = PliEntry(name: bytes, dLat: int, dLon: int, dTime: int, hops: int)

  datatype RelayPacket = RelayPacket(name: bytes, lat: int, lon: int, created: int, entries: seq<PliEntry>)

  datatype ChatPacket = ChatPacket(uuid: bytes, originator: bytes, text: bytes, created: int)

  predicate GoodName(name: bytes)
  {
    1 <= |name| <= MAX_STRING
  }

  predicate GoodEntry(e: PliEntry)
  {
    && GoodName(e.name) && FitsSigned(e.dLat, 2) && FitsSigned(e.dLon, 2)
    && FitsSigned(e.dTime, 1) && FitsSigned(e.hops, 1)
  }

  predicate GoodEntries(es: seq<PliEntry>)
  {
    forall i :: 0 <= i < |es| ==> GoodEntry(es[i])
  }

  predicate GoodRelay(p: RelayPacket)
  {
    && GoodName(p.name) && FitsSigned(p.lat, 4) && FitsSigned(p.lon, 4) && 0 <= p.created < Power256(4)
    && GoodEntries(p.entries) && |p.entries| <= 127
  }

  predicate GoodChat(p: ChatPacket)
  {
    GoodName(p.uuid) && GoodName(p.originator) && GoodName(p.text) && 0 <= p.created < Power256(4)
  }

  // ----- writing, in front of what comes after -----

  function EncodeEntry(e: PliEntry, rest: bytes): bytes
  {
    EncodeString(e.name)
    + (EncodeInt(e.dLat, 2) + (EncodeInt(e.dLon, 2) + (EncodeInt(e.dTime, 1) + (EncodeInt(e.hops, 1) + rest))))
  }

  function EncodeEntries(es: seq<PliEntry>, rest: bytes): bytes
  {
    if es == [] then rest else EncodeEntry(es[0], EncodeEntries(es[1..], rest))
  }

  function EncodeBlob(es: seq<PliEntry>): bytes
  {
    EncodeInt(|es|, 1) + EncodeEntries(es, [])
  }

  function EncodeRelay(p: RelayPacket, rest: bytes): bytes
  {
    EncodeString(p.name) + (EncodeInt(p.lat, 4) + (EncodeInt(p.lon, 4) + (EncodeInt(p.created, 4)
      + (EncodeString(EncodeBlob(p.entries)) + rest))))
  }

  function EncodeChat(p: ChatPacket, rest: bytes): bytes
  {
    EncodeString(p.uuid) + (EncodeString(p.originator) + (EncodeString(p.text) + (EncodeInt(p.created, 4) + rest)))
  }

  // ----- reading -----

  function EntryOf(s: bytes): Read<PliEntry>
  {
    var name := StringOf(s);
    var dLat := IntOf(name.rest, 2);
    var dLon := IntOf(dLat.rest, 2);
    var dTime := IntOf(dLon.rest, 1);
    var hops := IntOf(dTime.rest, 1);
    Read(PliEntry(name.value, dLat.value, dLon.value, dTime.value, hops.value), hops.rest)
  }

  function EntriesOf(s: bytes, count: int): Read<seq<PliEntry>>
    decreases count
  {
    if count <= 0 then Read([], s)
    else
      var e := EntryOf(s);
      var more := EntriesOf(e.rest, count - 1);
      Read([e.value] + more.value, more.rest)
  }

  function BlobEntries(blob: bytes): Read<seq<PliEntry>>
  {
    var count := IntOf(blob, 1);
    EntriesOf(count.rest, count.value)
  }

  datatype RelayFields = RelayFields(name: bytes, lat: int, lon: int, created: int, blob: bytes)

  function RelayFieldsOf(s: bytes): Read<RelayFields>
  {
    var name := StringOf(s);
    var lat := IntOf(name.rest, 4);
    var lon := IntOf(lat.rest, 4);
    var created := IntOf(lon.rest, 4);
    var blob := BlobOf(created.rest);
    Read(RelayFields(name.value, lat.value, lon.value, AsUnsigned(created.value, 4), blob.value), blob.rest)
  }

  function RelayOf(s: bytes): Read<RelayPacket>
  {
    var f := RelayFieldsOf(s);
    Read(RelayPacket(f.value.name, f.value.lat, f.value.lon, f.value.created, BlobEntries(f.value.blob).value), f.rest)
  }

  function ChatOf(s: bytes): Read<ChatPacket>
  {
    var uuid := StringOf(s);
    var originator := StringOf(uuid.rest);
    var text := StringOf(originator.rest);
    var created := IntOf(text.rest, 4);
    Read(ChatPacket(uuid.value, originator.value, text.value, AsUnsigned(created.value, 4)), created.rest)
  }

  // ----- there and back -----

  lemma EntryRoundTrip(e: PliEntry, rest: bytes)
    requires GoodEntry(e)
    ensures EntryOf(EncodeEntry(e, rest)) == Read(e, rest)
  {
    var s4 := EncodeInt(e.hops, 1) + rest;
    var s3 := EncodeInt(e.dTime, 1) + s4;
    var s2 := EncodeInt(e.dLon, 2) + s3;
    var s1 := EncodeInt(e.dLat, 2) + s2;
    GoodStringRead(e.name, s1);
    IntRoundTrip(e.dLat, 2, s2);
    IntRoundTrip(e.dLon, 2, s3);
    IntRoundTrip(e.dTime, 1, s4);
    IntRoundTrip(e.hops, 1, rest);
  }

  lemma {:induction false} EntriesRoundTrip(es: seq<PliEntry>, rest: bytes)
    requires GoodEntries(es)
    ensures EntriesOf(EncodeEntries(es, rest), |es|) == Read(es, rest)
  {
    if es != [] {
      EntryRoundTrip(es[0], EncodeEntries(es[1..], rest));
      EntriesRoundTrip(es[1..], rest);
      assert [es[0]] + es[1..] == es;
    }
  }

  lemma BlobEntriesRoundTrip(es: seq<PliEntry>)
    requires GoodEntries(es) && |es| <= 127
    ensures BlobEntries(EncodeBlob(es)) == Read(es, [])
  {
    Powers();
    IntRoundTrip(|es|, 1, EncodeEntries(es, []));
    EntriesRoundTrip(es, []);
  }

  /** What is read of a relay packet: all of it, except that the entries are lost if the blob is too long. */
  lemma RelayRead(p: RelayPacket, rest: bytes)
    requires GoodRelay(p)
    ensures RelayOf(EncodeRelay(p, rest)) ==
      Read(if |EncodeBlob(p.entries)| <= MAX_STRING then p else p.(entries := []), rest)
  {
    var s4 := EncodeString(EncodeBlob(p.entries)) + rest;
    var s3 := EncodeInt(p.created, 4) + s4;
    var s2 := EncodeInt(p.lon, 4) + s3;
    var s1 := EncodeInt(p.lat, 4) + s2;
    GoodStringRead(p.name, s1);
    IntRoundTrip(p.lat, 4, s2);
    IntRoundTrip(p.lon, 4, s3);
    UnsignedRoundTrip(p.created, 4, s4);
    BlobRoundTrip(EncodeBlob(p.entries), rest);
    BlobEntriesRoundTrip(p.entries);
    assert BlobEntries([]).value == [];
  }

  /**
   A relay packet is read back field for field, with the cursor at its end, exactly if its blob
   has at most 65535 bytes.
   */
  lemma RelayRoundTripIff(p: RelayPacket, rest: bytes)
    requires GoodRelay(p)
    ensures RelayOf(EncodeRelay(p, rest)) == Read(p, rest) <==> |EncodeBlob(p.entries)| <= MAX_STRING
  {
    RelayRead(p, rest);
    if p.entries == [] { assert |EncodeBlob(p.entries)| == 1; }
  }

  /** A chat packet is read back field for field, with the cursor at its end. */
  lemma ChatRoundTrip(p: ChatPacket, rest: bytes)
    requires GoodChat(p)
    ensures ChatOf(EncodeChat(p, rest)) == Read(p, rest)
  {
    var s3 := EncodeInt(p.created, 4) + rest;
    var s2 := EncodeString(p.text) + s3;
    var s1 := EncodeString(p.originator) + s2;
    GoodStringRead(p.uuid, s1);
    GoodStringRead(p.originator, s2);
    GoodStringRead(p.text, s3);
    UnsignedRoundTrip(p.created, 4, rest);
  }

  /** Only the lowest 32 bits of a longer time are sent. */
  lemma ChatTimeTruncated(p: ChatPacket, k: int, rest: bytes)
    ensures EncodeChat(p.(created := p.created + k * Power256(4)), rest) == EncodeChat(p, rest)
  {
    HighPartLost(p.created, k, 4);
  }

  // ----- appending -----

  lemma FiveJoined(s: bytes, a: bytes, b: bytes, c: bytes, d: bytes, e: bytes, rest: bytes)
    ensures s + a + b + c + d + e + rest == s + (a + (b + (c + (d + (e + rest)))))
  {}

  lemma PacketJoined(a: bytes, b: bytes, c: bytes, d: bytes, e: bytes)
    ensures [] + a + b + c + d + e == a + (b + (c + (d + (e + []))))
  {}

  lemma EntryInFront(e: PliEntry, rest: bytes)
    ensures EncodeEntry(e, rest) == EncodeEntry(e, []) + rest
  {
    var a, b, c := EncodeString(e.name), EncodeInt(e.dLat, 2), EncodeInt(e.dLon, 2);
    var d, f := EncodeInt(e.dTime, 1), EncodeInt(e.hops, 1);
    FiveInFront(a, b, c, d, f, rest);
  }

  lemma FiveInFront(a: bytes, b: bytes, c: bytes, d: bytes, e: bytes, rest: bytes)
    ensures a + (b + (c + (d + (e + rest)))) == (a + (b + (c + (d + (e + []))))) + rest
  {}

  /** Appending an entry to the entries written so far. */
  lemma {:induction false} EntryAppended(es: seq<PliEntry>, e: PliEntry)
    ensures EncodeEntries(es + [e], []) == EncodeEntries(es, []) + EncodeEntry(e, [])
  {
    if es == [] {
      assert [] + [e] == [e] && [e][1..] == [];
      assert [] + EncodeEntry(e, []) == EncodeEntry(e, []);
    } else {
      assert (es + [e])[1..] == es[1..] + [e];
      EntryAppended(es[1..], e);
      EntryInFront(es[0], EncodeEntries(es[1..] + [e], []));
      EntryInFront(es[0], EncodeEntries(es[1..], []));
      Regroup(EncodeEntry(es[0], []), EncodeEntries(es[1..], []), EncodeEntry(e, []));
    }
  }

  // ----- where everything stands -----

  ghost predicate StandsAt(s: bytes, at: nat, part: bytes)
  {
    at + |part| <= |s| && s[at..at + |part|] == part
  }

  /** The length of the name and the name, then latitude, longitude and time, and the blob with its length. */
  ghost predicate RelayStands(s: bytes, p: RelayPacket, blob: bytes)
  {
    var n := |p.name|;
    && StandsAt(s, 0, EncodeInt(n, 2) + p.name)
    && StandsAt(s, n + 2, EncodeInt(p.lat, 4)) && StandsAt(s, n + 6, EncodeInt(p.lon, 4))
    && StandsAt(s, n + 10, EncodeInt(p.created, 4))
    && StandsAt(s, n + 14, EncodeInt(|blob|, 2) + blob)
  }

  lemma RelayParts(p: RelayPacket, blob: bytes, rest: bytes)
    requires GoodName(p.name) && |blob| <= MAX_STRING
    ensures RelayStands(EncodeString(p.name) + (EncodeInt(p.lat, 4) + (EncodeInt(p.lon, 4) + (EncodeInt(p.created, 4)
                          + (EncodeString(blob) + rest)))), p, blob)
  {
    FiveAt(EncodeString(p.name), EncodeInt(p.lat, 4), EncodeInt(p.lon, 4), EncodeInt(p.created, 4), EncodeString(blob),
           rest, |p.name|);
  }

  /** Where the fields of a relay packet stand; the blob begins with the number of its entries. */
  lemma RelayLayout(p: RelayPacket, rest: bytes)
    requires GoodName(p.name) && |EncodeBlob(p.entries)| <= MAX_STRING
    ensures RelayStands(EncodeRelay(p, rest), p, EncodeBlob(p.entries))
    ensures EncodeBlob(p.entries)[0] == |p.entries| % 256
  {
    BlobBegins(p.entries);
    RelayParts(p, EncodeBlob(p.entries), rest);
  }

  lemma BlobBegins(es: seq<PliEntry>)
    ensures EncodeBlob(es) != [] && EncodeBlob(es)[0] == |es| % 256
  {
    HighestFirst(|es|);
  }

  lemma FiveAt(a: bytes, b: bytes, c: bytes, d: bytes, e: bytes, rest: bytes, n: nat)
    requires |a| == 2 + n && |b| == 4 && |c| == 4 && |d| == 4
    ensures var s := a + (b + (c + (d + (e + rest))));
      && StandsAt(s, 0, a) && StandsAt(s, n + 2, b) && StandsAt(s, n + 6, c) && StandsAt(s, n + 10, d)
      && StandsAt(s, n + 14, e)
  {
    FiveInRow(a, b, c, d, e, rest);
  }

  lemma StandsBehind(a: bytes, s: bytes, at: nat, part: bytes)
    requires StandsAt(s, at, part)
    ensures StandsAt(a + s, |a| + at, part)
  {
    assert (a + s)[|a| + at..|a| + at + |part|] == s[at..at + |part|];
  }

  lemma StandsFirst(a: bytes, s: bytes)
    ensures StandsAt(a + s, 0, a)
  {
  }

  lemma TwoInRow(a: bytes, b: bytes, rest: bytes)
    ensures var s := a + (b + rest); StandsAt(s, 0, a) && StandsAt(s, |a|, b)
  {
    StandsFirst(a, b + rest);
    StandsFirst(b, rest);
    StandsBehind(a, b + rest, 0, b);
  }

  lemma ThreeInRow(a: bytes, b: bytes, c: bytes, rest: bytes)
    ensures var s := a + (b + (c + rest)); StandsAt(s, 0, a) && StandsAt(s, |a|, b) && StandsAt(s, |a| + |b|, c)
  {
    TwoInRow(b, c, rest);
    StandsFirst(a, b + (c + rest));
    StandsBehind(a, b + (c + rest), 0, b);
    StandsBehind(a, b + (c + rest), |b|, c);
  }

  lemma FiveInRow(a: bytes, b: bytes, c: bytes, d: bytes, e: bytes, rest: bytes)
    ensures var s := a + (b + (c + (d + (e + rest))));
      && StandsAt(s, 0, a) && StandsAt(s, |a|, b) && StandsAt(s, |a| + |b|, c) && StandsAt(s, |a| + |b| + |c|, d)
      && StandsAt(s, |a| + |b| + |c| + |d|, e)
  {
    var u := d + (e + rest);
    var t := b + (c + u);
    TwoInRow(d, e, rest);
    ThreeInRow(a, b, c, u);
    StandsBehind(c, u, 0, d);
    StandsBehind(c, u, |d|, e);
    StandsBehind(b, c + u, |c|, d);
    StandsBehind(b, c + u, |c| + |d|, e);
    StandsBehind(a, t, |b| + |c|, d);
    StandsBehind(a, t, |b| + |c| + |d|, e);
  }

  /** An entry: the name with its length, then the differences of latitude, longitude and time, and the hops. */
  lemma EntryLayout(e: PliEntry, rest: bytes)
    requires GoodName(e.name)
    ensures var s, n := EncodeEntry(e, rest), |e.name|;
      && StandsAt(s, 0, EncodeInt(n, 2) + e.name)
      && StandsAt(s, n + 2, EncodeInt(e.dLat, 2)) && StandsAt(s, n + 4, EncodeInt(e.dLon, 2))
      && StandsAt(s, n + 6, EncodeInt(e.dTime, 1)) && StandsAt(s, n + 7, EncodeInt(e.hops, 1))
  {
    FiveInRow(EncodeString(e.name), EncodeInt(e.dLat, 2), EncodeInt(e.dLon, 2), EncodeInt(e.dTime, 1),
              EncodeInt(e.hops, 1), rest);
  }

  /** A chat packet: the three texts with their lengths, then the time. */
  lemma ChatLayout(p: ChatPacket, rest: bytes)
    requires GoodName(p.uuid) && GoodName(p.originator) && GoodName(p.text)
    ensures var s, n, m, k := EncodeChat(p, rest), |p.uuid|, |p.originator|, |p.text|;
      && StandsAt(s, 0, EncodeInt(n, 2) + p.uuid) && StandsAt(s, n + 2, EncodeInt(m, 2) + p.originator)
      && StandsAt(s, n + m + 4, EncodeInt(k, 2) + p.text) && StandsAt(s, n + m + k + 6, EncodeInt(p.created, 4))
  {
    assert [] + rest == rest;
    FiveInRow(EncodeString(p.uuid), EncodeString(p.originator), EncodeString(p.text), EncodeInt(p.created, 4), [],
              rest);
  }
}
