/**
 Which of the known positions are relayed when: a cursor that goes round the sorted map of
 positions, some entries further with every packet.
 */
module RelayWalk {
  import opened Arithmetic

  /**
   How many entries one packet visits from position `base`, of a map in which `good[i]`
   says that entry i can be sent, once `seen` have been visited and `sent` of them sent.
   */
  function VisitsFrom(good: seq<bool>, base: nat, limit: int, seen: nat, sent: int): (v: nat)
    requires base < |good| && seen <= |good| && sent <= seen
    ensures seen <= v <= |good|
    decreases |good| - seen
  {
    if sent >= limit || seen == |good| then seen
    else VisitsFrom(good, base, limit, seen + 1, sent + if good[(base + seen) % |good|] then 1 else 0)
  }

  function Visits(good: seq<bool>, base: nat, limit: int): nat
    requires base < |good|
  {
    VisitsFrom(good, base, limit, 0, 0)
  }

  /** How many of `count` entries from `base` on can be sent. */
  function Sent(good: seq<bool>, base: nat, count: nat): (n: nat)
    requires base < |good|
    ensures n <= count
  {
    if count == 0 then 0
    else Sent(good, base, count - 1) + if good[(base + count - 1) % |good|] then 1 else 0
  }

  lemma {:induction false} StopsOnlyThere(good: seq<bool>, base: nat, limit: int, seen: nat)
    requires base < |good| && seen <= |good|
    ensures var v := VisitsFrom(good, base, limit, seen, Sent(good, base, seen));
      && (Sent(good, base, v) >= limit || v == |good|)
      && (forall u :: seen <= u < v ==> Sent(good, base, u) < limit)
    decreases |good| - seen
  {
    if Sent(good, base, seen) < limit && seen < |good| {
      StopsOnlyThere(good, base, limit, seen + 1);
    }
  }

  /** A packet takes exactly `limit` entries, unless it has been all the way round; in any case it takes no more. */
  lemma PacketTakes(good: seq<bool>, base: nat, limit: nat)
    requires base < |good| && limit >= 1
    ensures var v := Visits(good, base, limit);
      && 1 <= v <= |good|
      && Sent(good, base, v) <= limit
      && (Sent(good, base, v) == limit || v == |good|)
      && (v >= limit || v == |good|)
  {
    StopsOnlyThere(good, base, limit, 0);
    var v := Visits(good, base, limit);
    assert v > 0 ==> Sent(good, base, v - 1) < limit;
  }

  // ----- one packet after the other -----

  /** `count` positions in a row, going round a map of `n`. */
  function Stretch(n: nat, base: nat, count: nat): (s: seq<nat>)
    requires base < n
    ensures |s| == count && forall t :: 0 <= t < count ==> s[t] == (base + t) % n
  {
    seq(count, t => (base + t) % n)
  }

  lemma NoneTwice(n: nat, base: nat, count: nat, t: nat, u: nat)
    requires base < n && t < u < count <= n
    ensures Stretch(n, base, count)[t] != Stretch(n, base, count)[u]
  {
    Round(n, base, t);
    Round(n, base, u);
  }

  lemma Round(n: nat, base: nat, t: nat)
    requires base < n && t <= n
    ensures (base + t) % n == if base + t < n then base + t else base + t - n
  {
    if base + t >= n { Once(base + t - n, n); }
  }

  lemma Once(x: int, n: nat)
    requires 0 <= x < n
    ensures (x + n) % n == x
  {
    OnlyRemainder(x + n, n, 1, x);
  }

  /** What each of several packets can send, over maps of one size. */
  ghost predicate SameSize(goods: seq<seq<bool>>, n: nat)
  {
    forall j :: 0 <= j < |goods| ==> |goods[j]| == n
  }

  ghost function CursorAfter(goods: seq<seq<bool>>, n: nat, base: nat, limit: nat): (b: nat)
    requires base < n && SameSize(goods, n)
    ensures b < n
  {
    if goods == [] then base
    else
      var b := CursorAfter(goods[..|goods| - 1], n, base, limit);
      (b + Visits(goods[|goods| - 1], b, limit)) % n
  }

  /** All positions visited by these packets, in order. */
  ghost function AllVisited(goods: seq<seq<bool>>, n: nat, base: nat, limit: nat): seq<nat>
    requires base < n && SameSize(goods, n)
  {
    if goods == [] then []
    else
      var rest := goods[..|goods| - 1];
      var b := CursorAfter(rest, n, base, limit);
      AllVisited(rest, n, base, limit) + Stretch(n, b, Visits(goods[|goods| - 1], b, limit))
  }

  /** The packets' stretches join: together they are one walk round the map. */
  lemma {:induction false} OneWalk(goods: seq<seq<bool>>, n: nat, base: nat, limit: nat)
    requires base < n && SameSize(goods, n)
    ensures AllVisited(goods, n, base, limit) == Stretch(n, base, |AllVisited(goods, n, base, limit)|)
    ensures CursorAfter(goods, n, base, limit) == (base + |AllVisited(goods, n, base, limit)|) % n
  {
    if goods == [] {
      Round(n, base, 0);
    } else {
      var rest := goods[..|goods| - 1];
      OneWalk(rest, n, base, limit);
      var b, before := CursorAfter(rest, n, base, limit), |AllVisited(rest, n, base, limit)|;
      var v := Visits(goods[|goods| - 1], b, limit);
      JoinStretches(n, base, before, v);
      GoOn(n, base + before, v);
    }
  }

  lemma GoOn(n: nat, x: nat, t: nat)
    requires n > 0
    ensures (x % n + t) % n == (x + t) % n
  {
    var q := x / n;
    assert x == n * q + x % n;
    Turns(x % n + t, q, n);
  }

  lemma Turns(x: nat, q: nat, n: nat)
    requires n > 0
    ensures (x + n * q) % n == x % n
  {
    var k := x / n;
    assert x == n * k + x % n;
    assert n * k + n * q == n * (k + q);
    OnlyRemainder(x + n * q, n, k + q, x % n);
  }

  lemma JoinAt(n: nat, base: nat, before: nat, v: nat, i: nat)
    requires base < n && i < before + v
    ensures (Stretch(n, base, before) + Stretch(n, (base + before) % n, v))[i] == (base + i) % n
  {
    var first, second := Stretch(n, base, before), Stretch(n, (base + before) % n, v);
    if i < before {
      assert (first + second)[i] == first[i];
    } else {
      assert (first + second)[i] == second[i - before];
      StretchAt(n, base + before, v, i - before);
    }
  }

  lemma StretchAt(n: nat, start: nat, v: nat, j: nat)
    requires n > 0 && j < v
    ensures Stretch(n, start % n, v)[j] == (start + j) % n
  {
    GoOn(n, start, j);
  }

  lemma JoinStretches(n: nat, base: nat, before: nat, v: nat)
    requires base < n
    ensures Stretch(n, base, before) + Stretch(n, (base + before) % n, v) == Stretch(n, base, before + v)
  {
    var s, t := Stretch(n, base, before) + Stretch(n, (base + before) % n, v), Stretch(n, base, before + v);
    forall i | 0 <= i < before + v ensures s[i] == t[i] { JoinAt(n, base, before, v, i); }
  }

  lemma AtLeast(a: nat, v: nat, rest: nat, count: nat, limit: nat, n: nat)
    requires count == rest + 1 && (a >= n || a >= rest * limit) && (v >= limit || v == n)
    ensures a + v >= n || a + v >= count * limit
  {
    assert count * limit == rest * limit + limit;
  }

  lemma {:induction false} WalkGetsOn(goods: seq<seq<bool>>, n: nat, base: nat, limit: nat)
    requires base < n && SameSize(goods, n) && limit >= 1
    ensures |AllVisited(goods, n, base, limit)| >= n || |AllVisited(goods, n, base, limit)| >= |goods| * limit
  {
    if goods != [] {
      var rest := goods[..|goods| - 1];
      WalkGetsOn(rest, n, base, limit);
      var b := CursorAfter(rest, n, base, limit);
      PacketTakes(goods[|goods| - 1], b, limit);
      AtLeast(|AllVisited(rest, n, base, limit)|, Visits(goods[|goods| - 1], b, limit), |rest|, |goods|, limit, n);
    }
  }

  lemma StretchCovers(n: nat, base: nat, count: nat, entry: nat)
    requires base < n && entry < n && count >= n
    ensures entry in Stretch(n, base, count)
  {
    var t := if entry >= base then entry - base else entry + n - base;
    Round(n, base, t);
    assert Stretch(n, base, count)[t] == entry;
  }

  /** Packets enough for the whole map visit every entry, whatever each of them can send. */
  lemma EveryEntryVisited(goods: seq<seq<bool>>, n: nat, base: nat, limit: nat, entry: nat)
    requires base < n && SameSize(goods, n) && limit >= 1 && |goods| * limit >= n && entry < n
    ensures entry in AllVisited(goods, n, base, limit)
  {
    OneWalk(goods, n, base, limit);
    WalkGetsOn(goods, n, base, limit);
    StretchCovers(n, base, |AllVisited(goods, n, base, limit)|, entry);
  }
}

/** The sorted map of positions, the cursor into it, and the packets made from it. */
module GatewayReceiver {
  import opened Arithmetic
  import opened Octets
  import opened Options
  import opened RelayWalk
  import opened TerseFields
  import opened TersePackets
  import opened TerseStreams

  const WORD := 0x1_0000_0000

  datatype PliInfo = PliInfo(lat: int, lon: int, createdTime: int)

  datatype Known = Known(name: bytes, info: PliInfo)

  /** Where the sender is, and when. */
  datatype Base = Base(lat: int, lon: int, time: int)

  // ----- the order of the map -----

  predicate Less(a: bytes, b: bytes)
  {
    b != [] && (a == [] || a[0] < b[0] || (a[0] == b[0] && Less(a[1..], b[1..])))
  }

  /** The order of byte strings: at the first difference the smaller byte, and nothing before something. */
  lemma {:induction false} LessIs(a: bytes, b: bytes, i: nat)
    requires i <= |a| && i <= |b| && a[..i] == b[..i]
    ensures i < |a| && i < |b| && a[i] != b[i] ==> (Less(a, b) <==> a[i] < b[i])
    ensures i == |a| ==> (Less(a, b) <==> i < |b|)
    ensures i == |b| ==> !Less(a, b)
  {
    if i > 0 {
      assert a[0] == a[..i][0] == b[0] && a[1..][..i - 1] == a[..i][1..] && b[1..][..i - 1] == b[..i][1..];
      LessIs(a[1..], b[1..], i - 1);
    }
  }

  lemma {:induction false} LessOrNot(a: bytes, b: bytes)
    ensures Less(a, b) || Less(b, a) || a == b
    ensures !(Less(a, b) && Less(b, a)) && (a == b ==> !Less(a, b))
  {
    if a != [] && b != [] && a[0] == b[0] {
      LessOrNot(a[1..], b[1..]);
      assert a == [a[0]] + a[1..] && b == [b[0]] + b[1..];
    }
  }

  lemma {:induction false} LessTransitive(a: bytes, b: bytes, c: bytes)
    requires Less(a, b) && Less(b, c)
    ensures Less(a, c)
  {
    if a != [] && a[0] == b[0] == c[0] {
      LessTransitive(a[1..], b[1..], c[1..]);
    }
  }

  predicate Sorted(m: seq<Known>)
  {
    forall i, j :: 0 <= i < j < |m| ==> Less(m[i].name, m[j].name)
  }

  /** The number of names before this one. */
  function Place(m: seq<Known>, name: bytes): (i: nat)
    ensures i <= |m|
  {
    if m == [] || !Less(m[0].name, name) then 0 else 1 + Place(m[1..], name)
  }

  predicate IsAt(m: seq<Known>, i: nat, name: bytes)
  {
    i < |m| && m[i].name == name
  }

  function Put(m: seq<Known>, name: bytes, info: PliInfo): seq<Known>
  {
    var i := Place(m, name);
    if IsAt(m, i, name) then m[i := Known(name, info)]
    else m[..i] + [Known(name, info)] + m[i..]
  }

  lemma {:induction false} PlaceDivides(m: seq<Known>, name: bytes)
    requires Sorted(m)
    ensures var i := Place(m, name);
      && (forall j :: 0 <= j < i ==> Less(m[j].name, name))
      && (forall j :: i <= j < |m| ==> m[j].name == name || Less(name, m[j].name))
      && (forall j :: i < j < |m| ==> Less(name, m[j].name))
  {
    if m != [] {
      if Less(m[0].name, name) {
        PlaceDivides(m[1..], name);
        assert forall j :: 1 <= j < |m| ==> m[j] == m[1..][j - 1];
      } else {
        LessOrNot(m[0].name, name);
        forall j | 0 < j < |m| ensures Less(name, m[j].name) {
          if m[0].name != name { LessTransitive(name, m[0].name, m[j].name); }
        }
      }
    }
  }

  lemma PutKeepsSorted(m: seq<Known>, name: bytes, info: PliInfo)
    requires Sorted(m)
    ensures Sorted(Put(m, name, info)) && |m| <= |Put(m, name, info)| <= |m| + 1
    ensures |Put(m, name, info)| >= 1
  {
    PlaceDivides(m, name);
  }

  function Lookup(m: seq<Known>, name: bytes): Option<PliInfo>
  {
    if m == [] then None else if m[0].name == name then Some(m[0].info) else Lookup(m[1..], name)
  }

  lemma {:induction false} LookupIs(m: seq<Known>, i: nat)
    requires Sorted(m) && i < |m|
    ensures Lookup(m, m[i].name) == Some(m[i].info)
  {
    if i > 0 {
      LessOrNot(m[0].name, m[i].name);
      LookupIs(m[1..], i - 1);
    }
  }

  lemma {:induction false} LookupNone(m: seq<Known>, name: bytes)
    requires forall i :: 0 <= i < |m| ==> m[i].name != name
    ensures Lookup(m, name) == None
  {
    if m != [] { LookupNone(m[1..], name); }
  }

  /** Putting a position changes what is known of its name and of no other. */
  lemma PutThenLookup(m: seq<Known>, name: bytes, info: PliInfo, other: bytes)
    requires Sorted(m)
    ensures Lookup(Put(m, name, info), other) == if other == name then Some(info) else Lookup(m, other)
  {
    var p, i := Put(m, name, info), Place(m, name);
    PutKeepsSorted(m, name, info);
    if other == name {
      LookupIs(p, i);
    } else if exists j :: 0 <= j < |m| && m[j].name == other {
      var j :| 0 <= j < |m| && m[j].name == other;
      LookupIs(m, j);
      LookupIs(p, if j < i || IsAt(m, i, name) then j else j + 1);
    } else {
      LookupNone(m, other);
      LookupNone(p, other);
    }
  }

  // ----- what goes into a packet -----

  datatype Settings = Settings(nodeName: bytes, perCycle: int, rangeScale: int, timeScale: int)

  predicate GoodSettings(c: Settings)
  {
    c.perCycle <= 127 && c.rangeScale != 0 && c.timeScale != 0
  }

  function EntryOf(k: Known, base: Base, c: Settings): PliEntry
    requires GoodSettings(c)
  {
    PliEntry(k.name, Quotient(base.lat - k.info.lat, c.rangeScale), Quotient(base.lon - k.info.lon, c.rangeScale),
             Quotient(base.time - k.info.createdTime, c.timeScale), 1)
  }

  /** `q` is `v` divided by the scale, the fraction dropped: what is left has the sign of `v`. */
  ghost predicate DividedBy(q: int, v: int, scale: int)
  {
    var left := v - q * scale;
    var size := if scale < 0 then -scale else scale;
    if v >= 0 then 0 <= left < size else -size < left <= 0
  }

  lemma QuotientDivides(v: int, scale: int)
    requires scale != 0
    ensures DividedBy(Quotient(v, scale), v, scale)
  {
    if v >= 0 {
      assert v == v / scale * scale + v % scale;
    } else {
      assert -v == -v / scale * scale + -v % scale;
      assert -(-v / scale) * scale == -(-v / scale * scale);
    }
  }

  /**
   An entry says how far south and west of the sender, and how much earlier, it was: the own
   position less the known one.
   */
  lemma DifferencesSent(k: Known, base: Base, c: Settings)
    requires GoodSettings(c)
    ensures var e := EntryOf(k, base, c);
      && e.name == k.name && e.hops == 1
      && DividedBy(e.dLat, base.lat - k.info.lat, c.rangeScale)
      && DividedBy(e.dLon, base.lon - k.info.lon, c.rangeScale)
      && DividedBy(e.dTime, base.time - k.info.createdTime, c.timeScale)
      && (InReach(e) <==> -32768 <= e.dLat < 32768 && -32768 <= e.dLon < 32768 && -128 <= e.dTime < 128)
  {
    QuotientDivides(base.lat - k.info.lat, c.rangeScale);
    QuotientDivides(base.lon - k.info.lon, c.rangeScale);
    QuotientDivides(base.time - k.info.createdTime, c.timeScale);
    FieldRanges(EntryOf(k, base, c).dLat);
    FieldRanges(EntryOf(k, base, c).dLon);
    FieldRanges(EntryOf(k, base, c).dTime);
  }

  /** An entry can be sent if its differences fit their fields. */
  predicate InReach(e: PliEntry)
  {
    FitsSigned(e.dLat, 2) && FitsSigned(e.dLon, 2) && FitsSigned(e.dTime, 1)
  }

  function Reachable(m: seq<Known>, base: Base, c: Settings): (good: seq<bool>)
    requires GoodSettings(c)
    ensures |good| == |m| && forall i :: 0 <= i < |m| ==> good[i] == InReach(EntryOf(m[i], base, c))
  {
    seq(|m|, i requires 0 <= i < |m| => InReach(EntryOf(m[i], base, c)))
  }

  /** The entries sent of `count` visited ones. */
  function EntriesSent(m: seq<Known>, base: Base, c: Settings, from: nat, count: nat): (es: seq<PliEntry>)
    requires GoodSettings(c) && from < |m|
    ensures |es| == Sent(Reachable(m, base, c), from, count)
    ensures forall i :: 0 <= i < |es| ==> InReach(es[i])
  {
    if count == 0 then []
    else
      var e := EntryOf(m[(from + count - 1) % |m|], base, c);
      EntriesSent(m, base, c, from, count - 1) + if InReach(e) then [e] else []
  }

  function RelayPacketOf(m: seq<Known>, base: Base, c: Settings, from: nat, count: nat): RelayPacket
    requires GoodSettings(c) && from < |m|
  {
    RelayPacket(c.nodeName, base.lat, base.lon, base.time % WORD, EntriesSent(m, base, c, from, count))
  }

  /** The state of the loop once `visited` entries have been visited. */
  ghost predicate Walked(m: seq<Known>, base: Base, c: Settings, from: nat, visited: nat, deltaCount: int,
                         position: nat, contents: bytes)
    requires GoodSettings(c) && from < |m|
  {
    var good := Reachable(m, base, c);
    && visited <= |m|
    && position == (from + visited) % |m|
    && deltaCount == Sent(good, from, visited)
    && contents == EncodeEntries(EntriesSent(m, base, c, from, visited), [])
    && VisitsFrom(good, from, c.perCycle, visited, deltaCount) == Visits(good, from, c.perCycle)
  }

  lemma NextPosition(n: nat, from: nat, visited: nat, position: nat)
    requires from < n && visited < n && position == (from + visited) % n
    ensures position < n
    ensures var next := if position + 1 == n then 0 else position + 1;
      next == (from + visited + 1) % n && (next == from <==> visited + 1 == n)
  {
    Round(n, from, visited);
    Round(n, from, visited + 1);
  }

  lemma WalkedOn(m: seq<Known>, base: Base, c: Settings, from: nat, visited: nat, deltaCount: int, position: nat,
                 before: bytes,
                 count: int, next: nat, after: bytes)
    requires GoodSettings(c) && from < |m| && visited < |m| && deltaCount < c.perCycle && position < |m|
    requires Walked(m, base, c, from, visited, deltaCount, position, before)
    requires count == deltaCount + Counted(m[position], base, c) && after == before + Contribution(m[position], base, c)
    requires next == if position + 1 == |m| then 0 else position + 1
    ensures Walked(m, base, c, from, visited + 1, count, next, after) && (next == from <==> visited + 1 == |m|)
  {
    WalkOn(m, base, c, from, visited, deltaCount, position, before);
  }

  lemma InTheMap(m: seq<Known>, base: Base, c: Settings, from: nat, visited: nat, deltaCount: int, position: nat,
                 contents: bytes)
    requires GoodSettings(c) && from < |m| && Walked(m, base, c, from, visited, deltaCount, position, contents)
    ensures position < |m|
  {
    assert (from + visited) % |m| < |m|;
  }

  lemma WalkBegins(m: seq<Known>, base: Base, c: Settings, from: nat)
    requires GoodSettings(c) && from < |m|
    ensures Walked(m, base, c, from, 0, 0, from, [])
  {
    Round(|m|, from, 0);
  }

  lemma WalkEnds(m: seq<Known>, base: Base, c: Settings, from: nat, visited: nat, deltaCount: int, position: nat,
                 contents: bytes)
    requires GoodSettings(c) && from < |m| && Walked(m, base, c, from, visited, deltaCount, position, contents)
    requires deltaCount >= c.perCycle || visited == |m|
    ensures visited == Visits(Reachable(m, base, c), from, c.perCycle) && position == (from + visited) % |m|
    ensures var es := EntriesSent(m, base, c, from, visited); deltaCount == |es| && contents == EncodeEntries(es, [])
  {}

  /** What one visited entry adds to the blob, and to the count. */
  function Contribution(k: Known, base: Base, c: Settings): bytes
    requires GoodSettings(c)
  {
    if InReach(EntryOf(k, base, c)) then EncodeEntry(EntryOf(k, base, c), []) else []
  }

  function Counted(k: Known, base: Base, c: Settings): int
    requires GoodSettings(c)
  {
    if InReach(EntryOf(k, base, c)) then 1 else 0
  }

  lemma CountOn(m: seq<Known>, base: Base, c: Settings, from: nat, visited: nat, position: nat)
    requires GoodSettings(c) && from < |m| && visited < |m| && position == (from + visited) % |m|
    ensures position < |m|
    ensures Sent(Reachable(m, base, c), from, visited + 1)
         == Sent(Reachable(m, base, c), from, visited) + Counted(m[position], base, c)
  {
    assert from + visited + 1 - 1 == from + visited;
  }

  lemma VisitsOn(m: seq<Known>, base: Base, c: Settings, from: nat, visited: nat, sent: int, position: nat)
    requires GoodSettings(c) && from < |m| && visited < |m| && position == (from + visited) % |m|
    requires sent < c.perCycle && sent <= visited
    ensures position < |m|
    ensures VisitsFrom(Reachable(m, base, c), from, c.perCycle, visited, sent)
         == VisitsFrom(Reachable(m, base, c), from, c.perCycle, visited + 1, sent + Counted(m[position], base, c))
  {}

  lemma WalkOn(m: seq<Known>, base: Base, c: Settings, from: nat, visited: nat, deltaCount: int, position: nat,
               before: bytes)
    requires GoodSettings(c) && from < |m| && visited < |m| && deltaCount < c.perCycle
    requires Walked(m, base, c, from, visited, deltaCount, position, before)
    ensures position < |m|
    ensures var next := if position + 1 == |m| then 0 else position + 1;
      && Walked(m, base, c, from, visited + 1, deltaCount + Counted(m[position], base, c), next,
                before + Contribution(m[position], base, c))
      && (next == from <==> visited + 1 == |m|)
  {
    NextPosition(|m|, from, visited, position);
    OneSent(m, base, c, from, visited);
    CountOn(m, base, c, from, visited, position);
    VisitsOn(m, base, c, from, visited, deltaCount, position);
  }

  class GatewayReceiver {
    const settings: Settings
    const pliRelayEnabled: bool
    var pliMap: seq<Known>
    var pliIndex: nat

    ghost predicate Valid()
      reads this
    {
      && GoodSettings(settings)
      && Sorted(pliMap)
      && (pliMap == [] ==> pliIndex == 0)
      && (pliMap != [] ==> pliIndex < |pliMap|)
    }

    constructor (settings: Settings, pliRelayEnabled: bool)
      requires GoodSettings(settings)
      ensures Valid() && pliMap == [] && this.settings == settings && this.pliRelayEnabled == pliRelayEnabled
    {
      this.settings, this.pliRelayEnabled := settings, pliRelayEnabled;
      pliMap, pliIndex := [], 0;
    }

    /** A position that came from the gateway. */
    method OnPli(name: bytes, lat: int, lon: int, time: int)
      requires Valid()
      modifies this`pliMap
      ensures Valid() && pliMap == Put(old(pliMap), name, PliInfo(lat, lon, time))
    {
      PutKeepsSorted(pliMap, name, PliInfo(lat, lon, time));
      pliMap := Put(pliMap, name, PliInfo(lat, lon, time));
    }

    /** A position that came over the serial line, kept only if relaying is enabled. */
    method AddPli(username: bytes, lat: int, lon: int, createdTime: int)
      requires Valid()
      modifies this`pliMap
      ensures Valid()
      ensures pliMap ==
              if pliRelayEnabled then Put(old(pliMap), username, PliInfo(lat, lon, createdTime)) else old(pliMap)
    {
      if pliRelayEnabled {
        OnPli(username, lat, lon, createdTime);
      }
    }

    /** One entry of the map, appended to the blob if it can be sent. */
    method RelayOne(known: Known, base: Base, blob: TerseWriter) returns (sent: int)
      requires GoodSettings(settings)
      modifies blob
      ensures sent == Counted(known, base, settings)
      ensures blob.contents == old(blob.contents) + Contribution(known, base, settings)
    {
      var dLat := Quotient(base.lat - known.info.lat, settings.rangeScale);
      var dLon := Quotient(base.lon - known.info.lon, settings.rangeScale);
      var dTime := Quotient(base.time - known.info.createdTime, settings.timeScale);
      sent := 0;
      if FitsSigned(dLat, 2) && FitsSigned(dLon, 2) && FitsSigned(dTime, 1) {
        blob.AppendString(known.name);
        blob.AppendInt(dLat, 2);
        blob.AppendInt(dLon, 2);
        blob.AppendInt(dTime, 1);
        blob.AppendInt(1, 1);
        sent := 1;
        FiveJoined(old(blob.contents), EncodeString(known.name), EncodeInt(dLat, 2), EncodeInt(dLon, 2),
                   EncodeInt(dTime, 1), EncodeInt(1, 1), []);
      }
    }

    /** One round of the loop: the entry at `position`, and then on to the next one. */
    method VisitOne(base: Base, blob: TerseWriter, position: nat, baseObject: nat, deltaCount: int, ghost visited: nat)
      returns (next: nat, count: int, round: bool)
      requires GoodSettings(settings) && baseObject < |pliMap| && visited < |pliMap|
      requires deltaCount < settings.perCycle && pliIndex == position
      requires Walked(pliMap, base, settings, baseObject, visited, deltaCount, position, blob.contents)
      modifies this`pliIndex, blob
      ensures Walked(pliMap, base, settings, baseObject, visited + 1, count, next, blob.contents)
      ensures pliIndex == next && (round <==> visited + 1 == |pliMap|)
    {
      ghost var before := blob.contents;
      InTheMap(pliMap, base, settings, baseObject, visited, deltaCount, position, before);
      var sent := RelayOne(pliMap[position], base, blob);
      count := deltaCount + sent;
      next := Advance(position);
      WalkedOn(pliMap, base, settings, baseObject, visited, deltaCount, position, before, count, next, blob.contents);
      round := next == baseObject;
    }

    /** Moves the cursor on; behind the last entry comes the first. */
    method Advance(position: nat) returns (next: nat)
      requires pliIndex == position < |pliMap|
      modifies this`pliIndex
      ensures pliIndex == next == if position + 1 == |pliMap| then 0 else position + 1
    {
      next := position + 1;
      pliIndex := pliIndex + 1;
      if next == |pliMap| {
        next := 0;
        pliIndex := 0;
      }
    }

    /** The loop over the map; the cursor is left where the next packet is to go on. */
    method RelayEntries(base: Base, blob: TerseWriter) returns (deltaCount: int, ghost visited: nat)
      requires Valid() && pliMap != [] && blob.contents == []
      modifies this`pliIndex, blob
      ensures Walked(pliMap, base, settings, old(pliIndex), visited, deltaCount, pliIndex, blob.contents)
      ensures deltaCount >= settings.perCycle || visited == |pliMap|
    {
      var position := 0;
      for i := 0 to pliIndex
        invariant position == i
      {
        position := position + 1;
      }
      var baseObject := position;
      deltaCount, visited := 0, 0;
      WalkBegins(pliMap, base, settings, baseObject);
      while deltaCount < settings.perCycle
        invariant Walked(pliMap, base, settings, baseObject, visited, deltaCount, position, blob.contents)
        invariant pliIndex == position && (visited < |pliMap| || deltaCount >= settings.perCycle)
        decreases |pliMap| - visited
      {
        var round;
        position, deltaCount, round := VisitOne(base, blob, position, baseObject, deltaCount, visited);
        visited := visited + 1;
        if round {
          break;
        }
      }
    }

    /** The count of the entries sent, and the entries. */
    method RelayBlob(base: Base) returns (blob: bytes, ghost visited: nat)
      requires Valid() && pliMap != []
      modifies this`pliIndex
      ensures Valid()
      ensures visited == Visits(Reachable(pliMap, base, settings), old(pliIndex), settings.perCycle)
      ensures pliIndex == (old(pliIndex) + visited) % |pliMap|
      ensures blob == EncodeBlob(EntriesSent(pliMap, base, settings, old(pliIndex), visited))
    {
      var relayBlob := new TerseWriter();
      var deltaCount;
      deltaCount, visited := RelayEntries(base, relayBlob);
      WalkEnds(pliMap, base, settings, old(pliIndex), visited, deltaCount, pliIndex, relayBlob.contents);
      var finalRelayBlob := new TerseWriter();
      finalRelayBlob.AppendInt(deltaCount, 1);
      NothingBefore(EncodeInt(deltaCount, 1));
      blob := finalRelayBlob.contents + relayBlob.contents;
    }

    /** The fields of a packet around its blob. */
    method Payload(base: Base, blob: bytes, ghost p: RelayPacket) returns (packet: bytes)
      requires p.name == settings.nodeName && p.lat == base.lat && p.lon == base.lon && p.created == base.time % WORD
      requires blob == EncodeBlob(p.entries)
      ensures packet == EncodeRelay(p, [])
    {
      var tersePayload := new TerseWriter();
      tersePayload.AppendString(settings.nodeName);
      tersePayload.AppendInt(base.lat, 4);
      tersePayload.AppendInt(base.lon, 4);
      tersePayload.AppendInt(base.time % WORD, 4);
      tersePayload.AppendBlob(blob);
      packet := tersePayload.contents;
      PacketJoined(EncodeString(settings.nodeName), EncodeInt(base.lat, 4), EncodeInt(base.lon, 4),
                   EncodeInt(base.time % WORD, 4), EncodeString(blob));
    }

    /**
     The next packet; none if nothing is known or the own position is not. Its entries are
     those of the visited part of the map that can be sent.
     */
    method GetNextPliRelayPacket(position: Option<Base>) returns (packet: bytes, ghost visited: nat)
      requires Valid()
      modifies this`pliIndex
      ensures Valid()
      ensures pliMap == [] || position == None ==> packet == [] && visited == 0 && pliIndex == old(pliIndex)
      ensures pliMap != [] && position.Some? ==>
        && visited == Visits(Reachable(pliMap, position.value, settings), old(pliIndex), settings.perCycle)
        && pliIndex == (old(pliIndex) + visited) % |pliMap|
        && packet == EncodeRelay(RelayPacketOf(pliMap, position.value, settings, old(pliIndex), visited), [])
    {
      if pliMap == [] || position == None {
        return [], 0;
      }
      var blob;
      blob, visited := RelayBlob(position.value);
      packet := Payload(position.value, blob, RelayPacketOf(pliMap, position.value, settings, old(pliIndex), visited));
    }
  }

  lemma NothingBefore(s: bytes)
    ensures [] + s == s
  {}

  lemma OneSent(m: seq<Known>, base: Base, c: Settings, from: nat, count: nat)
    requires GoodSettings(c) && from < |m|
    ensures EncodeEntries(EntriesSent(m, base, c, from, count + 1), [])
         == EncodeEntries(EntriesSent(m, base, c, from, count), []) + Contribution(m[(from + count) % |m|], base, c)
  {
    var es, k := EntriesSent(m, base, c, from, count), m[(from + count) % |m|];
    assert EntriesSent(m, base, c, from, count + 1) ==
           es + if InReach(EntryOf(k, base, c)) then [EntryOf(k, base, c)] else [];
    Contributed(es, k, base, c);
  }

  lemma Contributed(es: seq<PliEntry>, k: Known, base: Base, c: Settings)
    requires GoodSettings(c)
    ensures EncodeEntries(es + (if InReach(EntryOf(k, base, c)) then [EntryOf(k, base, c)] else []), [])
         == EncodeEntries(es, []) + Contribution(k, base, c)
  {
    if InReach(EntryOf(k, base, c)) {
      EntryAppended(es, EntryOf(k, base, c));
    } else {
      assert es + [] == es;
    }
  }

  // ----- what arrives -----

  lemma {:induction false} EntriesAreGood(m: seq<Known>, base: Base, c: Settings, from: nat, count: nat)
    requires GoodSettings(c) && from < |m| && forall i :: 0 <= i < |m| ==> GoodName(m[i].name)
    ensures GoodEntries(EntriesSent(m, base, c, from, count))
  {
    if count > 0 {
      EntriesAreGood(m, base, c, from, count - 1);
      var e := EntryOf(m[(from + count - 1) % |m|], base, c);
      Powers();
      assert InReach(e) ==> GoodEntry(e);
    }
  }

  /**
   With names of 1 to 65535 bytes, what the scheduler puts into a packet is what a receiver
   reads out of it, exactly if the blob is not too long for its length field.
   */
  lemma RelayedPacketArrives(m: seq<Known>, base: Base, c: Settings, from: nat)
    requires GoodSettings(c) && from < |m| && GoodName(c.nodeName) && forall i :: 0 <= i < |m| ==> GoodName(m[i].name)
    requires FitsSigned(base.lat, 4) && FitsSigned(base.lon, 4)
    ensures var p := RelayPacketOf(m, base, c, from, Visits(Reachable(m, base, c), from, c.perCycle));
      RelayOf(EncodeRelay(p, [])) == Read(p, []) <==> |EncodeBlob(p.entries)| <= MAX_STRING
  {
    var good := Reachable(m, base, c);
    var v := Visits(good, from, c.perCycle);
    EntriesAreGood(m, base, c, from, v);
    Powers();
    if c.perCycle >= 1 { PacketTakes(good, from, c.perCycle); }
    RelayRoundTripIff(RelayPacketOf(m, base, c, from, v), []);
  }
}
