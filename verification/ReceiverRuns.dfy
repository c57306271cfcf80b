/**
 What the receiver pushes over whole runs of packets.  Entries about a name are kept out
 while they are older than the time kept for it, but what a name reports about itself is
 pushed in any case, and sets the time kept, also back.
 */
module ReceiverRuns {
  import opened Octets
  import opened TersePackets
  import opened SerialMessageProcessor

  function AfterPackets(r: Received, ps: seq<RelayPacket>, rangeScale: int, timeScale: int): Received
  {
    if ps == [] then r
    else AfterPacket(AfterPackets(r, ps[..|ps| - 1], rangeScale, timeScale), ps[|ps| - 1], rangeScale, timeScale)
  }

  ghost predicate Rising(ts: seq<nat>)
  {
    forall i, j :: 0 <= i < j < |ts| ==> ts[i] <= ts[j]
  }

  /** The times pushed for a name, in order. */
  function Times(r: Received, name: bytes): seq<nat>
  {
    OfName(r.forwarded, name)
  }

  function LastPushed(r: Received, name: bytes): nat
  {
    LastOr(0, Times(r, name))
  }

  /** The time kept for the name is the last one pushed for it. */
  predicate InStep(r: Received, name: bytes)
  {
    LatestOf(r, name) == LastPushed(r, name)
  }

  lemma RisingOneMore(ts: seq<nat>, t: nat)
    ensures Rising(ts + [t]) <==> Rising(ts) && LastOr(0, ts) <= t
  {
    if Rising(ts + [t]) {
      forall i, j | 0 <= i < j < |ts| ensures ts[i] <= ts[j] {
        assert (ts + [t])[i] <= (ts + [t])[j];
      }
      if ts != [] { assert (ts + [t])[|ts| - 1] <= (ts + [t])[|ts|]; }
    }
  }

  // ----- entries -----

  lemma EntryKeepsStep(r: Received, x: Located, name: bytes)
    requires InStep(r, name)
    ensures InStep(Taken(r, x), name) && (Rising(Times(Taken(r, x), name)) <==> Rising(Times(r, name)))
  {
    TakenEffect(r, x, name);
    if x.name == name && x.created >= LatestOf(r, name) {
      RisingOneMore(Times(r, name), x.created);
    } else {
      assert Times(r, name) + [] == Times(r, name);
    }
  }

  /** Entries alone never make the times fall. */
  lemma {:induction false} EntriesKeepStep(r: Received, xs: seq<Located>, name: bytes)
    requires InStep(r, name)
    ensures InStep(TakenAll(r, xs), name) && (Rising(Times(TakenAll(r, xs), name)) <==> Rising(Times(r, name)))
    decreases |xs|
  {
    if xs != [] {
      EntriesKeepStep(r, xs[..|xs| - 1], name);
      EntryKeepsStep(TakenAll(r, xs[..|xs| - 1]), xs[|xs| - 1], name);
    }
  }

  // ----- packets -----

  /** If the packet is a report of `name` about itself, its time is not below the last one pushed for it before. */
  predicate KeepsUp(r: Received, p: RelayPacket, rangeScale: int, timeScale: int, name: bytes)
  {
    p.name == name ==> LastPushed(AfterEntries(r, p, rangeScale, timeScale), name) <= Word(p.created)
  }

  lemma PacketRisesIff(r: Received, p: RelayPacket, rangeScale: int, timeScale: int, name: bytes)
    requires InStep(r, name)
    ensures var after := AfterPacket(r, p, rangeScale, timeScale);
      && InStep(after, name)
      && (Rising(Times(after, name)) <==> Rising(Times(r, name)) && KeepsUp(r, p, rangeScale, timeScale, name))
  {
    var taken, own := AfterEntries(r, p, rangeScale, timeScale), Located(p.name, p.lat, p.lon, Word(p.created), 0);
    EntriesKeepStep(r, LocatedAll(p.entries, p.lat, p.lon, Word(p.created), rangeScale, timeScale), name);
    OfNameSnoc(taken.forwarded, own, name);
    if p.name == name {
      RisingOneMore(Times(taken, name), own.created);
    } else {
      assert Times(taken, name) + [] == Times(taken, name);
    }
  }

  /** In every state of every run the time kept for a name is the last one pushed for it. */
  lemma {:induction false} KeptIsLastPushed(r: Received, ps: seq<RelayPacket>, rangeScale: int, timeScale: int,
                                            name: bytes)
    requires InStep(r, name)
    ensures InStep(AfterPackets(r, ps, rangeScale, timeScale), name)
    decreases |ps|
  {
    if ps != [] {
      var rest := ps[..|ps| - 1];
      KeptIsLastPushed(r, rest, rangeScale, timeScale, name);
      PacketRisesIff(AfterPackets(r, rest, rangeScale, timeScale), ps[|ps| - 1], rangeScale, timeScale, name);
    }
  }

  predicate KeepsUpAt(r: Received, ps: seq<RelayPacket>, i: nat, rangeScale: int, timeScale: int, name: bytes)
    requires i < |ps|
  {
    KeepsUp(AfterPackets(r, ps[..i], rangeScale, timeScale), ps[i], rangeScale, timeScale, name)
  }

  /** What `name` reports about itself keeps up in all packets of the run. */
  ghost predicate AllKeepUp(r: Received, ps: seq<RelayPacket>, rangeScale: int, timeScale: int, name: bytes)
  {
    forall i :: 0 <= i < |ps| ==> KeepsUpAt(r, ps, i, rangeScale, timeScale, name)
  }

  lemma KeepsUpEarlier(r: Received, ps: seq<RelayPacket>, n: nat, i: nat, rangeScale: int, timeScale: int, name: bytes)
    requires i < n <= |ps|
    ensures KeepsUpAt(r, ps[..n], i, rangeScale, timeScale, name) <==> KeepsUpAt(r, ps, i, rangeScale, timeScale, name)
  {
    assert ps[..n][..i] == ps[..i];
  }

  lemma AllKeepUpOneMore(r: Received, ps: seq<RelayPacket>, rangeScale: int, timeScale: int, name: bytes)
    requires ps != []
    ensures AllKeepUp(r, ps, rangeScale, timeScale, name) <==>
            && AllKeepUp(r, ps[..|ps| - 1], rangeScale, timeScale, name)
            && KeepsUpAt(r, ps, |ps| - 1, rangeScale, timeScale, name)
  {
    var n := |ps| - 1;
    forall i | 0 <= i < n
      ensures KeepsUpAt(r, ps[..n], i, rangeScale, timeScale, name)
              <==> KeepsUpAt(r, ps, i, rangeScale, timeScale, name)
    {
      KeepsUpEarlier(r, ps, n, i, rangeScale, timeScale, name);
    }
  }

  /**
   Over every run of packets: the times pushed for a name never fall if and only if no time
   that it reports about itself is below the last one pushed for it before.
   */
  lemma {:induction false} NeverFallIff(r: Received, ps: seq<RelayPacket>, rangeScale: int, timeScale: int, name: bytes)
    requires InStep(r, name) && Rising(Times(r, name))
    ensures Rising(Times(AfterPackets(r, ps, rangeScale, timeScale), name))
            <==> AllKeepUp(r, ps, rangeScale, timeScale, name)
    decreases |ps|
  {
    if ps != [] {
      var rest := ps[..|ps| - 1];
      NeverFallIff(r, rest, rangeScale, timeScale, name);
      KeptIsLastPushed(r, rest, rangeScale, timeScale, name);
      PacketRisesIff(AfterPackets(r, rest, rangeScale, timeScale), ps[|ps| - 1], rangeScale, timeScale, name);
      AllKeepUpOneMore(r, ps, rangeScale, timeScale, name);
    }
  }

  /** In particular from the start, when nothing is known and nothing has been pushed. */
  lemma NeverFallFromStart(ps: seq<RelayPacket>, rangeScale: int, timeScale: int, name: bytes)
    ensures Rising(Times(AfterPackets(Received(map[], []), ps, rangeScale, timeScale), name))
            <==> AllKeepUp(Received(map[], []), ps, rangeScale, timeScale, name)
  {
    NeverFallIff(Received(map[], []), ps, rangeScale, timeScale, name);
  }

  // ----- inputs at which the times fall -----

  /** What `b` relays about `a`, and what `a` reports about itself. */
  function AboutA(created: nat): RelayPacket
  {
    RelayPacket([98], 0, 0, created, [PliEntry([97], 0, 0, 0, 1)])
  }

  function FromA(created: nat): RelayPacket
  {
    RelayPacket([97], 0, 0, created, [])
  }

  lemma AboutAEntries(created: nat)
    requires created < 1000
    ensures LocatedAll(AboutA(created).entries, 0, 0, created, 1, 1) == [Located([97], 0, 0, created, 1)]
    ensures Word(created) == created
  {
    var es := AboutA(created).entries;
    assert es[..0] == [];
    assert LocatedAt(es[0], 0, 0, created, 1, 1) == Located([97], 0, 0, created, 1) by { WordBack(0); }
  }

  lemma AboutAPushed(r: Received, created: nat)
    requires created < 1000 && LatestOf(r, [97]) <= created
    ensures var after := AfterPacket(r, AboutA(created), 1, 1);
      Times(after, [97]) == Times(r, [97]) + [created] && LatestOf(after, [97]) == created
  {
    var x := Located([97], 0, 0, created, 1);
    AboutAEntries(created);
    assert [x][..0] == [] && TakenAll(r, [x]) == Taken(r, x);
    TakenEffect(r, x, [97]);
    OfNameSnoc(Taken(r, x).forwarded, Located([98], 0, 0, created, 0), [97]);
    assert Times(Taken(r, x), [97]) + [] == Times(Taken(r, x), [97]);
  }

  lemma FromAPushed(r: Received, created: nat)
    requires created < 1000
    ensures var after := AfterPacket(r, FromA(created), 1, 1);
      Times(after, [97]) == Times(r, [97]) + [created] && LatestOf(after, [97]) == created
  {
    assert LocatedAll([], 0, 0, created, 1, 1) == [] && TakenAll(r, []) == r;
    OfNameSnoc(r.forwarded, Located([97], 0, 0, created, 0), [97]);
  }

  lemma OneMorePacket(r: Received, ps: seq<RelayPacket>, p: RelayPacket)
    ensures AfterPackets(r, ps + [p], 1, 1) == AfterPacket(AfterPackets(r, ps, 1, 1), p, 1, 1)
  {
    assert (ps + [p])[..|ps|] == ps;
  }

  /** Two reports, the second with the older time: both are pushed. */
  lemma OwnTimesFall()
    ensures Times(AfterPackets(Received(map[], []), [FromA(100)] + [FromA(50)], 1, 1), [97]) == [100, 50]
  {
    var start := Received(map[], []);
    OneMorePacket(start, [], FromA(100));
    assert [] + [FromA(100)] == [FromA(100)];
    OneMorePacket(start, [FromA(100)], FromA(50));
    FromAPushed(start, 100);
    FromAPushed(AfterPackets(start, [FromA(100)], 1, 1), 50);
  }

  /** Relayed at 100, reported at 50: now an entry that is older than the first is pushed as well. */
  lemma OlderHandedOn()
    ensures Times(AfterPackets(Received(map[], []), [AboutA(100)] + [FromA(50)] + [AboutA(60)], 1, 1), [97])
            == [100, 50, 60]
  {
    var start := Received(map[], []);
    OneMorePacket(start, [], AboutA(100));
    assert [] + [AboutA(100)] == [AboutA(100)];
    OneMorePacket(start, [AboutA(100)], FromA(50));
    OneMorePacket(start, [AboutA(100)] + [FromA(50)], AboutA(60));
    AboutAPushed(start, 100);
    FromAPushed(AfterPackets(start, [AboutA(100)], 1, 1), 50);
    AboutAPushed(AfterPackets(start, [AboutA(100)] + [FromA(50)], 1, 1), 60);
  }
}
