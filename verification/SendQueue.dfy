/**
 The queue of messages waiting to be sent on one connection: higher priorities first,
 and messages of one priority in the order in which they were queued.
 */
module SendQueue {
  import opened Options
  import opened Sequences

  const COUNTER_RANGE := 0x1_0000_0000_0000_0000

  datatype Entry<M> = Entry(priority: int, messageCount: nat, message: M)

  datatype Queue<M> = Queue(entries: seq<Entry<M>>, sentMessageCount: nat, connectionClosing: bool)

  /** True if `first` is to be sent later than `second`. */
  predicate Later<M>(first: Entry<M>, second: Entry<M>)
  {
    || first.priority < second.priority
    || (first.priority == second.priority && first.messageCount > second.messageCount)
  }

  /** No other entry is to be sent before this one. */
  predicate IsTop<M>(entries: seq<Entry<M>>, i: nat)
    requires i < |entries|
  {
    forall j :: 0 <= j < |entries| ==> !Later(entries[i], entries[j])
  }

  /** An index of a top entry. */
  function Top<M>(entries: seq<Entry<M>>): (i: nat)
    requires entries != []
    ensures i < |entries| && IsTop(entries, i)
  {
    if |entries| == 1 then 0 else
      var i := 1 + Top(entries[1..]);
      assert forall j :: 1 <= j < |entries| ==> entries[j] == entries[1..][j - 1];
      if Later(entries[i], entries[0]) then 0 else i
  }

  function Remove<M>(entries: seq<Entry<M>>, i: nat): seq<Entry<M>>
    requires i < |entries|
  {
    entries[..i] + entries[i + 1..]
  }

  /** A message's priority as the queue keeps it, in one signed byte. */
  function AsChar(v: int): int
  {
    if v % 256 < 128 then v % 256 else v % 256 - 256
  }

  /** `kept` is what one signed byte keeps of `p`. */
  predicate IsCharOf(kept: int, p: int)
  {
    -128 <= kept < 128 && (kept - p) % 256 == 0
  }

  /** A priority that fits in a signed byte is kept as it is, any other up to a multiple of 256. */
  lemma KeptInOneByte(p: int)
    ensures IsCharOf(AsChar(p), p)
    ensures forall kept :: IsCharOf(kept, p) ==> kept == AsChar(p)
    ensures -128 <= p < 128 ==> AsChar(p) == p
  {
    forall kept | IsCharOf(kept, p) ensures kept == AsChar(p) {
      assert (kept - p) % 256 == 0 && (AsChar(p) - p) % 256 == 0;
    }
  }

  function Enqueue<M>(q: Queue<M>, priority: int, m: M): Queue<M>
  {
    q.(sentMessageCount := (q.sentMessageCount + 1) % COUNTER_RANGE,
       entries := if q.connectionClosing then q.entries
                  else q.entries + [Entry(AsChar(priority), q.sentMessageCount, m)])
  }

  function Dequeue<M>(q: Queue<M>): Queue<M>
    requires q.entries != []
  {
    q.(entries := Remove(q.entries, Top(q.entries)))
  }

  /** The entries are numbered in the order in which they were queued. */
  ghost predicate Numbered<M>(q: Queue<M>)
  {
    && (forall i, j :: 0 <= i < j < |q.entries| ==> q.entries[i].messageCount < q.entries[j].messageCount)
    && (forall i :: 0 <= i < |q.entries| ==> q.entries[i].messageCount < q.sentMessageCount)
  }

  /** No two waiting messages have the same number, though the counter may have started over. */
  ghost predicate Distinct<M>(entries: seq<Entry<M>>)
  {
    forall i, j :: 0 <= i < j < |entries| ==> entries[i].messageCount != entries[j].messageCount
  }

  /** With different numbers there is only one top entry. */
  lemma OneTop<M>(entries: seq<Entry<M>>, i: nat)
    requires Distinct(entries) && i < |entries| && IsTop(entries, i)
    ensures Top(entries) == i
  {
    var j := Top(entries);
    assert !Later(entries[i], entries[j]) && !Later(entries[j], entries[i]);
  }

  lemma RemoveDistinct<M>(entries: seq<Entry<M>>, k: nat)
    requires Distinct(entries) && k < |entries|
    ensures Distinct(Remove(entries, k))
  {
    forall i, j | 0 <= i < j < |Remove(entries, k)|
      ensures Remove(entries, k)[i].messageCount != Remove(entries, k)[j].messageCount
    {
      RemoveAt(entries, k, i);
      RemoveAt(entries, k, j);
    }
  }

  class MessageQueue<M> {
    var sendQueue: seq<Entry<M>>
    var sentMessageCount: nat
    var connectionClosing: bool

    ghost function Contents(): Queue<M>
      reads this
    {
      Queue(sendQueue, sentMessageCount, connectionClosing)
    }

    constructor ()
      ensures Contents() == Queue([], 0, false)
    {
      sendQueue, sentMessageCount, connectionClosing := [], 0, false;
    }

    /** On a connection that is closing the message is counted and dropped. */
    method SendMessage(priority: int, m: M)
      modifies this
      ensures Contents() == Enqueue(old(Contents()), priority, m)
      ensures old(connectionClosing) ==> sendQueue == old(sendQueue)
      ensures !old(connectionClosing) ==>
        exists kept :: IsCharOf(kept, priority) && (-128 <= priority < 128 ==> kept == priority)
          && sendQueue == old(sendQueue) + [Entry(kept, old(sentMessageCount), m)]
    {
      KeptInOneByte(priority);
      var entry := Entry(AsChar(priority), sentMessageCount, m);
      sentMessageCount := (sentMessageCount + 1) % COUNTER_RANGE;
      if !connectionClosing {
        sendQueue := sendQueue + [entry];
      }
    }

    /** A priority queue hands out some entry that no other one precedes. */
    method GetNextMessageToSend() returns (m: Option<M>)
      modifies this`sendQueue
      ensures old(sendQueue) == [] ==> m == None && Contents() == old(Contents())
      ensures old(sendQueue) != [] ==>
        exists i :: 0 <= i < |old(sendQueue)| && IsTop(old(sendQueue), i)
          && m == Some(old(sendQueue)[i].message)
          && Contents() == old(Contents()).(entries := Remove(old(sendQueue), i))
      ensures old(sendQueue) != [] && Distinct(old(sendQueue)) ==>
        m == Some(old(sendQueue)[Top(old(sendQueue))].message) && Contents() == Dequeue(old(Contents()))
    {
      if sendQueue == [] {
        return None;
      }
      ghost var top := Top(sendQueue);
      var i :| 0 <= i < |sendQueue| && IsTop(sendQueue, i);
      if Distinct(sendQueue) { OneTop(sendQueue, i); }
      m := Some(sendQueue[i].message);
      sendQueue := Remove(sendQueue, i);
    }
  }

  // ----- runs -----

  datatype Op<M> = Send(priority: int, message: M) | Take

  /** A message as it was offered to the queue. */
  datatype Offer<M> = Offer(priority: int, message: M)

  function OfferedBy<M>(op: Op<M>): seq<Offer<M>>
  {
    match op
    case Send(p, m) => [Offer(p, m)]
    case Take => []
  }

  /** What the run offers, in order. */
  function Offers<M>(ops: seq<Op<M>>): seq<Offer<M>>
  {
    if ops == [] then []
    else Offers(ops[..|ops| - 1]) + OfferedBy(ops[|ops| - 1])
  }

  /** A run: what was queued, what was taken out, and what is left, each in its order. */
  datatype History<M> = History(q: Queue<M>, queued: seq<Entry<M>>, taken: seq<Entry<M>>)

  function Perform<M>(h: History<M>, op: Op<M>): History<M>
  {
    match op
    case Send(p, m) =>
      var q := Enqueue(h.q, p, m);
      h.(q := q, queued := h.queued + q.entries[|h.q.entries|..])
    case Take =>
      if h.q.entries == [] then h
      else h.(q := Dequeue(h.q), taken := h.taken + [h.q.entries[Top(h.q.entries)]])
  }

  function PerformAll<M>(h: History<M>, ops: seq<Op<M>>): History<M>
  {
    if ops == [] then h else Perform(PerformAll(h, ops[..|ops| - 1]), ops[|ops| - 1])
  }

  function OfPriority<M>(s: seq<Entry<M>>, p: int): seq<Entry<M>>
  {
    if s == [] then [] else
      (if s[0].priority == p then [s[0]] else []) + OfPriority(s[1..], p)
  }

  lemma {:induction false} OfPriorityConcat<M>(s: seq<Entry<M>>, t: seq<Entry<M>>, p: int)
    ensures OfPriority(s + t, p) == OfPriority(s, p) + OfPriority(t, p)
  {
    if s == [] {
      assert s + t == t;
    } else {
      assert (s + t)[0] == s[0] && (s + t)[1..] == s[1..] + t;
      OfPriorityConcat(s[1..], t, p);
      Regroup(if s[0].priority == p then [s[0]] else [], OfPriority(s[1..], p), OfPriority(t, p));
    }
  }

  lemma {:induction false} NoneOfPriority<M>(s: seq<Entry<M>>, p: int)
    requires forall e :: e in s ==> e.priority != p
    ensures OfPriority(s, p) == []
  {
    if s != [] {
      assert s[0] in s && forall e :: e in s[1..] ==> e in s;
      NoneOfPriority(s[1..], p);
    }
  }

  /** The top entry is the first of its priority, and there is none of a higher one. */
  lemma TopIsFirst<M>(q: Queue<M>)
    requires Numbered(q) && q.entries != []
    ensures var i := Top(q.entries);
      && (forall j :: 0 <= j < i ==> q.entries[j].priority != q.entries[i].priority)
      && (forall j :: 0 <= j < |q.entries| ==> q.entries[j].priority <= q.entries[i].priority)
  {
    var i := Top(q.entries);
    forall j | 0 <= j < |q.entries| ensures !Later(q.entries[i], q.entries[j]) {}
  }

  /** Taking out an entry that is the first of its priority takes it off the front of that priority. */
  lemma OfPriorityWithout<M>(before: seq<Entry<M>>, x: Entry<M>, after: seq<Entry<M>>, p: int)
    requires forall e :: e in before ==> e.priority != x.priority
    ensures OfPriority(before + ([x] + after), p) == OfPriority([x], p) + OfPriority(before + after, p)
  {
    OfPriorityConcat(before, [x] + after, p);
    OfPriorityConcat([x], after, p);
    OfPriorityConcat(before, after, p);
    if x.priority == p { NoneOfPriority(before, p); }
  }

  lemma SplitAt<M>(s: seq<Entry<M>>, i: nat)
    requires i < |s|
    ensures s == s[..i] + ([s[i]] + s[i + 1..])
  {}

  lemma DequeueOfPriority<M>(q: Queue<M>, p: int)
    requires Numbered(q) && q.entries != []
    ensures OfPriority(q.entries, p) == OfPriority([q.entries[Top(q.entries)]], p) + OfPriority(Dequeue(q).entries, p)
  {
    var i, s := Top(q.entries), q.entries;
    TopIsFirst(q);
    SplitAt(s, i);
    OfPriorityWithout(s[..i], s[i], s[i + 1..], p);
  }

  lemma RemoveOne<M>(s: seq<Entry<M>>, i: nat)
    requires i < |s|
    ensures multiset(s) == multiset(Remove(s, i)) + multiset{s[i]}
  {
    SplitAt(s, i);
  }

  lemma RemoveAt<M>(s: seq<Entry<M>>, i: nat, k: nat)
    requires i < |s| && k < |s| - 1
    ensures |Remove(s, i)| == |s| - 1 && Remove(s, i)[k] == s[if k < i then k else k + 1]
  {}

  lemma DequeueNumbered<M>(q: Queue<M>)
    requires Numbered(q) && q.entries != []
    ensures Numbered(Dequeue(q))
  {
    var i, s := Top(q.entries), q.entries;
    forall j, k | 0 <= j < k < |Remove(s, i)|
      ensures Remove(s, i)[j].messageCount < Remove(s, i)[k].messageCount
    {
      RemoveAt(s, i, j);
      RemoveAt(s, i, k);
    }
    forall k | 0 <= k < |Remove(s, i)| ensures Remove(s, i)[k].messageCount < q.sentMessageCount {
      RemoveAt(s, i, k);
    }
  }

  /** What every run keeps. */
  ghost predicate Fair<M>(h: History<M>)
  {
    && Numbered(h.q)
    && (forall p :: OfPriority(h.taken, p) + OfPriority(h.q.entries, p) == OfPriority(h.queued, p))
    && multiset(h.taken) + multiset(h.q.entries) == multiset(h.queued)
  }

  lemma QueuedOfPriority<M>(taken: seq<Entry<M>>, entries: seq<Entry<M>>, queued: seq<Entry<M>>, e: Entry<M>, p: int)
    requires OfPriority(taken, p) + OfPriority(entries, p) == OfPriority(queued, p)
    ensures OfPriority(taken, p) + OfPriority(entries + [e], p) == OfPriority(queued + [e], p)
  {
    OfPriorityConcat(entries, [e], p);
    OfPriorityConcat(queued, [e], p);
    assert OfPriority(taken, p) + (OfPriority(entries, p) + OfPriority([e], p))
        == (OfPriority(taken, p) + OfPriority(entries, p)) + OfPriority([e], p);
  }

  lemma QueuedNumbered<M>(q: Queue<M>, p: int, m: M)
    requires Numbered(q) && q.sentMessageCount + 1 < COUNTER_RANGE
    ensures Numbered(Enqueue(q, p, m)) && Enqueue(q, p, m).sentMessageCount == q.sentMessageCount + 1
  {}

  lemma SendKeepsFair<M>(h: History<M>, op: Op<M>)
    requires Fair(h) && op.Send? && h.q.sentMessageCount + 1 < COUNTER_RANGE
    ensures Fair(Perform(h, op))
  {
    QueuedNumbered(h.q, op.priority, op.message);
    if h.q.connectionClosing {
      assert h.queued + h.q.entries[|h.q.entries|..] == h.queued;
    } else {
      var k := Perform(h, op);
      var e := k.q.entries[|h.q.entries|];
      assert k.taken == h.taken && k.q.entries == h.q.entries + [e] && k.queued == h.queued + [e];
      forall p ensures OfPriority(k.taken, p) + OfPriority(k.q.entries, p) == OfPriority(k.queued, p) {
        QueuedOfPriority(h.taken, h.q.entries, h.queued, e, p);
      }
    }
  }

  lemma TakenOfPriority<M>(taken: seq<Entry<M>>, q: Queue<M>, p: int)
    requires Numbered(q) && q.entries != []
    ensures OfPriority(taken + [q.entries[Top(q.entries)]], p) + OfPriority(Dequeue(q).entries, p)
         == OfPriority(taken, p) + OfPriority(q.entries, p)
  {
    OfPriorityConcat(taken, [q.entries[Top(q.entries)]], p);
    DequeueOfPriority(q, p);
  }

  lemma TakeKeepsFair<M>(h: History<M>)
    requires Fair(h) && h.q.entries != []
    ensures Fair(Perform(h, Take))
  {
    var k := Perform(h, Take);
    forall p ensures OfPriority(k.taken, p) + OfPriority(k.q.entries, p) == OfPriority(k.queued, p) {
      TakenOfPriority(h.taken, h.q, p);
    }
    DequeueNumbered(h.q);
    RemoveOne(h.q.entries, Top(h.q.entries));
  }

  ghost function Opened<M>(): History<M>
  {
    History(Queue([], 0, false), [], [])
  }

  lemma OpKeepsFair<M>(h: History<M>, op: Op<M>)
    requires Fair(h) && (op.Send? ==> h.q.sentMessageCount + 1 < COUNTER_RANGE)
    ensures Fair(Perform(h, op))
    ensures Perform(h, op).q.sentMessageCount == h.q.sentMessageCount + if op.Send? then 1 else 0
  {
    if op.Send? {
      SendKeepsFair(h, op);
      QueuedNumbered(h.q, op.priority, op.message);
    } else if h.q.entries != [] {
      TakeKeepsFair(h);
    }
  }

  lemma {:induction false} RunIsFair<M>(ops: seq<Op<M>>)
    requires |Offers(ops)| < COUNTER_RANGE
    ensures Fair(PerformAll(Opened(), ops)) && InTurn(PerformAll(Opened(), ops).queued, Offers(ops))
    ensures PerformAll(Opened(), ops).q.sentMessageCount == |Offers(ops)|
    ensures !PerformAll(Opened(), ops).q.connectionClosing
  {
    if ops != [] {
      var h, op := PerformAll(Opened(), ops[..|ops| - 1]), ops[|ops| - 1];
      RunIsFair(ops[..|ops| - 1]);
      OpKeepsFair(h, op);
      OpInTurn(h, Offers(ops[..|ops| - 1]), op);
    }
  }

  // ----- against what was offered -----

  /** The entries are those of the offers, each with its number and with what is kept of its priority. */
  ghost predicate InTurn<M>(queued: seq<Entry<M>>, offers: seq<Offer<M>>)
  {
    && |queued| == |offers|
    && forall i :: 0 <= i < |queued| ==> queued[i].messageCount == i && IsEntryFor(queued[i], offers)
  }

  ghost predicate IsEntryFor<M>(e: Entry<M>, offers: seq<Offer<M>>)
  {
    && e.messageCount < |offers|
    && e.message == offers[e.messageCount].message && IsCharOf(e.priority, offers[e.messageCount].priority)
  }

  lemma OpInTurn<M>(h: History<M>, offers: seq<Offer<M>>, op: Op<M>)
    requires InTurn(h.queued, offers) && h.q.sentMessageCount == |offers| && !h.q.connectionClosing
    ensures InTurn(Perform(h, op).queued, offers + OfferedBy(op)) && !Perform(h, op).q.connectionClosing
  {
    match op
    case Take => assert offers + [] == offers;
    case Send(p, m) =>
      KeptInOneByte(p);
      assert Perform(h, op).queued == h.queued + [Entry(AsChar(p), |offers|, m)];
      forall i | 0 <= i < |h.queued| ensures IsEntryFor(h.queued[i], offers + [Offer(p, m)]) {
        assert IsEntryFor(h.queued[i], offers);
      }
  }

  ghost predicate AllEntriesFor<M>(entries: seq<Entry<M>>, offers: seq<Offer<M>>)
  {
    forall e :: e in entries ==> IsEntryFor(e, offers)
  }

  /** What the entries were offered as. */
  ghost function OffersOf<M>(entries: seq<Entry<M>>, offers: seq<Offer<M>>): (s: seq<Offer<M>>)
    requires AllEntriesFor(entries, offers)
    ensures |s| == |entries|
    ensures forall i :: 0 <= i < |s| ==> IsEntryFor(entries[i], offers) && s[i] == offers[entries[i].messageCount]
  {
    if entries == [] then []
    else
      assert entries[0] in entries && forall e :: e in entries[1..] ==> e in entries;
      [offers[entries[0].messageCount]] + OffersOf(entries[1..], offers)
  }

  /** Those offered at priority `p`. */
  function At<M>(s: seq<Offer<M>>, p: int): seq<Offer<M>>
  {
    if s == [] then [] else (if s[0].priority == p then [s[0]] else []) + At(s[1..], p)
  }

  lemma {:induction false} AtConcat<M>(s: seq<Offer<M>>, t: seq<Offer<M>>, p: int)
    ensures At(s + t, p) == At(s, p) + At(t, p)
  {
    if s == [] {
      assert s + t == t;
    } else {
      assert (s + t)[0] == s[0] && (s + t)[1..] == s[1..] + t;
      AtConcat(s[1..], t, p);
      Regroup(if s[0].priority == p then [s[0]] else [], At(s[1..], p), At(t, p));
    }
  }

  lemma {:induction false} OfPriorityAmong<M>(s: seq<Entry<M>>, p: int)
    ensures forall e :: e in OfPriority(s, p) ==> e in s
  {
    if s != [] {
      OfPriorityAmong(s[1..], p);
      assert forall e :: e in s[1..] ==> e in s;
    }
  }

  /** Among the entries with what is kept of `p` are all those offered at `p`, in the same order. */
  lemma {:induction false} KeptHasAll<M>(s: seq<Entry<M>>, offers: seq<Offer<M>>, p: int)
    requires AllEntriesFor(s, offers)
    ensures AllEntriesFor(OfPriority(s, AsChar(p)), offers)
    ensures At(OffersOf(OfPriority(s, AsChar(p)), offers), p) == At(OffersOf(s, offers), p)
  {
    OfPriorityAmong(s, AsChar(p));
    if s != [] {
      assert s[0] in s && IsEntryFor(s[0], offers);
      assert forall e :: e in s[1..] ==> e in s;
      KeptHasAll(s[1..], offers, p);
      KeptInOneByte(p);
      var first := if s[0].priority == AsChar(p) then [s[0]] else [];
      OffersConcat(first, OfPriority(s[1..], AsChar(p)), offers);
      AtConcat(OffersOf(first, offers), OffersOf(OfPriority(s[1..], AsChar(p)), offers), p);
    }
  }

  lemma OffersConcat<M>(s: seq<Entry<M>>, t: seq<Entry<M>>, offers: seq<Offer<M>>)
    requires AllEntriesFor(s, offers) && AllEntriesFor(t, offers)
    ensures AllEntriesFor(s + t, offers) && OffersOf(s + t, offers) == OffersOf(s, offers) + OffersOf(t, offers)
  {
  }

  lemma QueuedAreOffers<M>(queued: seq<Entry<M>>, offers: seq<Offer<M>>)
    requires InTurn(queued, offers)
    ensures AllEntriesFor(queued, offers) && OffersOf(queued, offers) == offers
  {
  }

  lemma AllQueued<M>(h: History<M>, offers: seq<Offer<M>>)
    requires Fair(h) && InTurn(h.queued, offers)
    ensures AllEntriesFor(h.taken, offers) && AllEntriesFor(h.q.entries, offers)
  {
    forall e | e in h.taken || e in h.q.entries ensures IsEntryFor(e, offers) {
      assert e in multiset(h.taken) + multiset(h.q.entries);
      assert e in h.queued;
    }
  }

  /** The messages taken out first and those left, of any one priority, are those offered at it, in order. */
  lemma OfferedOrder<M>(h: History<M>, offers: seq<Offer<M>>, p: int)
    requires Fair(h) && InTurn(h.queued, offers)
    ensures AllEntriesFor(h.taken, offers) && AllEntriesFor(h.q.entries, offers)
    ensures At(OffersOf(h.taken, offers), p) + At(OffersOf(h.q.entries, offers), p) == At(offers, p)
  {
    var kept := AsChar(p);
    AllQueued(h, offers);
    QueuedAreOffers(h.queued, offers);
    KeptHasAll(h.taken, offers, p);
    KeptHasAll(h.q.entries, offers, p);
    KeptHasAll(h.queued, offers, p);
    OffersConcat(OfPriority(h.taken, kept), OfPriority(h.q.entries, kept), offers);
    AtConcat(OffersOf(OfPriority(h.taken, kept), offers), OffersOf(OfPriority(h.q.entries, kept), offers), p);
  }

  /**
   In every run that offers fewer than 2^64 messages: those offered at any one priority leave
   in the order in which they were offered, and nothing is lost or made up.
   */
  lemma QueueOrder<M>(ops: seq<Op<M>>, p: int)
    requires |Offers(ops)| < COUNTER_RANGE
    ensures var h, offers := PerformAll(Opened(), ops), Offers(ops);
      && AllEntriesFor(h.taken, offers) && AllEntriesFor(h.q.entries, offers)
      && At(OffersOf(h.taken, offers), p) + At(OffersOf(h.q.entries, offers), p) == At(offers, p)
      && InTurn(h.queued, offers) && multiset(h.taken) + multiset(h.q.entries) == multiset(h.queued)
  {
    RunIsFair(ops);
    OfferedOrder(PerformAll(Opened(), ops), Offers(ops), p);
  }

  ghost predicate FitsInChar<M>(offers: seq<Offer<M>>)
  {
    forall o :: o in offers ==> -128 <= o.priority < 128
  }

  /** `e` is to be sent before `w`: of larger kept priority, or of the same and offered earlier. */
  ghost predicate Before<M>(e: Entry<M>, w: Entry<M>)
  {
    e.priority > w.priority || (e.priority == w.priority && e.messageCount < w.messageCount)
  }

  /** The same by what the messages were offered at. */
  ghost predicate OfferedBefore<M>(e: Entry<M>, w: Entry<M>, offers: seq<Offer<M>>)
    requires IsEntryFor(e, offers) && IsEntryFor(w, offers)
  {
    var p, q := offers[e.messageCount].priority, offers[w.messageCount].priority;
    p > q || (p == q && e.messageCount < w.messageCount)
  }

  lemma CharsCompare<M>(e: Entry<M>, w: Entry<M>, offers: seq<Offer<M>>)
    requires IsEntryFor(e, offers) && IsEntryFor(w, offers) && FitsInChar(offers)
    ensures OfferedBefore(e, w, offers) <==> Before(e, w)
  {
    assert offers[e.messageCount] in offers && offers[w.messageCount] in offers;
    KeptInOneByte(offers[e.messageCount].priority);
    KeptInOneByte(offers[w.messageCount].priority);
  }

  /**
   And what is taken out next comes before everything else that is waiting: it has the highest
   priority kept, and if all priorities fit in a signed byte the highest one offered, and of
   those with it it was offered first.
   */
  lemma NextIsFirstOfHighest<M>(ops: seq<Op<M>>)
    requires |Offers(ops)| < COUNTER_RANGE && PerformAll(Opened(), ops).q.entries != []
    ensures var h, offers := PerformAll(Opened(), ops), Offers(ops);
            var next := Perform(h, Take);
      && |next.taken| == |h.taken| + 1 && next.taken[..|h.taken|] == h.taken
      && var e := next.taken[|h.taken|];
      && e in h.q.entries && multiset(next.q.entries) == multiset(h.q.entries) - multiset{e}
      && AllEntriesFor(h.q.entries, offers)
      && (forall w :: w in h.q.entries && w != e ==> Before(e, w))
      && (FitsInChar(offers) ==> forall w :: w in h.q.entries && w != e ==> OfferedBefore(e, w, offers))
  {
    RunIsFair(ops);
    var h, offers := PerformAll(Opened(), ops), Offers(ops);
    var i := Top(h.q.entries);
    var e := h.q.entries[i];
    AllQueued(h, offers);
    RemoveOne(h.q.entries, i);
    forall w | w in h.q.entries && w != e ensures Before(e, w) {
      var j :| 0 <= j < |h.q.entries| && h.q.entries[j] == w;
      assert !Later(e, w) && e.messageCount != w.messageCount;
    }
    if FitsInChar(offers) {
      forall w | w in h.q.entries && w != e ensures OfferedBefore(e, w, offers) { CharsCompare(e, w, offers); }
    }
  }

  // ----- without the bound -----

  /** The entries in an order in which they can leave if nothing else is queued. */
  function Draining<M>(entries: seq<Entry<M>>): seq<Entry<M>>
    decreases |entries|
  {
    if entries == [] then [] else [entries[Top(entries)]] + Draining(Remove(entries, Top(entries)))
  }

  lemma {:induction false} DrainingAll<M>(entries: seq<Entry<M>>)
    ensures multiset(Draining(entries)) == multiset(entries)
    decreases |entries|
  {
    if entries != [] {
      DrainingAll(Remove(entries, Top(entries)));
      RemoveOne(entries, Top(entries));
    }
  }

  lemma DrainingHas<M>(entries: seq<Entry<M>>, e: Entry<M>)
    ensures e in Draining(entries) <==> e in entries
  {
    DrainingAll(entries);
    assert e in multiset(Draining(entries)) <==> e in multiset(entries);
  }

  /** Nothing stands before what is to be sent before it. */
  ghost predicate InOrder<M>(s: seq<Entry<M>>)
  {
    forall i, j :: 0 <= i < j < |s| ==> !Later(s[i], s[j])
  }

  lemma InOrderInFront<M>(x: Entry<M>, s: seq<Entry<M>>)
    requires InOrder(s) && forall y :: y in s ==> !Later(x, y)
    ensures InOrder([x] + s)
  {
    forall i, j | 0 <= i < j < |[x] + s| ensures !Later(([x] + s)[i], ([x] + s)[j]) {
      assert ([x] + s)[j] == s[j - 1] && s[j - 1] in s;
      assert i > 0 ==> ([x] + s)[i] == s[i - 1];
    }
  }

  lemma TopBeforeRest<M>(entries: seq<Entry<M>>, x: Entry<M>)
    requires entries != [] && x in Remove(entries, Top(entries))
    ensures !Later(entries[Top(entries)], x)
  {
    assert x in entries;
  }

  lemma {:induction false} DrainingInOrder<M>(entries: seq<Entry<M>>)
    ensures InOrder(Draining(entries))
    decreases |entries|
  {
    if entries != [] {
      var rest := Remove(entries, Top(entries));
      DrainingInOrder(rest);
      forall y | y in Draining(rest) ensures !Later(entries[Top(entries)], y) {
        DrainingHas(rest, y);
        TopBeforeRest(entries, y);
      }
      InOrderInFront(entries[Top(entries)], Draining(rest));
    }
  }

  /** The last of its priority to leave. */
  ghost predicate LeavesLast<M>(s: seq<Entry<M>>, e: Entry<M>)
  {
    exists k :: 0 <= k < |s| && s[k] == e && forall j :: k < j < |s| ==> s[j].priority != e.priority
  }

  lemma {:induction false} LastIndex<M>(s: seq<Entry<M>>, e: Entry<M>) returns (k: nat)
    requires e in s
    ensures k < |s| && s[k] == e && forall j :: k < j < |s| ==> s[j] != e
  {
    if s[|s| - 1] == e {
      k := |s| - 1;
    } else {
      assert e in s[..|s| - 1];
      k := LastIndex(s[..|s| - 1], e);
    }
  }

  /** Of different counters. */
  ghost predicate NoTie<M>(waiting: seq<Entry<M>>, e: Entry<M>)
  {
    forall x :: x in waiting && x.priority == e.priority ==> x.messageCount != e.messageCount
  }

  ghost predicate NewestOfPriority<M>(waiting: seq<Entry<M>>, e: Entry<M>)
  {
    forall x :: x in waiting && x.priority == e.priority ==> x.messageCount < e.messageCount
  }

  lemma LastIsNewest<M>(waiting: seq<Entry<M>>, e: Entry<M>, x: Entry<M>)
    requires NoTie(waiting, e) && LeavesLast(Draining(waiting + [e]), e)
    requires x in waiting && x.priority == e.priority
    ensures x.messageCount < e.messageCount
  {
    var s := Draining(waiting + [e]);
    var k :| 0 <= k < |s| && s[k] == e && forall j :: k < j < |s| ==> s[j].priority != e.priority;
    DrainingHas(waiting + [e], x);
    var i :| 0 <= i < |s| && s[i] == x;
    DrainingInOrder(waiting + [e]);
    assert i < k;
  }

  lemma NewestIsLast<M>(waiting: seq<Entry<M>>, e: Entry<M>)
    requires NewestOfPriority(waiting, e)
    ensures LeavesLast(Draining(waiting + [e]), e)
  {
    var s := Draining(waiting + [e]);
    DrainingHas(waiting + [e], e);
    var k := LastIndex(s, e);
    DrainingInOrder(waiting + [e]);
    forall j | k < j < |s| ensures s[j].priority != e.priority {
      DrainingHas(waiting + [e], s[j]);
      assert !Later(s[k], s[j]);
    }
  }

  /**
   Whatever is waiting: a message queued now leaves after all waiting ones of its priority
   exactly if none of these has a larger counter.
   */
  lemma NewestLeavesLastIff<M>(q: Queue<M>, p: int, m: M, e: Entry<M>)
    requires !q.connectionClosing && Enqueue(q, p, m).entries == q.entries + [e] && NoTie(q.entries, e)
    ensures e.message == m && IsCharOf(e.priority, p)
    ensures LeavesLast(Draining(Enqueue(q, p, m).entries), e) <==> NewestOfPriority(q.entries, e)
  {
    KeptInOneByte(p);
    assert (q.entries + [e])[|q.entries|] == e;
    if LeavesLast(Draining(q.entries + [e]), e) {
      forall x | x in q.entries && x.priority == e.priority ensures x.messageCount < e.messageCount {
        LastIsNewest(q.entries, e, x);
      }
    }
    if NewestOfPriority(q.entries, e) { NewestIsLast(q.entries, e); }
  }

  /** The message that makes the counter start over is overtaken by the one after it. */
  lemma CounterStartsOver<M>(q: Queue<M>, p: int, first: M, second: M)
    requires q.entries == [] && q.sentMessageCount == COUNTER_RANGE - 1 && !q.connectionClosing
    ensures var both := Enqueue(Enqueue(q, p, first), p, second);
      both.entries[Top(both.entries)].message == second
  {
    var both := Enqueue(Enqueue(q, p, first), p, second);
    assert both.entries == [Entry(AsChar(p), COUNTER_RANGE - 1, first), Entry(AsChar(p), 0, second)];
    assert Later(both.entries[0], both.entries[1]);
  }

  /** `n` messages, each of them taken out at once. */
  function Busy<M>(n: nat, p: int, m: M): seq<Op<M>>
  {
    if n == 0 then [] else Busy(n - 1, p, m) + [Send(p, m)] + [Take]
  }

  lemma OneMoreOp<M>(h: History<M>, ops: seq<Op<M>>, op: Op<M>)
    ensures PerformAll(h, ops + [op]) == Perform(PerformAll(h, ops), op)
  {
    assert (ops + [op])[..|ops|] == ops;
  }

  lemma OneBusy<M>(h: History<M>, p: int, m: M)
    requires h.q.entries == [] && !h.q.connectionClosing && h.q.sentMessageCount + 1 < COUNTER_RANGE
    ensures Perform(Perform(h, Send(p, m)), Take).q == Queue([], h.q.sentMessageCount + 1, false)
  {
    var e := Entry(AsChar(p), h.q.sentMessageCount, m);
    assert Perform(h, Send(p, m)).q.entries == [e] && Remove([e], Top([e])) == [];
  }

  lemma {:induction false} AfterBusy<M>(n: nat, p: int, m: M)
    requires n < COUNTER_RANGE
    ensures PerformAll(Opened(), Busy(n, p, m)).q == Queue([], n, false)
  {
    if n > 0 {
      AfterBusy(n - 1, p, m);
      OneBusy(PerformAll(Opened(), Busy(n - 1, p, m)), p, m);
      OneMoreOp(Opened(), Busy(n - 1, p, m), Send(p, m));
      OneMoreOp(Opened(), Busy(n - 1, p, m) + [Send(p, m)], Take);
    }
  }

  /** The run on which it happens: after 2^64 - 1 messages, of the next two the second leaves first. */
  lemma OvertakenInRun<M>(p: int, m: M, first: M, second: M)
    ensures var h := PerformAll(Opened(), Busy(COUNTER_RANGE - 1, p, m) + [Send(p, first)] + [Send(p, second)]);
      && h.q.entries != [] && h.q.entries[Top(h.q.entries)].message == second
      && |h.q.entries| == 2 && h.q.entries[0].message == first
  {
    var busy := Busy(COUNTER_RANGE - 1, p, m);
    AfterBusy(COUNTER_RANGE - 1, p, m);
    OneMoreOp(Opened(), busy, Send(p, first));
    OneMoreOp(Opened(), busy + [Send(p, first)], Send(p, second));
    CounterStartsOver(PerformAll(Opened(), busy).q, p, first, second);
  }
}
