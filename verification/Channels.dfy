/** The byte channel: frames messages out of whatever chunks arrive, counts them and hands each one to
    every subscriber. The frame parser itself is a parameter. */
module Channels {
  import opened Prelude

  const TWO64 := 0x1_0000_0000_0000_0000
  type Count = x: int | 0 <= x < 0x1_0000_0000_0000_0000

  /** What the frame parser says about one byte; bad signatures are not looked at. */
  datatype Outcome<+M> = Incomplete | Good(message: M) | BadCrc | BadSignature

  datatype State<P, M> = State(parser: P, received: Count, good: Count, bad: Count,
                               subscribers: seq<nat>, nextId: nat, deliveries: seq<(nat, M)>)

  function Plus(c: Count, n: nat): Count { (c + n) % TWO64 }

  function Find(ids: seq<nat>, id: nat): (i: nat)
    ensures i <= |ids|
    ensures i < |ids| <==> id in ids
    ensures i < |ids| ==> ids[i] == id
  {
    if ids == [] || ids[0] == id then 0 else 1 + Find(ids[1..], id)
  }

  function Subscribed<P, M>(s: State<P, M>): State<P, M> {
    s.(subscribers := s.subscribers + [s.nextId], nextId := s.nextId + 1)
  }

  function Unsubscribed<P, M>(s: State<P, M>, id: nat): State<P, M> {
    var i := Find(s.subscribers, id);
    if i < |s.subscribers| then s.(subscribers := RemoveAt(s.subscribers, i)) else s
  }

  // Framing byte by byte.

  function ParserAfter<P, M>(frame: (P, Byte) -> (P, Outcome<M>), p: P, data: seq<Byte>): P
    decreases |data|
  {
    if data == [] then p else frame(ParserAfter(frame, p, data[..|data| - 1]), data[|data| - 1]).0
  }

  function LastOutcome<P, M>(frame: (P, Byte) -> (P, Outcome<M>), p: P, data: seq<Byte>): Outcome<M>
    requires data != []
  {
    frame(ParserAfter(frame, p, data[..|data| - 1]), data[|data| - 1]).1
  }

  function Messages<P, M>(frame: (P, Byte) -> (P, Outcome<M>), p: P, data: seq<Byte>): seq<M>
    decreases |data|
  {
    if data == [] then []
    else
      var last := LastOutcome(frame, p, data);
      Messages(frame, p, data[..|data| - 1]) + if last.Good? then [last.message] else []
  }

  function BadFrames<P, M>(frame: (P, Byte) -> (P, Outcome<M>), p: P, data: seq<Byte>): nat
    decreases |data|
  {
    if data == [] then 0
    else BadFrames(frame, p, data[..|data| - 1]) + if LastOutcome(frame, p, data).BadCrc? then 1 else 0
  }

  function Parsed<P, M>(frame: (P, Byte) -> (P, Outcome<M>), s: State<P, M>, data: seq<Byte>): State<P, M> {
    var n := |Messages(frame, s.parser, data)|;
    var bad := BadFrames(frame, s.parser, data);
    s.(parser := ParserAfter(frame, s.parser, data),
       received := Plus(s.received, n + bad), good := Plus(s.good, n), bad := Plus(s.bad, bad))
  }

  lemma ParseNothing<P, M>(frame: (P, Byte) -> (P, Outcome<M>), s: State<P, M>)
    ensures Parsed(frame, s, []) == s && Messages(frame, s.parser, []) == []
  {
  }

  lemma PlusPlus(c: Count, m: nat, n: nat)
    ensures Plus(Plus(c, m), n) == Plus(c, m + n)
  {
  }

  lemma ParseOne<P, M>(frame: (P, Byte) -> (P, Outcome<M>), s: State<P, M>, data: seq<Byte>, b: Byte)
    ensures var t := Parsed(frame, s, data);
            var (q, o) := frame(t.parser, b);
            && Parsed(frame, s, data + [b]) ==
                 t.(parser := q,
                    received := if o.Good? || o.BadCrc? then Plus(t.received, 1) else t.received,
                    good := if o.Good? then Plus(t.good, 1) else t.good,
                    bad := if o.BadCrc? then Plus(t.bad, 1) else t.bad)
            && Messages(frame, s.parser, data + [b]) ==
                 if o.Good? then Messages(frame, s.parser, data) + [o.message] else Messages(frame, s.parser, data)
  {
    hide Plus;
    assert (data + [b])[..|data|] == data;
    var n := |Messages(frame, s.parser, data)|;
    var bad := BadFrames(frame, s.parser, data);
    PlusPlus(s.received, n + bad, 1);
    PlusPlus(s.good, n, 1);
    PlusPlus(s.bad, bad, 1);
  }

  function ToAll<M>(ids: seq<nat>, m: M): (r: seq<(nat, M)>) {
    seq(|ids|, i requires 0 <= i < |ids| => (ids[i], m))
  }

  function Deliveries<M>(ids: seq<nat>, ms: seq<M>): seq<(nat, M)>
    decreases |ms|
  {
    if ms == [] then [] else Deliveries(ids, ms[..|ms| - 1]) + ToAll(ids, ms[|ms| - 1])
  }

  function Read<P, M>(frame: (P, Byte) -> (P, Outcome<M>), s: State<P, M>, data: seq<Byte>): State<P, M> {
    Parsed(frame, s, data).(deliveries := s.deliveries + Deliveries(s.subscribers, Messages(frame, s.parser, data)))
  }

  class Channel<P(0), M> {
    const frame: (P, Byte) -> (P, Outcome<M>)
    var parser: P
    var received: Count
    var good: Count
    var bad: Count
    /** Each subscription is known by its number; `deliveries` is every call made to a subscriber. */
    var subscribers: seq<nat>
    var nextId: nat
    var deliveries: seq<(nat, M)>

    function Now(): State<P, M>
      reads this
    {
      State(parser, received, good, bad, subscribers, nextId, deliveries)
    }

    constructor (frame: (P, Byte) -> (P, Outcome<M>), empty: P)
      ensures this.frame == frame && Now() == State(empty, 0, 0, 0, [], 0, [])
    {
      this.frame := frame;
      parser, received, good, bad, subscribers, nextId, deliveries := empty, 0, 0, 0, [], 0, [];
    }

    method Start()
      modifies this`received, this`good, this`bad
      ensures Now() == old(Now()).(received := 0, good := 0, bad := 0)
    {
      received, good, bad := 0, 0, 0;
    }

    method Subscribe() returns (id: nat)
      modifies this`subscribers, this`nextId
      ensures id == old(nextId) && Now() == Subscribed(old(Now()))
    {
      id := nextId;
      subscribers, nextId := subscribers + [id], nextId + 1;
    }

    method Unsubscribe(id: nat)
      requires id in subscribers
      modifies this`subscribers
      ensures Now() == Unsubscribed(old(Now()), id)
    {
      subscribers := RemoveAt(subscribers, Find(subscribers, id));
    }

    method ProcessMavlinkData(data: seq<Byte>) returns (result: Option<seq<M>>)
      modifies this`parser, this`received, this`good, this`bad
      ensures var s := old(Now());
              Now() == Parsed(frame, s, data) &&
              result == if Messages(frame, s.parser, data) == [] then None else Some(Messages(frame, s.parser, data))
    {
      hide ParserAfter, Messages, BadFrames, Plus;
      result := None;
      ghost var s := Now();
      ParseNothing(frame, s);
      for i := 0 to |data|
        invariant Now() == Parsed(frame, s, data[..i])
        invariant var ms := Messages(frame, s.parser, data[..i]); result == if ms == [] then None else Some(ms)
      {
        ParseOne(frame, s, data[..i], data[i]);
        assert data[..i + 1] == data[..i] + [data[i]];
        var (next, outcome) := frame(parser, data[i]);
        parser := next;
        match outcome
        case Incomplete =>
        case Good(m) =>
          if result.None? {
            result := Some([]);
          }
          result := Some(result.value + [m]);
          received, good := Plus(received, 1), Plus(good, 1);
        case BadCrc =>
          received, bad := Plus(received, 1), Plus(bad, 1);
        case BadSignature =>
      }
      assert data[..|data|] == data;
    }

    method InvokeSubscribers(ms: seq<M>)
      modifies this`deliveries
      ensures deliveries == old(deliveries) + Deliveries(subscribers, ms)
    {
      var copy := subscribers;
      for i := 0 to |ms|
        invariant deliveries == old(deliveries) + Deliveries(copy, ms[..i])
      {
        ghost var before := deliveries;
        for k := 0 to |copy|
          invariant deliveries == before + ToAll(copy[..k], ms[i])
        {
          deliveries := deliveries + [(copy[k], ms[i])];
          assert ToAll(copy[..k + 1], ms[i]) == ToAll(copy[..k], ms[i]) + [(copy[k], ms[i])];
        }
        assert copy[..|copy|] == copy && ms[..i + 1][..i] == ms[..i];
      }
      assert ms[..|ms|] == ms;
    }

    /** One completed read of a tcp, udp or serial channel. */
    method HandleRead(data: seq<Byte>)
      modifies this
      ensures Now() == Read(frame, old(Now()), data)
    {
      var result := ProcessMavlinkData(data);
      if result.Some? {
        InvokeSubscribers(result.value);
      } else {
        assert deliveries == deliveries + Deliveries<M>(subscribers, []);
      }
    }
  }

  lemma PlusWrapped(a: nat, x: nat)
    ensures (a + x % TWO64) % TWO64 == (a + x) % TWO64
  {
  }

  lemma PlusBoth(good: Count, bad: Count, m: nat, n: nat)
    ensures Plus(Plus(good, bad), m + n) == Plus(Plus(good, m), Plus(bad, n))
  {
    PlusWrapped(m + n, good + bad);
    PlusWrapped(Plus(good, m), bad + n);
    PlusWrapped(bad + n, good + m);
  }

  /** The good messages and the bad checksums among some outcomes. */
  function Goods<M>(os: seq<Outcome<M>>): seq<M>
    decreases |os|
  {
    if os == [] then []
    else Goods(os[..|os| - 1]) + match os[|os| - 1] case Good(m) => [m] case _ => []
  }

  function Bads<M>(os: seq<Outcome<M>>): nat
    decreases |os|
  {
    if os == [] then 0 else Bads(os[..|os| - 1]) + One(os[|os| - 1].BadCrc?)
  }

  /** The parser goes from state to state, one byte each, and what it says on the way is what counts. */
  lemma {:induction false} FramedAlong<P, M>(frame: (P, Byte) -> (P, Outcome<M>), ps: seq<P>, os: seq<Outcome<M>>,
                                             data: seq<Byte>)
    requires |ps| == |data| + 1 && |os| == |data|
    requires forall i | 0 <= i < |data| :: frame(ps[i], data[i]) == (ps[i + 1], os[i])
    ensures ParserAfter(frame, ps[0], data) == ps[|data|]
    ensures Messages(frame, ps[0], data) == Goods(os) && BadFrames(frame, ps[0], data) == Bads(os)
    decreases |data|
  {
    if data != [] {
      var n := |data| - 1;
      FramedAlong(frame, ps[..n + 1], os[..n], data[..n]);
    }
  }

  // Chunks.

  lemma {:induction false} ParseSplits<P, M>(frame: (P, Byte) -> (P, Outcome<M>), p: P, a: seq<Byte>, b: seq<Byte>)
    ensures var q := ParserAfter(frame, p, a);
            && ParserAfter(frame, p, a + b) == ParserAfter(frame, q, b)
            && Messages(frame, p, a + b) == Messages(frame, p, a) + Messages(frame, q, b)
            && BadFrames(frame, p, a + b) == BadFrames(frame, p, a) + BadFrames(frame, q, b)
    decreases |b|
  {
    if b == [] {
      assert a + b == a;
    } else {
      var c := b[..|b| - 1];
      assert (a + b)[..|a + b| - 1] == a + c;
      ParseSplits(frame, p, a, c);
    }
  }

  lemma {:induction false} DeliveriesSplit<M>(ids: seq<nat>, ms: seq<M>, ns: seq<M>)
    ensures Deliveries(ids, ms + ns) == Deliveries(ids, ms) + Deliveries(ids, ns)
    decreases |ns|
  {
    hide ToAll;
    if ns == [] {
      assert ms + ns == ms;
    } else {
      var fewer := ns[..|ns| - 1];
      var last := ToAll(ids, ns[|ns| - 1]);
      assert (ms + ns)[..|ms + ns| - 1] == ms + fewer;
      DeliveriesSplit(ids, ms, fewer);
      var a, b := Deliveries(ids, ms), Deliveries(ids, fewer);
      assert a + b + last == a + (b + last);
    }
  }

  /** Reading two chunks one after the other is reading them as one. */
  lemma ReadsJoin<P, M>(frame: (P, Byte) -> (P, Outcome<M>), s: State<P, M>, a: seq<Byte>, b: seq<Byte>)
    ensures Read(frame, Read(frame, s, a), b) == Read(frame, s, a + b)
  {
    hide ParserAfter, Messages, BadFrames, Deliveries, Plus;
    var q := ParserAfter(frame, s.parser, a);
    ParseSplits(frame, s.parser, a, b);
    var (ms, ns) := (Messages(frame, s.parser, a), Messages(frame, q, b));
    var (m, n) := (BadFrames(frame, s.parser, a), BadFrames(frame, q, b));
    DeliveriesSplit(s.subscribers, ms, ns);
    PlusPlus(s.received, |ms| + m, |ns| + n);
    PlusPlus(s.good, |ms|, |ns|);
    PlusPlus(s.bad, m, n);
    assert s.deliveries + (Deliveries(s.subscribers, ms) + Deliveries(s.subscribers, ns))
        == s.deliveries + Deliveries(s.subscribers, ms) + Deliveries(s.subscribers, ns);
  }

  function ReadAll<P, M>(frame: (P, Byte) -> (P, Outcome<M>), s: State<P, M>, chunks: seq<seq<Byte>>): State<P, M>
    decreases |chunks|
  {
    if chunks == [] then s
    else Read(frame, ReadAll(frame, s, chunks[..|chunks| - 1]), chunks[|chunks| - 1])
  }

  function Joined(chunks: seq<seq<Byte>>): seq<Byte>
    decreases |chunks|
  {
    if chunks == [] then [] else Joined(chunks[..|chunks| - 1]) + chunks[|chunks| - 1]
  }

  lemma ReadNothing<P, M>(frame: (P, Byte) -> (P, Outcome<M>), s: State<P, M>)
    ensures Read(frame, s, []) == s
  {
    assert s.deliveries + Deliveries<M>(s.subscribers, []) == s.deliveries;
  }

  /** However the bytes are cut into chunks, parser, counters and every delivery come out the same. */
  lemma {:induction false} ChunkingIrrelevant<P, M>(frame: (P, Byte) -> (P, Outcome<M>), s: State<P, M>,
                                                    chunks: seq<seq<Byte>>)
    ensures ReadAll(frame, s, chunks) == Read(frame, s, Joined(chunks))
    decreases |chunks|
  {
    hide Read;
    if chunks == [] {
      ReadNothing(frame, s);
    } else {
      var most := chunks[..|chunks| - 1];
      ChunkingIrrelevant(frame, s, most);
      ReadsJoin(frame, s, Joined(most), chunks[|chunks| - 1]);
    }
  }

  // Subscribers and counters.

  /** What one subscriber was handed, in order. */
  function To<M>(ds: seq<(nat, M)>, id: nat): seq<M>
    decreases |ds|
  {
    if ds == [] then []
    else To(ds[..|ds| - 1], id) + if ds[|ds| - 1].0 == id then [ds[|ds| - 1].1] else []
  }

  lemma {:induction false} ToAppend<M>(ds: seq<(nat, M)>, es: seq<(nat, M)>, id: nat)
    ensures To(ds + es, id) == To(ds, id) + To(es, id)
    decreases |es|
  {
    if es == [] {
      assert ds + es == ds;
    } else {
      assert (ds + es)[..|ds + es| - 1] == ds + es[..|es| - 1];
      ToAppend(ds, es[..|es| - 1], id);
    }
  }

  predicate Distinct(ids: seq<nat>) {
    forall i, k :: 0 <= i < k < |ids| ==> ids[i] != ids[k]
  }

  lemma {:induction false} ToAllReaches<M>(ids: seq<nat>, m: M, id: nat)
    requires Distinct(ids)
    ensures To(ToAll(ids, m), id) == if id in ids then [m] else []
    decreases |ids|
  {
    if ids != [] {
      var fewer := ids[..|ids| - 1];
      assert ToAll(ids, m)[..|ids| - 1] == ToAll(fewer, m);
      assert ids == fewer + [ids[|ids| - 1]];
      ToAllReaches(fewer, m, id);
    }
  }

  lemma DeliveredNext<M>(ids: seq<nat>, ms: seq<M>, m: M, id: nat)
    requires Distinct(ids)
    ensures To(Deliveries(ids, ms + [m]), id) == To(Deliveries(ids, ms), id) + if id in ids then [m] else []
  {
    assert (ms + [m])[..|ms|] == ms;
    hide To, ToAll, Distinct;
    ToAppend(Deliveries(ids, ms), ToAll(ids, m), id);
    ToAllReaches(ids, m, id);
  }

  lemma DeliveredNone<M>(ids: seq<nat>, id: nat)
    ensures To(Deliveries<M>(ids, []), id) == []
  {
  }

  lemma {:induction false} DeliveriesReach<M>(ids: seq<nat>, ms: seq<M>, id: nat)
    requires Distinct(ids)
    ensures To(Deliveries(ids, ms), id) == if id in ids then ms else []
    decreases |ms|
  {
    hide To, Deliveries, Distinct;
    if ms == [] {
      DeliveredNone<M>(ids, id);
    } else {
      var fewer, last := ms[..|ms| - 1], ms[|ms| - 1];
      assert ms == fewer + [last];
      DeliveriesReach(ids, fewer, id);
      DeliveredNext(ids, fewer, last, id);
    }
  }

  // Runs of a channel.

  datatype Op = Subscribing | Unsubscribing(id: nat) | Reading(data: seq<Byte>)

  function Do<P, M>(frame: (P, Byte) -> (P, Outcome<M>), s: State<P, M>, op: Op): State<P, M> {
    match op
    case Subscribing => Subscribed(s)
    case Unsubscribing(id) => Unsubscribed(s, id)
    case Reading(data) => Read(frame, s, data)
  }

  function Run<P, M>(frame: (P, Byte) -> (P, Outcome<M>), s: State<P, M>, ops: seq<Op>): State<P, M>
    decreases |ops|
  {
    if ops == [] then s else Do(frame, Run(frame, s, ops[..|ops| - 1]), ops[|ops| - 1])
  }

  predicate Numbered<P, M>(s: State<P, M>) {
    Distinct(s.subscribers) && forall id | id in s.subscribers :: id < s.nextId
  }

  lemma RemovedStaysNumbered<P, M>(s: State<P, M>, id: nat)
    requires Numbered(s)
    ensures Numbered(Unsubscribed(s, id))
  {
    hide Find;
    var t := Unsubscribed(s, id);
    forall other | other in t.subscribers ensures other in s.subscribers {
      var k :| 0 <= k < |t.subscribers| && t.subscribers[k] == other;
      assert other == s.subscribers[k] || (k + 1 < |s.subscribers| && other == s.subscribers[k + 1]);
    }
  }

  /** A read keeps the numbering and the counters, and gives each subscriber the messages in it. */
  lemma ReadServes<P, M>(frame: (P, Byte) -> (P, Outcome<M>), s: State<P, M>, data: seq<Byte>, id: nat)
    requires Numbered(s) && s.received == Plus(s.good, s.bad)
    ensures var t := Read(frame, s, data);
            && To(t.deliveries, id) ==
                 To(s.deliveries, id) + (if id in s.subscribers then Messages(frame, s.parser, data) else [])
            && Numbered(t) && t.received == Plus(t.good, t.bad)
  {
    hide ParserAfter, Messages, BadFrames, Deliveries, To, Plus;
    var ms := Messages(frame, s.parser, data);
    ToAppend(s.deliveries, Deliveries(s.subscribers, ms), id);
    DeliveriesReach(s.subscribers, ms, id);
    PlusBoth(s.good, s.bad, |ms|, BadFrames(frame, s.parser, data));
  }

  lemma AddedStaysNumbered<P, M>(s: State<P, M>)
    requires Numbered(s)
    ensures Numbered(Subscribed(s))
  {
    var ids := s.subscribers + [s.nextId];
    forall i, k | 0 <= i < k < |ids| ensures ids[i] != ids[k] {
      assert s.subscribers[i] in s.subscribers;
    }
  }

  /** All bytes read, in order. */
  function Bytes(ops: seq<Op>): seq<Byte>
    decreases |ops|
  {
    if ops == [] then []
    else Bytes(ops[..|ops| - 1]) + if ops[|ops| - 1].Reading? then ops[|ops| - 1].data else []
  }

  lemma StaySubscribed<P, M>(s: State<P, M>, gone: nat, id: nat)
    requires id in s.subscribers && id != gone
    ensures id in Unsubscribed(s, gone).subscribers
  {
    hide Find;
    var t := Unsubscribed(s, gone);
    var k :| 0 <= k < |s.subscribers| && s.subscribers[k] == id;
    var i := Find(s.subscribers, gone);
    if i < |s.subscribers| {
      assert t.subscribers[if k < i then k else k - 1] == id;
    }
  }

  lemma NoBytes<P, M>(frame: (P, Byte) -> (P, Outcome<M>), p: P)
    ensures ParserAfter(frame, p, []) == p
  {
  }

  lemma ReadParses<P, M>(frame: (P, Byte) -> (P, Outcome<M>), s: State<P, M>, data: seq<Byte>)
    ensures Read(frame, s, data).parser == ParserAfter(frame, s.parser, data)
    ensures Read(frame, s, data).subscribers == s.subscribers && Read(frame, s, data).nextId == s.nextId
  {
  }

  /** One more read for a subscriber that has been handed the messages of all bytes so far. */
  lemma ReadContinues<P, M>(frame: (P, Byte) -> (P, Outcome<M>), s: State<P, M>, bytes: seq<Byte>,
                            t: State<P, M>, data: seq<Byte>, id: nat)
    requires Numbered(t) && t.received == Plus(t.good, t.bad) && id in t.subscribers
    requires t.parser == ParserAfter(frame, s.parser, bytes)
    requires To(t.deliveries, id) == To(s.deliveries, id) + Messages(frame, s.parser, bytes)
    ensures var u := Read(frame, t, data);
            && Numbered(u) && u.received == Plus(u.good, u.bad) && id in u.subscribers
            && u.parser == ParserAfter(frame, s.parser, bytes + data)
            && To(u.deliveries, id) == To(s.deliveries, id) + Messages(frame, s.parser, bytes + data)
  {
    hide Read, ParserAfter, Messages, BadFrames, Plus, To, Numbered;
    ReadServes(frame, t, data, id);
    ReadParses(frame, t, data);
    ParseSplits(frame, s.parser, bytes, data);
    var sofar, more := Messages(frame, s.parser, bytes), Messages(frame, t.parser, data);
    assert To(s.deliveries, id) + sofar + more == To(s.deliveries, id) + (sofar + more);
  }

  /** A subscriber that stays is handed every message in the byte stream, whatever the chunks and
      whoever else comes and goes. */
  lemma {:induction false} StreamDelivered<P, M>(frame: (P, Byte) -> (P, Outcome<M>), s: State<P, M>,
                                                 ops: seq<Op>, id: nat)
    requires Numbered(s) && s.received == Plus(s.good, s.bad) && id in s.subscribers
    requires forall op | op in ops :: op != Unsubscribing(id)
    ensures var t := Run(frame, s, ops);
            && id in t.subscribers && t.parser == ParserAfter(frame, s.parser, Bytes(ops))
            && To(t.deliveries, id) == To(s.deliveries, id) + Messages(frame, s.parser, Bytes(ops))
            && Numbered(t) && t.received == Plus(t.good, t.bad)
    decreases |ops|
  {
    hide Read, ParserAfter, Messages, Plus, Find, To, Numbered;
    if ops == [] {
      ParseNothing(frame, s);
      assert ParserAfter(frame, s.parser, []) == s.parser by { NoBytes(frame, s.parser); }
      assert To(s.deliveries, id) + [] == To(s.deliveries, id);
    } else {
      var before := ops[..|ops| - 1];
      var op := ops[|ops| - 1];
      assert op in ops && forall o | o in before :: o in ops;
      StreamDelivered(frame, s, before, id);
      var t := Run(frame, s, before);
      match op
      case Subscribing =>
        AddedStaysNumbered(t);
        assert Bytes(ops) == Bytes(before);
      case Unsubscribing(gone) =>
        RemovedStaysNumbered(t, gone);
        StaySubscribed(t, gone, id);
        assert Bytes(ops) == Bytes(before);
      case Reading(data) => ReadContinues(frame, s, Bytes(before), t, data, id);
    }
  }

  // From a fresh channel, told by the operations alone.

  function Subscriptions(ops: seq<Op>): nat
    decreases |ops|
  {
    if ops == [] then 0 else Subscriptions(ops[..|ops| - 1]) + if ops[|ops| - 1].Subscribing? then 1 else 0
  }

  /** The k-th operation is the subscription with this number. */
  predicate Begins(ops: seq<Op>, k: nat, id: nat) {
    k < |ops| && ops[k].Subscribing? && Subscriptions(ops[..k]) == id
  }

  /** It has not been given up since. */
  predicate StaysFrom(ops: seq<Op>, k: nat, id: nat) {
    forall l :: k <= l < |ops| ==> ops[l] != Unsubscribing(id)
  }

  ghost predicate Listening(ops: seq<Op>, id: nat) {
    exists k: nat :: Begins(ops, k, id) && StaysFrom(ops, k, id)
  }

  lemma NobodyListens(id: nat)
    ensures !Listening([], id)
  {
  }

  lemma ListensOn(ops: seq<Op>, op: Op, id: nat)
    requires (op.Subscribing? && Subscriptions(ops) == id) || (Listening(ops, id) && op != Unsubscribing(id))
    ensures Listening(ops + [op], id)
  {
    var all := ops + [op];
    if op.Subscribing? && Subscriptions(ops) == id {
      assert all[..|ops|] == ops;
      assert Begins(all, |ops|, id) && StaysFrom(all, |ops|, id);
    } else {
      var k: nat :| Begins(ops, k, id) && StaysFrom(ops, k, id);
      assert all[..k] == ops[..k];
      assert Begins(all, k, id) && StaysFrom(all, k, id);
    }
  }

  lemma ListenedBefore(ops: seq<Op>, op: Op, id: nat)
    requires Listening(ops + [op], id)
    ensures op != Unsubscribing(id)
    ensures (op.Subscribing? && Subscriptions(ops) == id) || Listening(ops, id)
  {
    var all := ops + [op];
    var k: nat :| Begins(all, k, id) && StaysFrom(all, k, id);
    assert all[|ops|] == op;
    assert all[..k] == if k < |ops| then ops[..k] else ops;
    if k < |ops| {
      assert StaysFrom(ops, k, id) by {
        forall l | k <= l < |ops| ensures ops[l] != Unsubscribing(id) { assert all[l] == ops[l]; }
      }
      assert Begins(ops, k, id);
    }
  }

  /** A subscription given up is gone, and no other with it. */
  lemma RemovedIsGone<P, M>(s: State<P, M>, gone: nat, id: nat)
    requires Numbered(s)
    ensures id in Unsubscribed(s, gone).subscribers <==> id in s.subscribers && id != gone
  {
    hide Find;
    var t := Unsubscribed(s, gone);
    if id in s.subscribers && id != gone { StaySubscribed(s, gone, id); }
    if id in t.subscribers {
      var k :| 0 <= k < |t.subscribers| && t.subscribers[k] == id;
      var i := Find(s.subscribers, gone);
      assert s.subscribers[if k < i then k else k + 1] == id;
    }
  }

  lemma PlusZero()
    ensures Plus(0, 0) == 0
  {
  }

  lemma NothingFramed<P, M>(frame: (P, Byte) -> (P, Outcome<M>), p: P)
    ensures Messages(frame, p, []) == [] && BadFrames(frame, p, []) == 0
  {
  }

  predicate Fresh<P, M>(s: State<P, M>) {
    s.subscribers == [] && s.nextId == 0 && s.deliveries == [] && s.received == s.good == s.bad == 0
  }

  /** In every run the subscribers are, without repetition, those whose subscription has not been given
      up since, numbered in the order they came. */
  lemma {:induction false} SubscribedIff<P, M>(frame: (P, Byte) -> (P, Outcome<M>), s: State<P, M>,
                                               ops: seq<Op>, id: nat)
    requires Fresh(s)
    ensures var t := Run(frame, s, ops);
            && Numbered(t) && t.nextId == Subscriptions(ops)
            && (id in t.subscribers <==> Listening(ops, id))
    decreases |ops|
  {
    hide Read, Find, Listening;
    if ops == [] {
      NobodyListens(id);
    } else {
      var before, op := ops[..|ops| - 1], ops[|ops| - 1];
      assert ops == before + [op];
      SubscribedIff(frame, s, before, id);
      if Listening(ops, id) { ListenedBefore(before, op, id); }
      if (op.Subscribing? && Subscriptions(before) == id) || (Listening(before, id) && op != Unsubscribing(id)) {
        ListensOn(before, op, id);
      }
      var t := Run(frame, s, before);
      match op
      case Subscribing => AddedStaysNumbered(t);
      case Unsubscribing(gone) =>
        RemovedStaysNumbered(t, gone);
        RemovedIsGone(t, gone, id);
      case Reading(data) => ReadParses(frame, t, data);
    }
  }

  /** What a subscriber should have been handed: the messages of the reads made while it was listening. */
  ghost function Due<P, M>(frame: (P, Byte) -> (P, Outcome<M>), p: P, ops: seq<Op>, id: nat): seq<M>
    decreases |ops|
  {
    if ops == [] then []
    else
      var before, op := ops[..|ops| - 1], ops[|ops| - 1];
      var q := ParserAfter(frame, p, Bytes(before));
      Due(frame, p, before, id) + if op.Reading? && Listening(before, id) then Messages(frame, q, op.data) else []
  }

  lemma {:induction false} ParserAfterRun<P, M>(frame: (P, Byte) -> (P, Outcome<M>), s: State<P, M>, ops: seq<Op>)
    ensures Run(frame, s, ops).parser == ParserAfter(frame, s.parser, Bytes(ops))
    decreases |ops|
  {
    hide Read, ParserAfter, Messages, Find;
    if ops == [] {
      NoBytes(frame, s.parser);
    } else {
      var before, op := ops[..|ops| - 1], ops[|ops| - 1];
      ParserAfterRun(frame, s, before);
      if op.Reading? {
        ReadParses(frame, Run(frame, s, before), op.data);
        ParseSplits(frame, s.parser, Bytes(before), op.data);
      } else {
        assert Bytes(ops) == Bytes(before);
      }
    }
  }

  /** In every run each subscriber is handed exactly the messages framed while it was subscribed, each
      once and in order, whatever the chunks and whoever else comes and goes. */
  lemma {:induction false} SubscribersServed<P, M>(frame: (P, Byte) -> (P, Outcome<M>), s: State<P, M>,
                                                   ops: seq<Op>, id: nat)
    requires Fresh(s)
    ensures var t := Run(frame, s, ops);
            && To(t.deliveries, id) == Due(frame, s.parser, ops, id)
            && t.received == Plus(t.good, t.bad)
    decreases |ops|
  {
    hide Read, Messages, ParserAfter, Plus, Find, Listening, Numbered;
    if ops == [] {
      assert Plus(0, 0) == 0 by { PlusZero(); }
    } else {
      var before, op := ops[..|ops| - 1], ops[|ops| - 1];
      SubscribersServed(frame, s, before, id);
      SubscribedIff(frame, s, before, id);
      ParserAfterRun(frame, s, before);
      if op.Reading? { ReadServes(frame, Run(frame, s, before), op.data, id); }
    }
  }

  lemma CountedOn(total: nat, n: nat)
    ensures Plus(total % TWO64, n) == (total + n) % TWO64
  {
    PlusWrapped(n, total);
  }

  lemma ReadCounts<P, M>(frame: (P, Byte) -> (P, Outcome<M>), s: State<P, M>, data: seq<Byte>)
    ensures var t := Read(frame, s, data);
            var n, bad := |Messages(frame, s.parser, data)|, BadFrames(frame, s.parser, data);
            t.good == Plus(s.good, n) && t.bad == Plus(s.bad, bad) && t.received == Plus(s.received, n + bad)
  {
  }

  /** The counters count, modulo 2 to the 64: every message framed, every frame with a bad checksum,
      and both together. */
  lemma {:induction false} CountersCount<P, M>(frame: (P, Byte) -> (P, Outcome<M>), s: State<P, M>, ops: seq<Op>)
    requires Fresh(s)
    ensures var t := Run(frame, s, ops);
            var n, bad := |Messages(frame, s.parser, Bytes(ops))|, BadFrames(frame, s.parser, Bytes(ops));
            && t.good == n % 0x1_0000_0000_0000_0000 && t.bad == bad % 0x1_0000_0000_0000_0000
            && t.received == (n + bad) % 0x1_0000_0000_0000_0000
    decreases |ops|
  {
    hide ParserAfter, Messages, BadFrames, Find, Read, Plus;
    if ops == [] {
      NothingFramed(frame, s.parser);
    } else {
      var before, op := ops[..|ops| - 1], ops[|ops| - 1];
      CountersCount(frame, s, before);
      if op.Reading? {
        var t := Run(frame, s, before);
        var n, bad := |Messages(frame, s.parser, Bytes(before))|, BadFrames(frame, s.parser, Bytes(before));
        ParserAfterRun(frame, s, before);
        ParseSplits(frame, s.parser, Bytes(before), op.data);
        ReadCounts(frame, t, op.data);
        CountedOn(n, |Messages(frame, t.parser, op.data)|);
        CountedOn(bad, BadFrames(frame, t.parser, op.data));
        CountedOn(n + bad, |Messages(frame, t.parser, op.data)| + BadFrames(frame, t.parser, op.data));
      } else {
        assert Bytes(ops) == Bytes(before);
      }
    }
  }
}
