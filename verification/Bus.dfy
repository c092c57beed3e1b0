/** The in-process event bus (server/src/jarvis_live/bus.py): bounded queues, a feature filter, and a
    sentinel that closes. */
module Bus {
  import opened Options

  datatype Kind = SpeakerUpdate | VoiceState | AskReply | OtherKind
  datatype Event = Event(kind: Kind, body: string)
  datatype Item = Said(event: Event) | Closed

  function FeatureOf(k: Kind): Option<string> {
    match k
    case SpeakerUpdate => Some("speaker_update")
    case VoiceState => Some("voice_ask")
    case AskReply => Some("voice_ask")
    case OtherKind => None
  }

  /** A speaker update needs its feature, a voice's state and an ask's reply need theirs, and any other
      event needs none. */
  predicate Withheld(features: set<string>, kind: Kind) {
    (kind == SpeakerUpdate && "speaker_update" !in features) ||
    ((kind == VoiceState || kind == AskReply) && "voice_ask" !in features)
  }

  predicate Wants(features: set<string>, e: Event) { FeatureOf(e.kind).Some? ==> FeatureOf(e.kind).value in features }

  // ---- an `asyncio.Queue` and what a subscription does with it ----------------------------

  /** A bound of zero or less is none. */
  predicate Full<T>(bound: int, q: seq<T>) { 0 < bound <= |q| }

  function Offered<T>(bound: int, q: seq<T>, x: T): seq<T> { if Full(bound, q) then q else q + [x] }

  /** Room is made for the sentinel by dropping the oldest. */
  function CloseQueue(bound: int, q: seq<Item>): seq<Item> {
    if Full(bound, q) then CloseQueue(bound, q[1..]) else q + [Closed]
  }

  /** What a `get` returns, once there is something to get. */
  function Taken(q: seq<Item>): (Option<Event>, seq<Item>)
    requires q != []
  {
    match q[0]
    case Said(e) => (Some(e), q[1..])
    case Closed => (None, q[1..] + [Closed])
  }

  class Subscription {
    const bus: Bus
    const sessionId: string
    const features: set<string>
    const bound: int
    var queue: seq<Item>

    constructor (bus: Bus, sessionId: string, bound: int, features: set<string>)
      ensures this.bus == bus && this.sessionId == sessionId && this.bound == bound && this.features == features
      ensures queue == []
    {
      this.bus, this.sessionId, this.bound, this.features, queue := bus, sessionId, bound, features, [];
    }

    method Enqueue(x: Item) returns (ok: bool)
      modifies this
      ensures queue == Offered(bound, old(queue), x) && (ok <==> !Full(bound, old(queue)))
    {
      if 0 < bound <= |queue| {
        return false;
      }
      queue := queue + [x];
      ok := true;
    }

    method Put(e: Event) returns (ok: bool)
      modifies this
      ensures queue == Offered(bound, old(queue), Said(e)) && (ok <==> !Full(bound, old(queue)))
    {
      ok := Enqueue(Said(e));
    }

    /** The await is over: something is queued. */
    method Get() returns (r: Option<Event>)
      requires queue != []
      modifies this
      ensures (r, queue) == Taken(old(queue))
    {
      var x := queue[0];
      queue := queue[1..];
      if x.Closed? {
        queue := queue + [Closed];
        return None;
      }
      r := Some(x.event);
    }

    method Close()
      requires bus.Valid()
      modifies this, bus
      ensures bus.Valid() && queue == CloseQueue(bound, old(queue))
      ensures forall id :: bus.SubscribersOf(id) == old(bus.SubscribersOf(id)) - {this}
    {
      bus.Remove(this);
      while Full(bound, queue)
        invariant CloseQueue(bound, queue) == CloseQueue(bound, old(queue))
        invariant bus.Valid()
        invariant forall id :: bus.SubscribersOf(id) == old(bus.SubscribersOf(id)) - {this}
        decreases |queue|
      {
        queue := queue[1..];
      }
      queue := queue + [Closed];
    }
  }

  class Bus {
    const queueSize: int
    var subs: map<string, set<Subscription>>

    /** Every subscriber is under its own session, and no set is kept empty. */
    ghost predicate Valid()
      reads this
    {
      forall id :: id in subs ==> subs[id] != {} && forall s :: s in subs[id] ==> s.sessionId == id && s.bus == this
    }

    function SubscribersOf(id: string): set<Subscription>
      reads this
    {
      if id in subs then subs[id] else {}
    }

    constructor (queueSize: int)
      ensures Valid() && this.queueSize == queueSize && subs == map[]
    {
      this.queueSize, subs := queueSize, map[];
    }

    method Subscribe(id: string, features: set<string>) returns (s: Subscription)
      requires Valid()
      modifies this
      ensures Valid() && fresh(s) && s.bus == this && s.sessionId == id
      ensures s.features == features && s.bound == queueSize && s.queue == []
      ensures forall x :: SubscribersOf(x) == if x == id then old(SubscribersOf(x)) + {s} else old(SubscribersOf(x))
    {
      s := new Subscription(this, id, queueSize, features);
      subs := subs[id := SubscribersOf(id) + {s}];
    }

    /** Every subscriber of the session that takes such events is offered it; nobody else is. */
    method Publish(id: string, e: Event)
      requires Valid()
      modifies SubscribersOf(id)
      ensures forall s :: s in SubscribersOf(id) ==>
        s.queue == if Withheld(s.features, e.kind) then old(s.queue) else Offered(s.bound, old(s.queue), Said(e))
    {
      var todo := SubscribersOf(id);
      while todo != {}
        invariant todo <= SubscribersOf(id)
        invariant forall s :: s in todo ==> s.queue == old(s.queue)
        invariant forall s :: s in SubscribersOf(id) - todo ==>
          s.queue == if Wants(s.features, e) then Offered(s.bound, old(s.queue), Said(e)) else old(s.queue)
        decreases |todo|
      {
        var s :| s in todo;
        todo := todo - {s};
        if FeatureOf(e.kind).Some? && FeatureOf(e.kind).value !in s.features {
          continue;
        }
        var _ := s.Put(e);
      }
    }

    method SubscriberCount(id: string) returns (n: nat)
      ensures n == |SubscribersOf(id)|
    {
      n := if id in subs then |subs[id]| else 0;
    }

    method Remove(s: Subscription)
      requires Valid()
      modifies this
      ensures Valid()
      ensures s.bus == this ==> forall id :: SubscribersOf(id) == old(SubscribersOf(id)) - {s}
    {
      if s.sessionId in subs {
        var left := subs[s.sessionId] - {s};
        subs := if left == {} then subs - {s.sessionId} else subs[s.sessionId := left];
      }
    }
  }

  // ---- one subscriber's life -------------------------------------------------------------

  datatype Profile = Profile(id: string, features: set<string>, bound: int)
  datatype Op = Publish(id: string, event: Event) | Put(event: Event) | Take | Close

  datatype State = State(queue: seq<Item>, listening: bool)

  function Offers(p: Profile, s: State, op: Op): Option<Event> {
    match op
    case Put(e) => Some(e)
    case Publish(id, e) => if s.listening && id == p.id && !Withheld(p.features, e.kind) then Some(e) else None
    case _ => None
  }

  function Step(p: Profile, s: State, op: Op): State {
    match op
    case Take => if s.queue == [] then s else s.(queue := Taken(s.queue).1)
    case Close => State(CloseQueue(p.bound, s.queue), false)
    case _ =>
      var e := Offers(p, s, op);
      if e.Some? then s.(queue := Offered(p.bound, s.queue, Said(e.value))) else s
  }

  function After(p: Profile, ops: seq<Op>, n: nat): State
    requires n <= |ops|
  {
    if n == 0 then State([], true) else Step(p, After(p, ops, n - 1), ops[n - 1])
  }

  /** What a `Take` that does not wait returns. */
  function ReadAt(p: Profile, ops: seq<Op>, i: nat): Option<Event>
    requires i < |ops|
  {
    var q := After(p, ops, i).queue;
    if q == [] then None else Taken(q).0
  }

  function Takes(ops: seq<Op>, n: nat): nat
    requires n <= |ops|
  {
    if n == 0 then 0 else Takes(ops, n - 1) + if ops[n - 1].Take? then 1 else 0
  }

  /** The events this subscriber was offered, less those offered while as many as its bound were
      kept and not yet taken. */
  function Kept(p: Profile, ops: seq<Op>, n: nat): seq<Event>
    requires n <= |ops|
  {
    if n == 0 then []
    else
      var before := Kept(p, ops, n - 1);
      var e := Offers(p, State([], true), ops[n - 1]);
      if e.Some? && !(0 < p.bound <= |before| - Takes(ops, n - 1)) then before + [e.value] else before
  }

  /** Before any close, and no get that waits. */
  ghost predicate Open(p: Profile, ops: seq<Op>, n: nat)
    requires n <= |ops|
  {
    forall i :: 0 <= i < n ==> !ops[i].Close? && (ops[i].Take? ==> Takes(ops, i) < |Kept(p, ops, i)|)
  }

  function SaidAll(es: seq<Event>): (r: seq<Item>)
    ensures |r| == |es|
  {
    seq(|es|, i requires 0 <= i < |es| => Said(es[i]))
  }

  lemma SaidTail(es: seq<Event>, k: nat)
    requires k < |es|
    ensures SaidAll(es[k..])[0] == Said(es[k]) && SaidAll(es[k..])[1..] == SaidAll(es[k + 1..])
  {
  }

  lemma SaidMore(es: seq<Event>, e: Event, k: nat)
    requires k <= |es|
    ensures SaidAll((es + [e])[k..]) == SaidAll(es[k..]) + [Said(e)]
  {
  }

  /** What a subscriber reads is, in order, exactly what it was offered, by a publish its features
      allow or a put of its own, less exactly what was offered while its queue was full; and the
      rest is queued. */
  lemma {:induction false} ReadsInOrder(p: Profile, ops: seq<Op>, n: nat)
    requires n <= |ops| && Open(p, ops, n)
    ensures var k, t := Kept(p, ops, n), Takes(ops, n);
      t <= |k| && After(p, ops, n) == State(SaidAll(k[t..]), true)
    ensures n < |ops| && ops[n].Take? && Takes(ops, n) < |Kept(p, ops, n)| ==>
      ReadAt(p, ops, n) == Some(Kept(p, ops, n)[Takes(ops, n)])
  {
    QueueIsKept(p, ops, n);
    hide After, Kept, Takes, SaidAll;
    if n < |ops| && ops[n].Take? && Takes(ops, n) < |Kept(p, ops, n)| {
      SaidTail(Kept(p, ops, n), Takes(ops, n));
    }
  }

  lemma {:induction false} QueueIsKept(p: Profile, ops: seq<Op>, n: nat)
    requires n <= |ops| && Open(p, ops, n)
    ensures var k, t := Kept(p, ops, n), Takes(ops, n);
      t <= |k| && After(p, ops, n) == State(SaidAll(k[t..]), true)
  {
    hide After, Kept, Takes, SaidAll;
    if n == 0 {
      NothingKept(p, ops);
    } else {
      hide Open;
      OpenBefore(p, ops, n - 1);
      QueueIsKept(p, ops, n - 1);
      KeptStep(p, ops, n - 1);
    }
  }

  lemma NothingKept(p: Profile, ops: seq<Op>)
    ensures Kept(p, ops, 0) == [] && Takes(ops, 0) == 0 && After(p, ops, 0) == State(SaidAll([]), true)
  {
  }

  lemma OpenBefore(p: Profile, ops: seq<Op>, m: nat)
    requires m < |ops| && Open(p, ops, m + 1)
    ensures Open(p, ops, m) && !ops[m].Close? && (ops[m].Take? ==> Takes(ops, m) < |Kept(p, ops, m)|)
  {
    hide Kept, Takes;
  }

  lemma KeptStep(p: Profile, ops: seq<Op>, m: nat)
    requires m < |ops| && !ops[m].Close?
    requires var k, t := Kept(p, ops, m), Takes(ops, m);
      t <= |k| && (ops[m].Take? ==> t < |k|) && After(p, ops, m) == State(SaidAll(k[t..]), true)
    ensures var k, t := Kept(p, ops, m + 1), Takes(ops, m + 1);
      t <= |k| && After(p, ops, m + 1) == State(SaidAll(k[t..]), true)
  {
    hide Wants, SaidAll;
    var k, t := Kept(p, ops, m), Takes(ops, m);
    if ops[m].Take? {
      SaidTail(k, t);
    } else if Offers(p, State([], true), ops[m]).Some? {
      SaidMore(k, Offers(p, State([], true), ops[m]).value, t);
    }
  }

  lemma CloseDrops(bound: int, q: seq<Item>)
    requires bound <= 0 || |q| <= bound
    ensures CloseQueue(bound, q) == (if Full(bound, q) then q[1..] else q) + [Closed]
  {
  }

  lemma {:induction false} Bounded(p: Profile, ops: seq<Op>, n: nat)
    requires n <= |ops| && 0 < p.bound
    ensures |After(p, ops, n).queue| <= p.bound
  {
    if n == 0 {
    } else {
      Bounded(p, ops, n - 1);
      CloseDrops(p.bound, After(p, ops, n - 1).queue);
    }
  }

  /** The part of what was kept that is still to come after a close: all not yet taken, less the
      oldest if the sentinel found no room. */
  function Rest(p: Profile, ops: seq<Op>, m: nat): (r: seq<Event>)
    requires m <= |ops| && Takes(ops, m) <= |Kept(p, ops, m)|
  {
    var left := Kept(p, ops, m)[Takes(ops, m)..];
    if 0 < p.bound <= |left| then left[1..] else left
  }

  function Sentinels(n: nat): (r: seq<Item>) { seq(n, _ => Closed) }

  function Behind(es: seq<Event>, k: nat): seq<Event> { if k < |es| then es[k..] else [] }

  /** A step that takes the oldest out of a closed queue: a get, or a close that finds no room. */
  predicate Drops(p: Profile, ops: seq<Op>, i: nat)
    requires i < |ops|
  {
    ops[i].Take? || (ops[i].Close? && Full(p.bound, After(p, ops, i).queue))
  }

  /** How many of those there are between the close at `m` and `n`. */
  function Gone(p: Profile, ops: seq<Op>, m: nat, n: nat): nat
    requires m < n <= |ops|
    decreases n
  {
    if n == m + 1 then 0 else Gone(p, ops, m, n - 1) + if Drops(p, ops, n - 1) then 1 else 0
  }

  /** After a close a subscriber reads that rest in order and then None forever, whatever is published
      meanwhile, however often it is closed again, and whatever is put that finds no room; only a
      further close can cost it an event, the oldest left, and only where it finds no room. */
  lemma {:induction false} DrainsThenNone(p: Profile, ops: seq<Op>, m: nat, n: nat) returns (c: nat)
    requires m < n <= |ops| && Open(p, ops, m) && ops[m].Close?
    requires forall i :: m < i < n && ops[i].Put? ==> Full(p.bound, After(p, ops, i).queue)
    ensures Takes(ops, m) <= |Kept(p, ops, m)| && c > 0
    ensures var rest, k := Rest(p, ops, m), Gone(p, ops, m, n);
      && After(p, ops, n) == State(SaidAll(Behind(rest, k)) + Sentinels(c), false)
      && (n < |ops| && ops[n].Take? ==> ReadAt(p, ops, n) == if k < |rest| then Some(rest[k]) else None)
    decreases n
  {
    hide After, Kept, Takes, SaidAll, Behind, Sentinels, Drops, Open;
    QueueIsKept(p, ops, m);
    var rest := Rest(p, ops, m);
    if n == m + 1 {
      CloseAt(p, ops, m);
      c := 1;
    } else {
      c := DrainsThenNone(p, ops, m, n - 1);
      c := DrainsOn(p, ops, n - 1, rest, Gone(p, ops, m, n - 1), c);
    }
    DrainStep(rest, Gone(p, ops, m, n), c);
  }

  lemma DrainsOn(p: Profile, ops: seq<Op>, i: nat, rest: seq<Event>, k: nat, c: nat) returns (d: nat)
    requires i < |ops| && c > 0 && After(p, ops, i) == State(SaidAll(Behind(rest, k)) + Sentinels(c), false)
    requires ops[i].Put? ==> Full(p.bound, After(p, ops, i).queue)
    ensures d > 0
    ensures After(p, ops, i + 1) == State(SaidAll(Behind(rest, if Drops(p, ops, i) then k + 1 else k)) + Sentinels(d), false)
  {
    hide SaidAll, Behind, Sentinels, Wants;
    DrainStep(rest, k, c);
    d := c;
    if ops[i].Close? {
      CloseAgain(p, ops, i);
      d := if Full(p.bound, After(p, ops, i).queue) && k >= |rest| then c else c + 1;
    }
  }

  lemma CloseAgain(p: Profile, ops: seq<Op>, i: nat)
    requires i < |ops| && ops[i].Close?
    ensures var q := After(p, ops, i).queue;
      After(p, ops, i + 1) == State((if Full(p.bound, q) then q[1..] else q) + [Closed], false)
  {
    if 0 < p.bound {
      Bounded(p, ops, i);
    }
    CloseDrops(p.bound, After(p, ops, i).queue);
  }

  lemma CloseAt(p: Profile, ops: seq<Op>, m: nat)
    requires m < |ops| && Open(p, ops, m) && ops[m].Close?
    ensures Takes(ops, m) <= |Kept(p, ops, m)|
    ensures After(p, ops, m + 1) == State(SaidAll(Behind(Rest(p, ops, m), 0)) + Sentinels(1), false)
  {
    ReadsInOrder(p, ops, m);
    if 0 < p.bound {
      Bounded(p, ops, m);
    }
    CloseDrops(p.bound, After(p, ops, m).queue);
    var left := Kept(p, ops, m)[Takes(ops, m)..];
    if left != [] {
      SaidTail(left, 0);
      assert left[0..] == left;
    }
  }

  lemma DrainStep(rest: seq<Event>, k: nat, c: nat)
    requires c > 0
    ensures var q := SaidAll(Behind(rest, k)) + Sentinels(c);
      && q != []
      && Taken(q) == (if k < |rest| then Some(rest[k]) else None, SaidAll(Behind(rest, k + 1)) + Sentinels(c))
      && q + [Closed] == SaidAll(Behind(rest, k)) + Sentinels(c + 1)
      && q[1..] + [Closed] == SaidAll(Behind(rest, k + 1)) + Sentinels(if k < |rest| then c + 1 else c)
  {
    SentinelsRotate(c);
    if k < |rest| {
      SaidTail(rest, k);
      hide SaidAll, Sentinels;
      var here := SaidAll(rest[k..]);
      assert rest[|rest|..] == [];
      assert (here + Sentinels(c))[1..] == here[1..] + Sentinels(c);
    } else {
      assert SaidAll([]) + Sentinels(c) == Sentinels(c);
      assert SaidAll([]) + Sentinels(c + 1) == Sentinels(c + 1);
    }
  }

  lemma SentinelsRotate(c: nat)
    requires c > 0
    ensures Sentinels(c)[0] == Closed && Sentinels(c)[1..] + [Closed] == Sentinels(c)
    ensures Sentinels(c) + [Closed] == Sentinels(c + 1)
  {
  }

  // ---- a put after a close ---------------------------------------------------------------

  ghost predicate AllClosed(q: seq<Item>) { q != [] && forall i :: 0 <= i < |q| ==> q[i] == Closed }

  /** Once there is nothing but the sentinel it stays so, through any publishes, gets and closes, as
      long as no put finds room. */
  lemma {:induction false} StaysClosed(p: Profile, ops: seq<Op>, m: nat, n: nat)
    requires m <= n <= |ops| && AllClosed(After(p, ops, m).queue) && !After(p, ops, m).listening
    requires forall i :: m <= i < n && ops[i].Put? ==> Full(p.bound, After(p, ops, i).queue)
    ensures AllClosed(After(p, ops, n).queue) && !After(p, ops, n).listening
    ensures n < |ops| && ops[n].Take? ==> ReadAt(p, ops, n) == None
    decreases n
  {
    if m == n {
    } else {
      StaysClosed(p, ops, m, n - 1);
      if ops[n - 1].Close? {
        ClosedAgain(p.bound, After(p, ops, n - 1).queue);
      }
    }
  }

  lemma {:induction false} ClosedAgain(bound: int, q: seq<Item>)
    requires forall i :: 0 <= i < |q| ==> q[i] == Closed
    ensures AllClosed(CloseQueue(bound, q))
    decreases |q|
  {
    if !Full(bound, q) {
    } else {
      ClosedAgain(bound, q[1..]);
    }
  }

  /** Once closed, there is a sentinel in the queue for good. */
  lemma {:induction false} SentinelStays(p: Profile, ops: seq<Op>, m: nat, n: nat)
    requires m < n <= |ops| && ops[m].Close?
    ensures Closed in After(p, ops, n).queue && !After(p, ops, n).listening
    decreases n
  {
    var q := After(p, ops, n - 1).queue;
    if ops[n - 1].Close? {
      ClosesWithSentinel(p.bound, q);
    } else {
      SentinelStays(p, ops, m, n - 1);
    }
  }

  lemma {:induction false} ClosesWithSentinel(bound: int, q: seq<Item>)
    ensures Closed in CloseQueue(bound, q)
    decreases |q|
  {
    if !Full(bound, q) {
    } else {
      ClosesWithSentinel(bound, q[1..]);
    }
  }

  /** But a put that finds room reopens it, whatever is still queued: with no further close, the event
      comes out after as many gets as there were items ahead of it, and, as the subscription was
      closed, one of those reads None first. */
  lemma {:induction false} PutReopens(p: Profile, ops: seq<Op>, m: nat, e: Event, n: nat)
    requires m < n <= |ops| && ops[m] == Put(e) && !Full(p.bound, After(p, ops, m).queue)
    requires forall i :: m < i < n ==> !ops[i].Close?
    ensures var q, t := After(p, ops, m).queue, Takes(ops, n) - Takes(ops, m);
      && 0 <= t && (t <= |q| ==> q[t..] + [Said(e)] <= After(p, ops, n).queue)
      && (n < |ops| && ops[n].Take? && t <= |q| ==>
           ReadAt(p, ops, n) == if t == |q| then Some(e) else if q[t].Said? then Some(q[t].event) else None)
      && ((exists i :: 0 <= i < m && ops[i].Close?) ==> Closed in q)
    decreases n
  {
    hide After, Takes, Step, Kept, Full;
    var q := After(p, ops, m).queue;
    StepAt(p, ops, n - 1);
    if n == m + 1 {
      QueuedLast(p, After(p, ops, m), e);
      assert q[0..] == q;
      if i :| 0 <= i < m && ops[i].Close? {
        SentinelStays(p, ops, i, m);
      }
    } else {
      PutReopens(p, ops, m, e, n - 1);
      FrontStays(p, After(p, ops, n - 1), ops[n - 1], q, Takes(ops, n - 1) - Takes(ops, m), e);
    }
  }

  lemma StepAt(p: Profile, ops: seq<Op>, i: nat)
    requires i < |ops|
    ensures After(p, ops, i + 1) == Step(p, After(p, ops, i), ops[i])
    ensures Takes(ops, i + 1) == Takes(ops, i) + if ops[i].Take? then 1 else 0
  {
  }

  lemma QueuedLast(p: Profile, s: State, e: Event)
    requires !Full(p.bound, s.queue)
    ensures Step(p, s, Put(e)) == s.(queue := s.queue + [Said(e)])
  {
  }

  lemma FrontStays(p: Profile, s: State, op: Op, q: seq<Item>, t: nat, e: Event)
    requires !op.Close? && (t <= |q| ==> q[t..] + [Said(e)] <= s.queue)
    ensures var u := if op.Take? then t + 1 else t;
      u <= |q| ==> q[u..] + [Said(e)] <= Step(p, s, op).queue
  {
    hide Wants;
    if op.Take? && t < |q| {
      assert (q[t..] + [Said(e)])[1..] == q[t + 1..] + [Said(e)];
      assert s.queue[1..][..|q| - t] == s.queue[1..|q| - t + 1];
    }
  }

  /** So a subscriber can read None and then an event again: one is put after the close while another
      is still queued. */
  lemma ReadsAfterNone(p: Profile, a: Event, b: Event)
    requires p.bound <= 0 || p.bound >= 3
    ensures var ops := [Put(a), Close, Put(b), Take, Take, Take];
      ReadAt(p, ops, 3) == Some(a) && ReadAt(p, ops, 4) == None && ReadAt(p, ops, 5) == Some(b)
  {
    var ops := [Put(a), Close, Put(b), Take, Take, Take];
    ClosedWithOne(p, a, b);
    TakesInOrder(ops);
    hide After, ReadAt, Takes, Wants;
    PutReopens(p, ops, 2, b, 3);
    PutReopens(p, ops, 2, b, 4);
    PutReopens(p, ops, 2, b, 5);
  }

  lemma ClosedWithOne(p: Profile, a: Event, b: Event)
    requires p.bound <= 0 || p.bound >= 3
    ensures After(p, [Put(a), Close, Put(b), Take, Take, Take], 2).queue == [Said(a), Closed]
  {
    hide Wants;
    assert After(p, [Put(a), Close, Put(b), Take, Take, Take], 1).queue == [Said(a)];
  }

  lemma TakesInOrder(ops: seq<Op>)
    requires |ops| == 6 && ops[0].Put? && ops[1].Close? && ops[2].Put? && ops[3].Take? && ops[4].Take? && ops[5].Take?
    ensures Takes(ops, 2) == 0 && Takes(ops, 3) == 0 && Takes(ops, 4) == 1 && Takes(ops, 5) == 2
  {
    assert Takes(ops, 1) == 0;
  }
}
