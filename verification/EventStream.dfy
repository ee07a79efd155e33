/** The bounded journal of transition events: one writer, and subscribers that resume from a sequence
    number, replay what history retains, and then follow live events through a bounded queue.

    `log` is every event ever emitted, which the journal does not keep; `yielded` and `dropped` are
    bookkeeping too. */
module EventStreams {
  datatype Option<+T> = None | Some(value: T)

  datatype Kind = Opened | Closed | Neither

  datatype Event = Event(toState: int, kind: Kind)

  datatype Item = Item(number: nat, event: Event)

  /** What a snapshot tells: the state, the open connections, and the last event it covers. */
  datatype Snapshot = Snapshot(state: Option<int>, connections: nat, lastSeq: nat)

  datatype Subscriber = Subscriber(
    since: int, joined: nat, backlog: seq<Item>, queue: seq<Item>, yielded: seq<Item>, dropped: nat)

  datatype Stream = Stream(
    historyLimit: nat, subscriberLimit: nat, history: seq<Item>, state: Option<int>, connections: nat,
    subscribers: map<int, Subscriber>, log: seq<Event>)
  {
    function Last(): nat { |log| }
  }

  // -- what the journal does -----------------------------------------------------------------------

  /** The last `limit` items. */
  function Newest(items: seq<Item>, limit: nat): seq<Item> {
    if |items| <= limit then items else items[|items| - limit..]
  }

  /** Hand an item to a subscriber, whose full queue sheds its oldest one. */
  function Offer(queue: seq<Item>, item: Item, limit: nat): seq<Item> {
    if |queue| < limit then queue + [item]
    else (if queue == [] then [] else queue[1..]) + [item]
  }

  function Offered(b: Subscriber, item: Item, limit: nat): Subscriber {
    b.(queue := Offer(b.queue, item, limit), dropped := if |b.queue| < limit then b.dropped else b.dropped + 1)
  }

  function FoldState(state: Option<int>, e: Event): Option<int> { Some(e.toState) }

  function FoldConnections(connections: nat, e: Event): nat {
    match e.kind
    case Opened => connections + 1
    case Closed => if connections == 0 then 0 else connections - 1
    case Neither => connections
  }

  function Emit(s: Stream, e: Event): Stream {
    var item := Item(s.Last() + 1, e);
    s.(log := s.log + [e],
       history := Newest(s.history + [item], s.historyLimit),
       state := FoldState(s.state, e), connections := FoldConnections(s.connections, e),
       subscribers := map k | k in s.subscribers :: Offered(s.subscribers[k], item, s.subscriberLimit))
  }

  function After(items: seq<Item>, since: int): seq<Item> {
    if items == [] then []
    else (if items[0].number > since then [items[0]] else []) + After(items[1..], since)
  }

  function Subscribe(s: Stream, k: int, since: Option<int>): Stream {
    var start := if since.None? then s.Last() else since.value;
    s.(subscribers := s.subscribers[k := Subscriber(start, s.Last(), After(s.history, start), [], [], 0)])
  }

  /** A subscriber takes its next item: from the backlog, then from its queue. */
  function Take(b: Subscriber): Subscriber {
    if b.backlog != [] then b.(yielded := b.yielded + [b.backlog[0]], backlog := b.backlog[1..])
    else if b.queue != [] then b.(yielded := b.yielded + [b.queue[0]], queue := b.queue[1..])
    else b
  }

  function Yield(s: Stream, k: int): Stream {
    if k in s.subscribers then s.(subscribers := s.subscribers[k := Take(s.subscribers[k])]) else s
  }

  function Leave(s: Stream, k: int): Stream {
    s.(subscribers := s.subscribers - {k})
  }

  function TakeSnapshot(s: Stream): Snapshot {
    Snapshot(s.state, s.connections, s.Last())
  }

  function New(historyLimit: nat, subscriberLimit: nat): Stream {
    Stream(historyLimit, subscriberLimit, [], None, 0, map[], [])
  }

  // -- runs of consecutive events --------------------------------------------------------------------

  /** The events numbered from `from + 1` to `till`, as the journal numbers them. */
  function Items(log: seq<Event>, from: nat, till: nat): seq<Item>
    requires from <= till <= |log|
  {
    seq(till - from, i requires 0 <= i < till - from => Item(from + i + 1, log[from + i]))
  }

  lemma ItemsLonger(log: seq<Event>, e: Event, a: nat, b: nat)
    requires a <= b <= |log|
    ensures Items(log + [e], a, b) == Items(log, a, b)
  {
  }

  function Max(a: int, b: int): int { if a < b then b else a }

  function Min(a: int, b: int): int { if a < b then a else b }

  /** The last event history no longer retained when this subscriber joined. */
  function Lost(b: Subscriber, historyLimit: nat): nat {
    if b.joined < historyLimit then 0 else b.joined - historyLimit
  }

  /** Where the backlog of this subscriber began. */
  function Began(b: Subscriber, historyLimit: nat): nat
    requires b.since <= b.joined
  {
    Max(b.since, Lost(b, historyLimit))
  }

  // -- the invariant ---------------------------------------------------------------------------------

  ghost predicate HistoryOk(s: Stream) {
    s.history == Items(s.log, s.Last() - Min(s.historyLimit, s.Last()), s.Last())
  }

  /** Each subscriber's queue is a run of consecutive events that ends at the last one emitted. */
  ghost predicate QueueOk(b: Subscriber, log: seq<Event>, limit: nat) {
    && b.joined <= |log| && |b.queue| <= limit && |b.queue| <= |log| - b.joined
    && b.queue == Items(log, |log| - |b.queue|, |log|)
  }

  /** The backlog is a run of consecutive events that ends where the subscriber joined. */
  ghost predicate BacklogOk(b: Subscriber, log: seq<Event>, historyLimit: nat) {
    && b.joined <= |log| && |b.backlog| <= b.joined
    && b.backlog == Items(log, b.joined - |b.backlog|, b.joined)
    && (b.since <= b.joined ==> |b.backlog| <= b.joined - Began(b, historyLimit))
    && (b.since > b.joined ==> b.backlog == [])
  }

  /** What was yielded so far: genuine events in increasing order, older than all that is still to come. */
  ghost predicate YieldedOk(b: Subscriber, log: seq<Event>) {
    && b.joined <= |log|
    && (forall i :: 0 <= i < |b.yielded| ==>
          1 <= b.yielded[i].number <= |log| && b.yielded[i].event == log[b.yielded[i].number - 1])
    && (b.since <= b.joined ==> forall i :: 0 <= i < |b.yielded| ==> b.yielded[i].number > b.since)
    && (forall i, j :: 0 <= i < j < |b.yielded| ==> b.yielded[i].number < b.yielded[j].number)
    && (b.yielded != [] ==>
          && b.yielded[|b.yielded| - 1].number <= (if b.backlog != [] then b.joined - |b.backlog|
            else |log| - |b.queue|))
  }

  /** How many events it did not get, in all. */
  ghost predicate CountOk(b: Subscriber, log: seq<Event>, historyLimit: nat) {
    b.since <= b.joined ==>
      && |b.yielded| + |b.backlog| + |b.queue| + b.dropped == |log| - Began(b, historyLimit)
      && (b.backlog != [] ==> |b.yielded| + |b.backlog| == b.joined - Began(b, historyLimit))
      && |b.queue| + b.dropped <= |log| - b.joined
  }

  ghost predicate SubscriberOk(b: Subscriber, log: seq<Event>, historyLimit: nat, limit: nat) {
    QueueOk(b, log, limit) && BacklogOk(b, log, historyLimit) && YieldedOk(b, log) && CountOk(b, log, historyLimit)
  }

  function FoldAll(log: seq<Event>): (r: (Option<int>, nat)) {
    if log == [] then (None, 0)
    else
      var before := FoldAll(log[..|log| - 1]);
      (FoldState(before.0, log[|log| - 1]), FoldConnections(before.1, log[|log| - 1]))
  }

  ghost predicate StreamOk(s: Stream) {
    && s.historyLimit >= 1 && s.subscriberLimit >= 1
    && HistoryOk(s)
    && (s.state, s.connections) == FoldAll(s.log)
    && forall k :: k in s.subscribers ==> SubscriberOk(s.subscribers[k], s.log, s.historyLimit, s.subscriberLimit)
  }

  // -- every operation keeps it ------------------------------------------------------------------------

  lemma OfferedOk(b: Subscriber, log: seq<Event>, e: Event, historyLimit: nat, limit: nat)
    requires SubscriberOk(b, log, historyLimit, limit) && limit >= 1
    ensures SubscriberOk(Offered(b, Item(|log| + 1, e), limit), log + [e], historyLimit, limit)
  {
    var longer := log + [e];
    ItemsLonger(log, e, |log| - |b.queue|, |log|);
    ItemsLonger(log, e, b.joined - |b.backlog|, b.joined);
    assert b.queue + [Item(|log| + 1, e)] == Items(longer, |log| - |b.queue|, |log| + 1);
    if |b.queue| >= limit {
      assert b.queue[1..] + [Item(|log| + 1, e)] == Items(longer, |log| - |b.queue| + 1, |log| + 1);
    }
  }

  lemma EmitHistory(s: Stream, e: Event)
    requires HistoryOk(s) && s.historyLimit >= 1
    ensures HistoryOk(Emit(s, e))
  {
    var from := s.Last() - Min(s.historyLimit, s.Last());
    ItemsLonger(s.log, e, from, s.Last());
    assert s.history + [Item(s.Last() + 1, e)] == Items(s.log + [e], from, s.Last() + 1);
  }

  lemma EmitKeeps(s: Stream, e: Event)
    requires StreamOk(s)
    ensures StreamOk(Emit(s, e))
  {
    EmitHistory(s, e);
    assert (s.log + [e])[..|s.log|] == s.log;
    hide SubscriberOk, HistoryOk, Offered;
    forall k | k in s.subscribers
      ensures SubscriberOk(Emit(s, e).subscribers[k], s.log + [e], s.historyLimit, s.subscriberLimit)
    {
      OfferedOk(s.subscribers[k], s.log, e, s.historyLimit, s.subscriberLimit);
    }
  }

  lemma {:induction false} AfterItems(log: seq<Event>, from: nat, till: nat, since: int)
    requires from <= till <= |log|
    ensures After(Items(log, from, till), since)
         == (if since >= till then [] else Items(log, Max(from, since), till))
    decreases till - from
  {
    if from < till {
      AfterItems(log, from + 1, till, since);
      assert Items(log, from, till)[1..] == Items(log, from + 1, till);
    }
  }

  lemma SubscribedOk(b: Subscriber, log: seq<Event>, historyLimit: nat, limit: nat)
    requires b.joined == |log| && b.queue == [] && b.yielded == [] && b.dropped == 0
    requires var from := |log| - Min(historyLimit, |log|);
             b.backlog == if b.since >= |log| then [] else Items(log, Max(from, b.since), |log|)
    ensures SubscriberOk(b, log, historyLimit, limit)
  {
    assert b.queue == Items(log, |log|, |log|);
    if b.since >= |log| {
      assert b.backlog == Items(log, |log|, |log|);
    }
  }

  lemma SubscribeKeeps(s: Stream, k: int, since: Option<int>)
    requires StreamOk(s)
    ensures StreamOk(Subscribe(s, k, since))
  {
    hide SubscriberOk, Items, After, FoldAll;
    var start := if since.None? then s.Last() else since.value;
    AfterItems(s.log, s.Last() - Min(s.historyLimit, s.Last()), s.Last(), start);
    SubscribedOk(Subscribe(s, k, since).subscribers[k], s.log, s.historyLimit, s.subscriberLimit);
  }

  lemma ItemsTail(log: seq<Event>, from: nat, till: nat)
    requires from < till <= |log|
    ensures Items(log, from, till)[1..] == Items(log, from + 1, till)
    ensures Items(log, from, till)[0] == Item(from + 1, log[from]) && |Items(log, from, till)| == till - from
  {
  }

  lemma TakeLists(b: Subscriber, log: seq<Event>, historyLimit: nat, limit: nat)
    requires QueueOk(b, log, limit) && BacklogOk(b, log, historyLimit)
    ensures QueueOk(Take(b), log, limit) && BacklogOk(Take(b), log, historyLimit)
  {
    if b.backlog != [] {
      ItemsTail(log, b.joined - |b.backlog|, b.joined);
    } else if b.queue != [] {
      ItemsTail(log, |log| - |b.queue|, |log|);
    }
    hide Items;
  }

  lemma TakeYielded(b: Subscriber, log: seq<Event>, historyLimit: nat, limit: nat)
    requires QueueOk(b, log, limit) && BacklogOk(b, log, historyLimit) && YieldedOk(b, log)
    ensures YieldedOk(Take(b), log)
  {
    if b.backlog != [] {
      ItemsTail(log, b.joined - |b.backlog|, b.joined);
    } else if b.queue != [] {
      ItemsTail(log, |log| - |b.queue|, |log|);
    }
    hide Items;
    LastYielded(b, log);
  }

  lemma LastYielded(b: Subscriber, log: seq<Event>)
    requires YieldedOk(b, log)
    ensures forall i :: 0 <= i < |b.yielded| ==>
              b.yielded[i].number <= (if b.backlog != [] then b.joined - |b.backlog| else |log| - |b.queue|)
  {
  }

  lemma TakeOk(b: Subscriber, log: seq<Event>, historyLimit: nat, limit: nat)
    requires SubscriberOk(b, log, historyLimit, limit)
    ensures SubscriberOk(Take(b), log, historyLimit, limit)
  {
    TakeLists(b, log, historyLimit, limit);
    TakeYielded(b, log, historyLimit, limit);
    hide YieldedOk, Items;
  }

  lemma YieldKeeps(s: Stream, k: int)
    requires StreamOk(s)
    ensures StreamOk(Yield(s, k)) && StreamOk(Leave(s, k))
  {
    hide SubscriberOk, Items, Take, FoldAll;
    if k in s.subscribers {
      TakeOk(s.subscribers[k], s.log, s.historyLimit, s.subscriberLimit);
    }
  }

  // -- every run -----------------------------------------------------------------------------------------

  datatype Op = Emits(e: Event) | Subscribes(k: int, since: Option<int>) | Yields(k: int) | Leaves(k: int)

  function Apply(s: Stream, op: Op): Stream {
    match op
    case Emits(e) => Emit(s, e)
    case Subscribes(k, since) => Subscribe(s, k, since)
    case Yields(k) => Yield(s, k)
    case Leaves(k) => Leave(s, k)
  }

  function Run(s: Stream, ops: seq<Op>): Stream {
    if ops == [] then s else Apply(Run(s, ops[..|ops| - 1]), ops[|ops| - 1])
  }

  lemma {:induction false} RunOk(historyLimit: nat, subscriberLimit: nat, ops: seq<Op>)
    requires historyLimit >= 1 && subscriberLimit >= 1
    ensures var s := Run(New(historyLimit, subscriberLimit), ops);
            StreamOk(s) && s.historyLimit == historyLimit && s.subscriberLimit == subscriberLimit
  {
    if ops != [] {
      var before, op := ops[..|ops| - 1], ops[|ops| - 1];
      RunOk(historyLimit, subscriberLimit, before);
      var s := Run(New(historyLimit, subscriberLimit), before);
      hide StreamOk;
      match op
      case Emits(e) => EmitKeeps(s, e);
      case Subscribes(k, since) => SubscribeKeeps(s, k, since);
      case Yields(k) => YieldKeeps(s, k);
      case Leaves(k) => YieldKeeps(s, k);
    }
  }

  /** A subscriber that asked for no event of the future yields strictly increasing numbers, above
      the one it asked to resume after, each with its own event; its queue is always a run of
      consecutive events that ends at the last one emitted. */
  lemma YieldsInOrder(historyLimit: nat, subscriberLimit: nat, ops: seq<Op>, k: int)
    requires historyLimit >= 1 && subscriberLimit >= 1
    requires k in Run(New(historyLimit, subscriberLimit), ops).subscribers
    requires var b := Run(New(historyLimit, subscriberLimit), ops).subscribers[k]; b.since <= b.joined
    ensures var s := Run(New(historyLimit, subscriberLimit), ops); var b := s.subscribers[k];
            && (forall i, j :: 0 <= i < j < |b.yielded| ==> b.yielded[i].number < b.yielded[j].number)
            && (forall i :: 0 <= i < |b.yielded| ==>
                  && Max(0, b.since) < b.yielded[i].number <= |s.log|
                  && b.yielded[i].event == s.log[b.yielded[i].number - 1])
            && |b.queue| <= subscriberLimit && |b.queue| <= |s.log|
            && b.queue == Items(s.log, |s.log| - |b.queue|, |s.log|)
  {
    RunOk(historyLimit, subscriberLimit, ops);
    hide Run, HistoryOk, CountOk, BacklogOk;
  }

  /** The last event, of `last` in all, that is at most `since` or that history no longer holds. */
  function LastMissed(last: nat, historyLimit: nat, since: int): (r: nat)
    ensures r <= last
  {
    if since >= last then last
    else if since >= 0 && since >= last - historyLimit then since
    else if last >= historyLimit then last - historyLimit else 0
  }

  /** A new subscriber has coming every event history still holds that is numbered above the one it asked to
      resume after, in order; one that did not ask has none coming but those emitted from then on. */
  lemma SubscriberStarts(historyLimit: nat, subscriberLimit: nat, ops: seq<Op>, k: int, since: Option<int>)
    requires historyLimit >= 1 && subscriberLimit >= 1
    ensures var s := Run(New(historyLimit, subscriberLimit), ops + [Subscribes(k, since)]);
            && k in s.subscribers
            && var b, last := s.subscribers[k], |s.log|;
               && b.joined == last && b.yielded == [] && b.dropped == 0
               && b.since == (if since.Some? then since.value else last)
               && Got(b) == Items(s.log, LastMissed(last, historyLimit, b.since), last)
  {
    hide StreamOk, Subscribe, Items, Got, HistoryOk;
    var s := Run(New(historyLimit, subscriberLimit), ops);
    assert (ops + [Subscribes(k, since)])[..|ops|] == ops;
    RunOk(historyLimit, subscriberLimit, ops);
    HistoryHolds(s);
    Starts(s, k, since);
  }

  lemma HistoryHolds(s: Stream)
    requires StreamOk(s)
    ensures HistoryOk(s)
  {
    hide HistoryOk, SubscriberOk;
  }

  lemma Starts(s: Stream, k: int, since: Option<int>)
    requires HistoryOk(s)
    ensures var t := Subscribe(s, k, since);
            && t.log == s.log && k in t.subscribers
            && var b, last := t.subscribers[k], |s.log|;
               && b.joined == last && b.yielded == [] && b.dropped == 0
               && b.since == (if since.Some? then since.value else last)
               && Got(b) == Items(s.log, LastMissed(last, s.historyLimit, b.since), last)
  {
    assert Items(s.log, |s.log|, |s.log|) == [];
    hide Items, After;
    var start := if since.None? then s.Last() else since.value;
    AfterItems(s.log, s.Last() - Min(s.historyLimit, s.Last()), s.Last(), start);
    var b := Subscribe(s, k, since).subscribers[k];
    assert Got(b) == b.backlog;
    assert b.backlog == After(s.history, start);
  }

  /** The items a subscriber has, or has coming. */
  function Got(b: Subscriber): seq<Item> {
    b.yielded + b.backlog + b.queue
  }

  /** A subscriber that asks takes the next item it has coming, one at a time and none lost, until it has
      nothing coming; what the others have, and the journal, stay as they are. */
  lemma YieldsNext(s: Stream, k: int)
    requires k in s.subscribers
    ensures var t := Yield(s, k);
            && t == s.(subscribers := t.subscribers) && t.subscribers.Keys == s.subscribers.Keys
            && (forall j :: j in s.subscribers && j != k ==> t.subscribers[j] == s.subscribers[j])
            && Got(t.subscribers[k]) == Got(s.subscribers[k])
            && |t.subscribers[k].yielded| ==
                 |s.subscribers[k].yielded| + (if |Got(s.subscribers[k])| > |s.subscribers[k].yielded| then 1 else 0)
  {
    var b, c := s.subscribers[k], Take(s.subscribers[k]);
    if b.backlog != [] {
      assert b.backlog == [b.backlog[0]] + b.backlog[1..];
    } else if b.queue != [] {
      assert b.queue == [b.queue[0]] + b.queue[1..];
    }
    assert Got(c) == Got(b);
  }

  /** A subscriber that leaves is forgotten, and nothing else changes. */
  lemma LeavingForgets(s: Stream, k: int)
    ensures var t := Leave(s, k);
            && t == s.(subscribers := t.subscribers)
            && forall j :: j in t.subscribers <==> j in s.subscribers && j != k
    ensures forall j :: j in Leave(s, k).subscribers ==> Leave(s, k).subscribers[j] == s.subscribers[j]
  {
  }

  /** Increasing numbers, as many as there are between two, are all of them. */
  lemma {:induction false} IncreasingFills(items: seq<Item>, log: seq<Event>, from: nat, till: nat)
    requires from <= till <= |log| && |items| == till - from
    requires forall i, j :: 0 <= i < j < |items| ==> items[i].number < items[j].number
    requires forall i :: 0 <= i < |items| ==>
               from < items[i].number <= till && items[i].event == log[items[i].number - 1]
    ensures items == Items(log, from, till)
    decreases |items|
  {
    if items != [] {
      var init, last := items[..|items| - 1], items[|items| - 1];
      LastIsTop(items, from, till);
      IncreasingFills(init, log, from, till - 1);
      assert items == init + [last];
      assert Items(log, from, till) == Items(log, from, till - 1) + [Item(till, log[till - 1])];
    }
  }

  lemma {:induction false} LastIsTop(items: seq<Item>, from: nat, till: nat)
    requires items != [] && |items| == till - from
    requires forall i, j :: 0 <= i < j < |items| ==> items[i].number < items[j].number
    requires forall i :: 0 <= i < |items| ==> from < items[i].number <= till
    ensures items[|items| - 1].number == till
    ensures forall i :: 0 <= i < |items| - 1 ==> items[i].number <= till - 1
    decreases |items|
  {
    Spread(items, from, |items| - 1);
  }

  lemma {:induction false} Spread(items: seq<Item>, from: nat, i: nat)
    requires i < |items|
    requires forall i, j :: 0 <= i < j < |items| ==> items[i].number < items[j].number
    requires forall i :: 0 <= i < |items| ==> from < items[i].number
    ensures items[i].number >= from + i + 1
  {
    if i > 0 {
      Spread(items, from, i - 1);
    }
  }

  /** A subscriber misses nothing after the number it resumed from exactly when history still held
      everything after it, and its queue never overflowed: then what it yielded, and has coming, is
      every event in order. */
  lemma GaplessUnlessOverflowed(historyLimit: nat, subscriberLimit: nat, ops: seq<Op>, k: int)
    requires historyLimit >= 1 && subscriberLimit >= 1
    requires k in Run(New(historyLimit, subscriberLimit), ops).subscribers
    requires var b := Run(New(historyLimit, subscriberLimit), ops).subscribers[k]; 0 <= b.since <= b.joined
    ensures var s := Run(New(historyLimit, subscriberLimit), ops); var b := s.subscribers[k];
            && b.since <= |s.log|
            && (Got(b) == Items(s.log, b.since, |s.log|) <==> b.joined <= b.since + historyLimit && b.dropped == 0)
  {
    RunOk(historyLimit, subscriberLimit, ops);
    var s := Run(New(historyLimit, subscriberLimit), ops);
    hide Run;
    Gapless(s.subscribers[k], s.log, historyLimit, subscriberLimit);
  }

  lemma Gapless(b: Subscriber, log: seq<Event>, historyLimit: nat, limit: nat)
    requires SubscriberOk(b, log, historyLimit, limit) && 0 <= b.since <= b.joined
    ensures Got(b) == Items(log, b.since, |log|) <==> b.joined <= b.since + historyLimit && b.dropped == 0
  {
    var got := Got(b);
    assert |got| == |log| - Began(b, historyLimit) - b.dropped;
    if b.joined <= b.since + historyLimit && b.dropped == 0 {
      GotIncreases(b, log, historyLimit, limit);
      IncreasingFills(got, log, b.since, |log|);
    }
  }

  lemma GotIncreases(b: Subscriber, log: seq<Event>, historyLimit: nat, limit: nat)
    requires SubscriberOk(b, log, historyLimit, limit) && 0 <= b.since <= b.joined
    ensures forall i, j :: 0 <= i < j < |Got(b)| ==> Got(b)[i].number < Got(b)[j].number
    ensures forall i :: 0 <= i < |Got(b)| ==>
              b.since < Got(b)[i].number <= |log| && Got(b)[i].event == log[Got(b)[i].number - 1]
  {
    hide CountOk;
    var y, l := |b.yielded|, |b.backlog|;
    forall i | 0 <= i < |Got(b)|
      ensures b.since < Got(b)[i].number <= |log| && Got(b)[i].event == log[Got(b)[i].number - 1]
    {
      if y <= i < y + l {
        assert Got(b)[i] == b.backlog[i - y];
      } else if y + l <= i {
        assert Got(b)[i] == b.queue[i - y - l];
      }
    }
    forall i, j | 0 <= i < j < |Got(b)| ensures Got(b)[i].number < Got(b)[j].number {
      assert i < y ==> Got(b)[i] == b.yielded[i] && Got(b)[i].number <= b.yielded[y - 1].number;
      assert y <= i < y + l ==> Got(b)[i] == b.backlog[i - y];
      assert y + l <= i ==> Got(b)[i] == b.queue[i - y - l];
      assert j < y ==> Got(b)[j] == b.yielded[j];
      assert y <= j < y + l ==> Got(b)[j] == b.backlog[j - y];
      assert y + l <= j ==> Got(b)[j] == b.queue[j - y - l];
    }
  }

  // -- reconciling against a snapshot --------------------------------------------------------------------

  function FoldItems(snapshot: Snapshot, items: seq<Item>): Snapshot {
    if items == [] then snapshot
    else
      var before := FoldItems(snapshot, items[..|items| - 1]);
      var last := items[|items| - 1];
      Snapshot(FoldState(before.state, last.event), FoldConnections(before.connections, last.event), last.number)
  }

  /** The snapshot of a journal that holds these events. */
  function SnapshotOf(log: seq<Event>): Snapshot {
    Snapshot(FoldAll(log).0, FoldAll(log).1, |log|)
  }

  /** A snapshot folded with the events that follow it, none missing, is the snapshot taken after them. */
  lemma {:induction false} FoldCatchesUp(log: seq<Event>, from: nat, till: nat)
    requires from <= till <= |log|
    ensures FoldItems(SnapshotOf(log[..from]), Items(log, from, till)) == SnapshotOf(log[..till])
    decreases till - from
  {
    if from < till {
      FoldCatchesUp(log, from, till - 1);
      assert Items(log, from, till)[..till - from - 1] == Items(log, from, till - 1);
      assert log[..till][..till - 1] == log[..till - 1];
    }
  }

  /** A consumer that resumes after a snapshot, with nothing overflowed, folds what it got into the
      journal's own snapshot. */
  lemma ResumedFromSnapshot(historyLimit: nat, subscriberLimit: nat, ops: seq<Op>, k: int)
    requires historyLimit >= 1 && subscriberLimit >= 1
    requires k in Run(New(historyLimit, subscriberLimit), ops).subscribers
    requires var b := Run(New(historyLimit, subscriberLimit), ops).subscribers[k];
             0 <= b.since <= b.joined <= b.since + historyLimit && b.dropped == 0
    ensures var s := Run(New(historyLimit, subscriberLimit), ops); var b := s.subscribers[k];
            b.since <= |s.log| && FoldItems(SnapshotOf(s.log[..b.since]), Got(b)) == TakeSnapshot(s)
  {
    GaplessUnlessOverflowed(historyLimit, subscriberLimit, ops, k);
    RunOk(historyLimit, subscriberLimit, ops);
    var s := Run(New(historyLimit, subscriberLimit), ops);
    hide Run, SubscriberOk;
    FoldCatchesUp(s.log, s.subscribers[k].since, |s.log|);
    assert s.log[..|s.log|] == s.log;
  }

  // -- what a snapshot tells -------------------------------------------------------------------------------

  /** How many events of a kind there are. */
  ghost function CountOf(log: seq<Event>, kind: Kind): nat {
    |set i | 0 <= i < |log| && log[i].kind == kind|
  }

  /** How many more connections were opened than closed. */
  ghost function Surplus(log: seq<Event>): int {
    CountOf(log, Opened) - CountOf(log, Closed)
  }

  lemma CountOfLonger(log: seq<Event>, e: Event, kind: Kind)
    ensures CountOf(log + [e], kind) == CountOf(log, kind) + (if e.kind == kind then 1 else 0)
  {
    var before := set i | 0 <= i < |log| && log[i].kind == kind;
    var after := set i | 0 <= i < |log + [e]| && (log + [e])[i].kind == kind;
    assert after == before + (if e.kind == kind then {|log|} else {});
  }

  lemma SurplusLonger(log: seq<Event>, e: Event)
    ensures Surplus(log + [e]) == Surplus(log) + (if e.kind == Opened then 1 else if e.kind == Closed then -1 else 0)
  {
    CountOfLonger(log, e, Opened);
    CountOfLonger(log, e, Closed);
  }

  /** The number of connections is the largest surplus that any stretch of events up to the last one left. */
  ghost predicate LargestSurplus(log: seq<Event>, connections: nat) {
    && (forall k :: 0 <= k <= |log| ==> Surplus(log) - Surplus(log[..k]) <= connections)
    && (exists k :: 0 <= k <= |log| && Surplus(log) - Surplus(log[..k]) == connections)
  }

  lemma {:induction false} FoldIsLargestSurplus(log: seq<Event>)
    ensures LargestSurplus(log, FoldAll(log).1)
  {
    if log == [] {
      assert log[..0] == log;
    } else {
      var before, e := log[..|log| - 1], log[|log| - 1];
      FoldIsLargestSurplus(before);
      assert log == before + [e] && log[..|log|] == log;
      SurplusLonger(before, e);
      hide Surplus;
      assert forall k :: 0 <= k < |log| ==> log[..k] == before[..k];
      var last := FoldAll(before).1;
      var k :| 0 <= k <= |before| && Surplus(before) - Surplus(before[..k]) == last;
      var from := if e.kind == Closed && last == 0 then |log| else k;
      assert Surplus(log) - Surplus(log[..from]) == FoldAll(log).1;
    }
  }

  /** In every run the snapshot counts the largest surplus of opened over closed connections that any
      stretch of events up to the last one left. When no prefix of the journal closed more connections
      than it opened, that is the opened ones minus the closed ones. */
  lemma SnapshotCounts(historyLimit: nat, subscriberLimit: nat, ops: seq<Op>)
    requires historyLimit >= 1 && subscriberLimit >= 1
    ensures var s := Run(New(historyLimit, subscriberLimit), ops);
            && LargestSurplus(s.log, TakeSnapshot(s).connections)
            && ((forall k :: 0 <= k <= |s.log| ==> Surplus(s.log[..k]) >= 0) ==>
                  TakeSnapshot(s).connections == CountOf(s.log, Opened) - CountOf(s.log, Closed))
  {
    RunOk(historyLimit, subscriberLimit, ops);
    var s := Run(New(historyLimit, subscriberLimit), ops);
    FoldIsLargestSurplus(s.log);
    assert Surplus(s.log[..0]) == 0;
    hide Run, FoldAll, HistoryOk, SubscriberOk;
  }

  /** In every run, an opened connection raises the count by one, and a closed one lowers it by one or
      leaves it at none; any other event, and everything that is not an event, leaves it alone. */
  lemma SnapshotCountsEach(historyLimit: nat, subscriberLimit: nat, ops: seq<Op>, op: Op)
    requires historyLimit >= 1 && subscriberLimit >= 1
    ensures var before := TakeSnapshot(Run(New(historyLimit, subscriberLimit), ops)).connections;
            var after := TakeSnapshot(Run(New(historyLimit, subscriberLimit), ops + [op])).connections;
            && (op.Emits? && op.e.kind == Opened ==> after == before + 1)
            && (op.Emits? && op.e.kind == Closed && before > 0 ==> after == before - 1)
            && (op.Emits? && op.e.kind == Closed && before == 0 ==> after == 0)
            && (op.Emits? && op.e.kind == Neither ==> after == before)
            && (!op.Emits? ==> after == before)
  {
    assert (ops + [op])[..|ops|] == ops;
  }

  /** In every run the snapshot's state is where the last event went, and none before the first one;
      it covers every event so far. */
  lemma SnapshotState(historyLimit: nat, subscriberLimit: nat, ops: seq<Op>)
    requires historyLimit >= 1 && subscriberLimit >= 1
    ensures var s := Run(New(historyLimit, subscriberLimit), ops);
            && TakeSnapshot(s).lastSeq == |s.log|
            && (s.log == [] ==> TakeSnapshot(s).state == None)
            && (s.log != [] ==> TakeSnapshot(s).state == Some(s.log[|s.log| - 1].toState))
  {
    RunOk(historyLimit, subscriberLimit, ops);
    hide Run;
  }

  ghost function EventsOf(ops: seq<Op>): seq<Event> {
    if ops == [] then []
    else EventsOf(ops[..|ops| - 1]) + (if ops[|ops| - 1].Emits? then [ops[|ops| - 1].e] else [])
  }

  /** The journal holds the emitted events, in the order they were emitted. */
  lemma {:induction false} LogIsWhatWasEmitted(historyLimit: nat, subscriberLimit: nat, ops: seq<Op>)
    ensures Run(New(historyLimit, subscriberLimit), ops).log == EventsOf(ops)
  {
    if ops != [] {
      LogIsWhatWasEmitted(historyLimit, subscriberLimit, ops[..|ops| - 1]);
    }
  }
}
