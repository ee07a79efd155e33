/** The journal as the object the runner emits on: its history and its subscribers' queues are updated
    in place, and every method is proved against `EventStreams`. */
module EventJournals {
  import opened EventStreams

  /** One subscriber: what it still has to replay, and its bounded queue. */
  class Consumer {
    var backlog: seq<Item>
    var queue: seq<Item>

    constructor (backlog: seq<Item>)
      ensures this.backlog == backlog && queue == []
    {
      this.backlog, queue := backlog, [];
    }

    /** Hand it an item, shedding its oldest queued one if the queue is full. */
    method Receive(item: Item, limit: nat)
      requires limit >= 1
      modifies this`queue
      ensures queue == Offer(old(queue), item, limit)
    {
      if |queue| >= limit {
        queue := queue[1..];
      }
      queue := queue + [item];
    }

    /** Its next item; `None` when it has to wait for one. */
    method Next() returns (item: Option<Item>)
      modifies this
      ensures item == if old(backlog) != [] then Some(old(backlog)[0])
                      else if old(queue) != [] then Some(old(queue)[0]) else None
      ensures backlog == if old(backlog) != [] then old(backlog)[1..] else []
      ensures queue == if old(backlog) == [] && old(queue) != [] then old(queue)[1..] else old(queue)
    {
      if backlog != [] {
        item := Some(backlog[0]);
        backlog := backlog[1..];
      } else if queue != [] {
        item := Some(queue[0]);
        queue := queue[1..];
      } else {
        item := None;
      }
    }
  }

  class EventStream {
    const historyLimit: nat
    const subscriberLimit: nat
    var number: nat
    var history: seq<Item>
    var subscribers: seq<Consumer>
    var state: Option<int>
    var connections: nat
    ghost var log: seq<Event>

    ghost predicate Valid()
      reads this
    {
      && historyLimit >= 1 && subscriberLimit >= 1 && number == |log|
      && forall i, j :: 0 <= i < j < |subscribers| ==> subscribers[i] != subscribers[j]
    }

    constructor (historyLimit: nat, subscriberLimit: nat)
      requires historyLimit >= 1 && subscriberLimit >= 1
      ensures Valid() && log == [] && history == [] && subscribers == [] && state == None && connections == 0
      ensures this.historyLimit == historyLimit && this.subscriberLimit == subscriberLimit
    {
      this.historyLimit, this.subscriberLimit := historyLimit, subscriberLimit;
      number, history, subscribers, state, connections, log := 0, [], [], None, 0, [];
    }

    /** Append an event to the journal, and hand it to every subscriber. */
    method Emit(e: Event)
      requires Valid()
      modifies this, subscribers
      ensures Valid() && log == old(log) + [e] && subscribers == old(subscribers)
      ensures history == Newest(old(history) + [Item(|log|, e)], historyLimit)
      ensures state == FoldState(old(state), e) && connections == FoldConnections(old(connections), e)
      ensures state == Some(e.toState)
      ensures e.kind == Opened ==> connections == old(connections) + 1
      ensures e.kind == Closed ==> connections == if old(connections) > 0 then old(connections) - 1 else 0
      ensures e.kind == Neither ==> connections == old(connections)
      ensures forall i :: 0 <= i < |subscribers| ==>
                && subscribers[i].queue == Offer(old(subscribers[i].queue), Item(|log|, e), subscriberLimit)
                && subscribers[i].backlog == old(subscribers[i].backlog)
    {
      number := number + 1;
      log := log + [e];
      var item := Item(number, e);
      history := history + [item];
      if |history| > historyLimit {
        history := history[|history| - historyLimit..];
      }
      state := Some(e.toState);
      if e.kind == Opened {
        connections := connections + 1;
      } else if e.kind == Closed {
        connections := if connections == 0 then 0 else connections - 1;
      }
      Deliver(item);
    }

    /** Hand an item to every subscriber. */
    method Deliver(item: Item)
      requires Valid()
      modifies subscribers
      ensures Valid()
      ensures forall i :: 0 <= i < |subscribers| ==>
                && subscribers[i].queue == Offer(old(subscribers[i].queue), item, subscriberLimit)
                && subscribers[i].backlog == old(subscribers[i].backlog)
    {
      for i := 0 to |subscribers|
        invariant forall j :: 0 <= j < |subscribers| ==>
                    && subscribers[j].queue == (if j < i then Offer(old(subscribers[j].queue), item, subscriberLimit)
                                                else old(subscribers[j].queue))
                    && subscribers[j].backlog == old(subscribers[j].backlog)
      {
        subscribers[i].Receive(item, subscriberLimit);
      }
    }

    /** Register a subscriber, with every retained event after `since` to replay. */
    method Subscribe(since: Option<int>) returns (consumer: Consumer)
      requires Valid()
      modifies this`subscribers
      ensures Valid() && fresh(consumer) && subscribers == old(subscribers) + [consumer]
      ensures consumer.queue == [] && consumer.backlog == After(history, if since.None? then |log| else since.value)
    {
      var start := if since.None? then number else since.value;
      var backlog: seq<Item> := [];
      for i := 0 to |history|
        invariant backlog == After(history[..i], start)
        invariant subscribers == old(subscribers)
      {
        assert history[..i + 1] == history[..i] + [history[i]];
        AfterAppend(history[..i], history[i], start);
        if history[i].number > start {
          backlog := backlog + [history[i]];
        }
      }
      assert history[..|history|] == history;
      consumer := new Consumer(backlog);
      subscribers := subscribers + [consumer];
    }

    method Snapshot() returns (snapshot: EventStreams.Snapshot)
      requires Valid()
      ensures snapshot == EventStreams.Snapshot(state, connections, |log|)
    {
      snapshot := EventStreams.Snapshot(state, connections, number);
    }
  }

  lemma {:induction false} AfterAppend(items: seq<Item>, item: Item, since: int)
    ensures After(items + [item], since) == After(items, since) + (if item.number > since then [item] else [])
  {
    if items != [] {
      AfterAppend(items[1..], item, since);
      assert (items + [item])[1..] == items[1..] + [item];
    }
  }
}
