/** The batching policy as the object the model server holds: its queue and its busy set are
    updated in place, and every method is proved against the function of the same name in
    `Batching`. */
module BatchPolicies {
  import opened Batching

  class BatchPolicy {
    const maxBatch: nat
    const window: real
    var waiting: seq<Waiting>
    var busy: set<int>
    var nextOrder: nat

    function View(): Policy
      reads this
    {
      Policy(maxBatch, window, waiting, busy, nextOrder)
    }

    constructor (maxBatch: nat, window: real)
      ensures View() == Policy(maxBatch, window, [], {}, 0)
    {
      this.maxBatch, this.window := maxBatch, window;
      waiting, busy, nextOrder := [], {}, 0;
    }

    method Add(request: Waiting) returns (ok: bool)
      modifies this
      ensures View() == Batching.Add(old(View()), request)
      ensures ok == Accepts(old(View()), request)
    {
      if request.connection in busy {
        return false;
      }
      var queued := request.(order := nextOrder);
      nextOrder := nextOrder + 1;
      busy := busy + {request.connection};
      waiting := waiting + [queued];
      return true;
    }

    method Cancel(connection: int, requestId: int) returns (withdrawn: bool)
      modifies this
      ensures View() == Batching.Cancel(old(View()), connection, requestId)
      ensures withdrawn == Withdraws(old(View()), connection, requestId)
    {
      var index := 0;
      while index < |waiting|
        invariant index <= |waiting|
        invariant forall j :: 0 <= j < index ==>
                    !(waiting[j].connection == connection && waiting[j].requestId == requestId)
      {
        if waiting[index].connection == connection && waiting[index].requestId == requestId {
          assert index == Find(waiting, connection, requestId);
          waiting := waiting[..index] + waiting[index + 1..];
          busy := busy - {connection};
          return true;
        }
        index := index + 1;
      }
      return false;
    }

    method Drop(connection: int) returns (dropped: seq<Waiting>)
      modifies this
      ensures View() == Batching.Drop(old(View()), connection)
      ensures dropped == Of(old(waiting), connection)
    {
      var queue, kept: seq<Waiting> := waiting, [];
      dropped := [];
      for i := 0 to |queue|
        invariant dropped == Of(queue[..i], connection)
        invariant kept == Others(queue[..i], connection)
        invariant View() == old(View())
      {
        assert queue[..i + 1] == queue[..i] + [queue[i]];
        AppendOne(queue[..i], queue[i], connection);
        if queue[i].connection == connection {
          dropped := dropped + [queue[i]];
        } else {
          kept := kept + [queue[i]];
        }
      }
      assert queue[..|queue|] == queue;
      waiting := kept;
      busy := busy - {connection};
    }

    method Finished(connections: seq<int>)
      modifies this
      ensures View() == Batching.Finished(old(View()), set c | c in connections)
    {
      for i := 0 to |connections|
        modifies this`busy
        invariant busy == old(busy) - set c | c in connections[..i]
      {
        assert connections[..i + 1] == connections[..i] + [connections[i]];
        busy := busy - {connections[i]};
      }
      assert connections[..|connections|] == connections;
    }

    /** Take the expired requests out of the queue, and free their sessions. */
    method Purge(now: real) returns (expired: seq<Waiting>)
      modifies this
      ensures View() == Purged(old(View()), now)
      ensures expired == Late(old(waiting), now)
    {
      var queue, kept: seq<Waiting> := waiting, [];
      expired := [];
      for i := 0 to |queue|
        invariant expired == Late(queue[..i], now)
        invariant kept == Timely(queue[..i], now)
        invariant View() == old(View())
      {
        assert queue[..i + 1] == queue[..i] + [queue[i]];
        AppendOneTimed(queue[..i], queue[i], now);
        if IsLate(queue[i], now) {
          expired := expired + [queue[i]];
        } else {
          kept := kept + [queue[i]];
        }
      }
      assert queue[..|queue|] == queue;
      waiting := kept;
      for i := 0 to |expired|
        modifies this`busy
        invariant busy == old(busy) - Connections(expired[..i])
      {
        assert expired[..i + 1] == expired[..i] + [expired[i]];
        busy := busy - {expired[i].connection};
      }
      assert expired[..|expired|] == expired;
    }

    method Take(now: real, openSessions: nat) returns (turn: Turn)
      modifies this
      ensures View() == Batching.Take(old(View()), now, openSessions)
      ensures turn == Decision(old(View()), now, openSessions)
    {
      hide Late, Timely, Earliest, Full;
      var expired := Purge(now);
      if waiting == [] {
        return Turn([], expired, None);
      }
      var until := waiting[0].arrived + window;
      if !Full(View(), openSessions) && now < until {
        return Turn([], expired, Some(Earliest(until, waiting)));
      }
      var n := Min(maxBatch, |waiting|);
      turn := Turn(waiting[..n], expired, None);
      waiting := waiting[n..];
    }
  }
}
