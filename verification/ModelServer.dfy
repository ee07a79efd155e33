/** The model server's core as the object its threads share: each method is one region the source
    runs under its condition, updates the tables in place, and is proved against the transition of
    `ServerCore` that stands for it. */
module ModelServers {
  import opened Batching
  import opened BatchPolicies
  import opened RequestTable
  import opened ServerCore
  import LinkInvariant

  class ModelServerCore {
    const maxSessions: nat
    const policy: BatchPolicy
    var state: ServerState
    var events: seq<Event>
    var connections: map<int, Connection>
    var open: set<int>
    var bySlot: map<int, int>
    var opening: set<int>
    var resetPending: set<int>
    var generations: map<int, nat>
    var numbers: int
    var pending: map<nat, Pending>
    var tickets: nat
    var outboxes: map<int, Box>

    /** Bookkeeping: the ledger of accepted requests, what became of them, the batch in the step
        thread's hands, and where that thread and the lifecycle are (the fields `View` keeps of it). */
    ghost var ledger: Ledger
    ghost var hold: map<int, nat>
    ghost var fates: map<nat, Fate>
    ghost var batch: seq<Waiting>
    ghost var thread: Core

    ghost function TheLinks(): Links
      reads this
    {
      Links(connections, open, bySlot, opening, generations, numbers)
    }

    ghost function View(): Core
      reads this, policy
    {
      thread.(
        maxSessions := maxSessions, server := state, events := events, resetting := resetPending,
        links := TheLinks(),
        requests := Requests(policy.View(), batch, pending, tickets, ledger, hold),
        answers := Answers(fates, outboxes))
    }

    constructor (maxSessions: nat, maxBatch: nat, window: real)
      ensures View() == Start(maxSessions, maxBatch, window)
      ensures fresh(policy)
    {
      this.maxSessions := maxSessions;
      policy := new BatchPolicy(maxBatch, window);
      state, events, resetPending, numbers, tickets := Serving, [], {}, 1, 1;
      connections, open, bySlot, opening, generations, pending, outboxes := map[], {}, map[], {}, map[], map[], map[];
      ledger, hold, fates, batch, thread := map[], map[], map[], [], Start(maxSessions, maxBatch, window);
    }

    // -- posting -----------------------------------------------------------------------------

    method StateOfConnection(n: int) returns (s: ConnectionState)
      ensures s == StateOf(View(), n)
    {
      s := if n in connections then connections[n].state else Shut;
    }

    /** Queue a message that answers no accepted request. */
    method Answer(n: int, message: Message)
      modifies this`outboxes
      ensures View() == PostTo(old(View()), n, message)
    {
      var s := StateOfConnection(n);
      var box := if n in outboxes then outboxes[n] else Box([], 0, false);
      if s == Shut {
        return;
      }
      if |box.sent| - box.written >= OUTBOX {
        outboxes := outboxes[n := box.(broken := true)];
      } else {
        outboxes := outboxes[n := box.(sent := box.sent + [message])];
      }
    }

    // -- the reader threads --------------------------------------------------------------------

    method Take(w: Waiting)
      modifies this, policy
      ensures View() == TakeStep(old(View()), w)
    {
      var s := StateOfConnection(w.connection);
      if state != Serving || s != Open || w.connection in resetPending {
        Answer(w.connection, Failed(w.requestId));
        return;
      }
      var ok := policy.Add(w);
      if ok {
        ghost var o := old(policy.nextOrder);
        ledger := ledger[o := Entry(w.(order := o), Queued)];
        hold := hold[w.connection := o];
        fates := fates[o := Awaiting];
      } else {
        Answer(w.connection, Failed(w.requestId));
      }
    }

    /** Mark the session's running request of this id as answered. */
    method MarkCancelled(n: int, requestId: int)
      requires forall t :: t in pending ==> t < tickets
      modifies this`pending
      ensures pending == Marked(old(pending), TicketsOf(old(pending), n, requestId))
    {
      ghost var running := TicketsOf(pending, n, requestId);
      for t := 0 to tickets
        modifies this`pending
        invariant pending == Marked(old(pending), set u | u in running && u < t)
      {
        if t in pending && IsRunning(pending[t], n, requestId) {
          pending := pending[t := pending[t].(answered := true)];
        }
      }
      assert running == set u | u in running && u < tickets;
    }

    method CancelRequest(n: int, requestId: int)
      requires forall t :: t in pending ==> t < tickets
      modifies this, policy
      ensures View() == TakeCancel(old(View()), n, requestId)
    {
      hide Find, Batching.Cancel, TicketsOf, OrdersOf, Mend, Marked;
      ghost var r := View().requests;
      var withdrawn := policy.Cancel(n, requestId);
      if withdrawn {
        ghost var w := Withdrawn(r, n, requestId);
        ledger, hold, fates := RequestTable.Move(ledger, w, Out), hold - {n}, fates[w.order := Cancelled];
      } else {
        NotWithdrawn(r.policy, n, requestId);
        ghost var running := TicketsOf(pending, n, requestId);
        MarkCancelled(n, requestId);
        MarkIsMarked(r, running);
        fates := Mend(fates, OrdersOf(r.pending, running), Cancelled);
      }
    }

    method TakeResetMessage(n: int, requestId: int)
      modifies this
      ensures View() == TakeReset(old(View()), n, requestId)
    {
      if state == Serving {
        resetPending := resetPending + {n};
        events := events + [Resets(n, requestId)];
      } else {
        Answer(n, Failed(requestId));
      }
    }

    // -- a turn of the step thread -------------------------------------------------------------

    /** Mark the running requests whose timeout passed as answered. */
    method MarkOverdue(now: real) returns (overdue: seq<Waiting>)
      requires forall t :: t in pending ==> t < tickets
      modifies this`pending
      ensures pending == Marked(old(pending), Overdue(old(pending), now))
      ensures overdue == ByTicket(old(pending), Overdue(old(pending), now), tickets)
    {
      ghost var late := Overdue(pending, now);
      overdue := [];
      for t := 0 to tickets
        modifies this`pending
        invariant pending == Marked(old(pending), set u | u in late && u < t)
        invariant overdue == ByTicket(old(pending), late, t)
      {
        if t in pending && IsOverdue(pending[t], now) {
          overdue := overdue + [pending[t].waiting];
          pending := pending[t := pending[t].(answered := true)];
        }
      }
      assert late == set u | u in late && u < tickets;
    }

    /** Mark them, and take the events. */
    method ExpireRunning(now: real) returns (overdue: seq<Waiting>)
      requires forall t :: t in pending ==> t < tickets
      modifies this
      ensures View() == Expire(old(View()), now)
      ensures overdue == ByTicket(old(pending), Overdue(old(pending), now), old(tickets))
    {
      hide Overdue, OrdersOf, Mend, Marked, ByTicket, AnswersTo;
      ghost var r := View().requests;
      overdue := MarkOverdue(now);
      MarkIsMarked(r, Overdue(r.pending, now));
      events := [];
      fates := Mend(fates, OrdersOf(r.pending, Overdue(r.pending, now)), Owed);
      thread := thread.(errands := AnswersTo(overdue));
    }

    // -- leaving -------------------------------------------------------------------------------

    /** Detach a session's running requests, and list the ones it would still be answered. */
    method DropPending(n: int) returns (running: seq<Waiting>)
      requires forall t :: t in pending ==> t < tickets
      modifies this`pending
      ensures pending == Detached(old(pending), n, tickets)
      ensures running == ByTicket(old(pending), OfConnection(old(pending), n), tickets)
    {
      ghost var mine := OfConnection(pending, n);
      running := [];
      for t := 0 to tickets
        modifies this`pending
        invariant pending == Detached(old(pending), n, t)
        invariant running == ByTicket(old(pending), mine, t)
      {
        if t in pending && pending[t].waiting.connection == n {
          if pending[t].future && pending[t].Awaited() {
            running := running + [pending[t].waiting];
          }
          pending := pending[t := pending[t].(detached := true)];
        }
      }
    }

    /** Take what a session has queued or running out of the server's hands. */
    method ReleaseSession(n: int) returns (owed: seq<Waiting>)
      requires forall t :: t in pending ==> t < tickets
      modifies this`pending, this`ledger, this`hold, policy
      ensures View() == old(View()).(requests := Release(old(View()).requests, n))
      ensures owed == Of(old(policy.waiting), n) + ByTicket(old(pending), OfConnection(old(pending), n), old(tickets))
    {
      hide Of, ByTicket, OfConnection, Others;
      ghost var r := View().requests;
      var dropped := policy.Drop(n);
      var running := DropPending(n);
      owed := dropped + running;
      ReleaseIsDetached(r, n);
      ledger, hold := Release(r, n).ledger, hold - {n};
    }

    /** Take a connection out of the tables of open ones. */
    method Unregister(n: int)
      modifies this`open, this`bySlot
      ensures TheLinks() == Forget(old(TheLinks()), n)
    {
      open := open - {n};
      if n in connections && connections[n].slot in bySlot && bySlot[connections[n].slot] == n {
        bySlot := bySlot - {connections[n].slot};
      }
    }

    /** Drop everything the server holds for a connection that leaves. */
    method ForgetConnection(n: int, wasOpen: bool, next: Option<int>)
      requires forall t :: t in pending ==> t < tickets
      modifies this, policy
      ensures View() == ForgetRegion(old(View()), n, wasOpen, next)
    {
      hide Release, Mend, DueOf, Forget;
      ghost var r := View().requests;
      var owed := ReleaseSession(n);
      fates := Mend(fates, DueOf(r, n), Lost);
      resetPending := resetPending - {n};
      Unregister(n);
      thread := thread.(doing := if wasOpen then ClosingCall(n, next) else Ending(n, next));
    }

    /** The start of a reset: fail what the session has queued or running. */
    method BeginReset(n: int, requestId: int) returns (owed: seq<Waiting>)
      requires forall t :: t in pending ==> t < tickets
      modifies this, policy
      ensures View() == StartReset(old(View()), n, requestId)
      ensures StateOf(old(View()), n) == Open ==> View().doing == Dropped(n, requestId, owed)
    {
      hide Release, Mend, Of, ByTicket, Orders;
      var s := StateOfConnection(n);
      if s != Open {
        resetPending := resetPending - {n};
        return [];
      }
      owed := ReleaseSession(n);
      fates := Mend(fates, Orders(owed), Owed);
      thread := thread.(doing := Dropped(n, requestId, owed));
    }

    // -- finishing -----------------------------------------------------------------------------

    /** Post the answer to an accepted request. */
    method AnswerAccepted(w: Waiting, generation: nat, result: Option<int>)
      modifies this`outboxes, this`fates
      ensures Answers(fates, outboxes) == AnswerRequest(old(Answers(fates, outboxes)), Open, w, generation, result)
    {
      var n := w.connection;
      var box := if n in outboxes then outboxes[n] else Box([], 0, false);
      if |box.sent| - box.written >= OUTBOX {
        outboxes := outboxes[n := box.(broken := true)];
        fates := fates[w.order := Lost];
      } else {
        outboxes := outboxes[n := box.(sent := box.sent
          + [ServerCore.Answer(w.order, w.requestId, generation, result)])];
        fates := fates[w.order := Given(|box.sent|)];
      }
    }

    /** Take a finished request out of the table, and free its session unless it was detached. */
    method RemovePending(t: nat) returns (item: Pending)
      requires t in pending
      modifies this`pending, this`ledger, this`hold, policy
      ensures item == old(pending)[t]
      ensures View() == old(View()).(requests := Complete(old(View()).requests, t))
    {
      item := pending[t];
      pending := pending - {t};
      ledger := RequestTable.Move(ledger, item.waiting, Out);
      if !item.detached {
        policy.Finished([item.waiting.connection]);
        assert (set c | c in [item.waiting.connection]) == {item.waiting.connection};
        hold := hold - {item.waiting.connection};
      }
    }

    /** Finish a request, and answer it if its session still waits. */
    method CompleteRequest(t: nat, result: Option<int>)
      requires t in pending
      modifies this, policy
      ensures View() == CompleteItem(old(View()), t, result)
    {
      hide Complete, AnswerRequest;
      var item := RemovePending(t);
      var n := item.waiting.connection;
      if && item.Awaited()
         && n in connections && connections[n].state == Open
         && connections[n].generation == item.generation && n in open
      {
        AnswerAccepted(item.waiting, item.generation, result);
      } else if item.Awaited() {
        fates := fates[item.waiting.order := Lost];
      }
    }

    /** The outputs of `step()`, request by request. */
    method TakeAllOutputs(first: nat, last: nat, outputs: Option<seq<Output>>)
      requires first <= last
      modifies this, policy
      ensures View() == TakeOutputs(old(View()), first, last, outputs)
    {
      var whole := IsWhole(outputs, last - first);
      var given := if whole then outputs.value else [];
      for t := first to last
        invariant TakeOutputs(View(), t, last, if whole then Some(given[t - first..]) else None)
               == TakeOutputs(old(View()), first, last, outputs)
      {
        ghost var rest := if whole then Some(given[t - first..]) else None;
        assert whole ==> rest.value[1..] == given[t + 1 - first..];
        if t in pending {
          if whole && given[t - first].Future? {
            pending := pending[t := pending[t].(future := true)];
          } else {
            CompleteRequest(t, if whole then given[t - first].result else None);
          }
        }
      }
    }

    // -- once the step thread has ended --------------------------------------------------------

    /** Drop the queued requests of the connections in `order`, connection by connection. */
    method DropAll(order: seq<int>) returns (dropped: seq<Waiting>)
      modifies policy
      ensures policy.View() == DropEach(old(policy.View()), order)
      ensures dropped == DroppedBy(old(policy.View()), order)
    {
      dropped := [];
      for i := 0 to |order|
        invariant DropEach(policy.View(), order[i..]) == DropEach(old(policy.View()), order)
        invariant dropped + DroppedBy(policy.View(), order[i..]) == DroppedBy(old(policy.View()), order)
      {
        assert order[i..][1..] == order[i + 1..];
        var requests := policy.Drop(order[i]);
        dropped := dropped + requests;
      }
    }

    /** The sessions held for a running request, and the requests whose answer one still awaits. */
    method ListRunning() returns (held: seq<int>, running: seq<Waiting>)
      requires forall t :: t in pending ==> t < tickets
      ensures (set c | c in held) == RunningConnections(pending)
      ensures running == ByTicket(pending, (set t | t in pending && pending[t].Awaited()), tickets)
    {
      ghost var awaited := set t | t in pending && pending[t].Awaited();
      held, running := [], [];
      for t := 0 to tickets
        invariant (set c | c in held) == set u | u in pending && u < t
                  && !pending[u].detached :: pending[u].waiting.connection
        invariant running == ByTicket(pending, awaited, t)
      {
        if t in pending {
          if pending[t].Awaited() {
            running := running + [pending[t].waiting];
          }
          if !pending[t].detached {
            var c := pending[t].waiting.connection;
            assert (set d | d in held + [c]) == (set d | d in held) + {c};
            held := held + [c];
          }
        }
      }
    }

    /** Take every request out of the tables: the ones running, and the ones queued for `order`. */
    method AnswerInFlight(order: seq<int>) returns (running: seq<Waiting>, queued: seq<Waiting>)
      requires forall t :: t in pending ==> t < tickets
      modifies this`pending, this`ledger, this`hold, policy
      ensures View() == old(View()).(requests := Settle(old(View()).requests, order))
      ensures running == ByTicket(old(pending), (set t | t in old(pending) && old(pending)[t].Awaited()), tickets)
      ensures queued == DroppedBy(old(policy.View()), order)
    {
      hide ByTicket, DropEach, DroppedBy, RunningConnections;
      ghost var r := View().requests;
      var held;
      queued := DropAll(order);
      held, running := ListRunning();
      pending := map[];
      policy.Finished(held);
      ledger, hold := Settle(r, order).ledger, Settle(r, order).hold;
    }

    // -- opening -------------------------------------------------------------------------------

    /** Enter a connection into the tables of open ones. */
    method Register(n: int)
      requires n in connections
      modifies this`connections, this`open, this`bySlot
      ensures TheLinks() == Registered(old(TheLinks()), n)
    {
      connections := connections[n := connections[n].(state := Open)];
      open := open + {n};
      bySlot := bySlot[connections[n].slot := n];
    }

    /** The end of an open: the connection is entered, unless the server stops. */
    method EnterConnection(n: int)
      requires n in connections && connections[n].state == Opening
      modifies this
      ensures View() == FinishOpen(old(View()), n, true)
    {
      hide FinishOpen, Registered;
      FinishOpenRegisters(View(), n);
      opening := opening - {n};
      if state == Serving {
        Register(n);
        thread := thread.(doing := Welcoming(n));
      } else {
        thread := thread.(doing := UndoingCall(n));
      }
    }

    /** Give a connection its slot's next generation. */
    method NextGeneration(n: int, ok: bool)
      requires n in connections
      modifies this
      ensures View() == CallOpened(old(View()), n, ok)
    {
      var slot := connections[n].slot;
      var g := (if slot in generations then generations[slot] else 0) + 1;
      generations := generations[slot := g];
      connections := connections[n := connections[n].(generation := g)];
      if ok {
        thread := thread.(log := thread.log + [CallLog.Opened(slot, g)]);
      }
    }
  }

  /** A connection's requests that run and whose session still waits for them. */
  ghost function OfConnection(pending: map<nat, Pending>, n: int): set<nat> {
    set t | t in pending && pending[t].waiting.connection == n && pending[t].future && pending[t].Awaited()
  }

  /** The running requests under `tickets`, marked as answered. */
  ghost function Marked(pending: map<nat, Pending>, tickets: set<nat>): map<nat, Pending> {
    map t | t in pending :: if t in tickets then pending[t].(answered := true) else pending[t]
  }

  /** The requests of a session under the tickets below `below`, detached. */
  ghost function Detached(pending: map<nat, Pending>, n: int, below: nat): map<nat, Pending> {
    map t | t in pending :: if pending[t].waiting.connection == n && t < below then pending[t].(detached := true)
      else pending[t]
  }

  lemma MarkIsMarked(r: Requests, tickets: set<nat>)
    ensures Mark(r, tickets) == r.(pending := Marked(r.pending, tickets))
  {
  }

  lemma ReleaseIsDetached(r: Requests, n: int)
    requires forall t :: t in r.pending ==> t < r.nextTicket
    ensures Release(r, n).pending == Detached(r.pending, n, r.nextTicket)
  {
  }

  lemma NotWithdrawn(p: Policy, n: int, requestId: int)
    requires !Withdraws(p, n, requestId)
    ensures Batching.Cancel(p, n, requestId) == p
  {
  }

  ghost function Registered(l: Links, n: int): Links
    requires n in l.connections
  {
    l.(connections := l.connections[n := l.connections[n].(state := Open)],
       open := l.open + {n}, bySlot := l.bySlot[l.connections[n].slot := n])
  }

  /** Entering an opening connection, in a slot no other one has, keeps the two tables in agreement: both
      gain it and it alone, and no other connection changes. */
  lemma RegisteredAgrees(l: Links, n: int)
    requires LinkInvariant.TablesAgree(l, {}) && n in l.connections && l.connections[n].state == Opening
    requires l.connections[n].slot !in l.bySlot
    ensures var m := Registered(l, n);
            && LinkInvariant.TablesAgree(m, {})
            && (forall k :: k in m.open <==> k in l.open || k == n)
            && (forall slot :: slot in m.bySlot && m.bySlot[slot] == n <==> slot == l.connections[n].slot)
            && (forall slot :: slot in l.bySlot ==> slot in m.bySlot && m.bySlot[slot] == l.bySlot[slot])
            && (forall k :: k in m.connections && m.connections[k].state == Open <==> k in m.open)
            && (forall k :: k != n && k in l.connections ==> k in m.connections && m.connections[k] == l.connections[k])
  {
  }

  lemma FinishOpenRegisters(s: Core, n: int)
    requires n in s.links.connections && s.links.connections[n].state == Opening
    ensures var l := s.links.(opening := s.links.opening - {n});
            FinishOpen(s, n, true)
            == if s.server == Serving then s.(links := Registered(l, n), doing := Welcoming(n))
               else s.(links := l, doing := UndoingCall(n))
  {
  }
}
