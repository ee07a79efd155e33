/** What every interleaving keeps about accepted requests: the server's tables agree with each
    other, a session's one request is named by `hold`, and it belongs to an open connection in the
    generation it runs in. */
module RequestInvariant {
  import opened Batching
  import opened RequestTable
  import opened ServerCore
  import opened LinkInvariant

  predicate IsAnswer(e: Errand) {
    e.AnswerTo? || e.AnswerIfThere?
  }

  /** A batch taken is run last in its turn, after answers alone, or it is being inserted. */
  ghost predicate Shape(d: Doing, errands: seq<Errand>, batch: seq<Waiting>) {
    if batch != [] then
      || (d.Inserting? && errands == [])
      || (d.Idle? && errands != [] && errands[|errands| - 1] == RunBatch
          && forall i :: 0 <= i < |errands| - 1 ==> IsAnswer(errands[i]))
    else
      && RunBatch !in errands
      && !d.Inserting?
      && (d.Calling? || d.Returned? ==> errands == [])
  }

  /** What is held for a session, is held for an open connection. */
  ghost predicate HeldOpen(hold: map<int, nat>, open: set<int>) {
    forall n :: n in hold ==> n in open
  }

  /** A request not detached runs in the current generation of its connection. */
  ghost predicate Current(pending: map<nat, Pending>, l: Links) {
    forall t :: t in pending && !pending[t].detached ==>
      && pending[t].slot == SlotOf(l, pending[t].waiting.connection)
      && pending[t].generation == GenerationOf(l, pending[t].waiting.connection)
  }

  /** The tickets handed to the `step()` that runs now: their requests have no future yet. */
  ghost predicate Fresh(pending: map<nat, Pending>, first: nat, last: nat) {
    && (forall t :: first <= t < last ==> t in pending && pending[t].Awaited() && !pending[t].future)
    && (forall t :: t in pending && !(first <= t < last) ==> pending[t].future)
  }

  ghost predicate Stepping(d: Doing, r: Requests, l: Links) {
    match d
    case Inserting(items) =>
      && Prepared(items, r.batch)
      && (forall i :: 0 <= i < |items| ==>
            && items[i].slot == SlotOf(l, items[i].waiting.connection)
            && items[i].generation == GenerationOf(l, items[i].waiting.connection))
      && Fresh(r.pending, 0, 0)
    case Calling(first, last) => first < last <= first + r.policy.maxBatch && Fresh(r.pending, first, last)
    case Returned(first, last, _) => first < last && Fresh(r.pending, first, last)
    case Dropped(n, _, _) => Fresh(r.pending, 0, 0) && AllDetached(r.pending, n)
    case Reopening(n, _) => Fresh(r.pending, 0, 0) && AllDetached(r.pending, n)
    case _ => Fresh(r.pending, 0, 0)
  }

  ghost predicate AllDetached(pending: map<nat, Pending>, n: int) {
    forall t :: t in pending && pending[t].waiting.connection == n ==> pending[t].detached
  }

  /** The lifecycle past the point where it took everything out of the tables. */
  predicate Settled(life: Life) {
    life == DrainSettling || life == Drained || life == StopSettling || life == StopLeaving || life == Over
  }

  ghost predicate LifeOk(s: Core) {
    && (s.life != Up || !s.alive ==> s.server != Serving)
    && (!s.alive ==> s.requests.batch == [])
    && (Settled(s.life) ==>
          !s.alive && s.requests.hold == map[] && s.requests.pending == map[] && s.requests.policy.waiting == [])
  }

  ghost predicate RequestsOk(s: Core) {
    && Consistent(s.requests)
    && s.requests.policy.maxBatch >= 1 && |s.requests.batch| <= s.requests.policy.maxBatch
    && Shape(s.doing, s.errands, s.requests.batch)
    && HeldOpen(s.requests.hold, s.links.open)
    && Current(s.requests.pending, s.links)
    && Stepping(s.doing, s.requests, s.links)
    && LifeOk(s)
  }

  // -- changes that leave the requests alone ---------------------------------------------------

  /** The connections that hold requests keep their slot and generation. */
  ghost predicate SameSessions(l: Links, m: Links) {
    && l.open == m.open
    && forall n :: n in l.open ==> SlotOf(m, n) == SlotOf(l, n) && GenerationOf(m, n) == GenerationOf(l, n)
  }

  lemma SameCurrent(r: Requests, l: Links, m: Links)
    requires Consistent(r) && HeldOpen(r.hold, l.open) && Current(r.pending, l) && SameSessions(l, m)
    ensures Current(r.pending, m)
  {
    forall t | t in r.pending && !r.pending[t].detached ensures r.pending[t].waiting.connection in l.open {
      assert Holding(r.pending, r.ledger, r.pending[t].waiting.order);
    }
  }

  lemma BatchOpen(r: Requests, open: set<int>)
    requires Consistent(r) && HeldOpen(r.hold, open)
    ensures forall w :: w in r.batch ==> w.connection in open
  {
    forall w | w in r.batch ensures w.connection in open {
      assert Holding(r.pending, r.ledger, w.order);
    }
  }

  lemma SameStepping(d: Doing, r: Requests, l: Links, m: Links)
    requires Consistent(r) && HeldOpen(r.hold, l.open) && Stepping(d, r, l) && SameSessions(l, m)
    ensures Stepping(d, r, m)
  {
    if d.Inserting? {
      BatchOpen(r, l.open);
      forall i | 0 <= i < |d.items| ensures d.items[i].waiting.connection in l.open {
        assert d.items[i].waiting in r.batch;
      }
    }
  }

  /** Posting, the reader threads' own changes, and new events do not touch the requests. */
  lemma SameRequests(s: Core, t: Core)
    requires RequestsOk(s) && SameSessions(s.links, t.links)
    requires t.requests == s.requests && t.doing == s.doing && t.errands == s.errands
    requires t.life == s.life && t.alive == s.alive && t.server == s.server
    ensures RequestsOk(t)
  {
    SameCurrent(s.requests, s.links, t.links);
    SameStepping(s.doing, s.requests, s.links, t.links);
    hide Consistent, Shape, HeldOpen, Current, Stepping;
  }

  lemma StepRequests(s: Core, w: Waiting)
    requires LinksOk(s) && RequestsOk(s)
    ensures RequestsOk(TakeStep(s, w))
  {
    var t := TakeStep(s, w);
    if t.requests == s.requests {
      SameRequests(s, t);
    } else {
      assert w.connection in s.links.open;
      AcceptKeeps(s.requests, w);
      hide LinksOk, Consistent, Shape;
    }
  }

  lemma MarkStepping(d: Doing, r: Requests, tickets: set<nat>, l: Links)
    requires Stepping(d, r, l) && Current(r.pending, l)
    requires forall t :: t in tickets && t in r.pending ==> r.pending[t].future
    ensures Stepping(d, Mark(r, tickets), l) && Current(Mark(r, tickets).pending, l)
  {
  }

  /** Marking running requests as answered leaves the rest of a request alone. */
  lemma MarkRequests(s: Core, tickets: set<nat>)
    requires RequestsOk(s)
    requires forall t :: t in tickets && t in s.requests.pending ==> s.requests.pending[t].future
    ensures RequestsOk(s.(requests := Mark(s.requests, tickets)))
  {
    MarkKeeps(s.requests, tickets);
    MarkStepping(s.doing, s.requests, tickets, s.links);
    hide Consistent, Shape, Stepping, Current;
  }

  lemma CancelRequests(s: Core, n: int, requestId: int)
    requires RequestsOk(s)
    ensures RequestsOk(TakeCancel(s, n, requestId))
  {
    var t := TakeCancel(s, n, requestId);
    if Withdraws(s.requests.policy, n, requestId) {
      WithdrawKeeps(s.requests, n, requestId);
      hide Consistent, Shape, Find;
    } else {
      MarkRequests(s, TicketsOf(s.requests.pending, n, requestId));
      hide RequestsOk;
      SameRequests(s.(requests := t.requests), t);
    }
  }

  lemma CompleteStepping(d: Doing, r: Requests, t: nat, l: Links)
    requires Stepping(d, r, l) && Current(r.pending, l) && t in r.pending && r.pending[t].future
    ensures Stepping(d, Complete(r, t), l) && Current(Complete(r, t).pending, l)
  {
  }

  lemma CompleteRequests(s: Core, t: nat, result: Option<int>)
    requires RequestsOk(s) && t in s.requests.pending && s.requests.pending[t].future
    ensures RequestsOk(CompleteItem(s, t, result))
  {
    CompleteKeeps(s.requests, t);
    CompleteStepping(s.doing, s.requests, t, s.links);
    hide Consistent, Shape, Stepping, Current;
  }

  // -- the step thread -----------------------------------------------------------------------

  /** The step thread goes on to `d`, which asks nothing new of the requests. */
  lemma GoOn(s: Core, t: Core)
    requires RequestsOk(s) && SameSessions(s.links, t.links) && t.requests == s.requests
    requires t.life == s.life && t.alive == s.alive && t.server == s.server
    requires Shape(t.doing, t.errands, t.requests.batch) && Stepping(t.doing, t.requests, s.links)
    ensures RequestsOk(t)
  {
    SameCurrent(s.requests, s.links, t.links);
    SameStepping(t.doing, s.requests, s.links, t.links);
    hide Consistent, Shape, HeldOpen, Current, Stepping;
  }

  lemma ReleaseCurrent(r: Requests, n: int, l: Links, m: Links)
    requires Current(r.pending, l)
    requires forall k :: k != n ==> SlotOf(m, k) == SlotOf(l, k) && GenerationOf(m, k) == GenerationOf(l, k)
    ensures Current(Release(r, n).pending, m)
  {
  }

  lemma ForgetRequests(s: Core)
    requires RequestsOk(s) && s.doing.Forgetting?
    ensures RequestsOk(ForgetRegion(s, s.doing.n, s.doing.wasOpen, s.doing.next))
  {
    ReleaseKeeps(s.requests, s.doing.n);
    ReleaseCurrent(s.requests, s.doing.n, s.links, Forget(s.links, s.doing.n));
    hide Consistent, Current;
  }

  lemma RunningOpen(r: Requests, open: set<int>)
    requires Consistent(r) && HeldOpen(r.hold, open)
    ensures forall t :: t in r.pending && !r.pending[t].detached ==> r.pending[t].waiting.connection in open
  {
    forall t | t in r.pending && !r.pending[t].detached ensures r.pending[t].waiting.connection in open {
      assert Holding(r.pending, r.ledger, r.pending[t].waiting.order);
    }
  }

  /** A connection about to open holds no request, and one being reset has all of its detached. */
  lemma CallOpenedCurrent(s: Core)
    requires LinksOk(s) && RequestsOk(s) && (s.doing.OpeningCall? || s.doing.Reopening?)
    ensures AllDetached(s.requests.pending, s.doing.n)
  {
    RunningOpen(s.requests, s.links.open);
  }

  lemma OpenedCurrent(pending: map<nat, Pending>, l: Links, m: Links, n: int)
    requires Current(pending, l) && AllDetached(pending, n)
    requires forall k :: k != n ==> SlotOf(m, k) == SlotOf(l, k) && GenerationOf(m, k) == GenerationOf(l, k)
    ensures Current(pending, m)
  {
  }

  lemma CallOpenedRequests(s: Core, choice: Choice)
    requires LinksOk(s) && RequestsOk(s) && (s.doing.OpeningCall? || s.doing.Reopening?)
    ensures RequestsOk(Continue(s, choice))
  {
    CallOpenedCurrent(s);
    OpenedCurrent(s.requests.pending, s.links, Continue(s, choice).links, s.doing.n);
    hide Consistent, LinksOk, Current;
  }

  lemma FinishOpenRequests(s: Core)
    requires LinksOk(s) && RequestsOk(s) && s.doing.OpenedCall?
    ensures RequestsOk(FinishOpen(s, s.doing.n, s.doing.ok))
  {
    var t := FinishOpen(s, s.doing.n, s.doing.ok);
    var n := s.doing.n;
    assert n in s.links.connections;
    OpenedCurrentSame(s.requests.pending, s.links, t.links);
    hide Consistent, LinksOk, Current;
  }

  lemma OpenedCurrentSame(pending: map<nat, Pending>, l: Links, m: Links)
    requires Current(pending, l)
    requires forall k :: SlotOf(m, k) == SlotOf(l, k) && GenerationOf(m, k) == GenerationOf(l, k)
    ensures Current(pending, m)
  {
  }

  lemma ReleaseStepping(r: Requests, n: int)
    requires Fresh(r.pending, 0, 0)
    ensures Fresh(Release(r, n).pending, 0, 0) && AllDetached(Release(r, n).pending, n)
  {
  }

  lemma ResetRequests(s: Core, n: int, requestId: int)
    requires RequestsOk(s) && s.doing == Idle && s.requests.batch == []
    ensures RequestsOk(StartReset(s, n, requestId))
  {
    ReleaseKeeps(s.requests, n);
    ReleaseCurrent(s.requests, n, s.links, s.links);
    ReleaseStepping(s.requests, n);
    hide Consistent, Current, Fresh, AllDetached;
  }

  // -- the step thread: a batch ----------------------------------------------------------------

  lemma {:induction false} PrepareAll(l: Links, batch: seq<Waiting>)
    requires forall w :: w in batch ==> w.connection in l.open
    ensures var items := Prepare(l, batch);
            && Prepared(items, batch)
            && forall i :: 0 <= i < |items| ==>
                 && items[i].slot == SlotOf(l, items[i].waiting.connection)
                 && items[i].generation == GenerationOf(l, items[i].waiting.connection)
  {
    if batch != [] {
      assert batch[0] in batch;
      assert forall w :: w in batch[1..] ==> w in batch;
      PrepareAll(l, batch[1..]);
    }
  }

  lemma StartBatchRequests(s: Core)
    requires RequestsOk(s) && s.doing == Idle && s.errands == [RunBatch]
    ensures RequestsOk(StartBatch(s.(errands := [])))
  {
    assert s.errands[0] in s.errands;
    BatchOpen(s.requests, s.links.open);
    PrepareAll(s.links, s.requests.batch);
    hide Consistent, Current;
  }

  lemma {:induction false} InsertedPending(r: Requests, items: seq<Pending>)
    requires forall t :: t in r.pending ==> t < r.nextTicket
    ensures var q := InsertAll(r, items);
            && q.policy == r.policy && q.hold == r.hold
            && (forall t :: t in q.pending <==> t in r.pending || r.nextTicket <= t < r.nextTicket + |items|)
            && (forall t :: t in r.pending ==> q.pending[t] == r.pending[t])
            && (forall i :: 0 <= i < |items| ==> q.pending[r.nextTicket + i] == items[i])
    decreases |items|
  {
    if items != [] {
      var m, q := Insert(r, items[0]), InsertAll(r, items);
      InsertedPending(m, items[1..]);
      assert q == InsertAll(m, items[1..]);
      forall i | 0 <= i < |items| ensures q.pending[r.nextTicket + i] == items[i] {
        if i > 0 {
          assert items[1..][i - 1] == items[i];
          assert q.pending[m.nextTicket + (i - 1)] == items[1..][i - 1];
        }
      }
    }
  }

  lemma InsertRequests(s: Core, items: seq<Pending>)
    requires RequestsOk(s) && s.doing == Inserting(items) && s.requests.batch != []
    ensures RequestsOk(InsertBatch(s, items))
  {
    hide InsertAll, Consistent, Current, Fresh, Prepared;
    TicketsBelow(s.requests);
    InsertAllKeeps(s.requests, items);
    InsertedPolicy(s.requests, items);
    InsertedCurrent(s.requests, items, s.links);
    PreparedSize(items, s.requests.batch);
  }

  lemma TicketsBelow(r: Requests)
    requires Consistent(r)
    ensures forall t :: t in r.pending ==> t < r.nextTicket
  {
    hide Listed, Ticketed, HoldsOne, Ascending;
  }

  lemma PreparedSize(items: seq<Pending>, batch: seq<Waiting>)
    requires Prepared(items, batch)
    ensures |items| == |batch|
  {
  }

  lemma InsertedPolicy(r: Requests, items: seq<Pending>)
    requires forall t :: t in r.pending ==> t < r.nextTicket
    ensures InsertAll(r, items).policy == r.policy && InsertAll(r, items).hold == r.hold
  {
    hide InsertAll;
    InsertedPending(r, items);
  }

  lemma InsertedCurrent(r: Requests, items: seq<Pending>, l: Links)
    requires forall t :: t in r.pending ==> t < r.nextTicket
    requires Current(r.pending, l) && Stepping(Inserting(items), r, l)
    ensures Current(InsertAll(r, items).pending, l)
    ensures Fresh(InsertAll(r, items).pending, r.nextTicket, r.nextTicket + |items|)
  {
    InsertedPending(r, items);
    var q := InsertAll(r, items);
    forall t | t in q.pending ensures t in r.pending || (r.nextTicket <= t && q.pending[t] == items[t - r.nextTicket]) {
      if t !in r.pending {
        assert q.pending[r.nextTicket + (t - r.nextTicket)] == items[t - r.nextTicket];
      }
    }
  }

  /** The step's outputs for the tickets from `first` on are still to be taken. */
  ghost predicate Awaits(s: Core, first: nat, last: nat) {
    && Consistent(s.requests) && s.requests.policy.maxBatch >= 1
    && s.requests.batch == [] && s.errands == []
    && HeldOpen(s.requests.hold, s.links.open)
    && Current(s.requests.pending, s.links)
    && Fresh(s.requests.pending, first, last)
    && LifeOk(s)
  }

  lemma RegisterStepping(r: Requests, first: nat, last: nat, l: Links)
    requires Fresh(r.pending, first, last) && Current(r.pending, l) && first < last
    ensures Fresh(Register(r, first).pending, first + 1, last) && Current(Register(r, first).pending, l)
  {
  }

  lemma FinishStepping(r: Requests, first: nat, last: nat, l: Links)
    requires Fresh(r.pending, first, last) && Current(r.pending, l) && first < last
    ensures Fresh(Complete(r, first).pending, first + 1, last) && Current(Complete(r, first).pending, l)
  {
  }

  lemma NoneLeft(pending: map<nat, Pending>, first: nat)
    requires Fresh(pending, first, first)
    ensures Fresh(pending, 0, 0)
  {
  }

  lemma TakeOne(s: Core, t: Core, first: nat, last: nat)
    requires Awaits(s, first, last) && first < last && first in s.requests.pending
    requires t.requests == Register(s.requests, first) || t.requests == Complete(s.requests, first)
    requires t.links == s.links && t.errands == s.errands && t.life == s.life && t.alive == s.alive
             && t.server == s.server
    ensures Awaits(t, first + 1, last)
  {
    if t.requests == Register(s.requests, first) {
      RegisterKeeps(s.requests, first);
      RegisterStepping(s.requests, first, last, s.links);
      hide Consistent, Fresh, Current;
    } else {
      CompleteKeeps(s.requests, first);
      FinishStepping(s.requests, first, last, s.links);
      hide Consistent, Fresh, Current;
    }
  }

  lemma {:induction false} TakeOutputsRequests(s: Core, first: nat, last: nat, outputs: Option<seq<Output>>)
    requires Awaits(s, first, last) && first <= last
    ensures Awaits(TakeOutputs(s, first, last, outputs), last, last)
    decreases last - first
  {
    if first < last {
      assert first in s.requests.pending;
      hide Awaits;
      var whole := IsWhole(outputs, last - first);
      var t := if !whole then CompleteItem(s, first, None)
               else if outputs.value[0].Future? then s.(requests := Register(s.requests, first))
               else CompleteItem(s, first, outputs.value[0].result);
      TakeOne(s, t, first, last);
      TakeOutputsRequests(t, first + 1, last, if whole then Some(outputs.value[1..]) else None);
    }
  }

  lemma ReturnedRequests(s: Core, choice: Choice)
    requires RequestsOk(s) && s.doing.Returned?
    ensures RequestsOk(Continue(s, choice))
  {
    var first, last, outputs := s.doing.first, s.doing.last, s.doing.outputs;
    TakeOutputsRequests(s, first, last, outputs);
    NoneLeft(TakeOutputs(s, first, last, outputs).requests.pending, last);
    TakeOutputsLinks(s, first, last, outputs);
    hide Consistent, Fresh, Current, TakeOutputs;
  }

  /** A move, a post or a call that leaves slots, generations and the tables alone. */
  lemma PlainRequests(s: Core, t: Core)
    requires RequestsOk(s) && SameSessions(s.links, t.links) && t.requests == s.requests && t.errands == s.errands
    requires t.life == s.life && t.alive == s.alive && t.server == s.server && s.requests.batch == []
    requires !s.doing.Calling? && !s.doing.Returned? && !s.doing.Inserting?
    requires t.doing.Idle? || t.doing.Forgetting? || t.doing.ClosingCall? || t.doing.Ending? || t.doing.OpeningCall?
          || t.doing.OpenedCall? || t.doing.UndoingCall? || t.doing.Welcoming? || t.doing.Reopened?
            || t.doing.ResetReply?
          || ((t.doing.Dropped? || t.doing.Reopening?) && s.doing.Dropped? && t.doing.n == s.doing.n)
    ensures RequestsOk(t)
  {
    GoOn(s, t);
  }

  lemma LeavingRequests(s: Core, choice: Choice)
    requires RequestsOk(s)
    requires s.doing.ClosingCall? || s.doing.Ending? || s.doing.UndoingCall? || s.doing.Welcoming?
    ensures RequestsOk(Continue(s, choice))
  {
    NoBatch(s);
    hide RequestsOk, Post, Flushed, MayMove;
    PlainRequests(s, Continue(s, choice));
  }

  lemma ResettingRequests(s: Core, choice: Choice)
    requires RequestsOk(s) && (s.doing.Dropped? || s.doing.Reopened? || s.doing.ResetReply?)
    ensures RequestsOk(Continue(s, choice))
  {
    NoBatch(s);
    hide RequestsOk, Post, AnswerRequest, MayMove;
    if s.doing.Dropped? {
      PlainRequests(s, Continue(s, choice));
    } else if s.doing.Reopened? {
      PlainRequests(s, SettleReset(s, s.doing.n, s.doing.requestId, s.doing.ok));
    } else {
      ReplyRequests(s);
    }
  }

  lemma NoBatch(s: Core)
    requires RequestsOk(s) && !s.doing.Inserting? && !s.doing.Idle?
    ensures s.requests.batch == []
  {
    hide Consistent, HeldOpen, Current, Stepping;
  }

  lemma ReplyRequests(s: Core)
    requires RequestsOk(s) && s.doing.ResetReply? && s.requests.batch == []
    ensures RequestsOk(ReplyReset(s, s.doing.n, s.doing.requestId, s.doing.ok))
  {
    hide RequestsOk, Post, MayMove, StateOf;
    PlainRequests(s, ReplyReset(s, s.doing.n, s.doing.requestId, s.doing.ok));
  }

  lemma CalledRequests(s: Core, choice: Choice)
    requires RequestsOk(s) && s.doing.Calling?
    ensures RequestsOk(Continue(s, choice))
  {
    hide Consistent;
    GoOn(s, Continue(s, choice));
  }

  /** The step thread inside one event or one batch. */
  lemma DoingRequests(s: Core, choice: Choice)
    requires LinksOk(s) && RequestsOk(s) && s.doing != Idle
    ensures RequestsOk(Continue(s, choice))
  {
    assert s.doing.Inserting? ==> s.requests.batch != [];
    hide RequestsOk, LinksOk;
    match s.doing
    case Forgetting(_, _, _) => ForgetRequests(s);
    case OpeningCall(_) => CallOpenedRequests(s, choice);
    case Reopening(_, _) => CallOpenedRequests(s, choice);
    case OpenedCall(_, _) => FinishOpenRequests(s);
    case Inserting(items) => InsertRequests(s, items);
    case Returned(_, _, _) => ReturnedRequests(s, choice);
    case Calling(_, _) => CalledRequests(s, choice);
    case ClosingCall(_, _) => LeavingRequests(s, choice);
    case Ending(_, _) => LeavingRequests(s, choice);
    case UndoingCall(_) => LeavingRequests(s, choice);
    case Welcoming(_) => LeavingRequests(s, choice);
    case _ => ResettingRequests(s, choice);
  }

  // -- the step thread: errands ----------------------------------------------------------------

  lemma PopShape(s: Core)
    requires Shape(s.doing, s.errands, s.requests.batch) && s.doing == Idle && s.errands != []
    ensures s.errands[0] == RunBatch ==> s.errands == [RunBatch] && s.requests.batch != []
    ensures s.errands[0] != RunBatch ==> Shape(Idle, s.errands[1..], s.requests.batch)
    ensures s.errands[0] != RunBatch && !IsAnswer(s.errands[0]) ==> s.requests.batch == []
  {
    assert s.errands[0] in s.errands;
  }

  lemma LeaveRequests(s: Core, n: int, next: Option<int>)
    requires RequestsOk(s) && s.doing == Idle && s.requests.batch == []
    ensures RequestsOk(Leave(s, n, next))
  {
    hide RequestsOk;
    PlainRequests(s, Leave(s, n, next));
  }

  lemma StartOpenRequests(s: Core, n: int)
    requires RequestsOk(s) && s.doing == Idle && s.requests.batch == []
    ensures RequestsOk(StartOpen(s, n))
  {
    hide RequestsOk, Leave;
    var slot := SlotOf(s.links, n);
    if StateOf(s, n) == Opening && slot in s.links.bySlot && s.links.bySlot[slot] != n {
      LeaveRequests(s, s.links.bySlot[slot], Some(n));
    } else {
      PlainRequests(s, StartOpen(s, n));
    }
  }

  /** An errand with no batch taken: an event, a refusal, a connection to close. */
  lemma EventRequests(s: Core, e: Errand)
    requires RequestsOk(s) && s.doing == Idle && s.requests.batch == [] && e != RunBatch && !IsAnswer(e)
    ensures RequestsOk(RunErrand(s, e))
  {
    hide RequestsOk, Leave, StartOpen;
    match e
    case Do(Opens(n)) => StartOpenRequests(s, n);
    case Do(Leaves(n)) => LeaveRequests(s, n, None);
    case Do(Resets(n, id)) =>
      if StateOf(s, n) == Open { ResetRequests(s, n, id); } else { PlainRequests(s, StartReset(s, n, id)); }
    case Refuse(Leaves(n)) => LeaveRequests(s, n, None);
    case LeaveNow(n) => LeaveRequests(s, n, None);
    case _ => PlainRequests(s, RunErrand(s, e));
  }

  lemma ErrandRequests(s: Core)
    requires RequestsOk(s) && s.doing == Idle && s.errands != []
    ensures RequestsOk(RunErrand(s.(errands := s.errands[1..]), s.errands[0]))
  {
    PopShape(s);
    var p, e := s.(errands := s.errands[1..]), s.errands[0];
    if e == RunBatch {
      StartBatchRequests(s);
    } else {
      GoOn(s, p);
      hide RequestsOk;
      if IsAnswer(e) {
        SameRequests(p, RunErrand(p, e));
      } else {
        EventRequests(p, e);
      }
    }
  }

  lemma ContinueRequests(s: Core, choice: Choice)
    requires LinksOk(s) && RequestsOk(s)
    ensures RequestsOk(Continue(s, choice))
  {
    hide RequestsOk, LinksOk;
    if s.doing != Idle {
      DoingRequests(s, choice);
    } else if s.errands != [] {
      ErrandRequests(s);
    }
  }

  // -- a turn, and the lifecycle ---------------------------------------------------------------

  lemma ExpireRequests(s: Core, now: real)
    requires RequestsOk(s) && AtRest(s)
    ensures RequestsOk(Expire(s, now)) && Expire(s, now).requests.batch == []
    ensures forall i :: 0 <= i < |Expire(s, now).errands| ==> IsAnswer(Expire(s, now).errands[i])
  {
    MarkRequests(s, Overdue(s.requests.pending, now));
    GoOn(s.(requests := Mark(s.requests, Overdue(s.requests.pending, now))), Expire(s, now));
  }

  lemma EventErrands(s: Core, events: seq<Event>)
    requires RequestsOk(s) && s.doing == Idle && s.requests.batch == []
    ensures RequestsOk(s.(errands := s.errands + Does(events)))
    ensures RequestsOk(s.(errands := s.errands + Refuses(events)))
  {
    GoOn(s, s.(errands := s.errands + Does(events)));
    GoOn(s, s.(errands := s.errands + Refuses(events)));
  }

  lemma TakeBatchRequests(s: Core, now: real)
    requires RequestsOk(s) && s.doing == Idle && s.requests.batch == [] && s.alive
    requires forall i :: 0 <= i < |s.errands| ==> IsAnswer(s.errands[i])
    ensures RequestsOk(TakeBatch(s, now))
  {
    var n := OpenSessions(s.links);
    TakeTurnKeeps(s.requests, now, n);
    TakeSplits(s.requests.policy, now, n);
    TakeBatchShape(s, now);
    hide Consistent, Decision, Take, Shape;
  }

  lemma TakeBatchShape(s: Core, now: real)
    requires forall i :: 0 <= i < |s.errands| ==> IsAnswer(s.errands[i])
    ensures Shape(Idle, TakeBatch(s, now).errands, TakeBatch(s, now).requests.batch)
  {
  }

  lemma TurnRequests(s: Core, now: real)
    requires RequestsOk(s) && AtRest(s) && s.alive
    ensures RequestsOk(RunTurn(s, now))
  {
    if s.server == Stopped || (s.server == Draining && (now >= s.drainBy || !AnyAwaited(s.requests.pending))) {
      hide Consistent, HeldOpen, Current, Stepping;
    } else {
      ExpireRequests(s, now);
      hide RequestsOk;
      EventErrands(Expire(s, now), s.events);
      if s.server != Draining && s.events == [] {
        TakeBatchRequests(Expire(s, now), now);
      }
    }
  }

  lemma SettleRequests(s: Core, order: seq<int>, shut: seq<int>)
    requires RequestsOk(s) && Enabled(s, Settles(order, shut))
    ensures RequestsOk(SettleAll(s, order, shut))
  {
    forall n | n in s.requests.hold ensures n in order {
      assert n in (set m | m in order);
    }
    SettleKeeps(s.requests, order);
    SettleEmpties(s.requests, order);
    SettledPolicy(s.requests, order);
    SettleShape(s, order, shut);
    hide Consistent, Settle, Shape;
  }

  lemma {:induction false} SettledPolicy(r: Requests, order: seq<int>)
    ensures var q := Settle(r, order);
            q.pending == map[] && q.batch == r.batch && q.policy.maxBatch == r.policy.maxBatch
  {
    DropEachSize(r.policy, order);
  }

  lemma {:induction false} DropEachSize(p: Policy, order: seq<int>)
    ensures DropEach(p, order).maxBatch == p.maxBatch
    decreases |order|
  {
    if order != [] {
      DropEachSize(Drop(p, order[0]), order[1..]);
    }
  }

  lemma SettleShape(s: Core, order: seq<int>, shut: seq<int>)
    requires s.doing == Idle
    ensures Shape(Idle, SettleAll(s, order, shut).errands, [])
  {
  }

  lemma LeaveAllRequests(s: Core, order: seq<int>)
    requires RequestsOk(s) && Enabled(s, LeavesAll(order))
    ensures RequestsOk(LeaveAll(s, order))
  {
    hide Consistent;
  }

  /** The lifecycle's other moves: `drain()` and `stop()` begin or return. */
  lemma LifeRequests(s: Core, t: Core)
    requires RequestsOk(s) && t.requests == s.requests && t.links == s.links && t.doing == s.doing
             && t.errands == s.errands
    requires t.alive == s.alive && (t.server == s.server || t.server != Serving)
    requires t.life != Up ==> t.server != Serving
    requires Settled(t.life) ==> Settled(s.life)
    ensures RequestsOk(t)
  {
    hide Consistent, Shape, Current, Stepping;
  }
}
