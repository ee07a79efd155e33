/** What the model server holds for every request it accepted: the policy's queue, the batch the
    step thread took, and the table of requests handed to `step()`.

    Next to the server's own tables, `ledger` and `hold` say where each accepted request is and
    which request keeps each busy session. They are bookkeeping: no operation reads them to
    decide anything, and `Consistent` says that they agree with the tables at all times. */
module RequestTable {
  import opened Batching

  /** Where an accepted request is: queued, in the batch taken, running under a ticket, or gone. */
  datatype Place = Queued | Taken | Running(ticket: nat) | Out

  datatype Entry = Entry(request: Waiting, at: Place)

  /** A request handed to `step()` that has no answer from the model yet. */
  datatype Pending = Pending(
    waiting: Waiting, slot: int, generation: nat, future: bool, answered: bool, detached: bool)
  {
    /** Whether a session still waits for this request's answer. */
    predicate Awaited() {
      !answered && !detached
    }
  }

  datatype Requests = Requests(
    policy: Policy,
    batch: seq<Waiting>,
    pending: map<nat, Pending>,
    nextTicket: nat,
    ledger: Ledger,
    hold: map<int, nat>)

  // -- the invariant -----------------------------------------------------------------------

  type Ledger = map<nat, Entry>

  /** Whether request `o` keeps its session busy. */
  predicate Holding(pending: map<nat, Pending>, ledger: Ledger, o: nat) {
    && o in ledger
    && match ledger[o].at
       case Queued => true
       case Taken => true
       case Running(t) => t in pending && !pending[t].detached
       case Out => false
  }

  /** Whether request `o` has no answer yet, and its session still waits for one. */
  predicate Due(pending: map<nat, Pending>, ledger: Ledger, o: nat) {
    && o in ledger
    && match ledger[o].at
       case Queued => true
       case Taken => true
       case Running(t) => t in pending && pending[t].Awaited()
       case Out => false
  }

  /** The requests of `ws` are exactly the ones the ledger has `at` this place. */
  ghost predicate Listed(ws: seq<Waiting>, ledger: Ledger, at: Place) {
    && (forall w :: w in ws ==> w.order in ledger && ledger[w.order] == Entry(w, at))
    && (forall o :: o in ledger && ledger[o].at == at ==> ledger[o].request in ws)
  }

  ghost predicate Ticketed(pending: map<nat, Pending>, ledger: Ledger) {
    && (forall t :: t in pending ==>
          && pending[t].waiting.order in ledger
          && ledger[pending[t].waiting.order] == Entry(pending[t].waiting, Running(t)))
    && (forall o :: o in ledger && ledger[o].at.Running? ==>
          ledger[o].at.ticket in pending && pending[ledger[o].at.ticket].waiting == ledger[o].request)
  }

  /** `hold` names, for each connection, the one request that keeps it busy. */
  ghost predicate HoldsOne(pending: map<nat, Pending>, ledger: Ledger, hold: map<int, nat>) {
    && (forall o :: Holding(pending, ledger, o) ==>
          ledger[o].request.connection in hold && hold[ledger[o].request.connection] == o)
    && (forall n :: n in hold ==>
          Holding(pending, ledger, hold[n]) && ledger[hold[n]].request.connection == n)
  }

  ghost predicate Named(ledger: Ledger, nextOrder: nat) {
    forall o :: o in ledger ==> ledger[o].request.order == o && o < nextOrder
  }

  ghost predicate Consistent(r: Requests) {
    && Ordered(r.policy)
    && Named(r.ledger, r.policy.nextOrder)
    && Listed(r.policy.waiting, r.ledger, Queued)
    && Listed(r.batch, r.ledger, Taken)
    && Ascending(r.batch)
    && Ticketed(r.pending, r.ledger)
    && (forall t :: t in r.pending ==> t < r.nextTicket)
    && HoldsOne(r.pending, r.ledger, r.hold)
    && r.policy.busy == r.hold.Keys
  }

  /** A session is busy exactly when one request of it is waiting, taken or running for it, and
      it never has two. */
  lemma BusyMeansOneRequest(r: Requests, n: int)
    requires Consistent(r)
    ensures n in r.policy.busy <==>
            exists o :: Holding(r.pending, r.ledger, o) && r.ledger[o].request.connection == n
    ensures forall o, p | Holding(r.pending, r.ledger, o) && Holding(r.pending, r.ledger, p) ::
              r.ledger[o].request.connection == n == r.ledger[p].request.connection ==> o == p
  {
    if n in r.policy.busy {
      assert Holding(r.pending, r.ledger, r.hold[n]);
    }
  }

  // -- the operations ----------------------------------------------------------------------

  function Move(ledger: Ledger, w: Waiting, at: Place): Ledger {
    ledger[w.order := Entry(w, at)]
  }

  function Orders(ws: seq<Waiting>): set<nat> {
    set w | w in ws :: w.order
  }

  /** Queue a step's request, unless its session already has one. */
  function Accept(r: Requests, w: Waiting): Requests {
    if !Accepts(r.policy, w) then r
    else
      var o := r.policy.nextOrder;
      r.(policy := Add(r.policy, w),
         ledger := r.ledger[o := Entry(w.(order := o), Queued)],
         hold := r.hold[w.connection := o])
  }

  /** The queued request a cancel withdraws. */
  function Withdrawn(r: Requests, n: int, requestId: int): Waiting
    requires Withdraws(r.policy, n, requestId)
  {
    r.policy.waiting[Find(r.policy.waiting, n, requestId)]
  }

  function Withdraw(r: Requests, n: int, requestId: int): Requests
    requires Withdraws(r.policy, n, requestId)
  {
    r.(policy := Cancel(r.policy, n, requestId),
       ledger := Move(r.ledger, Withdrawn(r, n, requestId), Out),
       hold := r.hold - {n})
  }

  /** Mark the running requests under `tickets` as answered. */
  function Mark(r: Requests, tickets: set<nat>): Requests {
    r.(pending := map t | t in r.pending ::
         if t in tickets then r.pending[t].(answered := true) else r.pending[t])
  }

  /** Drop what a session has queued, and detach what it has running. */
  function Release(r: Requests, n: int): Requests {
    r.(policy := Drop(r.policy, n),
       pending := map t | t in r.pending ::
         if r.pending[t].waiting.connection == n then r.pending[t].(detached := true) else r.pending[t],
       ledger := map o | o in r.ledger ::
         if r.ledger[o].at == Queued && r.ledger[o].request.connection == n then r.ledger[o].(at := Out)
           else r.ledger[o],
       hold := r.hold - {n})
  }

  function TurnLedger(turn: Turn, ledger: Ledger): Ledger {
    map o | o in ledger ::
      if o in Orders(turn.batch) then ledger[o].(at := Taken)
      else if o in Orders(turn.expired) then ledger[o].(at := Out)
      else ledger[o]
  }

  /** Take the next batch and the expired requests out of the queue. */
  function TakeTurn(r: Requests, now: real, openSessions: nat): Requests {
    var turn := Decision(r.policy, now, openSessions);
    r.(policy := Take(r.policy, now, openSessions),
       batch := turn.batch,
       ledger := TurnLedger(turn, r.ledger),
       hold := r.hold - Connections(turn.expired))
  }

  /** Put a prepared request of the batch under the next ticket. */
  function Insert(r: Requests, item: Pending): Requests {
    r.(batch := if r.batch == [] then [] else r.batch[1..],
       pending := r.pending[r.nextTicket := item],
       nextTicket := r.nextTicket + 1,
       ledger := Move(r.ledger, item.waiting, Running(r.nextTicket)))
  }

  function InsertAll(r: Requests, items: seq<Pending>): Requests
    decreases |items|
  {
    if items == [] then r else InsertAll(Insert(r, items[0]), items[1..])
  }

  /** Release the sessions of a batch none of whose requests is run. */
  function Forgo(r: Requests): Requests {
    r.(batch := [],
       policy := Finished(r.policy, Connections(r.batch)),
       ledger := map o | o in r.ledger ::
         if r.ledger[o].at == Taken then r.ledger[o].(at := Out) else r.ledger[o],
       hold := r.hold - Connections(r.batch))
  }

  /** The step's output for ticket `t` is a future: keep its request pending. */
  function Register(r: Requests, t: nat): Requests
    requires t in r.pending
  {
    r.(pending := r.pending[t := r.pending[t].(future := true)])
  }

  /** Take a finished request out of the table, and free its session unless it was detached. */
  function Complete(r: Requests, t: nat): Requests
    requires t in r.pending
  {
    var item := r.pending[t];
    r.(pending := r.pending - {t},
       ledger := Move(r.ledger, item.waiting, Out),
       policy := if item.detached then r.policy else Finished(r.policy, {item.waiting.connection}),
       hold := if item.detached then r.hold else r.hold - {item.waiting.connection})
  }

  function RunningConnections(pending: map<nat, Pending>): set<int> {
    set t | t in pending && !pending[t].detached :: pending[t].waiting.connection
  }

  function DropEach(p: Policy, order: seq<int>): Policy
    decreases |order|
  {
    if order == [] then p else DropEach(Drop(p, order[0]), order[1..])
  }

  /** The queued requests of the connections in `order`, connection by connection. */
  function DroppedBy(p: Policy, order: seq<int>): seq<Waiting>
    decreases |order|
  {
    if order == [] then [] else Of(p.waiting, order[0]) + DroppedBy(Drop(p, order[0]), order[1..])
  }

  /** Take everything out of the tables, as the server does once its step thread has ended. */
  function Settle(r: Requests, order: seq<int>): Requests {
    r.(policy := Finished(DropEach(r.policy, order), RunningConnections(r.pending)),
       pending := map[],
       ledger := map o | o in r.ledger ::
         if r.ledger[o].at.Running? || (r.ledger[o].at == Queued && r.ledger[o].request.connection in order)
         then r.ledger[o].(at := Out) else r.ledger[o],
       hold := r.hold - (set n | n in order) - RunningConnections(r.pending))
  }

  // -- one part of the invariant at a time ---------------------------------------------------

  /** The same requests, possibly elsewhere. */
  ghost predicate Moves(ledger: Ledger, ledger': Ledger) {
    ledger'.Keys == ledger.Keys && forall o :: o in ledger ==> ledger'[o].request == ledger[o].request
  }

  /** An operation that only moves requests, and keeps in a list exactly the ones that stay at its
      place, keeps the two in agreement. */
  lemma ListedMoves(ws: seq<Waiting>, ws': seq<Waiting>, ledger: Ledger, ledger': Ledger, at: Place, nextOrder: nat)
    requires Listed(ws, ledger, at) && Named(ledger, nextOrder) && Moves(ledger, ledger')
    requires forall o :: o in ledger && ledger'[o].at == at ==> ledger[o].at == at
    requires forall w :: w in ws' ==> w in ws
    requires forall w :: w in ws ==> (w in ws' <==> ledger'[w.order].at == at)
    ensures Listed(ws', ledger', at)
  {
    forall w | w in ws' ensures w.order in ledger' && ledger'[w.order] == Entry(w, at) {
      assert w in ws;
    }
  }

  /** An operation that frees the connections `freed`, and no others, keeps one request for each. */
  lemma HoldsShrinks(
    pending: map<nat, Pending>, pending': map<nat, Pending>, ledger: Ledger, ledger': Ledger,
    hold: map<int, nat>, freed: set<int>)
    requires HoldsOne(pending, ledger, hold) && Moves(ledger, ledger')
    requires forall o :: Holding(pending', ledger', o)
                    <==> Holding(pending, ledger, o) && ledger[o].request.connection !in freed
    ensures HoldsOne(pending', ledger', hold - freed)
  {
  }

  // -- every operation keeps the invariant ---------------------------------------------------

  lemma ListedAdds(ws: seq<Waiting>, ledger: Ledger, at: Place, e: Entry)
    requires Listed(ws, ledger, at) && e.request.order !in ledger
    ensures Listed(if e.at == at then ws + [e.request] else ws, ledger[e.request.order := e], at)
  {
    var ws' := if e.at == at then ws + [e.request] else ws;
    var ledger' := ledger[e.request.order := e];
    forall o | o in ledger' && ledger'[o].at == at ensures ledger'[o].request in ws' {
      if o == e.request.order {
        assert e.at == at && ws'[|ws|] == e.request;
      } else {
        assert ledger[o].request in ws;
      }
    }
  }

  lemma HoldsAdds(pending: map<nat, Pending>, ledger: Ledger, hold: map<int, nat>, e: Entry)
    requires HoldsOne(pending, ledger, hold) && e.at == Queued
    requires e.request.order !in ledger && e.request.connection !in hold
    ensures HoldsOne(pending, ledger[e.request.order := e], hold[e.request.connection := e.request.order])
  {
    var ledger' := ledger[e.request.order := e];
    assert forall p :: p != e.request.order ==> (Holding(pending, ledger', p) <==> Holding(pending, ledger, p));
  }

  lemma AcceptKeeps(r: Requests, w: Waiting)
    requires Consistent(r)
    ensures Consistent(Accept(r, w))
  {
    hide Listed, Ascending, HoldsOne;
    if Accepts(r.policy, w) {
      var e := Entry(w.(order := r.policy.nextOrder), Queued);
      ListedAdds(r.policy.waiting, r.ledger, Queued, e);
      ListedAdds(r.batch, r.ledger, Taken, e);
      ApplyKeepsOrder(r.policy, Adding(w));
      HoldsAdds(r.pending, r.ledger, r.hold, e);
    }
  }

  lemma SameOrder(ws: seq<Waiting>)
    requires Ascending(ws)
    ensures forall v, w :: v in ws && w in ws && v.order == w.order ==> v == w
  {
  }

  lemma CancelRemoves(p: Policy, n: int, requestId: int)
    requires Ascending(p.waiting) && Withdraws(p, n, requestId)
    ensures var w := p.waiting[Find(p.waiting, n, requestId)];
            forall v :: v in Cancel(p, n, requestId).waiting <==> v in p.waiting && v.order != w.order
  {
    var ws, i := p.waiting, Find(p.waiting, n, requestId);
    var rest := ws[..i] + ws[i + 1..];
    forall v | v in ws && v.order != ws[i].order ensures v in rest {
      var j :| 0 <= j < |ws| && ws[j] == v;
      assert v == rest[if j < i then j else j - 1];
    }
  }

  lemma WithdrawnIsQueued(r: Requests, n: int, requestId: int)
    requires Listed(r.policy.waiting, r.ledger, Queued) && Withdraws(r.policy, n, requestId)
    ensures var w := Withdrawn(r, n, requestId);
            && w.order in r.ledger && r.ledger[w.order] == Entry(w, Queued)
            && w.connection == n && w.requestId == requestId
  {
    assert Withdrawn(r, n, requestId) in r.policy.waiting;
  }

  lemma OneFreed(pending: map<nat, Pending>, ledger: Ledger, hold: map<int, nat>, w: Waiting)
    requires HoldsOne(pending, ledger, hold) && Holding(pending, ledger, w.order) && ledger[w.order].request == w
    ensures forall p :: Holding(pending, Move(ledger, w, Out), p)
                   <==> Holding(pending, ledger, p) && ledger[p].request.connection != w.connection
  {
  }

  lemma WithdrawKeeps(r: Requests, n: int, requestId: int)
    requires Consistent(r) && Withdraws(r.policy, n, requestId)
    ensures Consistent(Withdraw(r, n, requestId))
  {
    hide Listed, HoldsOne, Ascending, Find;
    WithdrawnIsQueued(r, n, requestId);
    var w := Withdrawn(r, n, requestId);
    var q := Withdraw(r, n, requestId);
    CancelRemoves(r.policy, n, requestId);
    CancelKeepsOrder(r.policy, n, requestId);
    ListedCancel(r, n, requestId);
    OneFreed(r.pending, r.ledger, r.hold, w);
    HoldsShrinks(r.pending, q.pending, r.ledger, q.ledger, r.hold, {n});
  }

  lemma ListedCancel(r: Requests, n: int, requestId: int)
    requires Listed(r.policy.waiting, r.ledger, Queued) && Listed(r.batch, r.ledger, Taken)
    requires Named(r.ledger, r.policy.nextOrder) && Ascending(r.policy.waiting) && Withdraws(r.policy, n, requestId)
    ensures var w := Withdrawn(r, n, requestId);
            && Listed(Cancel(r.policy, n, requestId).waiting, Move(r.ledger, w, Out), Queued)
            && Listed(r.batch, Move(r.ledger, w, Out), Taken)
  {
    hide Ascending;
    WithdrawnIsQueued(r, n, requestId);
    var ledger := Move(r.ledger, Withdrawn(r, n, requestId), Out);
    CancelRemoves(r.policy, n, requestId);
    ListedMoves(r.policy.waiting, Cancel(r.policy, n, requestId).waiting, r.ledger, ledger, Queued, r.policy.nextOrder);
    ListedMoves(r.batch, r.batch, r.ledger, ledger, Taken, r.policy.nextOrder);
  }

  lemma MarkKeeps(r: Requests, tickets: set<nat>)
    requires Consistent(r)
    ensures Consistent(Mark(r, tickets))
  {
    hide Listed, HoldsOne, Ascending;
    HoldsShrinks(r.pending, Mark(r, tickets).pending, r.ledger, r.ledger, r.hold, {});
    assert r.hold - {} == r.hold;
  }

  lemma ReleaseListed(r: Requests, n: int)
    requires Listed(r.policy.waiting, r.ledger, Queued) && Named(r.ledger, r.policy.nextOrder)
    ensures Listed(Release(r, n).policy.waiting, Release(r, n).ledger, Queued)
  {
    OthersMembers(r.policy.waiting, n);
    ListedMoves(r.policy.waiting, Release(r, n).policy.waiting, r.ledger, Release(r, n).ledger, Queued,
                r.policy.nextOrder);
  }

  lemma ReleaseHolds(r: Requests, n: int)
    requires Ticketed(r.pending, r.ledger) && HoldsOne(r.pending, r.ledger, r.hold) && Listed([], r.ledger, Taken)
    ensures HoldsOne(Release(r, n).pending, Release(r, n).ledger, Release(r, n).hold)
  {
    hide HoldsOne, Drop;
    HoldsShrinks(r.pending, Release(r, n).pending, r.ledger, Release(r, n).ledger, r.hold, {n});
  }

  lemma ReleaseKeeps(r: Requests, n: int)
    requires Consistent(r) && r.batch == []
    ensures Consistent(Release(r, n))
  {
    hide Ascending, HoldsOne, Ordered, Others, Listed, Ticketed;
    ReleaseListed(r, n);
    ReleaseHolds(r, n);
    ReleaseTaken(r, n);
    ReleaseTicketed(r, n);
    ApplyKeepsOrder(r.policy, Dropping(n));
  }

  lemma ReleaseTicketed(r: Requests, n: int)
    requires Ticketed(r.pending, r.ledger)
    ensures Ticketed(Release(r, n).pending, Release(r, n).ledger)
  {
    hide Drop;
  }

  lemma ReleaseTaken(r: Requests, n: int)
    requires Listed([], r.ledger, Taken)
    ensures Listed([], Release(r, n).ledger, Taken)
  {
  }

  /** A request of the queue goes to exactly one of the batch, the expired and the rest. */
  lemma Parted(p: Policy, now: real, openSessions: nat)
    requires Ordered(p) && p.maxBatch >= 1
    ensures var t, rest := Decision(p, now, openSessions), Take(p, now, openSessions).waiting;
            && (forall w :: w in p.waiting <==> w in t.batch || w in t.expired || w in rest)
            && Orders(t.batch) !! Orders(t.expired) !! Orders(rest)
            && Ascending(t.batch) && Ordered(Take(p, now, openSessions))
  {
    var t, rest := Decision(p, now, openSessions), Take(p, now, openSessions).waiting;
    TakingKeepsOrder(p, now, openSessions);
    TakeSplits(p, now, openSessions);
    PartedMembers(p.waiting, t.batch, rest, now);
    SameOrder(p.waiting);
    LateMembers(p.waiting, now);
  }

  lemma PartedMembers(ws: seq<Waiting>, batch: seq<Waiting>, rest: seq<Waiting>, now: real)
    requires batch + rest == Timely(ws, now)
    ensures forall w :: w in ws <==> w in batch || w in Late(ws, now) || w in rest
    ensures forall w :: w in batch || w in rest ==> !IsLate(w, now)
  {
    LateMembers(ws, now);
    TimelyMembers(ws, now);
    assert forall w :: w in batch + rest <==> w in batch || w in rest;
  }

  lemma TakeTurnListed(r: Requests, now: real, openSessions: nat)
    requires Ordered(r.policy) && r.policy.maxBatch >= 1 && Named(r.ledger, r.policy.nextOrder)
    requires Listed(r.policy.waiting, r.ledger, Queued) && Listed([], r.ledger, Taken)
    ensures var q := TakeTurn(r, now, openSessions);
            && Listed(q.policy.waiting, q.ledger, Queued) && Listed(q.batch, q.ledger, Taken)
            && Ordered(q.policy) && Ascending(q.batch)
  {
    var turn, rest := Decision(r.policy, now, openSessions), Take(r.policy, now, openSessions).waiting;
    Parted(r.policy, now, openSessions);
    hide Ascending, Decision, Take, Listed;
    Apart(r.policy.waiting, turn, rest, r.ledger, TurnLedger(turn, r.ledger));
    ListedMoves(r.policy.waiting, rest, r.ledger, TurnLedger(turn, r.ledger), Queued, r.policy.nextOrder);
    BatchListed(r.policy.waiting, turn, r.ledger, TurnLedger(turn, r.ledger), r.policy.nextOrder);
  }

  lemma TakeTurnHolds(r: Requests, now: real, openSessions: nat)
    requires Ordered(r.policy) && r.policy.maxBatch >= 1 && Named(r.ledger, r.policy.nextOrder)
    requires Listed(r.policy.waiting, r.ledger, Queued) && HoldsOne(r.pending, r.ledger, r.hold)
    ensures var q := TakeTurn(r, now, openSessions); HoldsOne(q.pending, q.ledger, q.hold)
  {
    hide Ascending, Decision, Take, Listed, HoldsOne;
    var turn := Decision(r.policy, now, openSessions);
    Parted(r.policy, now, openSessions);
    ExpiredFreed(r, turn, TurnLedger(turn, r.ledger));
    HoldsShrinks(r.pending, r.pending, r.ledger, TurnLedger(turn, r.ledger), r.hold, Connections(turn.expired));
  }

  lemma TakeTurnTicketed(r: Requests, now: real, openSessions: nat)
    requires Ordered(r.policy) && r.policy.maxBatch >= 1
    requires Listed(r.policy.waiting, r.ledger, Queued) && Ticketed(r.pending, r.ledger)
    ensures Ticketed(r.pending, TakeTurn(r, now, openSessions).ledger)
  {
    hide Ascending, Decision, Take;
    Parted(r.policy, now, openSessions);
  }

  lemma TakeTurnKeeps(r: Requests, now: real, openSessions: nat)
    requires Consistent(r) && r.batch == [] && r.policy.maxBatch >= 1
    ensures Consistent(TakeTurn(r, now, openSessions))
  {
    hide HoldsOne, Ascending, Listed, Orders, Holds, Cut, Late, Timely;
    TakeTurnListed(r, now, openSessions);
    TakeTurnTicketed(r, now, openSessions);
    TakeTurnHolds(r, now, openSessions);
  }

  lemma Apart(ws: seq<Waiting>, turn: Turn, rest: seq<Waiting>, ledger: Ledger, ledger': Ledger)
    requires Listed(ws, ledger, Queued) && ledger' == TurnLedger(turn, ledger)
    requires forall w :: w in ws <==> w in turn.batch || w in turn.expired || w in rest
    requires Orders(turn.batch) !! Orders(turn.expired) !! Orders(rest)
    ensures forall w :: w in ws ==> (w in rest <==> ledger'[w.order].at == Queued)
  {
    forall w | w in ws ensures w in rest <==> ledger'[w.order].at == Queued {
      if w in rest {
        assert w.order in Orders(rest);
      } else if w in turn.batch {
        assert w.order in Orders(turn.batch);
      } else {
        assert w.order in Orders(turn.expired);
      }
    }
  }

  lemma BatchListed(ws: seq<Waiting>, turn: Turn, ledger: Ledger, ledger': Ledger, nextOrder: nat)
    requires Listed(ws, ledger, Queued) && Listed([], ledger, Taken) && Named(ledger, nextOrder)
    requires ledger' == TurnLedger(turn, ledger)
    requires forall w :: w in turn.batch ==> w in ws
    ensures Listed(turn.batch, ledger', Taken)
  {
    forall w | w in turn.batch ensures w.order in ledger' && ledger'[w.order] == Entry(w, Taken) {
      assert w in ws && w.order in Orders(turn.batch);
    }
    forall o | o in ledger' && ledger'[o].at == Taken ensures ledger'[o].request in turn.batch {
      assert ledger[o].at != Taken;
      var w :| w in turn.batch && w.order == o;
      assert w in ws;
    }
  }

  lemma ExpiredFreed(r: Requests, turn: Turn, ledger': Ledger)
    requires Listed(r.policy.waiting, r.ledger, Queued) && HoldsOne(r.pending, r.ledger, r.hold)
    requires Named(r.ledger, r.policy.nextOrder)
    requires ledger' == TurnLedger(turn, r.ledger) && Orders(turn.batch) !! Orders(turn.expired)
    requires forall w :: w in turn.batch || w in turn.expired ==> w in r.policy.waiting
    ensures forall o :: Holding(r.pending, ledger', o)
                   <==> Holding(r.pending, r.ledger, o) && r.ledger[o].request.connection !in Connections(turn.expired)
  {
    forall o | Holding(r.pending, r.ledger, o) && r.ledger[o].request.connection in Connections(turn.expired)
      ensures o in Orders(turn.expired)
    {
      var w :| w in turn.expired && w.connection == r.ledger[o].request.connection;
      assert Holding(r.pending, r.ledger, w.order);
    }
    forall o | o in Orders(turn.expired)
      ensures Holding(r.pending, r.ledger, o) && r.ledger[o].request.connection in Connections(turn.expired)
    {
      var w :| w in turn.expired && w.order == o;
    }
  }

  lemma InsertListed(r: Requests, item: Pending)
    requires Listed(r.policy.waiting, r.ledger, Queued) && Listed(r.batch, r.ledger, Taken) && Ascending(r.batch)
    requires Named(r.ledger, r.policy.nextOrder) && r.batch != [] && item.waiting == r.batch[0]
    ensures var ledger := Move(r.ledger, item.waiting, Running(r.nextTicket));
            && Listed(r.policy.waiting, ledger, Queued) && Listed(r.batch[1..], ledger, Taken)
            && item.waiting.order in r.ledger && r.ledger[item.waiting.order] == Entry(item.waiting, Taken)
  {
    assert r.batch[0] in r.batch;
    AscendingTail(r.batch);
    var ledger := Move(r.ledger, item.waiting, Running(r.nextTicket));
    assert forall v :: v in r.batch <==> v == r.batch[0] || v in r.batch[1..];
    ListedMoves(r.policy.waiting, r.policy.waiting, r.ledger, ledger, Queued, r.policy.nextOrder);
    ListedMoves(r.batch, r.batch[1..], r.ledger, ledger, Taken, r.policy.nextOrder);
  }

  lemma InsertHolds(r: Requests, item: Pending)
    requires HoldsOne(r.pending, r.ledger, r.hold) && Ticketed(r.pending, r.ledger) && r.nextTicket !in r.pending
    requires !item.detached && Named(r.ledger, r.policy.nextOrder)
    requires item.waiting.order in r.ledger && r.ledger[item.waiting.order] == Entry(item.waiting, Taken)
    ensures var q := Insert(r, item); Ticketed(q.pending, q.ledger) && HoldsOne(q.pending, q.ledger, q.hold)
  {
    var q := Insert(r, item);
    HoldsShrinks(r.pending, q.pending, r.ledger, q.ledger, r.hold, {});
    assert r.hold - {} == r.hold;
  }

  lemma InsertKeeps(r: Requests, item: Pending)
    requires Consistent(r) && r.batch != [] && item.waiting == r.batch[0] && !item.detached
    ensures Consistent(Insert(r, item))
  {
    hide HoldsOne, Ticketed, Listed, Ascending;
    InsertListed(r, item);
    InsertHolds(r, item);
    AscendingTail(r.batch);
  }

  /** The prepared requests are those of the batch, in order, and none has an answer yet. */
  ghost predicate Prepared(items: seq<Pending>, batch: seq<Waiting>) {
    && |items| == |batch|
    && forall i :: 0 <= i < |items| ==>
         items[i].waiting == batch[i] && items[i].Awaited() && !items[i].future
  }

  lemma {:induction false} InsertAllKeeps(r: Requests, items: seq<Pending>)
    requires Consistent(r) && Prepared(items, r.batch)
    ensures var q := InsertAll(r, items);
            Consistent(q) && q.batch == [] && q.nextTicket == r.nextTicket + |items|
    decreases |items|
  {
    hide Consistent;
    if items != [] {
      assert Prepared(items[1..], r.batch[1..]);
      InsertKeeps(r, items[0]);
      InsertAllKeeps(Insert(r, items[0]), items[1..]);
    }
  }

  lemma RegisterKeeps(r: Requests, t: nat)
    requires Consistent(r) && t in r.pending
    ensures Consistent(Register(r, t))
  {
    hide Listed, HoldsOne, Ascending;
    HoldsShrinks(r.pending, Register(r, t).pending, r.ledger, r.ledger, r.hold, {});
    assert r.hold - {} == r.hold;
  }

  lemma CompleteHolds(r: Requests, t: nat)
    requires Ticketed(r.pending, r.ledger) && HoldsOne(r.pending, r.ledger, r.hold) && t in r.pending
    requires Named(r.ledger, r.policy.nextOrder)
    ensures var w := r.pending[t].waiting; w.order in r.ledger && r.ledger[w.order] == Entry(w, Running(t))
    ensures var q := Complete(r, t); Ticketed(q.pending, q.ledger) && HoldsOne(q.pending, q.ledger, q.hold)
  {
    var q, item := Complete(r, t), r.pending[t];
    assert Holding(r.pending, r.ledger, item.waiting.order) <==> !item.detached;
    if item.detached {
      HoldsShrinks(r.pending, q.pending, r.ledger, q.ledger, r.hold, {});
      assert r.hold - {} == r.hold;
    } else {
      OneFreed(r.pending, r.ledger, r.hold, item.waiting);
      HoldsShrinks(r.pending, q.pending, r.ledger, q.ledger, r.hold, {item.waiting.connection});
    }
  }

  lemma CompleteListed(r: Requests, t: nat)
    requires Listed(r.policy.waiting, r.ledger, Queued) && Listed(r.batch, r.ledger, Taken)
    requires Ticketed(r.pending, r.ledger) && t in r.pending && Named(r.ledger, r.policy.nextOrder)
    ensures var q := Complete(r, t); Listed(q.policy.waiting, q.ledger, Queued) && Listed(q.batch, q.ledger, Taken)
  {
    var q := Complete(r, t);
    ListedMoves(r.policy.waiting, q.policy.waiting, r.ledger, q.ledger, Queued, r.policy.nextOrder);
    ListedMoves(r.batch, q.batch, r.ledger, q.ledger, Taken, r.policy.nextOrder);
  }

  lemma CompleteKeeps(r: Requests, t: nat)
    requires Consistent(r) && t in r.pending
    ensures Consistent(Complete(r, t))
  {
    hide HoldsOne, Ticketed, Listed, Ascending;
    CompleteHolds(r, t);
    CompleteListed(r, t);
  }

  lemma {:induction false} DropEachDrops(p: Policy, order: seq<int>)
    requires Ordered(p)
    ensures var q := DropEach(p, order);
            && Ordered(q)
            && (forall w :: w in q.waiting <==> w in p.waiting && w.connection !in order)
            && q.busy == p.busy - (set n | n in order)
            && q.nextOrder == p.nextOrder
    ensures forall w :: w in DroppedBy(p, order) <==> w in p.waiting && w.connection in order
    decreases |order|
  {
    if order != [] {
      OthersAscend(p.waiting, order[0]);
      OthersMembers(p.waiting, order[0]);
      OfMembers(p.waiting, order[0]);
      DropEachDrops(Drop(p, order[0]), order[1..]);
      assert order == [order[0]] + order[1..];
    }
  }

  lemma SomeMember(ws: seq<Waiting>)
    requires ws != []
    ensures exists w :: w in ws
  {
    assert ws[0] in ws;
  }

  lemma SettleEmpties(r: Requests, order: seq<int>)
    requires Ordered(r.policy) && Listed(r.policy.waiting, r.ledger, Queued)
    requires HoldsOne(r.pending, r.ledger, r.hold) && r.policy.busy == r.hold.Keys
    requires Named(r.ledger, r.policy.nextOrder) && forall n :: n in r.hold ==> n in order
    ensures var q := Settle(r, order);
            q.policy.waiting == [] && q.hold == map[] && q.policy.busy == {} && q.policy.nextOrder == r.policy.nextOrder
  {
    hide Ascending;
    var q := Settle(r, order);
    DropEachDrops(r.policy, order);
    forall w | w in r.policy.waiting ensures w.connection in order {
      assert Holding(r.pending, r.ledger, w.order);
    }
    if q.policy.waiting != [] {
      SomeMember(q.policy.waiting);
    }
    forall n | n in r.hold ensures n in (set m | m in order) {
    }
  }

  lemma SettleKeeps(r: Requests, order: seq<int>)
    requires Consistent(r) && r.batch == []
    requires forall n :: n in r.hold ==> n in order
    ensures Consistent(Settle(r, order))
    ensures forall o :: o in r.ledger ==> Settle(r, order).ledger[o] == r.ledger[o].(at := Out)
  {
    SettleEmpties(r, order);
    hide DropEach, RunningConnections;
    forall o | o in r.ledger ensures Settle(r, order).ledger[o] == r.ledger[o].(at := Out) {
      if r.ledger[o].at == Queued {
        assert Holding(r.pending, r.ledger, o);
      }
    }
  }
}
