/** What holds in every state some interleaving of the model server's threads reaches. */
module ServerProperties {
  import opened Batching
  import opened RequestTable
  import opened CallLog
  import opened ServerCore
  import opened LinkInvariant
  import opened RequestInvariant
  import opened LogInvariant
  import opened AnswerInvariant
  import opened AnswerSteps
  import opened AnswerErrands
  import opened AnswerTurns
  import opened EndInvariant

  ghost predicate ServerOk(s: Core) {
    && LinksOk(s)
    && RequestsOk(s)
    && LogOk(s.log, s.links, s.doing, s.requests.policy.maxBatch)
    && AnswersOk(s)
    && EndsOk(s)
  }

  // -- every action keeps the invariants ---------------------------------------------------------

  /** What a reader, a writer or a completing thread leaves alone. */
  ghost predicate Aside(s: Core, t: Core) {
    && t.fault == s.fault && t.maxSessions == s.maxSessions && t.server == s.server && t.alive == s.alive
    && t.doing == s.doing && t.errands == s.errands && t.life == s.life && t.log == s.log
    && t.requests.policy.maxBatch == s.requests.policy.maxBatch && t.links == s.links
  }

  lemma AsideKeeps(s: Core, t: Core)
    requires ServerOk(s) && Aside(s, t) && RequestsOk(t) && AnswersOk(t)
    requires QueuesFit(t.links, t.server, t.events, t.errands)
    ensures ServerOk(t)
  {
    hide LinksOk, RequestsOk, LogOk, AnswersOk, EndsOk;
    SameLinks(s, t);
    SameEnds(s, t);
  }

  lemma QueuesOk(s: Core)
    requires LinksOk(s)
    ensures QueuesFit(s.links, s.server, s.events, s.errands)
  {
    hide QueuesFit, TablesAgree, SlotsInRange, OpeningListed, GreetingFits, DoingFits;
  }

  lemma StepAside(s: Core, w: Waiting)
    ensures Aside(s, TakeStep(s, w)) && TakeStep(s, w).events == s.events
  {
  }

  lemma CancelAside(s: Core, n: int, requestId: int)
    ensures Aside(s, TakeCancel(s, n, requestId)) && TakeCancel(s, n, requestId).events == s.events
  {
  }

  lemma ResolveAside(s: Core, t: nat, result: Option<int>)
    ensures Aside(s, Resolve(s, t, result)) && Resolve(s, t, result).events == s.events
  {
  }

  lemma ResolveRequests(s: Core, t: nat, result: Option<int>)
    requires RequestsOk(s)
    ensures RequestsOk(Resolve(s, t, result))
  {
    hide RequestsOk, CompleteItem;
    if t in s.requests.pending && s.requests.pending[t].future {
      CompleteRequests(s, t, result);
    }
  }

  lemma StepKeeps(s: Core, w: Waiting)
    requires ServerOk(s)
    ensures ServerOk(TakeStep(s, w))
  {
    hide LinksOk, RequestsOk, LogOk, AnswersOk, EndsOk, TakeStep, QueuesFit;
    StepRequests(s, w);
    StepAnswers(s, w);
    StepAside(s, w);
    QueuesOk(s);
    AsideKeeps(s, TakeStep(s, w));
  }

  lemma CancelKeeps(s: Core, n: int, requestId: int)
    requires ServerOk(s)
    ensures ServerOk(TakeCancel(s, n, requestId))
  {
    hide LinksOk, RequestsOk, LogOk, AnswersOk, EndsOk, TakeCancel, QueuesFit;
    CancelRequests(s, n, requestId);
    CancelAnswers(s, n, requestId);
    CancelAside(s, n, requestId);
    QueuesOk(s);
    AsideKeeps(s, TakeCancel(s, n, requestId));
  }

  lemma ResolveKeeps(s: Core, t: nat, result: Option<int>)
    requires ServerOk(s)
    ensures ServerOk(Resolve(s, t, result))
  {
    hide LinksOk, RequestsOk, LogOk, AnswersOk, EndsOk, Resolve, QueuesFit;
    ResolveRequests(s, t, result);
    ResolveAnswers(s, t, result);
    ResolveAside(s, t, result);
    QueuesOk(s);
    AsideKeeps(s, Resolve(s, t, result));
  }

  /** A change of the outboxes, the events and the reset marks alone. */
  lemma BoxesKeep(s: Core, t: Core)
    requires ServerOk(s) && Aside(s, t) && t.requests == s.requests && t.stayed == s.stayed && AnswersOk(t)
    requires QueuesFit(t.links, t.server, t.events, t.errands)
    ensures ServerOk(t)
  {
    hide LinksOk, RequestsOk, LogOk, AnswersOk, EndsOk, QueuesFit;
    SameRequests(s, t);
    AsideKeeps(s, t);
  }

  lemma ResetKeeps(s: Core, n: int, requestId: int)
    requires ServerOk(s) && n in s.links.connections
    ensures ServerOk(TakeReset(s, n, requestId))
  {
    hide LinksOk, RequestsOk, LogOk, AnswersOk, EndsOk, QueuesFit, Post;
    QueuesOk(s);
    if s.server == Serving {
      MoreEvents(s.links, s.server, s.events, s.errands, Resets(n, requestId));
      SameBoxesAnswers(s, TakeReset(s, n, requestId));
    } else {
      PostAnswers(s, n, Failed(requestId));
    }
    BoxesKeep(s, TakeReset(s, n, requestId));
  }

  lemma SameBoxesAnswers(s: Core, t: Core)
    requires AnswersOk(s) && t.requests == s.requests && t.answers == s.answers && t.links == s.links
             && t.server == s.server
    requires t.doing == s.doing && t.errands == s.errands && t.life == s.life && t.stayed == s.stayed
    ensures AnswersOk(t)
  {
    hide AnswersOk;
    SameAdds(BoxOf(s.answers.boxes, 0), Ended(s.links, s.server, 0));
    BoxAnswers(s, t, 0);
  }

  lemma WriteKeeps(s: Core, n: int)
    requires ServerOk(s)
    ensures ServerOk(WriteNext(s, n)) && ServerOk(Break(s, n))
  {
    hide LinksOk, RequestsOk, LogOk, AnswersOk, EndsOk, QueuesFit;
    QueuesOk(s);
    WriteAnswers(s, n);
    BoxesKeep(s, WriteNext(s, n));
    BoxesKeep(s, Break(s, n));
  }

  /** A reader thread that changes its own connection. */
  lemma ReaderKeeps(s: Core, t: Core)
    requires ServerOk(s) && LinksOk(t) && AnswersOk(t) && LogStays(s, t)
    requires t.requests == s.requests && t.doing == s.doing && t.errands == s.errands && t.life == s.life
    requires t.alive == s.alive && t.server == s.server && SameSessions(s.links, t.links)
    ensures ServerOk(t)
  {
    hide LinksOk, RequestsOk, LogOk, AnswersOk, EndsOk, LogStays;
    SameRequests(s, t);
    Stays(s, t);
    SameEnds(s, t);
  }

  lemma AcceptKeepsAll(s: Core)
    requires ServerOk(s)
    ensures ServerOk(AcceptLink(s))
  {
    AcceptSessions(s);
    hide LinksOk, RequestsOk, LogOk, AnswersOk, EndsOk, LogStays, SameSessions;
    AcceptLinks(s);
    AcceptAnswers(s);
    AcceptLog(s);
    ReaderKeeps(s, AcceptLink(s));
  }

  lemma AcceptSessions(s: Core)
    requires LinksOk(s)
    ensures SameSessions(s.links, AcceptLink(s).links)
  {
    hide QueuesFit, GreetingFits, DoingFits, SlotsInRange, OpeningListed;
  }

  lemma GreetSessions(s: Core, n: int, hello: Hello)
    requires LinksOk(s) && n in s.links.connections && s.links.connections[n].reader == Greeting
    ensures SameSessions(s.links, Greet(s, n, hello).links)
  {
    hide QueuesFit, TablesAgree, DoingFits, SlotsInRange, OpeningListed, Post, Flushed;
  }

  lemma GreetRest(s: Core, n: int, hello: Hello)
    requires n in s.links.connections
    ensures var t := Greet(s, n, hello);
            && t.requests == s.requests && t.doing == s.doing && t.errands == s.errands && t.life == s.life
            && t.alive == s.alive && t.server == s.server
  {
    hide Post, Flushed, MayMove;
  }

  lemma GreetKeeps(s: Core, n: int, hello: Hello)
    requires ServerOk(s) && n in s.links.connections && s.links.connections[n].reader == Greeting
    ensures ServerOk(Greet(s, n, hello))
  {
    hide LinksOk, RequestsOk, LogOk, AnswersOk, EndsOk, LogStays, Greet, SameSessions;
    GreetSessions(s, n, hello);
    GreetRest(s, n, hello);
    GreetLinks(s, n, hello);
    GreetAnswers(s, n, hello);
    GreetLog(s, n, hello);
    ReaderKeeps(s, Greet(s, n, hello));
  }

  lemma EndLog(s: Core, n: int)
    requires n in s.links.connections
    ensures LogStays(s, ReaderEnds(s, n))
  {
  }

  lemma EndKeeps(s: Core, n: int)
    requires ServerOk(s) && n in s.links.connections
    ensures ServerOk(ReaderEnds(s, n))
  {
    hide LinksOk, RequestsOk, LogOk, AnswersOk, EndsOk, LogStays;
    EndLinks(s, n);
    EndAnswers(s, n);
    EndLog(s, n);
    ReaderKeeps(s, ReaderEnds(s, n));
  }

  lemma ContinueKeeps(s: Core, choice: Choice)
    requires ServerOk(s) && !AtRest(s)
    ensures ServerOk(Continue(s, choice))
  {
    hide LinksOk, RequestsOk, LogOk, AnswersOk, EndsOk, Continue;
    ContinueLinks(s, choice);
    ContinueRequests(s, choice);
    ContinueLog(s, choice);
    ContinueAnswers(s, choice);
    ContinueEnds(s, choice);
    ContinueSize(s, choice);
  }

  // -- the batch limit never changes ------------------------------------------------------------

  lemma {:induction false} InsertAllSize(r: Requests, items: seq<Pending>)
    ensures InsertAll(r, items).policy == r.policy
    decreases |items|
  {
    if items != [] {
      InsertAllSize(Insert(r, items[0]), items[1..]);
    }
  }

  lemma {:induction false} TakeOutputsSize(s: Core, first: nat, last: nat, outputs: Option<seq<Output>>)
    ensures TakeOutputs(s, first, last, outputs).requests.policy.maxBatch == s.requests.policy.maxBatch
    decreases last - first
  {
    if first < last {
      var whole := IsWhole(outputs, last - first);
      var t := if first !in s.requests.pending then s
               else if !whole then CompleteItem(s, first, None)
               else if outputs.value[0].Future? then s.(requests := Register(s.requests, first))
               else CompleteItem(s, first, outputs.value[0].result);
      assert t.requests.policy.maxBatch == s.requests.policy.maxBatch;
      TakeOutputsSize(t, first + 1, last, if whole then Some(outputs.value[1..]) else None);
    }
  }

  lemma LeaveSize(s: Core, n: int, next: Option<int>)
    ensures Leave(s, n, next).requests == s.requests
  {
    hide Flushed, StateOf, MayMove;
  }

  lemma ErrandSize(s: Core, e: Errand)
    ensures RunErrand(s, e).requests.policy.maxBatch == s.requests.policy.maxBatch
  {
    hide Leave, Post, Flushed, StateOf, MayMove, AnswerRequest, Prepare;
    match e
    case Do(Opens(n)) =>
      if SlotOf(s.links, n) in s.links.bySlot { LeaveSize(s, s.links.bySlot[SlotOf(s.links, n)], Some(n)); }
    case Do(Leaves(n)) => LeaveSize(s, n, None);
    case Refuse(Leaves(n)) => LeaveSize(s, n, None);
    case LeaveNow(n) => LeaveSize(s, n, None);
    case _ =>
  }

  lemma DoingSize(s: Core, choice: Choice)
    requires s.doing != Idle
    ensures Continue(s, choice).requests.policy.maxBatch == s.requests.policy.maxBatch
  {
    match s.doing
    case Inserting(items) => InsertAllSize(s.requests, items); hide InsertAll;
    case Returned(first, last, outputs) => TakeOutputsSize(s, first, last, outputs); hide TakeOutputs;
    case _ => hide Post, Flushed, StateOf, MayMove, AnswerRequest;
  }

  lemma ContinueSize(s: Core, choice: Choice)
    requires !AtRest(s)
    ensures Continue(s, choice).requests.policy.maxBatch == s.requests.policy.maxBatch
  {
    hide Continue, RunErrand;
    if s.doing == Idle {
      PopsErrand(s, choice);
      ErrandSize(s.(errands := s.errands[1..]), s.errands[0]);
    } else {
      DoingSize(s, choice);
    }
  }

  // -- a turn, and the lifecycle -----------------------------------------------------------------

  /** Nothing that concerns the calls into the model changed. */
  ghost predicate LogKept(s: Core, t: Core) {
    && t.log == s.log && t.doing == s.doing && t.requests.policy.maxBatch == s.requests.policy.maxBatch
    && t.links == s.links.(opening := t.links.opening)
  }

  lemma KeptLog(s: Core, t: Core)
    requires LogKept(s, t) && LogOk(s.log, s.links, s.doing, s.requests.policy.maxBatch)
    ensures LogOk(t.log, t.links, t.doing, t.requests.policy.maxBatch)
  {
    hide LogOk;
    LogSame(s.log, s.links, s.doing, t.links, t.doing, s.requests.policy.maxBatch);
  }

  lemma TurnKept(s: Core, now: real)
    ensures LogKept(s, RunTurn(s, now)) && RunTurn(s, now).life == s.life
  {
    hide Decision, ByTicket;
  }

  lemma TurnKeeps(s: Core, now: real)
    requires ServerOk(s) && AtRest(s) && s.alive
    ensures ServerOk(RunTurn(s, now))
  {
    NotLast(s);
    hide LinksOk, RequestsOk, LogOk, AnswersOk, RunTurn;
    TurnLinks(s, now);
    TurnRequests(s, now);
    TurnAnswers(s, now);
    TurnKept(s, now);
    KeptLog(s, RunTurn(s, now));
  }

  lemma NotLast(s: Core)
    requires RequestsOk(s) && s.alive
    ensures s.life != StopLeaving && s.life != Over
  {
    hide Consistent, Shape, Current, Stepping, HeldOpen;
  }

  lemma NotServing(s: Core)
    requires RequestsOk(s) && s.life != Up
    ensures s.server != Serving
  {
    hide Consistent, Shape, Current, Stepping, HeldOpen;
  }

  lemma SettleKept(s: Core, order: seq<int>, shut: seq<int>)
    ensures LogKept(s, SettleAll(s, order, shut))
    ensures SettleAll(s, order, shut).life == DrainSettling || SettleAll(s, order, shut).life == StopSettling
  {
    SettledPolicy(s.requests, order);
    hide Settle, ByTicket, DroppedBy;
  }

  lemma SettleKeepsAll(s: Core, order: seq<int>, shut: seq<int>)
    requires ServerOk(s) && Enabled(s, Settles(order, shut))
    ensures ServerOk(SettleAll(s, order, shut))
  {
    hide LinksOk, RequestsOk, LogOk, AnswersOk, SettleAll;
    NotServing(s);
    SettleLinks(s, order, shut);
    SettleRequests(s, order, shut);
    SettleAnswers(s, order, shut);
    SettleKept(s, order, shut);
    KeptLog(s, SettleAll(s, order, shut));
  }

  lemma LeaveAllKeeps(s: Core, order: seq<int>)
    requires ServerOk(s) && Enabled(s, LeavesAll(order))
    ensures ServerOk(LeaveAll(s, order))
  {
    hide LinksOk, RequestsOk, LogOk, AnswersOk, EndsOk;
    NotServing(s);
    LeaveAllLinks(s, order);
    LeaveAllRequests(s, order);
    LeaveAllAnswers(s, order);
    LeaveAllEnds(s, order);
    KeptLog(s, LeaveAll(s, order));
  }

  /** `drain()` and `stop()` begin, or return. */
  lemma LifeKeeps(s: Core, t: Core)
    requires ServerOk(s) && EndsOk(t)
    requires t == s.(life := t.life, server := t.server, drainBy := t.drainBy)
    requires t.server == s.server || t.server != Serving
    requires t.life != Up ==> t.server != Serving
    requires Settled(t.life) ==> Settled(s.life)
    requires Last(t.life) <==> Last(s.life)
    ensures ServerOk(t)
  {
    hide LinksOk, RequestsOk, LogOk, AnswersOk, EndsOk;
    LifeRequests(s, t);
    LifeAnswers(s, t);
    if t.server == s.server {
      QueuesOk(s);
      SameLinks(s, t);
    } else {
      ServerLinks(s, t);
    }
  }

  lemma NoneLeftOpen(s: Core)
    requires EndsOk(s) && s.life == StopLeaving && AtRest(s)
    ensures s.links.open == {}
  {
    forall n ensures n !in s.links.open {
      assert !IsLeaving(s.doing, s.errands, n);
    }
  }

  lemma LifecycleKeeps(s: Core, a: Action)
    requires ServerOk(s) && Enabled(s, a) && (a.Drains? || a.Stops? || a.FinishesDrain? || a.FinishesStop?)
    ensures ServerOk(Next(s, a))
  {
    hide LinksOk, RequestsOk, LogOk, AnswersOk;
    if s.life != Up { NotServing(s); }
    if a.FinishesStop? { NoneLeftOpen(s); }
    LifeKeeps(s, Next(s, a));
  }

  lemma NextKeeps(s: Core, a: Action)
    requires ServerOk(s) && Enabled(s, a)
    ensures ServerOk(Next(s, a))
  {
    hide ServerOk;
    match a
    case AcceptsLink => AcceptKeepsAll(s);
    case Greets(n, hello) => GreetKeeps(s, n, hello);
    case Ends(n) => EndKeeps(s, n);
    case Steps(w) => StepKeeps(s, w);
    case Cancels(n, id) => CancelKeeps(s, n, id);
    case Resetting(n, id) => ResetKeeps(s, n, id);
    case Writes(n) => WriteKeeps(s, n);
    case Breaks(n) => WriteKeeps(s, n);
    case Resolves(t, result) => ResolveKeeps(s, t, result);
    case Turns(now) => TurnKeeps(s, now);
    case Continues(choice) => ContinueKeeps(s, choice);
    case Settles(order, shut) => SettleKeepsAll(s, order, shut);
    case LeavesAll(order) => LeaveAllKeeps(s, order);
    case _ => LifecycleKeeps(s, a);
  }

  // -- every reachable state ---------------------------------------------------------------------

  lemma StartOk(maxSessions: nat, maxBatch: nat, window: real)
    requires maxBatch >= 1
    ensures ServerOk(Start(maxSessions, maxBatch, window))
  {
    hide LinksOk, RequestsOk, LogOk, AnswersOk;
    StartLinks(maxSessions, maxBatch, window);
    StartRequests(maxSessions, maxBatch, window);
    StartAnswers(maxSessions, maxBatch, window);
  }

  lemma StartLinks(maxSessions: nat, maxBatch: nat, window: real)
    ensures var s := Start(maxSessions, maxBatch, window); LinksOk(s) && LogOk(s.log, s.links, s.doing, maxBatch)
  {
  }

  lemma StartRequests(maxSessions: nat, maxBatch: nat, window: real)
    requires maxBatch >= 1
    ensures RequestsOk(Start(maxSessions, maxBatch, window))
  {
  }

  lemma StartAnswers(maxSessions: nat, maxBatch: nat, window: real)
    ensures AnswersOk(Start(maxSessions, maxBatch, window))
  {
  }

  lemma {:induction false} RunKeeps(states: seq<Core>, actions: seq<Action>, i: nat)
    requires IsRun(states, actions) && ServerOk(states[0]) && i <= |actions|
    ensures ServerOk(states[i])
    decreases i
  {
    hide ServerOk;
    if i > 0 {
      RunKeeps(states, actions, i - 1);
      NextKeeps(states[i - 1], actions[i - 1]);
    }
  }

  /** Some interleaving of some model server reaches this state. */
  ghost predicate Reached(s: Core) {
    exists maxSessions: nat, maxBatch: nat, window: real ::
      maxBatch >= 1 && Reachable(s, maxSessions, maxBatch, window)
  }

  /** Every interleaving keeps every invariant. */
  lemma ReachedOk(s: Core)
    requires Reached(s)
    ensures ServerOk(s)
  {
    hide ServerOk;
    var maxSessions: nat, maxBatch: nat, window: real :| maxBatch >= 1 && Reachable(s, maxSessions, maxBatch, window);
    var states, actions :|
      IsRun(states, actions) && states[0] == Start(maxSessions, maxBatch, window) && states[|actions|] == s;
    StartOk(maxSessions, maxBatch, window);
    RunKeeps(states, actions, |actions|);
  }

  // -- connections -------------------------------------------------------------------------------

  lemma {:induction false} AtMostOnePerSlot(l: Links, open: set<int>, slots: int)
    requires 0 <= slots && forall n :: n in open ==> 0 <= SlotOf(l, n) < slots
    requires forall m, n :: m in open && n in open && m != n ==> SlotOf(l, m) != SlotOf(l, n)
    ensures |open| <= slots
    decreases slots
  {
    if slots > 0 {
      if n :| n in open && SlotOf(l, n) == slots - 1 {
        AtMostOnePerSlot(l, open - {n}, slots - 1);
      } else {
        AtMostOnePerSlot(l, open, slots - 1);
      }
    } else {
      forall n ensures n !in open {
        assert !(0 <= SlotOf(l, n) < slots);
      }
    }
  }

  /** No thread ever asks for a move a connection's or the server's sequence does not allow; at
      most one connection is open per slot, and at most that many are opening; and between two of
      the step thread's events the tables describe exactly the open connections. */
  lemma ConnectionsAgree(s: Core)
    requires Reached(s)
    ensures !s.fault
    ensures |s.links.open| <= s.maxSessions && |s.links.opening| <= s.maxSessions
    ensures s.doing == Idle ==>
              && (forall n :: n in s.links.open <==> n in s.links.connections && s.links.connections[n].state == Open)
              && (forall k, n :: k in s.links.bySlot && s.links.bySlot[k] == n <==>
                   n in s.links.open && s.links.connections[n].slot == k)
  {
    ReachedOk(s);
    hide Reached;
    LiveApart(s);
    OpenSlots(s);
    hide LogOk, RequestsOk, AnswersOk, EndsOk, QueuesFit;
    AtMostOnePerSlot(s.links, s.links.open, s.maxSessions);
  }

  lemma OpenSlots(s: Core)
    requires LinksOk(s)
    ensures forall n :: n in s.links.open ==> 0 <= SlotOf(s.links, n) < s.maxSessions
    ensures forall m, n :: m in s.links.open && n in s.links.open && m != n ==> SlotOf(s.links, m) != SlotOf(s.links, n)
  {
    hide QueuesFit, DoingFits;
  }

  // -- accepted requests -------------------------------------------------------------------------

  predicate InQueue(s: Core, o: nat) {
    exists w :: w in s.requests.policy.waiting && w.order == o
  }

  predicate InBatch(s: Core, o: nat) {
    exists w :: w in s.requests.batch && w.order == o
  }

  predicate InTable(s: Core, o: nat) {
    exists t :: t in s.requests.pending && s.requests.pending[t].waiting.order == o
  }

  /** An accepted request without an answer is in exactly one of the queue, the batch taken and the
      table of running requests, and no request is ever in two of them, or in one of them twice. */
  lemma ExactlyOnePlace(s: Core, o: nat)
    requires Reached(s) && o in s.requests.ledger
    ensures o in s.answers.fates
    ensures s.answers.fates[o] == Awaiting ==> InQueue(s, o) || InBatch(s, o) || InTable(s, o)
    ensures !(InQueue(s, o) && InBatch(s, o)) && !(InQueue(s, o) && InTable(s, o)) && !(InBatch(s, o) && InTable(s, o))
    ensures Distinct(s.requests.policy.waiting) && Distinct(s.requests.batch)
    ensures forall t, u :: t in s.requests.pending && u in s.requests.pending && t != u ==>
              s.requests.pending[t].waiting.order != s.requests.pending[u].waiting.order
  {
    hide Reached, ServerOk, Consistent, InQueue, InBatch, InTable;
    ReachedOk(s);
    RequestParts(s);
    OrderPlaces(s.requests, o);
    PlacedApart(s, o);
    if s.answers.fates[o] == Awaiting {
      PlacedSomewhere(s, o);
    }
  }

  lemma RequestParts(s: Core)
    requires ServerOk(s)
    ensures Consistent(s.requests) && s.answers.fates.Keys == s.requests.ledger.Keys
    ensures FatesOk(s.requests.pending, s.requests.ledger, s.answers.fates)
    ensures Distinct(s.requests.policy.waiting) && Distinct(s.requests.batch)
  {
    hide LinksOk, LogOk, EndsOk, OwesOk, BoxesOk, LostOk, FlushOk, Listed, Ticketed, HoldsOne;
  }

  lemma PlacedApart(s: Core, o: nat)
    requires Consistent(s.requests) && o in s.requests.ledger
    ensures !(InQueue(s, o) && InBatch(s, o)) && !(InQueue(s, o) && InTable(s, o)) && !(InBatch(s, o) && InTable(s, o))
  {
    hide Consistent;
    OrderPlaces(s.requests, o);
  }

  lemma PlacedSomewhere(s: Core, o: nat)
    requires Consistent(s.requests) && FatesOk(s.requests.pending, s.requests.ledger, s.answers.fates)
    requires o in s.requests.ledger && s.answers.fates[o] == Awaiting
    ensures InQueue(s, o) || InBatch(s, o) || InTable(s, o)
  {
    hide Consistent;
    OrderPlaces(s.requests, o);
    var at := s.requests.ledger[o].at;
    assert Due(s.requests.pending, s.requests.ledger, o);
    if at.Running? {
      RunningPlace(s.requests, o);
    }
  }

  lemma RunningPlace(r: Requests, o: nat)
    requires Consistent(r) && o in r.ledger && r.ledger[o].at.Running?
    ensures r.ledger[o].at.ticket in r.pending && r.pending[r.ledger[o].at.ticket].waiting.order == o
  {
  }

  lemma OrderPlaces(r: Requests, o: nat)
    requires Consistent(r) && o in r.ledger
    ensures r.ledger[o].request.order == o
    ensures forall w :: w in r.policy.waiting && w.order == o ==> r.ledger[o].at == Queued
    ensures forall w :: w in r.batch && w.order == o ==> r.ledger[o].at == Taken
    ensures forall t :: t in r.pending ==>
              r.pending[t].waiting.order in r.ledger && r.ledger[r.pending[t].waiting.order].at == Running(t)
    ensures r.ledger[o].at == Queued ==> r.ledger[o].request in r.policy.waiting
    ensures r.ledger[o].at == Taken ==> r.ledger[o].request in r.batch
  {
  }

  predicate Queues(r: Requests, n: int) {
    exists w :: w in r.policy.waiting && w.connection == n
  }

  predicate IsTaken(r: Requests, n: int) {
    exists w :: w in r.batch && w.connection == n
  }

  predicate IsHeld(r: Requests, t: nat, n: int) {
    t in r.pending && !r.pending[t].detached && r.pending[t].waiting.connection == n
  }

  ghost predicate Runs(r: Requests, n: int) {
    exists t :: IsHeld(r, t, n)
  }

  /** A session is busy exactly when it has a request in the queue, in the batch taken, or running and
      not detached; it never has two, in one of these tables or in two of them. */
  lemma BusyExactlyOnce(s: Core, n: int)
    requires Reached(s)
    ensures var r := s.requests;
            && (n in r.policy.busy <==> Queues(r, n) || IsTaken(r, n) || Runs(r, n))
            && !(Queues(r, n) && IsTaken(r, n)) && !(Queues(r, n) && Runs(r, n)) && !(IsTaken(r, n) && Runs(r, n))
            && (forall v, w :: v in r.policy.waiting && w in r.policy.waiting && v.connection == n == w.connection ==>
                 v == w)
            && (forall v, w :: v in r.batch && w in r.batch && v.connection == n == w.connection ==> v == w)
            && (forall t, u :: IsHeld(r, t, n) && IsHeld(r, u, n) ==> t == u)
  {
    hide Reached, ServerOk, Consistent;
    ReachedOk(s);
    OkConsistent(s);
    TablesHold(s.requests, n);
    if n in s.requests.hold { BusyHolds(s.requests, n); }
  }

  /** Whatever the tables hold of a session is the one request the bookkeeping holds it for. */
  lemma TablesHold(r: Requests, n: int)
    requires Consistent(r)
    ensures forall w :: w in r.policy.waiting && w.connection == n ==>
              n in r.hold && r.hold[n] in r.ledger && r.ledger[r.hold[n]] == Entry(w, Queued)
    ensures forall w :: w in r.batch && w.connection == n ==>
              n in r.hold && r.hold[n] in r.ledger && r.ledger[r.hold[n]] == Entry(w, Taken)
    ensures forall t :: IsHeld(r, t, n) ==>
              n in r.hold && r.hold[n] in r.ledger && r.ledger[r.hold[n]] == Entry(r.pending[t].waiting, Running(t))
    ensures r.policy.busy == r.hold.Keys
  {
    hide Ordered, Ascending;
    forall w | w in r.policy.waiting && w.connection == n ensures Holding(r.pending, r.ledger, w.order) {
    }
    forall w | w in r.batch && w.connection == n ensures Holding(r.pending, r.ledger, w.order) {
    }
    forall t | IsHeld(r, t, n) ensures Holding(r.pending, r.ledger, r.pending[t].waiting.order) {
    }
  }

  lemma BusyHolds(r: Requests, n: int)
    requires Consistent(r) && n in r.hold
    ensures Queues(r, n) || IsTaken(r, n) || Runs(r, n)
  {
    hide Ordered, Ascending;
    var o := r.hold[n];
    assert Holding(r.pending, r.ledger, o) && r.ledger[o].request.connection == n;
    if r.ledger[o].at.Running? {
      assert IsHeld(r, r.ledger[o].at.ticket, n);
    }
  }

  // -- answers -----------------------------------------------------------------------------------

  /** The answer to request `o`, at place `i` of the outbox of `n`. */
  predicate AnsweredAt(s: Core, n: int, i: nat, o: nat) {
    var sent := BoxOf(s.answers.boxes, n).sent;
    i < |sent| && sent[i].Answer? && sent[i].order == o
  }

  /** No accepted request is answered twice, nor in another session's outbox, nor under another id,
      nor once a cancel withdrew it before any answer. */
  lemma AtMostOneAnswer(s: Core, o: nat, n: int, i: nat)
    requires Reached(s) && AnsweredAt(s, n, i, o)
    ensures o in s.requests.ledger && s.requests.ledger[o].request.connection == n
    ensures BoxOf(s.answers.boxes, n).sent[i].requestId == s.requests.ledger[o].request.requestId
    ensures forall m, j :: AnsweredAt(s, m, j, o) ==> m == n && j == i
    ensures o in s.answers.fates && s.answers.fates[o] != Cancelled
  {
    ReachedOk(s);
    hide Reached;
    hide LinksOk, RequestsOk, LogOk, EndsOk, FatesOk, OwesOk, LostOk, FlushOk;
    forall m, j: nat | AnsweredAt(s, m, j, o) ensures m == n && j == i {
      assert IsGiven(BoxOf(s.answers.boxes, m).sent[j], m, j, s.answers.fates, s.requests.ledger);
    }
  }

  /** Once `stop()` returned, every request that was not cancelled, of a session that was open until
      then and whose link held, has been given exactly one answer, before the link is flushed. */
  lemma AllAnsweredByStop(s: Core, o: nat)
    requires Reached(s) && s.life == Over && o in s.requests.ledger
    requires s.requests.ledger[o].request.connection in s.stayed
    requires !BoxOf(s.answers.boxes, s.requests.ledger[o].request.connection).broken
    requires o in s.answers.fates && s.answers.fates[o] != Cancelled
    ensures var n := s.requests.ledger[o].request.connection;
            exists i ::
              && AnsweredAt(s, n, i, o)
              && (forall m, j :: AnsweredAt(s, m, j, o) ==> m == n && j == i)
              && forall j :: 0 <= j < i ==> BoxOf(s.answers.boxes, n).sent[j] != Flush
  {
    ReachedOk(s);
    hide Reached;
    var n := s.requests.ledger[o].request.connection;
    EndFate(s, o);
    var i := s.answers.fates[o].index;
    GivenAt(s, o);
    AtMostOneAnswer(s, o, n, i);
    hide ServerOk;
  }

  /** What became of a request by then. */
  lemma EndFate(s: Core, o: nat)
    requires ServerOk(s) && s.life == Over && o in s.requests.ledger
    ensures s.answers.fates[o].Given? || s.answers.fates[o] == Cancelled || s.answers.fates[o] == Lost
    ensures s.answers.fates[o] == Lost ==>
              var n := s.requests.ledger[o].request.connection; BoxOf(s.answers.boxes, n).broken || n !in s.stayed
  {
    NothingDue(s, o);
    hide LinksOk, RequestsOk, LogOk, EndsOk, BoxesOk, FlushOk, Ended, Due, Owes;
  }

  lemma GivenAt(s: Core, o: nat)
    requires ServerOk(s) && o in s.requests.ledger && s.answers.fates[o].Given?
    ensures AnsweredAt(s, s.requests.ledger[o].request.connection, s.answers.fates[o].index, o)
    ensures forall j :: 0 <= j < s.answers.fates[o].index ==>
              BoxOf(s.answers.boxes, s.requests.ledger[o].request.connection).sent[j] != Flush
  {
    hide LinksOk, RequestsOk, LogOk, EndsOk, OwesOk, LostOk;
  }

  // -- the calls into the model ------------------------------------------------------------------

  /** The model sees well-bracketed calls, and once `stop()` returned nothing is open in it. */
  lemma ModelCallsBracketed(s: Core)
    requires Reached(s)
    ensures WellBracketed(s.log, s.requests.policy.maxBatch)
    ensures s.life == Over ==> OpenNow(s.log) == map[]
  {
    hide Reached, LinksOk, RequestsOk, AnswersOk, WellBracketed, OpenNow, LastOpened, OpenIs;
    ReachedOk(s);
    if s.life == Over {
      NothingLive(OpenNow(s.log), s.links);
    }
  }

  lemma NothingLive(open: map<int, nat>, l: Links)
    requires OpenIs(open, l, {})
    ensures open == map[]
  {
    forall k ensures k !in open {
    }
  }

  // -- cancelled requests ------------------------------------------------------------------------

  /** No request is withdrawn on the way from `s` to `t`. */
  ghost predicate NoneCancelled(s: Core, t: Core) {
    forall o :: o in t.answers.fates && t.answers.fates[o] == Cancelled ==>
      o in s.answers.fates && s.answers.fates[o] == Cancelled
  }

  lemma {:induction false} OutputsCancelNone(s: Core, first: nat, last: nat, outputs: Option<seq<Output>>)
    ensures NoneCancelled(s, TakeOutputs(s, first, last, outputs))
    decreases last - first
  {
    if first < last {
      var whole := IsWhole(outputs, last - first);
      var t := if first !in s.requests.pending then s
               else if !whole then CompleteItem(s, first, None)
               else if outputs.value[0].Future? then s.(requests := Register(s.requests, first))
               else CompleteItem(s, first, outputs.value[0].result);
      hide Complete, Post, Reaches;
      OutputsCancelNone(t, first + 1, last, if whole then Some(outputs.value[1..]) else None);
    }
  }

  lemma DoingCancelsNone(s: Core, choice: Choice)
    requires s.doing != Idle
    ensures NoneCancelled(s, Continue(s, choice))
  {
    hide Post, Flushed, StateOf, MayMove, TakeOutputs, InsertAll, Release;
    if s.doing.Returned? {
      OutputsCancelNone(s, s.doing.first, s.doing.last, s.doing.outputs);
    }
  }

  lemma LeaveCancelsNone(s: Core, n: int, next: Option<int>)
    ensures Leave(s, n, next).answers.fates == s.answers.fates
  {
    hide Flushed, StateOf, MayMove;
  }

  lemma ErrandCancelsNone(s: Core, e: Errand)
    ensures NoneCancelled(s, RunErrand(s, e))
  {
    hide Leave, Post, Flushed, StateOf, MayMove, Prepare, Release, Of, ByTicket;
    match e
    case Do(Opens(n)) =>
      if SlotOf(s.links, n) in s.links.bySlot { LeaveCancelsNone(s, s.links.bySlot[SlotOf(s.links, n)], Some(n)); }
    case Do(Leaves(n)) => LeaveCancelsNone(s, n, None);
    case Refuse(Leaves(n)) => LeaveCancelsNone(s, n, None);
    case LeaveNow(n) => LeaveCancelsNone(s, n, None);
    case _ =>
  }

  lemma ContinueCancelsNone(s: Core, choice: Choice)
    requires !AtRest(s)
    ensures NoneCancelled(s, Continue(s, choice))
  {
    hide Continue, RunErrand;
    if s.doing == Idle {
      PopsErrand(s, choice);
      ErrandCancelsNone(s.(errands := s.errands[1..]), s.errands[0]);
    } else {
      DoingCancelsNone(s, choice);
    }
  }

  lemma TurnCancelsNone(s: Core, now: real)
    ensures NoneCancelled(s, RunTurn(s, now))
  {
    hide Decision, ByTicket, TakeTurn, Mark;
  }

  lemma ReaderCancelsNone(s: Core, a: Action)
    requires Enabled(s, a) && (a.AcceptsLink? || a.Greets? || a.Ends? || a.Steps? || a.Resetting? || a.Writes?
             || a.Breaks?)
    ensures NoneCancelled(s, Next(s, a))
  {
    hide Post, Flushed, MayMove;
  }

  lemma LifeCancelsNone(s: Core, a: Action)
    requires Enabled(s, a)
    requires a.Resolves? || a.Drains? || a.Stops? || a.Settles? || a.FinishesDrain? || a.LeavesAll? || a.FinishesStop?
    ensures NoneCancelled(s, Next(s, a))
  {
    hide Post, ByTicket, DroppedBy, Settle, Complete, Reaches;
  }

  lemma CancelsMatching(s: Core, n: int, requestId: int, o: nat)
    requires Consistent(s.requests)
    requires var fates := TakeCancel(s, n, requestId).answers.fates;
             o in fates && fates[o] == Cancelled && (o in s.answers.fates ==> s.answers.fates[o] != Cancelled)
    ensures o in s.requests.ledger && s.requests.ledger[o].request.connection == n
    ensures s.requests.ledger[o].request.requestId == requestId
  {
    if Withdraws(s.requests.policy, n, requestId) {
      WithdrawnIsQueued(s.requests, n, requestId);
    } else {
      assert o in OrdersOf(s.requests.pending, TicketsOf(s.requests.pending, n, requestId));
    }
  }

  /** A request is only withdrawn by a cancel of its own session, for its own id. */
  lemma OnlyItsCancelWithdraws(s: Core, a: Action, o: nat)
    requires Reached(s) && Enabled(s, a)
    requires var fates := Next(s, a).answers.fates; o in fates && fates[o] == Cancelled
    requires o in s.answers.fates ==> s.answers.fates[o] != Cancelled
    ensures o in s.requests.ledger && a == Cancels(s.requests.ledger[o].request.connection,
                                                   s.requests.ledger[o].request.requestId)
  {
    ReachedOk(s);
    hide Reached, ServerOk, TakeCancel;
    match a
    case Cancels(n, id) => OkConsistent(s); CancelsMatching(s, n, id, o);
    case Continues(choice) => ContinueCancelsNone(s, choice);
    case Turns(now) => TurnCancelsNone(s, now);
    case _ => if a.AcceptsLink? || a.Greets? || a.Ends? || a.Steps? || a.Resetting? || a.Writes? || a.Breaks?
              { ReaderCancelsNone(s, a); } else { LifeCancelsNone(s, a); }
  }

  lemma OkConsistent(s: Core)
    requires ServerOk(s)
    ensures Consistent(s.requests)
  {
    hide Consistent, LinksOk, LogOk, AnswersOk, EndsOk;
  }
}
