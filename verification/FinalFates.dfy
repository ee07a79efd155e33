/** What became of a request is final: once it was answered, withdrawn or lost, nothing that happens
    later changes that. So a request that a cancel withdrew is never answered. */
module FinalFates {
  import opened Batching
  import opened RequestTable
  import opened CallLog
  import opened ServerCore
  import opened LinkInvariant
  import opened RequestInvariant
  import opened LogInvariant
  import opened AnswerInvariant
  import opened AnswerSteps
  import opened AnswerErrands
  import opened AnswerTurns
  import opened EndInvariant
  import opened ServerProperties

  predicate IsFinal(fate: Fate) {
    fate != Awaiting && fate != Owed
  }

  ghost predicate Kept(fates: map<nat, Fate>, fates': map<nat, Fate>) {
    forall o :: o in fates && IsFinal(fates[o]) ==> o in fates' && fates'[o] == fates[o]
  }

  // -- one step ----------------------------------------------------------------------------------

  lemma MendKeeps(r: Requests, fates: map<nat, Fate>, orders: set<nat>, fate: Fate)
    requires FatesOk(r.pending, r.ledger, fates) && forall o :: o in orders ==> Due(r.pending, r.ledger, o)
    ensures Kept(fates, Mend(fates, orders, fate))
  {
    hide Due;
  }

  lemma OneKeeps(fates: map<nat, Fate>, o: nat, fate: Fate)
    requires o in fates ==> !IsFinal(fates[o])
    ensures Kept(fates, fates[o := fate])
  {
  }

  lemma KeptThen(a: map<nat, Fate>, b: map<nat, Fate>, c: map<nat, Fate>)
    requires Kept(a, b) && Kept(b, c)
    ensures Kept(a, c)
  {
  }

  /** The fates are those of the ledger, and the requests the tables hold are due. */
  lemma DueParts(s: Core)
    requires RequestsOk(s) && AnswersOk(s)
    ensures Consistent(s.requests) && FatesOk(s.requests.pending, s.requests.ledger, s.answers.fates)
    ensures OwesOk(Owes(s.doing, s.errands), s.answers.fates, s.requests.ledger)
  {
    hide Consistent, FatesOk, OwesOk, BoxesOk, LostOk, AcceptedOn, FlushOk, LastOk, Shape, Current, Stepping, LifeOk;
  }

  lemma QueuedDue(r: Requests, ws: seq<Waiting>)
    requires Consistent(r) && forall w :: w in ws ==> w in r.policy.waiting
    ensures forall o :: o in Orders(ws) ==> Due(r.pending, r.ledger, o)
  {
    hide Ordered, HoldsOne, Ticketed, Ascending;
  }

  lemma TakenDue(r: Requests)
    requires Consistent(r)
    ensures forall o :: o in Orders(r.batch) ==> Due(r.pending, r.ledger, o)
  {
    hide Ordered, HoldsOne, Ticketed, Ascending;
  }

  lemma RunningDue(r: Requests, tickets: set<nat>)
    requires Consistent(r) && forall t :: t in tickets && t in r.pending ==> r.pending[t].Awaited()
    ensures forall o :: o in OrdersOf(r.pending, tickets * r.pending.Keys) ==> Due(r.pending, r.ledger, o)
    ensures forall o :: o in Orders(ByTicket(r.pending, tickets, r.nextTicket)) ==> Due(r.pending, r.ledger, o)
  {
    hide Ordered, HoldsOne, Listed, Ascending;
    forall w | w in ByTicket(r.pending, tickets, r.nextTicket) ensures Due(r.pending, r.ledger, w.order) {
      ByTicketMembers(r.pending, tickets, r.nextTicket, w);
      var t :| t in tickets && t in r.pending && t < r.nextTicket && r.pending[t].waiting == w;
    }
  }

  lemma StepFates(s: Core, w: Waiting)
    requires ServerOk(s)
    ensures Kept(s.answers.fates, TakeStep(s, w).answers.fates)
  {
    hide LinksOk, LogOk, EndsOk, OwesOk, BoxesOk, LostOk, AcceptedOn, FlushOk, LastOk, Due, Listed, Ticketed, HoldsOne,
         Post;
  }

  lemma CancelFates(s: Core, n: int, requestId: int)
    requires ServerOk(s)
    ensures Kept(s.answers.fates, TakeCancel(s, n, requestId).answers.fates)
  {
    hide ServerOk, Consistent, FatesOk, OwesOk, Kept, Mark, Withdraw, IsFinal;
    OkParts(s);
    DueParts(s);
    var r := s.requests;
    if Withdraws(r.policy, n, requestId) {
      QueuedDue(r, [Withdrawn(r, n, requestId)]);
      FirstFound(r.policy, n, requestId);
      MendKeeps(r, s.answers.fates, Orders([Withdrawn(r, n, requestId)]), Cancelled);
      QueuedFate(s, n, requestId);
      MendOne(s.answers.fates, Withdrawn(r, n, requestId).order, Cancelled);
      assert Orders([Withdrawn(r, n, requestId)]) == {Withdrawn(r, n, requestId).order};
    } else {
      var tickets := TicketsOf(r.pending, n, requestId);
      RunningDue(r, tickets);
      assert tickets * r.pending.Keys == tickets;
      MendKeeps(r, s.answers.fates, OrdersOf(r.pending, tickets), Cancelled);
    }
  }

  lemma FirstFound(p: Policy, n: int, requestId: int)
    requires Withdraws(p, n, requestId)
    ensures p.waiting[Find(p.waiting, n, requestId)] in p.waiting
  {
  }

  lemma OkParts(s: Core)
    requires ServerOk(s)
    ensures LinksOk(s) && RequestsOk(s) && AnswersOk(s)
  {
    hide LinksOk, RequestsOk, LogOk, AnswersOk, EndsOk;
  }

  lemma CompleteFates(r: Requests, s: Core, t: nat, result: Option<int>)
    requires s.requests == r && Consistent(r) && FatesOk(r.pending, r.ledger, s.answers.fates) && t in r.pending
    ensures Kept(s.answers.fates, CompleteItem(s, t, result).answers.fates)
  {
    hide Consistent, Complete, Post, FatesOk, Kept, AnswerRequest, IsFinal;
    ConsistentTickets(r);
    SameFates(s.answers.fates);
    if r.pending[t].Awaited() {
      AwaitedFate(r, s.answers.fates, t);
      var w := r.pending[t].waiting;
      NotFinal(s.answers.fates, w.order);
      AnswerFates(s.answers, Open, w, r.pending[t].generation, result);
      OneKeeps(s.answers.fates, w.order, Lost);
    }
  }

  lemma NotFinal(fates: map<nat, Fate>, o: nat)
    requires o in fates && fates[o] == Awaiting
    ensures !IsFinal(fates[o])
  {
  }

  lemma ResolveFates(s: Core, t: nat, result: Option<int>)
    requires ServerOk(s)
    ensures Kept(s.answers.fates, Resolve(s, t, result).answers.fates)
  {
    hide ServerOk, Consistent, FatesOk, OwesOk, CompleteItem;
    OkParts(s);
    DueParts(s);
    if t in s.requests.pending {
      CompleteFates(s.requests, s, t, result);
    }
  }

  lemma TurnFates(s: Core, now: real)
    requires ServerOk(s)
    ensures Kept(s.answers.fates, RunTurn(s, now).answers.fates)
  {
    hide ServerOk, Consistent, FatesOk, OwesOk, Kept, Decision, Mark, TakeTurn, Orders, OrdersOf, ByTicket, Mend;
    OkParts(s);
    DueParts(s);
    var r := s.requests;
    var late := Overdue(r.pending, now);
    RunningDue(r, late);
    assert late * r.pending.Keys == late;
    SameFates(s.answers.fates);
    MarkedPolicy(r, late);
    var turn := Decision(r.policy, now, OpenSessions(s.links));
    ExpiredQueued(r.policy, now, OpenSessions(s.links));
    QueuedDue(r, turn.expired);
    MendKeeps(r, s.answers.fates, OrdersOf(r.pending, late), Owed);
    MendTwice(r, s.answers.fates, OrdersOf(r.pending, late), Orders(turn.expired));
  }

  lemma MarkedPolicy(r: Requests, tickets: set<nat>)
    ensures Mark(r, tickets).policy == r.policy
  {
  }

  lemma ExpiredQueued(p: Policy, now: real, openSessions: nat)
    ensures forall w :: w in Decision(p, now, openSessions).expired ==> w in p.waiting
  {
    LateMembers(p.waiting, now);
  }

  lemma MendTwice(r: Requests, fates: map<nat, Fate>, a: set<nat>, b: set<nat>)
    requires FatesOk(r.pending, r.ledger, fates)
    requires (forall o :: o in a ==> Due(r.pending, r.ledger, o)) && forall o :: o in b ==> Due(r.pending, r.ledger, o)
    ensures Kept(fates, Mend(Mend(fates, a, Owed), b, Owed))
  {
    hide Due;
  }

  // -- the step thread -----------------------------------------------------------------------------

  lemma OwedNotFinal(s: Core, w: Waiting)
    requires OwesOk(Owes(s.doing, s.errands), s.answers.fates, s.requests.ledger) && w in Owes(s.doing, s.errands)
    ensures w.order in s.answers.fates && !IsFinal(s.answers.fates[w.order])
  {
  }

  lemma AnswerFates(a: Answers, state: ConnectionState, w: Waiting, generation: nat, result: Option<int>)
    requires w.order in a.fates ==> !IsFinal(a.fates[w.order])
    ensures Kept(a.fates, AnswerRequest(a, state, w, generation, result).fates)
  {
  }

  lemma ErrandFates(s: Core)
    requires ServerOk(s) && s.doing == Idle && s.errands != []
    ensures Kept(s.answers.fates, RunErrand(s.(errands := s.errands[1..]), s.errands[0]).answers.fates)
  {
    hide ServerOk, Consistent, FatesOk, OwesOk, Kept, Leave, Prepare, Release, Of, ByTicket, AnswerRequest, Mend,
         Orders, OwedBy, IsFinal, Flushed, Post, MayMove;
    OkParts(s);
    DueParts(s);
    PopOwes(s.errands);
    var t := s.(errands := s.errands[1..]);
    SameFates(s.answers.fates);
    match s.errands[0]
    case AnswerTo(w) =>
      OwedNotFinal(s, w);
      AnswerFates(s.answers, StateOf(t, w.connection), w, 0, None);
    case AnswerIfThere(w) =>
      OwedNotFinal(s, w);
      AnswerFates(s.answers, StateOf(t, w.connection), w, 0, None);
      OneKeeps(s.answers.fates, w.order, Lost);
    case Do(Opens(n)) =>
      if SlotOf(t.links, n) in t.links.bySlot { LeaveCancelsNone(t, t.links.bySlot[SlotOf(t.links, n)], Some(n)); }
    case Do(Leaves(n)) => LeaveCancelsNone(t, n, None);
    case Refuse(Leaves(n)) => LeaveCancelsNone(t, n, None);
    case LeaveNow(n) => LeaveCancelsNone(t, n, None);
    case Do(Resets(n, id)) => ResetFates(t, n, id);
    case RunBatch =>
      TakenDue(s.requests);
      MendKeeps(s.requests, s.answers.fates, Orders(s.requests.batch), Lost);
    case _ =>
  }

  lemma SameFates(fates: map<nat, Fate>)
    ensures Kept(fates, fates)
  {
  }

  lemma ResetFates(s: Core, n: int, requestId: int)
    requires Consistent(s.requests) && FatesOk(s.requests.pending, s.requests.ledger, s.answers.fates)
    ensures Kept(s.answers.fates, StartReset(s, n, requestId).answers.fates)
  {
    hide Consistent, FatesOk, Kept, Mend, Orders, Release, ByTicket, Of;
    var r := s.requests;
    SameFates(s.answers.fates);
    var running := set t | t in r.pending && r.pending[t].waiting.connection == n && r.pending[t].future
      && r.pending[t].Awaited();
    OfMembers(r.policy.waiting, n);
    QueuedDue(r, Of(r.policy.waiting, n));
    RunningDue(r, running);
    OrdersJoin(Of(r.policy.waiting, n), ByTicket(r.pending, running, r.nextTicket));
    MendKeeps(r, s.answers.fates, Orders(Of(r.policy.waiting, n) + ByTicket(r.pending, running, r.nextTicket)), Owed);
  }

  lemma OrdersJoin(a: seq<Waiting>, b: seq<Waiting>)
    ensures Orders(a + b) == Orders(a) + Orders(b)
  {
  }

  lemma {:induction false} OutputsFates(s: Core, first: nat, last: nat, outputs: Option<seq<Output>>)
    requires Awaits(s, first, last) && TablesAgree(s.links, {}) && BeingForgotten(s.doing) == {} && first <= last
             && AnswersOk(s)
    ensures Kept(s.answers.fates, TakeOutputs(s, first, last, outputs).answers.fates)
    decreases last - first
  {
    SameFates(s.answers.fates);
    if first < last {
      assert first in s.requests.pending;
      hide Awaits, AnswersOk, TablesAgree, AnswerSteps.Finishing, Kept, Consistent, FatesOk;
      AwaitsFinishing(s, first, last);
      AnswersFates(s);
      AwaitsConsistent(s, first, last);
      var whole := IsWhole(outputs, last - first);
      var t := if !whole then CompleteItem(s, first, None)
               else if outputs.value[0].Future? then s.(requests := Register(s.requests, first))
               else CompleteItem(s, first, outputs.value[0].result);
      var result := if whole && !outputs.value[0].Future? then outputs.value[0].result else None;
      CompleteAnswers(s, first, result);
      RegisterAnswers(s, first);
      CompleteFates(s.requests, s, first, result);
      TakeOne(s, t, first, last);
      OutputsFates(t, first + 1, last, if whole then Some(outputs.value[1..]) else None);
      KeptThen(s.answers.fates, t.answers.fates, TakeOutputs(s, first, last, outputs).answers.fates);
    }
  }

  lemma AnswersFates(s: Core)
    requires AnswersOk(s)
    ensures FatesOk(s.requests.pending, s.requests.ledger, s.answers.fates)
  {
    hide FatesOk, OwesOk, BoxesOk, LostOk, AcceptedOn, FlushOk, LastOk;
  }

  lemma AwaitsConsistent(s: Core, first: nat, last: nat)
    requires Awaits(s, first, last)
    ensures Consistent(s.requests)
  {
    hide Consistent;
  }

  lemma ReturnedFates(s: Core, choice: Choice)
    requires ServerOk(s) && s.doing.Returned?
    ensures Kept(s.answers.fates, Continue(s, choice).answers.fates)
  {
    hide ServerOk;
    OkParts(s);
    hide Consistent, HeldOpen, Current, Fresh, TablesAgree, AnswersOk, QueuesFit, TakeOutputs, Progress, Kept;
    OutputsFates(s, s.doing.first, s.doing.last, s.doing.outputs);
  }

  lemma DoingFates(s: Core, choice: Choice)
    requires ServerOk(s) && s.doing != Idle && !s.doing.Returned?
    ensures Kept(s.answers.fates, Continue(s, choice).answers.fates)
  {
    hide ServerOk, Consistent, FatesOk, OwesOk, Kept, Release, AnswerRequest, Mend, InsertAll, OwedBy, IsFinal, Flushed,
         Post, MayMove;
    OkParts(s);
    DueParts(s);
    SameFates(s.answers.fates);
    match s.doing
    case Forgetting(n, _, _) => MendKeeps(s.requests, s.answers.fates, DueOf(s.requests, n), Lost);
    case Dropped(n, _, owed) =>
      if owed != [] {
        assert owed[0] in Owes(s.doing, s.errands);
        OwedNotFinal(s, owed[0]);
        AnswerFates(s.answers, StateOf(s, owed[0].connection), owed[0], 0, None);
      }
    case _ =>
  }

  lemma ContinueFates(s: Core, choice: Choice)
    requires ServerOk(s) && !AtRest(s)
    ensures Kept(s.answers.fates, Continue(s, choice).answers.fates)
  {
    hide ServerOk, Continue, Kept, RunErrand;
    if s.doing == Idle {
      PopsErrand(s, choice);
      ErrandFates(s);
    } else if s.doing.Returned? {
      ReturnedFates(s, choice);
    } else {
      DoingFates(s, choice);
    }
  }

  lemma SettleFates(s: Core, order: seq<int>, shut: seq<int>)
    requires ServerOk(s)
    ensures Kept(s.answers.fates, SettleAll(s, order, shut).answers.fates)
  {
    hide ServerOk, Consistent, FatesOk, OwesOk, Kept, Mend, Orders, Settle, ByTicket, DroppedBy;
    OkParts(s);
    DueParts(s);
    var r := s.requests;
    var awaited := set t | t in r.pending && r.pending[t].Awaited();
    RunningDue(r, awaited);
    ConsistentOrdered(r);
    FromQueue(r.policy, order);
    QueuedDue(r, DroppedBy(r.policy, order));
    MendKeeps(r, s.answers.fates, Orders(ByTicket(r.pending, awaited, r.nextTicket))
      + Orders(DroppedBy(r.policy, order)), Owed);
  }

  lemma ConsistentOrdered(r: Requests)
    requires Consistent(r)
    ensures Ordered(r.policy)
  {
    hide Ordered, Listed, Ticketed, HoldsOne;
  }

  lemma ReaderFates(s: Core, a: Action)
    requires Enabled(s, a) && (a.AcceptsLink? || a.Greets? || a.Ends? || a.Resetting? || a.Writes? || a.Breaks?)
    ensures Next(s, a).answers.fates == s.answers.fates
  {
    hide Post, Flushed, MayMove, Greet;
    if a.Greets? {
      GreetFates(s, a.n, a.hello);
    }
  }

  lemma GreetFates(s: Core, n: int, hello: Hello)
    requires n in s.links.connections
    ensures Greet(s, n, hello).answers.fates == s.answers.fates
  {
    hide Post, Flushed, MayMove;
  }

  lemma LifeFates(s: Core, a: Action)
    requires Enabled(s, a) && (a.Drains? || a.Stops? || a.FinishesDrain? || a.LeavesAll? || a.FinishesStop?)
    ensures Next(s, a).answers.fates == s.answers.fates
  {
  }

  // -- every run -----------------------------------------------------------------------------------

  /** No step of any thread changes what became of a request. */
  lemma FatesAreFinal(s: Core, a: Action)
    requires ServerOk(s) && Enabled(s, a)
    ensures Kept(s.answers.fates, Next(s, a).answers.fates)
  {
    hide ServerOk, Kept, TakeStep, TakeCancel, Resolve, RunTurn, Continue, SettleAll;
    SameFates(s.answers.fates);
    match a
    case Steps(w) => StepFates(s, w);
    case Cancels(n, id) => CancelFates(s, n, id);
    case Resolves(t, result) => ResolveFates(s, t, result);
    case Turns(now) => TurnFates(s, now);
    case Continues(choice) => ContinueFates(s, choice);
    case Settles(order, shut) => SettleFates(s, order, shut);
    case _ => if a.AcceptsLink? || a.Greets? || a.Ends? || a.Resetting? || a.Writes? || a.Breaks?
              { ReaderFates(s, a); } else { LifeFates(s, a); }
  }

  lemma {:induction false} RunFates(states: seq<Core>, actions: seq<Action>, i: nat, j: nat)
    requires IsRun(states, actions) && Reached(states[0]) && i <= j <= |actions|
    ensures Kept(states[i].answers.fates, states[j].answers.fates)
    decreases j
  {
    hide Reached, ServerOk, Kept;
    SameFates(states[i].answers.fates);
    if i < j {
      RunFates(states, actions, i, j - 1);
      ReachedOk(states[0]);
      RunKeeps(states, actions, j - 1);
      FatesAreFinal(states[j - 1], actions[j - 1]);
      KeptThen(states[i].answers.fates, states[j - 1].answers.fates, states[j].answers.fates);
    }
  }

  lemma {:induction false} RunReached(states: seq<Core>, actions: seq<Action>, i: nat)
    requires IsRun(states, actions) && Reached(states[0]) && i <= |actions|
    ensures Reached(states[i])
    decreases i
  {
    hide Reached;
    if i > 0 {
      RunReached(states, actions, i - 1);
      OneAction(states[i - 1], actions[i - 1]);
    }
  }

  lemma OneAction(s: Core, a: Action)
    requires Reached(s) && Enabled(s, a)
    ensures Reached(Next(s, a))
  {
    hide Enabled, Next;
    var maxSessions: nat, maxBatch: nat, window: real :| maxBatch >= 1 && Reachable(s, maxSessions, maxBatch, window);
    var states, actions :|
      IsRun(states, actions) && states[0] == Start(maxSessions, maxBatch, window) && states[|actions|] == s;
    var longer, more := states + [Next(s, a)], actions + [a];
    assert IsRun(longer, more) && longer[0] == states[0] && longer[|more|] == Next(s, a);
    assert Reachable(Next(s, a), maxSessions, maxBatch, window);
  }

  /** Once a cancel withdrew a request, no later state of any run has an answer to it, in any outbox. */
  lemma NoAnswerOnceWithdrawn(states: seq<Core>, actions: seq<Action>, i: nat, j: nat, o: nat, n: int, k: nat)
    requires IsRun(states, actions) && Reached(states[0]) && i <= j <= |actions|
    requires o in states[i].answers.fates && states[i].answers.fates[o] == Cancelled
    ensures o in states[j].answers.fates && states[j].answers.fates[o] == Cancelled
    ensures !AnsweredAt(states[j], n, k, o)
  {
    hide Reached, AnsweredAt, ServerOk, Enabled, Next;
    RunFates(states, actions, i, j);
    if AnsweredAt(states[j], n, k, o) {
      RunReached(states, actions, j);
      AtMostOneAnswer(states[j], o, n, k);
    }
  }
}
