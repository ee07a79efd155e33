/** The transitions that withdraw or finish requests, and the step thread's inside one event or one
    batch, keep `AnswerInvariant.AnswersOk`. */
module AnswerSteps {
  import opened Batching
  import opened RequestTable
  import opened ServerCore
  import opened LinkInvariant
  import opened RequestInvariant
  import opened AnswerInvariant

  // -- which requests an operation settles -----------------------------------------------------

  lemma WithdrawDischarges(r: Requests, n: int, requestId: int)
    requires Consistent(r) && Withdraws(r.policy, n, requestId)
    ensures Discharges(r, Withdraw(r, n, requestId), {Withdrawn(r, n, requestId).order})
  {
    WithdrawnIsQueued(r, n, requestId);
    hide Consistent, Find, Cancel;
  }

  lemma MarkDischarges(r: Requests, tickets: set<nat>)
    requires Named(r.ledger, r.policy.nextOrder) && Ticketed(r.pending, r.ledger)
    requires forall t :: t in tickets ==> t in r.pending && r.pending[t].Awaited()
    ensures Discharges(r, Mark(r, tickets), OrdersOf(r.pending, tickets))
  {
    var q, due := Mark(r, tickets), OrdersOf(r.pending, tickets);
    forall o | o in r.ledger ensures Due(q.pending, q.ledger, o) <==> Due(r.pending, r.ledger, o) && o !in due {
      if o in due {
        var t :| t in tickets && r.pending[t].waiting.order == o;
        assert r.ledger[o].at == Running(t);
      } else if r.ledger[o].at.Running? {
        assert r.ledger[o].at.ticket !in tickets;
      }
    }
  }

  lemma ReleaseDischarges(r: Requests, n: int)
    requires Ticketed(r.pending, r.ledger) && Listed([], r.ledger, Taken)
    ensures Discharges(r, Release(r, n), DueOf(r, n))
  {
    var q := Release(r, n);
    forall o | o in r.ledger ensures Due(q.pending, q.ledger, o) <==> Due(r.pending, r.ledger, o) && o !in DueOf(r, n) {
      if r.ledger[o].at.Running? {
        assert r.pending[r.ledger[o].at.ticket].waiting == r.ledger[o].request;
      }
    }
  }

  lemma CompleteDischarges(r: Requests, t: nat)
    requires Named(r.ledger, r.policy.nextOrder) && Ticketed(r.pending, r.ledger) && t in r.pending
    ensures Discharges(r, Complete(r, t), if r.pending[t].Awaited() then {r.pending[t].waiting.order} else {})
  {
    var q := Complete(r, t);
    assert r.ledger[r.pending[t].waiting.order].at == Running(t);
    forall o | o in r.ledger && o != r.pending[t].waiting.order
      ensures Due(q.pending, q.ledger, o) <==> Due(r.pending, r.ledger, o)
    {
      if r.ledger[o].at.Running? {
        assert r.ledger[o].at.ticket in r.pending;
      }
    }
  }

  lemma TakeTurnDischarges(r: Requests, now: real, openSessions: nat)
    requires Consistent(r) && r.policy.maxBatch >= 1
    ensures Discharges(r, TakeTurn(r, now, openSessions), Orders(Decision(r.policy, now, openSessions).expired))
    ensures Names(Decision(r.policy, now, openSessions).expired, Orders(Decision(r.policy, now, openSessions).expired),
                  r.ledger)
  {
    hide Decision, Take, HoldsOne, Ticketed, Ascending, Listed, Discharges, Names;
    Parted(r.policy, now, openSessions);
    ExpiredNamed(r.policy, now, openSessions, r.ledger);
    TurnDischarges(r, TakeTurn(r, now, openSessions), Decision(r.policy, now, openSessions));
  }

  lemma TurnDischarges(r: Requests, q: Requests, turn: Turn)
    requires Listed(r.policy.waiting, r.ledger, Queued) && Orders(turn.batch) !! Orders(turn.expired)
    requires forall w :: w in turn.batch || w in turn.expired ==> w in r.policy.waiting
    requires q.ledger == TurnLedger(turn, r.ledger) && q.pending == r.pending
    ensures Discharges(r, q, Orders(turn.expired))
  {
    forall o | o in Orders(turn.expired) || o in Orders(turn.batch) ensures o in r.ledger && r.ledger[o].at == Queued {
      var w :| (w in turn.expired || w in turn.batch) && w.order == o;
      assert w in r.policy.waiting;
    }
  }

  lemma {:induction false} LateAscend(ws: seq<Waiting>, now: real)
    requires Ascending(ws)
    ensures Ascending(Late(ws, now))
  {
    if ws != [] {
      AscendingTail(ws);
      LateAscend(ws[1..], now);
      LateMembers(ws[1..], now);
      AscendingCons(ws[0], Late(ws[1..], now));
    }
  }

  lemma ExpiredNamed(p: Policy, now: real, openSessions: nat, ledger: Ledger)
    requires Ascending(p.waiting) && Listed(p.waiting, ledger, Queued)
    ensures var expired := Decision(p, now, openSessions).expired; Names(expired, Orders(expired), ledger)
  {
    LateAscend(p.waiting, now);
    LateMembers(p.waiting, now);
    NamesAll(Late(p.waiting, now), ledger);
  }

  lemma NamesAll(ws: seq<Waiting>, ledger: Ledger)
    requires Distinct(ws) && forall w :: w in ws ==> w.order in ledger && ledger[w.order].request == w
    ensures Names(ws, Orders(ws), ledger)
  {
  }

  // -- lists of running requests ---------------------------------------------------------------

  lemma {:induction false} ByTicketMembers(pending: map<nat, Pending>, tickets: set<nat>, below: nat, w: Waiting)
    ensures w in ByTicket(pending, tickets, below)
       <==> exists t :: t in tickets && t in pending && t < below && pending[t].waiting == w
  {
    if below > 0 {
      ByTicketMembers(pending, tickets, below - 1, w);
    }
  }

  lemma {:induction false} ByTicketDistinct(pending: map<nat, Pending>, tickets: set<nat>, below: nat, ledger: Ledger)
    requires Ticketed(pending, ledger)
    ensures Distinct(ByTicket(pending, tickets, below))
  {
    if below > 0 {
      ByTicketDistinct(pending, tickets, below - 1, ledger);
      var rest := ByTicket(pending, tickets, below - 1);
      if below - 1 in tickets && below - 1 in pending {
        var last := pending[below - 1].waiting;
        forall v | v in rest ensures v.order != last.order {
          ByTicketMembers(pending, tickets, below - 1, v);
          var t :| t in tickets && t in pending && t < below - 1 && pending[t].waiting == v;
          assert ledger[v.order].at == Running(t) && ledger[last.order].at == Running(below - 1);
        }
        DistinctJoin(rest, [last]);
      }
    }
  }

  lemma ByTicketNames(pending: map<nat, Pending>, tickets: set<nat>, below: nat, ledger: Ledger)
    requires Ticketed(pending, ledger) && forall t :: t in pending ==> t < below
    ensures Names(ByTicket(pending, tickets, below), OrdersOf(pending, tickets), ledger)
  {
    ByTicketDistinct(pending, tickets, below, ledger);
    var ws := ByTicket(pending, tickets, below);
    forall w | w in ws ensures w.order in OrdersOf(pending, tickets) && w.order in ledger
      && ledger[w.order].request == w {
      ByTicketMembers(pending, tickets, below, w);
    }
    forall o | o in OrdersOf(pending, tickets) && o in ledger ensures ledger[o].request in ws {
      var t :| t in tickets && t in pending && pending[t].waiting.order == o;
      ByTicketMembers(pending, tickets, below, pending[t].waiting);
    }
  }

  lemma {:induction false} OfAscends(ws: seq<Waiting>, connection: int)
    requires Ascending(ws)
    ensures Ascending(Of(ws, connection))
  {
    if ws != [] {
      AscendingTail(ws);
      OfAscends(ws[1..], connection);
      OfMembers(ws[1..], connection);
      AscendingCons(ws[0], Of(ws[1..], connection));
    }
  }

  /** Two lists that name different requests name them all together. */
  lemma NamesBoth(a: seq<Waiting>, b: seq<Waiting>, ordersA: set<nat>, ordersB: set<nat>, ledger: Ledger)
    requires Names(a, ordersA, ledger) && Names(b, ordersB, ledger) && ordersA !! ordersB
    ensures Names(a + b, ordersA + ordersB, ledger)
  {
    DistinctJoin(a, b);
  }

  // -- a cancel, and a future that is done -----------------------------------------------------

  /** The table changed, the step thread and the connections did not. */
  lemma SameProgress(s: Core, t: Core)
    requires t.links == s.links && t.server == s.server && t.doing == s.doing
    ensures Progress(s, t)
  {
  }

  /** Once everything was taken out of the tables, nothing is due. */
  lemma NothingDue(s: Core, o: nat)
    requires RequestsOk(s) && Settled(s.life)
    ensures !Due(s.requests.pending, s.requests.ledger, o)
  {
  }

  lemma NothingDischarged(s: Core, q: Requests, due: set<nat>)
    requires RequestsOk(s) && Discharges(s.requests, q, due)
    ensures Last(s.life) ==> due == {}
  {
    if Last(s.life) {
      forall o | o in due ensures false {
        NothingDue(s, o);
      }
    }
  }

  lemma MendOne(fates: map<nat, Fate>, o: nat, fate: Fate)
    requires o in fates
    ensures fates[o := fate] == Mend(fates, {o}, fate)
  {
  }

  lemma QueuedFate(s: Core, n: int, requestId: int)
    requires Consistent(s.requests) && AnswersOk(s) && Withdraws(s.requests.policy, n, requestId)
    ensures Withdrawn(s.requests, n, requestId).order in s.answers.fates
  {
    hide OwesOk, BoxesOk, LostOk, FlushOk, Find;
    WithdrawnIsQueued(s.requests, n, requestId);
  }

  lemma CancelAnswers(s: Core, n: int, requestId: int)
    requires RequestsOk(s) && AnswersOk(s)
    ensures AnswersOk(TakeCancel(s, n, requestId))
  {
    var t := TakeCancel(s, n, requestId);
    hide AnswersOk, Consistent, Current, Discharges, Progress, Withdraw, Withdrawn, Mark, Settled, Shape, Stepping;
    SameProgress(s, t);
    if Withdraws(s.requests.policy, n, requestId) {
      WithdrawDischarges(s.requests, n, requestId);
      QueuedFate(s, n, requestId);
      var o := Withdrawn(s.requests, n, requestId).order;
      NothingDischarged(s, t.requests, {o});
      MendOne(s.answers.fates, o, Cancelled);
      MendsKeeps(s, t, {o}, Cancelled, []);
    } else {
      var tickets := TicketsOf(s.requests.pending, n, requestId);
      ConsistentTickets(s.requests);
      MarkDischarges(s.requests, tickets);
      NothingDischarged(s, t.requests, OrdersOf(s.requests.pending, tickets));
      MendsKeeps(s, t, OrdersOf(s.requests.pending, tickets), Cancelled, []);
    }
  }

  lemma ConsistentTickets(r: Requests)
    requires Consistent(r)
    ensures Ticketed(r.pending, r.ledger) && Named(r.ledger, r.policy.nextOrder)
  {
  }

  /** What a request needs to be finished: its session is still held, and reachable unless it leaves now. */
  ghost predicate Finishing(s: Core) {
    && Consistent(s.requests) && HeldOpen(s.requests.hold, s.links.open) && Current(s.requests.pending, s.links)
    && TablesAgree(s.links, BeingForgotten(s.doing))
    && (Last(s.life) ==> s.requests.pending == map[])
  }

  lemma AwaitedOpen(s: Core, t: nat)
    requires Finishing(s) && t in s.requests.pending && s.requests.pending[t].Awaited()
    ensures var n := s.requests.pending[t].waiting.connection;
            && n in s.links.connections
            && (Reaches(s.links, s.requests.pending[t]) <==> s.links.connections[n].state == Open)
            && (!Reaches(s.links, s.requests.pending[t]) ==> s.links.connections[n].state == Closing)
  {
    RunningOpen(s.requests, s.links.open);
    hide Consistent;
  }

  lemma AwaitedFate(r: Requests, fates: map<nat, Fate>, t: nat)
    requires Ticketed(r.pending, r.ledger) && FatesOk(r.pending, r.ledger, fates)
    requires t in r.pending && r.pending[t].Awaited()
    ensures var w := r.pending[t].waiting;
            w.order in fates && fates[w.order] == Awaiting && w.order in r.ledger && r.ledger[w.order].request == w
  {
  }

  lemma OneFate(r: Requests, q: Requests, o: nat, fates: map<nat, Fate>, fate: Fate, owes: seq<Waiting>)
    requires FatesOk(r.pending, r.ledger, fates) && OwesOk(owes, fates, r.ledger) && o in fates
    requires Discharges(r, q, {o}) && fate != Awaiting && fate != Owed
    ensures FatesOk(q.pending, q.ledger, fates[o := fate]) && OwesOk(owes, fates[o := fate], q.ledger)
  {
    MendOne(fates, o, fate);
    MendedFates(r, q, {o}, fates, fate);
    MendedOwes(owes, [], r, q, {o}, fates, fate);
    assert owes + [] == owes;
  }

  lemma ReachedFate(s: Core, t: nat)
    requires AnswersOk(s) && Finishing(s) && t in s.requests.pending && s.requests.pending[t].Awaited()
    ensures var w := s.requests.pending[t].waiting;
            && w.order in s.answers.fates && s.answers.fates[w.order] == Awaiting
            && w.order in s.requests.ledger && s.requests.ledger[w.order].request == w
    ensures FatesOk(s.requests.pending, s.requests.ledger, s.answers.fates)
    ensures OwesOk(Owes(s.doing, s.errands), s.answers.fates, s.requests.ledger)
  {
    hide BoxesOk, LostOk, FlushOk, OwesOk, Owes, Named, Ticketed;
    FinishingTickets(s);
    AwaitedFate(s.requests, s.answers.fates, t);
  }

  lemma ReachedAnswers(s: Core, t: nat, result: Option<int>)
    requires AnswersOk(s) && Finishing(s) && t in s.requests.pending && Reaches(s.links, s.requests.pending[t])
    ensures AnswersOk(CompleteItem(s, t, result))
  {
    hide Finishing, AnswersOk, FatesOk, OwesOk, Discharges, Complete, Owes, Named, Ticketed, Progress, Ended;
    var item, s' := s.requests.pending[t], CompleteItem(s, t, result);
    var w := item.waiting;
    ReachedFate(s, t);
    FinishingTickets(s);
    CompleteDischarges(s.requests, t);
    OneFate(s.requests, s'.requests, w.order, s.answers.fates, s'.answers.fates[w.order], Owes(s.doing, s.errands));
    SameProgress(s, s');
    SameLast(s, s');
    OpenNotEnded(s.links, s.server, w.connection);
    DischargesMove(s.requests, s'.requests, {w.order});
    AnswersOneKeeps(s, s', w, Open, item.generation, result);
  }

  lemma OpenNotEnded(l: Links, server: ServerState, n: int)
    requires n in l.connections && l.connections[n].state == Open
    ensures !Ended(l, server, n)
  {
  }

  lemma DischargesMove(r: Requests, q: Requests, due: set<nat>)
    requires Discharges(r, q, due)
    ensures Moves(r.ledger, q.ledger)
  {
  }

  lemma SameLast(s: Core, t: Core)
    requires AnswersOk(s) && t.life == s.life && t.stayed == s.stayed && t.doing == s.doing && t.errands == s.errands
    ensures LastOk(t.life, t.stayed, Owes(t.doing, t.errands))
  {
  }

  lemma UnreachedLost(s: Core, t: nat)
    requires AnswersOk(s) && Finishing(s) && t in s.requests.pending && !Reaches(s.links, s.requests.pending[t])
    requires s.requests.pending[t].Awaited()
    ensures var w := s.requests.pending[t].waiting;
            && w.order in s.answers.fates && w.order in s.requests.ledger && s.requests.ledger[w.order].request == w
            && Ended(s.links, s.server, w.connection) && s.stayed == {} && !Last(s.life)
  {
    hide OwesOk, BoxesOk, LostOk, FlushOk, Consistent, Current, HeldOpen, TablesAgree;
    AwaitedOpen(s, t);
    ConsistentTickets(s.requests);
    AwaitedFate(s.requests, s.answers.fates, t);
  }

  lemma FinishingTickets(s: Core)
    requires Finishing(s)
    ensures Ticketed(s.requests.pending, s.requests.ledger) && Named(s.requests.ledger, s.requests.policy.nextOrder)
  {
  }

  lemma UnreachedAnswers(s: Core, t: nat, result: Option<int>)
    requires AnswersOk(s) && Finishing(s) && t in s.requests.pending && !Reaches(s.links, s.requests.pending[t])
    ensures AnswersOk(CompleteItem(s, t, result))
  {
    hide Finishing, AnswersOk, Discharges, Complete, Owes, Progress, Named, Ticketed, Ended, Reaches;
    var item, s' := s.requests.pending[t], CompleteItem(s, t, result);
    FinishingTickets(s);
    CompleteDischarges(s.requests, t);
    SameProgress(s, s');
    if item.Awaited() {
      UnreachedLost(s, t);
      MendOne(s.answers.fates, item.waiting.order, Lost);
      MendsKeeps(s, s', {item.waiting.order}, Lost, []);
    } else {
      NoneDischarged(s.requests, s'.requests);
      SameBoxesGrow(s, s');
      QuietKeeps(s, s');
    }
  }

  lemma NoneDischarged(r: Requests, q: Requests)
    requires Discharges(r, q, {})
    ensures SameDue(r, q)
  {
  }

  lemma SameBoxesGrow(s: Core, t: Core)
    requires t.answers.boxes == s.answers.boxes
    ensures Grows(s.answers.boxes, t.answers.boxes, t.links, t.server)
  {
  }

  lemma CompleteAnswers(s: Core, t: nat, result: Option<int>)
    requires AnswersOk(s) && Finishing(s) && t in s.requests.pending
    ensures AnswersOk(CompleteItem(s, t, result))
  {
    hide AnswersOk, Finishing;
    if Reaches(s.links, s.requests.pending[t]) {
      ReachedAnswers(s, t, result);
    } else {
      UnreachedAnswers(s, t, result);
    }
  }

  lemma ResolveAnswers(s: Core, t: nat, result: Option<int>)
    requires LinksOk(s) && RequestsOk(s) && AnswersOk(s)
    ensures AnswersOk(Resolve(s, t, result))
  {
    if t in s.requests.pending && s.requests.pending[t].future {
      hide AnswersOk, Consistent, HeldOpen, Current, TablesAgree;
      CompleteAnswers(s, t, result);
    }
  }

  // -- the step thread inside one event or one batch -------------------------------------------

  /** `t` changes the outbox of `n` alone, and answers nobody. */
  ghost predicate PostsFor(s: Core, t: Core, n: int) {
    && t.answers.fates == s.answers.fates
    && (forall k :: k != n ==> BoxOf(t.answers.boxes, k) == BoxOf(s.answers.boxes, k))
    && Adds(BoxOf(s.answers.boxes, n), BoxOf(t.answers.boxes, n), Ended(t.links, t.server, n))
  }

  lemma CallBoxes(s: Core, choice: Choice)
    requires s.doing.ClosingCall? || s.doing.OpeningCall? || (s.doing.Dropped? && s.doing.owed == [])
          || s.doing.Reopening? || s.doing.Reopened?
    ensures PostsFor(s, Continue(s, choice), s.doing.n)
  {
    SameAdds(BoxOf(s.answers.boxes, s.doing.n), Ended(Continue(s, choice).links, s.server, s.doing.n));
    hide Adds, Ended;
  }

  lemma EndBoxes(s: Core, choice: Choice)
    requires LinksOk(s) && (s.doing.Ending? || s.doing.UndoingCall? || s.doing.Welcoming? || s.doing.ResetReply?)
    ensures PostsFor(s, Continue(s, choice), s.doing.n)
  {
    hide TablesAgree, SlotsInRange, OpeningListed, GreetingFits, QueuesFit, Adds, Post, Flushed;
    var t, n, boxes := Continue(s, choice), s.doing.n, s.answers.boxes;
    var ended := Ended(t.links, t.server, n);
    FlushAdds(boxes, n);
    PostAdds(boxes, StateOf(s, n), n, Welcome(GenerationOf(s.links, n)), ended);
    if s.doing.ResetReply? {
      PostAdds(boxes, StateOf(s, n), n, ResetDone(s.doing.requestId, GenerationOf(s.links, n)), ended);
      PostAdds(boxes, StateOf(s, n), n, Failed(s.doing.requestId), ended);
    }
  }

  lemma FinishOpenBoxes(s: Core, choice: Choice)
    requires LinksOk(s) && s.doing.OpenedCall?
    ensures PostsFor(s, Continue(s, choice), s.doing.n)
  {
    hide TablesAgree, SlotsInRange, OpeningListed, GreetingFits, QueuesFit, Adds, Post, Flushed;
    var t, n := FinishOpen(s, s.doing.n, s.doing.ok), s.doing.n;
    FlushAdds(s.answers.boxes, n);
    PostThenFlushAdds(s.answers.boxes, Opening, n, Refused);
    SameAdds(BoxOf(s.answers.boxes, n), Ended(t.links, t.server, n));
  }

  lemma EndProgress(s: Core, choice: Choice)
    requires LinksOk(s) && (s.doing.Ending? || s.doing.UndoingCall? || s.doing.Welcoming? || s.doing.ResetReply?)
    ensures Progress(s, Continue(s, choice))
  {
    hide TablesAgree, SlotsInRange, OpeningListed, GreetingFits, QueuesFit, Post, Flushed, BoxOf, Progress;
    OneProgress(s, Continue(s, choice), s.doing.n);
  }

  lemma CallProgress(s: Core, choice: Choice)
    requires LinksOk(s)
    requires s.doing.ClosingCall? || s.doing.OpeningCall? || (s.doing.Dropped? && s.doing.owed == [])
          || s.doing.Reopening? || s.doing.Reopened?
    ensures Progress(s, Continue(s, choice))
  {
    hide TablesAgree, SlotsInRange, OpeningListed, GreetingFits, QueuesFit, BoxOf, Progress;
    OneProgress(s, Continue(s, choice), s.doing.n);
  }

  lemma FinishOpenProgress(s: Core, choice: Choice)
    requires LinksOk(s) && s.doing.OpenedCall?
    ensures Progress(s, Continue(s, choice))
  {
    hide TablesAgree, SlotsInRange, OpeningListed, GreetingFits, QueuesFit, Post, Flushed;
    OneProgress(s, FinishOpen(s, s.doing.n, s.doing.ok), s.doing.n);
  }

  lemma PostsForAnswers(s: Core, t: Core, n: int)
    requires AnswersOk(s) && PostsFor(s, t, n) && Progress(s, t) && t.requests == s.requests && t.stayed == s.stayed
    requires Owes(t.doing, t.errands) == Owes(s.doing, s.errands) && (Last(t.life) <==> Last(s.life))
    ensures AnswersOk(t)
  {
    hide AnswersOk, Progress, Adds, Ended;
    OneAnswers(s, t, n);
  }

  /** `t` only goes on: no request, errand or lifecycle changes. */
  ghost predicate GoesOn(s: Core, t: Core) {
    && t.requests == s.requests && t.stayed == s.stayed && t.life == s.life
    && t.errands == s.errands && !t.doing.Dropped?
  }

  lemma CallGoesOn(s: Core, choice: Choice)
    requires s.doing.ClosingCall? || s.doing.OpeningCall? || (s.doing.Dropped? && s.doing.owed == [])
          || s.doing.Reopening? || s.doing.Reopened?
    ensures GoesOn(s, Continue(s, choice))
  {
    hide MayMove, SlotOf, GenerationOf;
  }

  lemma EndGoesOn(s: Core, choice: Choice)
    requires s.doing.Ending? || s.doing.UndoingCall? || s.doing.Welcoming? || s.doing.ResetReply?
    ensures GoesOn(s, Continue(s, choice))
  {
    hide Post, Flushed, StateOf, MayMove, SlotOf, GenerationOf;
  }

  lemma FinishOpenGoesOn(s: Core, choice: Choice)
    requires s.doing.OpenedCall?
    ensures GoesOn(s, Continue(s, choice))
  {
    hide Post, Flushed, StateOf, MayMove, SlotOf, GenerationOf;
  }

  lemma PlainAnswers(s: Core, choice: Choice)
    requires LinksOk(s) && AnswersOk(s)
    requires !s.doing.Idle? && !s.doing.Forgetting? && !s.doing.Inserting? && !s.doing.Calling? && !s.doing.Returned?
    requires s.doing.Dropped? ==> s.doing.owed == []
    ensures AnswersOk(Continue(s, choice))
  {
    hide AnswersOk, LinksOk, Progress, PostsFor, Continue, Owes;
    if s.doing.OpenedCall? {
      FinishOpenBoxes(s, choice);
      FinishOpenProgress(s, choice);
      FinishOpenGoesOn(s, choice);
    } else {
      if s.doing.Ending? || s.doing.UndoingCall? || s.doing.Welcoming? || s.doing.ResetReply? {
        EndProgress(s, choice);
        EndBoxes(s, choice);
        EndGoesOn(s, choice);
      } else {
        CallProgress(s, choice);
        CallBoxes(s, choice);
        CallGoesOn(s, choice);
      }
    }
    SameOwes(s.doing, Continue(s, choice).doing, s.errands);
    PostsForAnswers(s, Continue(s, choice), s.doing.n);
  }

  lemma ForgetLost(s: Core)
    requires LinksOk(s) && RequestsOk(s) && AnswersOk(s) && s.doing.Forgetting?
    ensures Listed([], s.requests.ledger, Taken) && Ended(s.links, s.server, s.doing.n)
    ensures !Last(s.life) ==> s.stayed == {}
  {
    hide TablesAgree, QueuesFit, Current, Stepping, OwesOk, BoxesOk, LostOk, FlushOk;
  }

  lemma ForgetProgress(s: Core)
    requires s.doing.Forgetting?
    ensures Progress(s, ForgetRegion(s, s.doing.n, s.doing.wasOpen, s.doing.next))
  {
    OneProgress(s, ForgetRegion(s, s.doing.n, s.doing.wasOpen, s.doing.next), s.doing.n);
  }

  lemma ForgetAnswers(s: Core)
    requires LinksOk(s) && RequestsOk(s) && AnswersOk(s) && s.doing.Forgetting?
    ensures AnswersOk(ForgetRegion(s, s.doing.n, s.doing.wasOpen, s.doing.next))
  {
    hide LinksOk, AnswersOk, Consistent, Shape, HeldOpen, Current, Stepping, Discharges, Progress, Ended, Ticketed,
         Listed, Forget;
    var t := ForgetRegion(s, s.doing.n, s.doing.wasOpen, s.doing.next);
    var due := DueOf(s.requests, s.doing.n);
    ForgetLost(s);
    ForgetProgress(s);
    ConsistentTickets(s.requests);
    ReleaseDischarges(s.requests, s.doing.n);
    NothingDischarged(s, t.requests, due);
    SameOwes(s.doing, t.doing, s.errands);
    ForgetEnded(s);
    MendsKeeps(s, t, due, Lost, []);
  }

  lemma ForgetEnded(s: Core)
    requires s.doing.Forgetting? && Ended(s.links, s.server, s.doing.n)
    ensures Ended(ForgetRegion(s, s.doing.n, s.doing.wasOpen, s.doing.next).links, s.server, s.doing.n)
  {
  }

  lemma InsertSameDue(r: Requests, item: Pending)
    requires Named(r.ledger, r.policy.nextOrder) && Listed(r.batch, r.ledger, Taken) && Ticketed(r.pending, r.ledger)
    requires r.batch != [] && item.waiting == r.batch[0] && item.Awaited()
             && forall t :: t in r.pending ==> t < r.nextTicket
    ensures SameDue(r, Insert(r, item))
  {
    assert r.batch[0] in r.batch;
    var q := Insert(r, item);
    forall o | o in r.ledger ensures Due(q.pending, q.ledger, o) <==> Due(r.pending, r.ledger, o) {
      if r.ledger[o].at.Running? {
        assert r.ledger[o].at.ticket in r.pending;
      }
    }
  }

  lemma SameDueThen(a: Requests, b: Requests, c: Requests)
    requires SameDue(a, b) && SameDue(b, c)
    ensures SameDue(a, c)
  {
    hide Due;
  }

  lemma InsertOneSameDue(r: Requests, item: Pending)
    requires Consistent(r) && r.batch != [] && item.waiting == r.batch[0] && item.Awaited()
    ensures SameDue(r, Insert(r, item))
  {
    hide Listed, Ticketed, HoldsOne, Ascending, Named, SameDue;
    InsertSameDue(r, item);
  }

  lemma FirstPrepared(items: seq<Pending>, batch: seq<Waiting>)
    requires Prepared(items, batch) && items != []
    ensures batch != [] && items[0].waiting == batch[0] && items[0].Awaited() && Prepared(items[1..], batch[1..])
  {
  }

  lemma {:induction false} InsertAllSameDue(r: Requests, items: seq<Pending>)
    requires Consistent(r) && Prepared(items, r.batch)
    ensures SameDue(r, InsertAll(r, items))
    decreases |items|
  {
    if items != [] {
      hide Consistent, SameDue, Prepared;
      var q := Insert(r, items[0]);
      FirstPrepared(items, r.batch);
      InsertKeeps(r, items[0]);
      InsertOneSameDue(r, items[0]);
      InsertAllSameDue(q, items[1..]);
      SameDueThen(r, q, InsertAll(q, items[1..]));
    }
  }

  lemma InsertAnswers(s: Core, items: seq<Pending>)
    requires RequestsOk(s) && AnswersOk(s) && s.doing == Inserting(items)
    ensures AnswersOk(InsertBatch(s, items))
  {
    hide AnswersOk, Consistent, Shape, Current, Fresh, InsertAll, SameDue, Progress, Prepared;
    var t := InsertBatch(s, items);
    InsertAllSameDue(s.requests, items);
    SameBoxesGrow(s, t);
    SameOwes(s.doing, t.doing, s.errands);
    MovesOn(s, t);
    QuietKeeps(s, t);
  }

  /** The step thread goes on, with the connections as they are. */
  lemma MovesOn(s: Core, t: Core)
    requires t.links.connections == s.links.connections && t.server == s.server && Going(s.doing) <= Going(t.doing)
    ensures Progress(s, t)
  {
  }

  lemma CallAnswers(s: Core, choice: Choice)
    requires AnswersOk(s) && s.doing.Calling?
    ensures AnswersOk(Continue(s, choice))
  {
    hide AnswersOk, Progress, Reaching;
    var t := Continue(s, choice);
    SameOwes(s.doing, t.doing, s.errands);
    MovesOn(s, t);
    SameAdds(BoxOf(s.answers.boxes, 0), Ended(t.links, t.server, 0));
    OneAnswers(s, t, 0);
  }

  lemma RegisterAnswers(s: Core, t: nat)
    requires AnswersOk(s) && t in s.requests.pending
    ensures AnswersOk(s.(requests := Register(s.requests, t)))
  {
    hide AnswersOk, Progress;
    var s' := s.(requests := Register(s.requests, t));
    SameBoxesGrow(s, s');
    SameProgress(s, s');
    QuietKeeps(s, s');
  }

  lemma AwaitsFinishing(s: Core, first: nat, last: nat)
    requires Awaits(s, first, last) && TablesAgree(s.links, {}) && BeingForgotten(s.doing) == {}
    ensures Finishing(s)
  {
    hide Consistent, HeldOpen, Current, Fresh, TablesAgree;
  }

  lemma {:induction false} TakeOutputsAnswers(s: Core, first: nat, last: nat, outputs: Option<seq<Output>>)
    requires Awaits(s, first, last) && TablesAgree(s.links, {}) && BeingForgotten(s.doing) == {} && first <= last
             && AnswersOk(s)
    ensures AnswersOk(TakeOutputs(s, first, last, outputs))
    decreases last - first
  {
    if first < last {
      assert first in s.requests.pending;
      hide Awaits, AnswersOk, TablesAgree, Finishing;
      AwaitsFinishing(s, first, last);
      var whole := IsWhole(outputs, last - first);
      var t := if !whole then CompleteItem(s, first, None)
               else if outputs.value[0].Future? then s.(requests := Register(s.requests, first))
               else CompleteItem(s, first, outputs.value[0].result);
      CompleteAnswers(s, first, if whole && !outputs.value[0].Future? then outputs.value[0].result else None);
      RegisterAnswers(s, first);
      TakeOne(s, t, first, last);
      TakeOutputsAnswers(t, first + 1, last, if whole then Some(outputs.value[1..]) else None);
    }
  }

  lemma ReturnedAnswers(s: Core, choice: Choice)
    requires LinksOk(s) && RequestsOk(s) && AnswersOk(s) && s.doing.Returned?
    ensures AnswersOk(Continue(s, choice))
  {
    var first, last, outputs := s.doing.first, s.doing.last, s.doing.outputs;
    hide Consistent, HeldOpen, Current, Fresh, TablesAgree, AnswersOk, QueuesFit, TakeOutputs, Progress;
    TakeOutputsAnswers(s, first, last, outputs);
    TakeOutputsLinks(s, first, last, outputs);
    var t := TakeOutputs(s, first, last, outputs);
    SameOwes(t.doing, Idle, t.errands);
    MovesOn(t, t.(doing := Idle));
    SameAdds(BoxOf(t.answers.boxes, 0), Ended(t.links, t.server, 0));
    OneAnswers(t, t.(doing := Idle), 0);
  }
}
