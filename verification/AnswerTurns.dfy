/** A turn of the step thread's loop, and the lifecycle's own transitions, keep
    `AnswerInvariant.AnswersOk`. */
module AnswerTurns {
  import opened Batching
  import opened RequestTable
  import opened ServerCore
  import opened LinkInvariant
  import opened RequestInvariant
  import opened AnswerInvariant
  import opened AnswerSteps
  import opened AnswerErrands

  // -- what a list of errands owes ---------------------------------------------------------------

  lemma {:induction false} OwedByJoin(a: seq<Errand>, b: seq<Errand>)
    ensures OwedBy(a + b) == OwedBy(a) + OwedBy(b)
  {
    if a == [] {
      assert a + b == b;
    } else {
      hide OwedBy;
      OwedByJoin(a[1..], b);
      PopOwes(a + b);
      PopOwes(a);
      JoinTail(a, b);
      JoinThree(if IsAnswer(a[0]) then [a[0].w] else [], OwedBy(a[1..]), OwedBy(b));
    }
  }

  lemma {:induction false} OwedByAnswers(ws: seq<Waiting>)
    ensures OwedBy(AnswersTo(ws)) == ws && OwedBy(AnswersIfThere(ws)) == ws
  {
    if ws != [] {
      OwedByAnswers(ws[1..]);
      assert AnswersTo(ws)[1..] == AnswersTo(ws[1..]);
      assert AnswersIfThere(ws)[1..] == AnswersIfThere(ws[1..]);
    }
  }

  lemma {:induction false} OwedByNone(errands: seq<Errand>)
    requires forall i :: 0 <= i < |errands| ==> !IsAnswer(errands[i])
    ensures OwedBy(errands) == []
  {
    if errands != [] {
      OwedByNone(errands[1..]);
    }
  }

  /** New errands that answer nobody. */
  lemma ErrandsAnswers(s: Core, more: seq<Errand>)
    requires AnswersOk(s) && forall i :: 0 <= i < |more| ==> !IsAnswer(more[i])
    ensures AnswersOk(s.(errands := s.errands + more))
  {
    hide AnswersOk, OwedBy, Adds;
    var t := s.(errands := s.errands + more);
    OwedByJoin(s.errands, more);
    OwedByNone(more);
    SameAdds(BoxOf(s.answers.boxes, 0), Ended(t.links, t.server, 0));
    MovesOn(s, t);
    OneAnswers(s, t, 0);
  }

  // -- a turn ------------------------------------------------------------------------------------

  lemma ExpireAnswers(s: Core, now: real)
    requires RequestsOk(s) && AnswersOk(s) && AtRest(s)
    ensures AnswersOk(Expire(s, now))
  {
    hide AnswersOk, Consistent, Current, Shape, Stepping, HeldOpen, Discharges, Names, Progress, ByTicket, OwedBy,
         Ticketed, Mark;
    var r, t, late := s.requests, Expire(s, now), Overdue(s.requests.pending, now);
    ConsistentTickets(r);
    BelowNext(r);
    MarkDischarges(r, late);
    NothingDischarged(s, t.requests, OrdersOf(r.pending, late));
    ByTicketNames(r.pending, late, r.nextTicket, r.ledger);
    OwedByAnswers(ByTicket(r.pending, late, r.nextTicket));
    OwedByNone([]);
    assert [] + ByTicket(r.pending, late, r.nextTicket) == ByTicket(r.pending, late, r.nextTicket);
    MovesOn(s, t);
    MendsKeeps(s, t, OrdersOf(r.pending, late), Owed, ByTicket(r.pending, late, r.nextTicket));
  }

  lemma BelowNext(r: Requests)
    requires Consistent(r)
    ensures forall t :: t in r.pending ==> t < r.nextTicket
  {
    hide Listed, HoldsOne, Ticketed, Ascending;
  }

  lemma TakeBatchAnswers(s: Core, now: real)
    requires RequestsOk(s) && AnswersOk(s) && s.doing == Idle
    ensures AnswersOk(TakeBatch(s, now))
  {
    hide AnswersOk, Consistent, Current, Shape, Stepping, HeldOpen, Discharges, Names, Progress, OwedBy, TakeTurn,
         Decision;
    var r, t, n := s.requests, TakeBatch(s, now), OpenSessions(s.links);
    var turn := Decision(r.policy, now, n);
    TakeTurnDischarges(r, now, n);
    NothingDischarged(s, t.requests, Orders(turn.expired));
    TakeBatchOwes(s, now);
    MovesOn(s, t);
    MendsKeeps(s, t, Orders(turn.expired), Owed, turn.expired);
  }

  lemma TakeBatchOwes(s: Core, now: real)
    requires s.doing == Idle
    ensures Owes(Idle, TakeBatch(s, now).errands)
         == Owes(Idle, s.errands) + Decision(s.requests.policy, now, OpenSessions(s.links)).expired
  {
    hide OwedBy, Decision, TakeTurn;
    var turn := Decision(s.requests.policy, now, OpenSessions(s.links));
    var run := if turn.batch == [] then [] else [RunBatch];
    OwedByJoin(s.errands + AnswersIfThere(turn.expired), run);
    OwedByJoin(s.errands, AnswersIfThere(turn.expired));
    OwedByAnswers(turn.expired);
    OwedByNone(run);
  }

  lemma TurnAnswers(s: Core, now: real)
    requires RequestsOk(s) && AnswersOk(s) && AtRest(s) && s.alive
    ensures AnswersOk(RunTurn(s, now))
  {
    hide RequestsOk, AnswersOk, Expire, TakeBatch;
    if s.server == Stopped || (s.server == Draining && (now >= s.drainBy || !AnyAwaited(s.requests.pending))) {
      SameAdds(BoxOf(s.answers.boxes, 0), Ended(s.links, s.server, 0));
      BoxAnswers(s, RunTurn(s, now), 0);
    } else {
      ExpireAnswers(s, now);
      ExpireRequests(s, now);
      if s.server == Draining {
        ErrandsAnswers(Expire(s, now), Refuses(s.events));
      } else if s.events != [] {
        ErrandsAnswers(Expire(s, now), Does(s.events));
      } else {
        ExpireRest(s, now);
        TakeBatchAnswers(Expire(s, now), now);
      }
    }
  }

  lemma ExpireRest(s: Core, now: real)
    ensures Expire(s, now).doing == s.doing
  {
  }

  // -- once the step thread has ended ------------------------------------------------------------

  lemma {:induction false} DroppedDistinct(p: Policy, order: seq<int>)
    requires Ordered(p)
    ensures Distinct(DroppedBy(p, order))
    decreases |order|
  {
    if order != [] {
      var q := Drop(p, order[0]);
      OthersAscend(p.waiting, order[0]);
      OthersMembers(p.waiting, order[0]);
      OfAscends(p.waiting, order[0]);
      OfMembers(p.waiting, order[0]);
      DroppedDistinct(q, order[1..]);
      SameOrder(p.waiting);
      FromQueue(q, order[1..]);
      DistinctJoin(Of(p.waiting, order[0]), DroppedBy(q, order[1..]));
    }
  }

  lemma FromQueue(p: Policy, order: seq<int>)
    requires Ordered(p)
    ensures forall w :: w in DroppedBy(p, order) ==> w in p.waiting
  {
    DropEachDrops(p, order);
  }

  lemma QueuedByAll(r: Requests, order: seq<int>)
    requires Consistent(r) && forall n :: n in r.hold ==> n in order
    ensures forall w :: w in DroppedBy(r.policy, order) <==> w in r.policy.waiting
  {
    DropEachDrops(r.policy, order);
    forall w | w in r.policy.waiting ensures w.connection in order {
      assert Holding(r.pending, r.ledger, w.order);
    }
  }

  /** All that is due once nothing is taken: what runs for its session, and what is queued. */
  lemma SettleDue(r: Requests, order: seq<int>, awaited: set<nat>)
    requires Consistent(r) && r.batch == [] && forall n :: n in r.hold ==> n in order
    requires awaited == set t | t in r.pending && r.pending[t].Awaited()
    ensures var queued := Orders(DroppedBy(r.policy, order)); var running := OrdersOf(r.pending, awaited);
            && queued !! running
            && forall o :: Due(r.pending, r.ledger, o) <==> o in queued || o in running
  {
    QueuedByAll(r, order);
    var queued, running := Orders(DroppedBy(r.policy, order)), OrdersOf(r.pending, awaited);
    forall o | o in queued ensures o in r.ledger && r.ledger[o].at == Queued {
      var w :| w in DroppedBy(r.policy, order) && w.order == o;
      assert w in r.policy.waiting;
    }
    forall o | o in running ensures o in r.ledger && r.ledger[o].at.Running? && Due(r.pending, r.ledger, o) {
      var t :| t in awaited && r.pending[t].waiting.order == o;
    }
    forall o | Due(r.pending, r.ledger, o) ensures o in queued || o in running {
      if r.ledger[o].at == Queued {
        assert r.ledger[o].request in DroppedBy(r.policy, order);
      } else {
        assert r.ledger[o].at.ticket in awaited;
      }
    }
  }

  lemma SettleNames(r: Requests, order: seq<int>, awaited: set<nat>)
    requires Consistent(r) && r.batch == [] && forall n :: n in r.hold ==> n in order
    requires awaited == set t | t in r.pending && r.pending[t].Awaited()
    ensures var queued := DroppedBy(r.policy, order); var running := ByTicket(r.pending, awaited, r.nextTicket);
            && Names(running + queued, Orders(running) + Orders(queued), r.ledger)
            && forall o :: o in Orders(running) + Orders(queued) <==> Due(r.pending, r.ledger, o)
  {
    hide ByTicket, DroppedBy, Due, Listed, HoldsOne, Holding;
    var queued, running := DroppedBy(r.policy, order), ByTicket(r.pending, awaited, r.nextTicket);
    ByTicketNames(r.pending, awaited, r.nextTicket, r.ledger);
    RunningOrders(r, awaited);
    SettleDue(r, order, awaited);
    DroppedNames(r, order);
    NamesBoth(running, queued, Orders(running), Orders(queued), r.ledger);
  }

  lemma RunningOrders(r: Requests, awaited: set<nat>)
    requires Consistent(r) && awaited <= r.pending.Keys
    ensures Orders(ByTicket(r.pending, awaited, r.nextTicket)) == OrdersOf(r.pending, awaited)
  {
    ByTicketNames(r.pending, awaited, r.nextTicket, r.ledger);
    forall o | o in OrdersOf(r.pending, awaited) ensures o in r.ledger && r.ledger[o].request.order == o {
    }
    NamedOrders(ByTicket(r.pending, awaited, r.nextTicket), OrdersOf(r.pending, awaited), r.ledger);
  }

  lemma DroppedNames(r: Requests, order: seq<int>)
    requires Consistent(r) && forall n :: n in r.hold ==> n in order
    ensures Names(DroppedBy(r.policy, order), Orders(DroppedBy(r.policy, order)), r.ledger)
  {
    DroppedDistinct(r.policy, order);
    QueuedByAll(r, order);
    NamesAll(DroppedBy(r.policy, order), r.ledger);
  }

  lemma SettleDischarges(r: Requests, order: seq<int>, due: set<nat>)
    requires Consistent(r) && r.batch == [] && forall n :: n in r.hold ==> n in order
    requires forall o :: o in due <==> Due(r.pending, r.ledger, o)
    ensures Discharges(r, Settle(r, order), due)
  {
    SettleKeeps(r, order);
    hide Consistent;
  }

  lemma SettleOwes(s: Core, order: seq<int>, shut: seq<int>)
    requires AtRest(s)
    ensures var r := s.requests; var awaited := set t | t in r.pending && r.pending[t].Awaited();
            Owes(Idle, SettleAll(s, order, shut).errands)
            == ByTicket(r.pending, awaited, r.nextTicket) + DroppedBy(r.policy, order)
  {
    hide OwedBy, ByTicket, DroppedBy, Settle;
    var r := s.requests;
    var awaited := set t | t in r.pending && r.pending[t].Awaited();
    var running, queued := ByTicket(r.pending, awaited, r.nextTicket), DroppedBy(r.policy, order);
    var shuts := seq(|shut|, i requires 0 <= i < |shut| => ShutOpening(shut[i]));
    OwedByJoin(AnswersTo(running) + Refuses(s.events) + AnswersTo(queued), shuts);
    OwedByJoin(AnswersTo(running) + Refuses(s.events), AnswersTo(queued));
    OwedByJoin(AnswersTo(running), Refuses(s.events));
    OwedByAnswers(running);
    OwedByAnswers(queued);
    OwedByNone(Refuses(s.events));
    OwedByNone(shuts);
  }

  lemma SettleReady(s: Core, order: seq<int>, shut: seq<int>)
    requires RequestsOk(s) && Enabled(s, Settles(order, shut))
    ensures s.requests.batch == [] && Consistent(s.requests) && forall n :: n in s.requests.hold ==> n in order
  {
    hide Consistent, Current, Stepping, Shape;
    forall n | n in s.requests.hold ensures n in order {
      assert n in (set m | m in order);
    }
  }

  lemma SettleAnswers(s: Core, order: seq<int>, shut: seq<int>)
    requires RequestsOk(s) && AnswersOk(s) && Enabled(s, Settles(order, shut))
    ensures AnswersOk(SettleAll(s, order, shut))
  {
    hide RequestsOk, AnswersOk, Consistent, Discharges, Names, Progress, OwedBy, ByTicket, DroppedBy, Settle, Due;
    var r, t := s.requests, SettleAll(s, order, shut);
    var awaited := set t | t in r.pending && r.pending[t].Awaited();
    var running, queued := ByTicket(r.pending, awaited, r.nextTicket), DroppedBy(r.policy, order);
    SettleReady(s, order, shut);
    SettleNames(r, order, awaited);
    SettleDischarges(r, order, Orders(running) + Orders(queued));
    SettleOwes(s, order, shut);
    OwedByNone([]);
    assert [] + (running + queued) == running + queued;
    MovesOn(s, t);
    MendsKeeps(s, t, Orders(running) + Orders(queued), Owed, running + queued);
  }

  // -- the lifecycle's other transitions ---------------------------------------------------------

  lemma LeaveAllLost(s: Core)
    requires TablesAgree(s.links, {}) && s.stayed == {}
    requires LostOk(s.answers.fates, s.requests.ledger, s.answers.boxes, s.links, s.server, s.stayed)
    ensures LostOk(s.answers.fates, s.requests.ledger, s.answers.boxes, s.links, s.server, s.links.open)
  {
  }

  lemma LeaveAllAnswers(s: Core, order: seq<int>)
    requires LinksOk(s) && AnswersOk(s) && Enabled(s, LeavesAll(order))
    ensures AnswersOk(LeaveAll(s, order))
  {
    hide LinksOk, FatesOk, OwesOk, BoxesOk, LostOk, AcceptedOn, FlushOk, TablesAgree, OwedBy;
    IdleTables(s);
    LeaveAllLost(s);
    OwedByNone(LeaveAll(s, order).errands);
    OwedByNone([]);
  }

  /** `drain()` and `stop()` begin, or return. */
  lemma LifeAnswers(s: Core, t: Core)
    requires AnswersOk(s) && t.requests == s.requests && t.answers == s.answers && t.links == s.links
             && t.stayed == s.stayed
    requires t.doing == s.doing && t.errands == s.errands && (Last(t.life) <==> Last(s.life))
    requires s.server != Serving ==> t.server != Serving
    ensures AnswersOk(t)
  {
    hide AnswersOk, Adds;
    SameAdds(BoxOf(s.answers.boxes, 0), Ended(t.links, t.server, 0));
    OneProgress(s, t, 0);
    OneAnswers(s, t, 0);
  }
}
