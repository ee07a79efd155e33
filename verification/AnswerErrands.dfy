/** What the step thread does between events and batches, and what the lifecycle does in its place,
    keeps `AnswerInvariant.AnswersOk`: it posts what it owes, applies events, and starts batches. */
module AnswerErrands {
  import opened Batching
  import opened RequestTable
  import opened ServerCore
  import opened LinkInvariant
  import opened RequestInvariant
  import opened AnswerInvariant
  import opened AnswerSteps

  // -- the step thread: what it owes -----------------------------------------------------------

  /** A connection with an accepted request is open, or gone, unless it is leaving now. */
  lemma AnswerState(s: Core, w: Waiting)
    requires AnswersOk(s) && Going(s.doing) == {} && w in Owes(s.doing, s.errands)
    ensures w.order in s.requests.ledger && s.requests.ledger[w.order].request == w
    ensures w.order in s.answers.fates && s.answers.fates[w.order] == Owed
    ensures StateOf(s, w.connection) == Shut ==> Ended(s.links, s.server, w.connection)
    ensures StateOf(s, w.connection) != Shut ==>
              StateOf(s, w.connection) == Open && !Ended(s.links, s.server, w.connection)
    ensures s.stayed == {} && !Last(s.life)
  {
    hide FatesOk, BoxesOk, LostOk, FlushOk, Distinct;
    assert Served(s.links, s.doing, s.requests.ledger[w.order].request.connection);
  }

  /** `t` is `s` once the first request owed has this fate. */
  ghost predicate Pays(s: Core, t: Core, w: Waiting) {
    && Owes(s.doing, s.errands) == [w] + Owes(t.doing, t.errands)
    && t.requests == s.requests && t.links == s.links && t.server == s.server
    && t.stayed == s.stayed && t.life == s.life && Going(s.doing) == {} == Going(t.doing)
  }

  lemma PayProgress(s: Core, t: Core, w: Waiting)
    requires Pays(s, t, w)
    ensures Progress(s, t)
  {
  }

  lemma PaidParts(s: Core, w: Waiting, rest: seq<Waiting>, fate: Fate)
    requires Consistent(s.requests) && AnswersOk(s) && Owes(s.doing, s.errands) == [w] + rest && fate != Owed
             && fate != Awaiting
    ensures var fates := s.answers.fates[w.order := fate];
            FatesOk(s.requests.pending, s.requests.ledger, fates) && OwesOk(rest, fates, s.requests.ledger)
  {
    hide BoxesOk, LostOk, FlushOk, Listed, HoldsOne, Ticketed, FatesOk, Distinct;
    var owes := Owes(s.doing, s.errands);
    assert owes[0] == w && owes[1..] == rest;
    assert w in owes;
    PaidOwes(owes, s.answers.fates, s.requests.ledger, s.requests.policy.nextOrder, fate);
    PaidFates(s.requests, s.answers.fates, w.order, fate);
  }

  lemma FirstOwed(s: Core, w: Waiting, rest: seq<Waiting>)
    requires Owes(s.doing, s.errands) == [w] + rest
    ensures w in Owes(s.doing, s.errands) && Owes(s.doing, s.errands) != []
  {
  }

  lemma PayAnswers(s: Core, t: Core, w: Waiting)
    requires Consistent(s.requests) && AnswersOk(s) && Pays(s, t, w)
    requires t.answers == AnswerRequest(s.answers, StateOf(s, w.connection), w, 0, None)
    ensures AnswersOk(t)
  {
    hide Consistent, AnswersOk, Owes, Progress, Ended, FatesOk, OwesOk, Going, StateOf;
    var rest := Owes(t.doing, t.errands);
    FirstOwed(s, w, rest);
    AnswerState(s, w);
    PaidParts(s, w, rest, t.answers.fates[w.order]);
    PayProgress(s, t, w);
    AnswersOneKeeps(s, t, w, StateOf(s, w.connection), 0, None);
  }

  /** A request whose session is gone is not answered. */
  lemma DropAnswers(s: Core, t: Core, w: Waiting)
    requires Consistent(s.requests) && AnswersOk(s) && Pays(s, t, w) && Ended(s.links, s.server, w.connection)
    requires t.answers == s.answers.(fates := s.answers.fates[w.order := Lost])
    ensures AnswersOk(t)
  {
    hide Consistent, Owes, Progress, Ended, FatesOk, OwesOk, Going, StateOf, BoxesOk, FlushOk, AcceptedOn, LostOk;
    var rest := Owes(t.doing, t.errands);
    FirstOwed(s, w, rest);
    AnswerState(s, w);
    PaidParts(s, w, rest, Lost);
    PayProgress(s, t, w);
    SameBoxesFlush(s, t);
    AcceptedProgress(s, t);
    DroppedBoxes(s.answers, s.requests.ledger, w);
    DroppedLost(s, w);
  }

  lemma DroppedBoxes(a: Answers, ledger: Ledger, w: Waiting)
    requires BoxesOk(a.boxes, a.fates, ledger) && w.order in a.fates && a.fates[w.order] == Owed
    ensures BoxesOk(a.boxes, a.fates[w.order := Lost], ledger)
  {
    forall n, i: nat | i < |BoxOf(a.boxes, n).sent| && BoxOf(a.boxes, n).sent[i].Answer?
      ensures IsGiven(BoxOf(a.boxes, n).sent[i], n, i, a.fates[w.order := Lost], ledger)
    {
      assert IsGiven(BoxOf(a.boxes, n).sent[i], n, i, a.fates, ledger);
    }
  }

  lemma DroppedLost(s: Core, w: Waiting)
    requires LostOk(s.answers.fates, s.requests.ledger, s.answers.boxes, s.links, s.server, s.stayed)
    requires w.order in s.requests.ledger && s.requests.ledger[w.order].request == w
    requires Ended(s.links, s.server, w.connection) && s.stayed == {}
    ensures LostOk(s.answers.fates[w.order := Lost], s.requests.ledger, s.answers.boxes, s.links, s.server, s.stayed)
  {
    hide Ended;
  }

  // -- the step thread: errands ----------------------------------------------------------------

  lemma PopOwes(errands: seq<Errand>)
    requires errands != []
    ensures OwedBy(errands) == (if IsAnswer(errands[0]) then [errands[0].w] else []) + OwedBy(errands[1..])
  {
  }

  lemma PopAnswers(s: Core)
    requires AnswersOk(s) && s.doing == Idle && s.errands != [] && !IsAnswer(s.errands[0])
    ensures AnswersOk(s.(errands := s.errands[1..]))
  {
    PopOwes(s.errands);
    assert [] + OwedBy(s.errands[1..]) == OwedBy(s.errands[1..]);
    hide FatesOk, OwesOk, BoxesOk, LostOk, AcceptedOn, FlushOk, OwedBy;
  }

  lemma GoneIfNotOpen(s: Core, w: Waiting)
    requires TablesAgree(s.links, {}) && AnswersOk(s) && s.doing == Idle && w in Owes(s.doing, s.errands)
    ensures w.connection !in s.links.open ==> Ended(s.links, s.server, w.connection)
  {
    AnswerState(s, w);
    hide AnswersOk;
  }

  lemma AnswerErrand(s: Core)
    requires TablesAgree(s.links, {}) && Consistent(s.requests) && AnswersOk(s)
    requires s.doing == Idle && s.errands != [] && IsAnswer(s.errands[0])
    ensures AnswersOk(RunErrand(s.(errands := s.errands[1..]), s.errands[0]))
  {
    hide TablesAgree, Consistent, AnswersOk, OwedBy, Ended, AnswerRequest;
    var w, t := s.errands[0].w, RunErrand(s.(errands := s.errands[1..]), s.errands[0]);
    PopOwes(s.errands);
    FirstOwed(s, w, OwedBy(s.errands[1..]));
    GoneIfNotOpen(s, w);
    if s.errands[0].AnswerTo? || w.connection in s.links.open {
      PayAnswers(s, t, w);
    } else {
      DropAnswers(s, t, w);
    }
  }

  lemma LeaveBoxes(s: Core, n: int, next: Option<int>)
    requires n in s.links.connections
    ensures PostsFor(s, Leave(s, n, next), n)
  {
    hide Adds, Flushed, BoxOf, MayMove;
    FlushAdds(s.answers.boxes, n);
    SameAdds(BoxOf(s.answers.boxes, n), Ended(Leave(s, n, next).links, s.server, n));
  }

  lemma LeaveProgress(s: Core, n: int, next: Option<int>)
    requires s.doing == Idle && n in s.links.connections
    ensures Progress(s, Leave(s, n, next))
  {
    hide Flushed;
    OneProgress(s, Leave(s, n, next), n);
  }

  lemma LeaveGoesOn(s: Core, n: int, next: Option<int>)
    ensures GoesOn(s, Leave(s, n, next))
  {
    hide Flushed;
  }

  lemma LeaveAnswers(s: Core, n: int, next: Option<int>)
    requires AnswersOk(s) && s.doing == Idle && n in s.links.connections
    ensures AnswersOk(Leave(s, n, next))
  {
    hide AnswersOk, PostsFor, Progress, Owes, Leave;
    LeaveBoxes(s, n, next);
    LeaveProgress(s, n, next);
    LeaveGoesOn(s, n, next);
    SameOwes(s.doing, Leave(s, n, next).doing, s.errands);
    PostsForAnswers(s, Leave(s, n, next), n);
  }

  lemma StartOpenAnswers(s: Core, n: int)
    requires LinksOk(s) && AnswersOk(s) && s.doing == Idle
    ensures AnswersOk(StartOpen(s, n))
  {
    hide AnswersOk, Leave, Adds, OwedBy;
    var slot := SlotOf(s.links, n);
    if StateOf(s, n) == Opening && slot in s.links.bySlot && s.links.bySlot[slot] != n {
      LeaveAnswers(s, s.links.bySlot[slot], Some(n));
    } else {
      hide LinksOk;
      var t := StartOpen(s, n);
      SameAdds(BoxOf(s.answers.boxes, n), Ended(t.links, t.server, n));
      OneProgress(s, t, n);
      OneAnswers(s, t, n);
    }
  }

  lemma ShutOpeningAnswers(s: Core, n: int)
    requires AnswersOk(s) && s.doing == Idle
    ensures AnswersOk(RunErrand(s, ShutOpening(n)))
  {
    hide AnswersOk, Adds, Flushed, OwedBy, StartOpen, Leave, StartReset, StartBatch, PostTo, AnswerRequest;
    FlushAdds(s.answers.boxes, n);
    var t := RunErrand(s, ShutOpening(n));
    SameAdds(BoxOf(s.answers.boxes, n), Ended(t.links, t.server, n));
    OneProgress(s, t, n);
    OneAnswers(s, t, n);
  }

  lemma RefuseResetAnswers(s: Core, n: int, requestId: int)
    requires AnswersOk(s)
    ensures AnswersOk(RunErrand(s, Refuse(Resets(n, requestId))))
  {
    hide AnswersOk, Adds, Post, Owes;
    PostAdds(s.answers.boxes, StateOf(s, n), n, Failed(requestId), Ended(s.links, s.server, n));
    BoxAnswers(s, RunErrand(s, Refuse(Resets(n, requestId))), n);
  }

  // -- the step thread: a reset ----------------------------------------------------------------

  /** What a reset fails: the session's queued requests, and the running ones it still waits for. */
  lemma ResetOwes(r: Requests, n: int)
    requires Consistent(r) && Listed([], r.ledger, Taken) && Fresh(r.pending, 0, 0)
    ensures var running := set t | t in r.pending && r.pending[t].waiting.connection == n && r.pending[t].future
            && r.pending[t].Awaited();
            var owed := Of(r.policy.waiting, n) + ByTicket(r.pending, running, r.nextTicket);
            Names(owed, DueOf(r, n), r.ledger) && Orders(owed) == DueOf(r, n)
  {
    var running := set t | t in r.pending && r.pending[t].waiting.connection == n && r.pending[t].future
      && r.pending[t].Awaited();
    var queued := Of(r.policy.waiting, n);
    var late := ByTicket(r.pending, running, r.nextTicket);
    QueuedNames(r, n);
    ByTicketNames(r.pending, running, r.nextTicket, r.ledger);
    ResetDue(r, n, running);
    hide Consistent, Fresh, ByTicket, Of;
    NamesBoth(queued, late, Orders(queued), OrdersOf(r.pending, running), r.ledger);
    NamedOrders(queued + late, DueOf(r, n), r.ledger);
  }

  lemma NamedOrders(ws: seq<Waiting>, orders: set<nat>, ledger: Ledger)
    requires Names(ws, orders, ledger) && forall o :: o in orders ==> o in ledger && ledger[o].request.order == o
    ensures Orders(ws) == orders
  {
    forall o | o in orders ensures o in Orders(ws) {
      assert ledger[o].request in ws;
    }
  }

  lemma QueuedNames(r: Requests, n: int)
    requires Ascending(r.policy.waiting) && Listed(r.policy.waiting, r.ledger, Queued)
    ensures Names(Of(r.policy.waiting, n), Orders(Of(r.policy.waiting, n)), r.ledger)
  {
    OfAscends(r.policy.waiting, n);
    OfMembers(r.policy.waiting, n);
    NamesAll(Of(r.policy.waiting, n), r.ledger);
  }

  lemma ResetDue(r: Requests, n: int, running: set<nat>)
    requires Consistent(r) && Listed([], r.ledger, Taken) && Fresh(r.pending, 0, 0)
    requires running == set t | t in r.pending && r.pending[t].waiting.connection == n && r.pending[t].future
             && r.pending[t].Awaited()
    ensures Orders(Of(r.policy.waiting, n)) !! OrdersOf(r.pending, running)
    ensures Orders(Of(r.policy.waiting, n)) + OrdersOf(r.pending, running) == DueOf(r, n)
    ensures forall o :: o in DueOf(r, n) ==> o in r.ledger && r.ledger[o].request.order == o
  {
    OfMembers(r.policy.waiting, n);
    var queued, late := Orders(Of(r.policy.waiting, n)), OrdersOf(r.pending, running);
    forall o | o in queued ensures o in r.ledger && r.ledger[o].at == Queued && o in DueOf(r, n) {
      var w :| w in Of(r.policy.waiting, n) && w.order == o;
      assert w in r.policy.waiting;
    }
    forall o | o in late ensures o in r.ledger && r.ledger[o].at.Running? && o in DueOf(r, n) {
      var t :| t in running && r.pending[t].waiting.order == o;
    }
    forall o | o in DueOf(r, n) ensures o in queued || o in late {
      if r.ledger[o].at == Queued {
        assert r.ledger[o].request in Of(r.policy.waiting, n);
      } else {
        assert r.ledger[o].at.ticket in running;
      }
    }
  }

  lemma NoneTaken(s: Core)
    requires RequestsOk(s) && s.doing == Idle && s.requests.batch == []
    ensures Listed([], s.requests.ledger, Taken) && Fresh(s.requests.pending, 0, 0) && Consistent(s.requests)
  {
    hide Current, HeldOpen, Shape;
  }

  lemma ResetAnswers(s: Core, n: int, requestId: int)
    requires RequestsOk(s) && AnswersOk(s) && s.doing == Idle && s.requests.batch == [] && StateOf(s, n) == Open
    ensures AnswersOk(StartReset(s, n, requestId))
  {
    hide RequestsOk, AnswersOk, Listed, Fresh, Consistent, Discharges, Names, Progress, Of, ByTicket, OwedBy, Ticketed,
         DueOf, Release;
    var t := StartReset(s, n, requestId);
    NoneTaken(s);
    ConsistentTickets(s.requests);
    ReleaseDischarges(s.requests, n);
    NothingDischarged(s, t.requests, DueOf(s.requests, n));
    ResetOwes(s.requests, n);
    MovesOn(s, t);
    assert [] + OwedBy(s.errands) == OwedBy(s.errands);
    MendsKeeps(s, t, DueOf(s.requests, n), Owed, t.doing.owed);
  }

  /** A reset only fails requests of its own session. */
  lemma ResetFailsItsOwn(s: Core, n: int, requestId: int)
    requires StateOf(s, n) == Open
    ensures forall w :: w in StartReset(s, n, requestId).doing.owed ==> w.connection == n
  {
    var r := s.requests;
    var running := set t | t in r.pending && r.pending[t].waiting.connection == n && r.pending[t].future
      && r.pending[t].Awaited();
    OfMembers(r.policy.waiting, n);
    forall w | w in StartReset(s, n, requestId).doing.owed ensures w.connection == n {
      ByTicketMembers(r.pending, running, r.nextTicket, w);
    }
  }

  /** A batch finds all of its sessions still there, so all of its requests are stepped. */
  lemma BatchAllThere(s: Core)
    requires RequestsOk(s) && s.doing == Idle && s.errands == [RunBatch]
    ensures |Prepare(s.links, s.requests.batch)| == |s.requests.batch| > 0
  {
    assert s.errands[0] in s.errands;
    BatchOpen(s.requests, s.links.open);
    PrepareAll(s.links, s.requests.batch);
    hide Consistent, Current;
  }

  lemma StartBatchAnswers(s: Core)
    requires RequestsOk(s) && AnswersOk(s) && s.doing == Idle && s.errands == [RunBatch]
    ensures AnswersOk(StartBatch(s.(errands := [])))
  {
    hide RequestsOk, AnswersOk, Progress, Adds;
    BatchAllThere(s);
    var t := StartBatch(s.(errands := []));
    assert t == s.(errands := [], doing := Inserting(Prepare(s.links, s.requests.batch)));
    assert [RunBatch][1..] == [];
    assert OwedBy([RunBatch]) == OwedBy([]) == [];
    assert Owes(t.doing, t.errands) == Owes(s.doing, s.errands);
    MovesOn(s, t);
    SameAdds(BoxOf(s.answers.boxes, 0), Ended(t.links, t.server, 0));
    OneAnswers(s, t, 0);
  }

  lemma EventAnswers(s: Core, e: Errand)
    requires LinksOk(s) && RequestsOk(s) && AnswersOk(s) && s.doing == Idle && s.requests.batch == []
    requires e != RunBatch && !IsAnswer(e) && ErrandFits(s.links, s.server, e)
    ensures AnswersOk(RunErrand(s, e))
  {
    hide LinksOk, RequestsOk, AnswersOk, Leave, StartOpen;
    match e
    case Do(Opens(n)) => StartOpenAnswers(s, n);
    case Do(Leaves(n)) => LeaveAnswers(s, n, None);
    case Do(Resets(n, id)) => if StateOf(s, n) == Open { ResetAnswers(s, n, id); } else { NotResetAnswers(s, n, id); }
    case Refuse(Opens(n)) =>
    case Refuse(Leaves(n)) => LeaveAnswers(s, n, None);
    case Refuse(Resets(n, id)) => RefuseResetAnswers(s, n, id);
    case ShutOpening(n) => ShutOpeningAnswers(s, n);
    case LeaveNow(n) => LeaveAnswers(s, n, None);
    case RunBatch => assert false;
  }

  lemma NotResetAnswers(s: Core, n: int, requestId: int)
    requires AnswersOk(s) && StateOf(s, n) != Open
    ensures AnswersOk(StartReset(s, n, requestId))
  {
    hide AnswersOk, Adds;
    SameAdds(BoxOf(s.answers.boxes, 0), Ended(s.links, s.server, 0));
    BoxAnswers(s, StartReset(s, n, requestId), 0);
  }

  lemma IdleTables(s: Core)
    requires LinksOk(s) && s.doing == Idle
    ensures TablesAgree(s.links, {})
  {
    hide TablesAgree, QueuesFit, SlotsInRange, OpeningListed, GreetingFits;
  }

  lemma ErrandAnswers(s: Core)
    requires LinksOk(s) && RequestsOk(s) && AnswersOk(s) && s.doing == Idle && s.errands != []
    ensures AnswersOk(RunErrand(s.(errands := s.errands[1..]), s.errands[0]))
  {
    hide LinksOk, AnswersOk, Consistent, HeldOpen, Current, Stepping, Shape, RunErrand;
    PopShape(s);
    var p, e := s.(errands := s.errands[1..]), s.errands[0];
    if e == RunBatch {
      StartBatchAnswers(s);
      assert s.errands[1..] == [];
      RunsBatch(s);
    } else if IsAnswer(e) {
      IdleTables(s);
      AnswerErrand(s);
    } else {
      GoOn(s, p);
      PopLinks(s);
      PopAnswers(s);
      EventAnswers(p, e);
    }
  }

  lemma RunsBatch(s: Core)
    ensures RunErrand(s.(errands := []), RunBatch) == StartBatch(s.(errands := []))
  {
  }

  lemma DroppedAnswers(s: Core, choice: Choice)
    requires RequestsOk(s) && AnswersOk(s) && s.doing.Dropped? && s.doing.owed != []
    ensures AnswersOk(Continue(s, choice))
  {
    hide RequestsOk, AnswersOk, OwedBy, Consistent, AnswerRequest;
    var w, t := s.doing.owed[0], Continue(s, choice);
    assert s.doing.owed == [w] + s.doing.owed[1..];
    assert Owes(s.doing, s.errands) == [w] + Owes(t.doing, t.errands);
    IsConsistent(s);
    PayAnswers(s, t, w);
  }

  lemma IsConsistent(s: Core)
    requires RequestsOk(s)
    ensures Consistent(s.requests)
  {
    hide Consistent;
  }

  lemma ContinueAnswers(s: Core, choice: Choice)
    requires LinksOk(s) && RequestsOk(s) && AnswersOk(s)
    ensures AnswersOk(Continue(s, choice))
  {
    hide LinksOk, RequestsOk, AnswersOk;
    match s.doing
    case Idle => if s.errands != [] { ErrandAnswers(s); }
    case Forgetting(_, _, _) => ForgetAnswers(s);
    case Inserting(items) => InsertAnswers(s, items);
    case Calling(_, _) => CallAnswers(s, choice);
    case Returned(_, _, _) => ReturnedAnswers(s, choice);
    case Dropped(_, _, owed) => if owed != [] { DroppedAnswers(s, choice); } else { PlainAnswers(s, choice); }
    case _ => PlainAnswers(s, choice);
  }
}
