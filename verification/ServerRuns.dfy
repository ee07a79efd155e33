/** When a cancel is recorded, and runs that show what the model server allows: a cancel that comes too
    early to be recorded, and a reset that is still queued though its session may step. */
module ServerRuns {
  import opened Batching
  import opened RequestTable
  import opened CallLog
  import opened ServerCore
  import opened AnswerInvariant
  import opened ServerProperties
  import opened FinalFates

  // -- when a cancel is recorded -------------------------------------------------------------------

  /** A future is known for this request, and its session still waits for the answer. */
  predicate RunsAwaited(pending: map<nat, Pending>, o: nat) {
    exists t :: t in pending && pending[t].waiting.order == o && pending[t].future && pending[t].Awaited()
  }

  /** A cancel withdraws a request of its session and its id exactly if it is still queued, or a future
      is known for it and nothing answered it: not from when it is taken until its future is known. */
  lemma CancelRecordsExactlyWhen(s: Core, n: int, requestId: int, o: nat)
    requires Reached(s) && o in s.requests.ledger && o in s.answers.fates && s.answers.fates[o] != Cancelled
    requires s.requests.ledger[o].request.connection == n && s.requests.ledger[o].request.requestId == requestId
    ensures var fates := TakeCancel(s, n, requestId).answers.fates;
            (o in fates && fates[o] == Cancelled) <==> InQueue(s, o) || RunsAwaited(s.requests.pending, o)
  {
    hide Reached, ServerOk, Consistent, InQueue, RunsAwaited, Withdraw, Mark, TicketsOf, OrdersOf, Withdraws, Withdrawn;
    ReachedOk(s);
    OkConsistent(s);
    QueuedFirst(s.requests, n, requestId, o);
    QueueMeans(s, o);
    TicketsMean(s.requests, n, requestId, o);
  }

  lemma QueueMeans(s: Core, o: nat)
    requires Consistent(s.requests) && o in s.requests.ledger
    ensures InQueue(s, o) <==> s.requests.ledger[o].request in s.requests.policy.waiting
  {
    OrderPlaces(s.requests, o);
  }

  lemma TicketsMean(r: Requests, n: int, requestId: int, o: nat)
    requires Consistent(r) && o in r.ledger
    requires r.ledger[o].request.connection == n && r.ledger[o].request.requestId == requestId
    ensures o in OrdersOf(r.pending, TicketsOf(r.pending, n, requestId)) <==> RunsAwaited(r.pending, o)
  {
    hide Ordered, HoldsOne, Listed, Ascending;
  }

  /** The request a cancel finds in the queue is the only one its session has anywhere. */
  lemma QueuedFirst(r: Requests, n: int, requestId: int, o: nat)
    requires Consistent(r) && o in r.ledger
    requires r.ledger[o].request.connection == n && r.ledger[o].request.requestId == requestId
    ensures Withdraws(r.policy, n, requestId)
            && (r.ledger[o].request in r.policy.waiting || RunsAwaited(r.pending, o)) ==>
              Withdrawn(r, n, requestId).order == o && r.ledger[o].request in r.policy.waiting
    ensures !Withdraws(r.policy, n, requestId) ==> r.ledger[o].request !in r.policy.waiting
    ensures Withdraws(r.policy, n, requestId) && Withdrawn(r, n, requestId).order == o ==>
              r.ledger[o].request in r.policy.waiting
  {
    if Withdraws(r.policy, n, requestId) {
      var w := Withdrawn(r, n, requestId);
      FirstFound(r.policy, n, requestId);
      assert Holding(r.pending, r.ledger, w.order);
      assert RunsAwaited(r.pending, o) ==> Holding(r.pending, r.ledger, o);
      hide Ordered, Ascending;
    }
  }

  // -- runs ------------------------------------------------------------------------------------------

  ghost predicate Leads(s: Core, t: Core) {
    exists states, actions :: IsRun(states, actions) && states[0] == s && states[|actions|] == t
  }

  lemma LeadsNowhere(s: Core)
    ensures Leads(s, s)
  {
    hide Enabled, Next;
    var states, actions: seq<Action> := [s], [];
    assert IsRun(states, actions) && states[|actions|] == s;
  }

  lemma LeadsOn(s: Core, t: Core, a: Action)
    requires Leads(s, t) && Enabled(t, a)
    ensures Leads(s, Next(t, a))
  {
    hide Enabled, Next;
    var states, actions :| IsRun(states, actions) && states[0] == s && states[|actions|] == t;
    var longer, more := states + [Next(t, a)], actions + [a];
    assert IsRun(longer, more) && longer[0] == s && longer[|more|] == Next(t, a);
  }

  // -- runs of the step thread -----------------------------------------------------------------------

  /** What the server does by itself: nothing a session's reader thread takes. */
  predicate IsWork(a: Action) {
    a.AcceptsLink? || a.Greets? || a.Turns? || a.Continues?
  }

  ghost predicate Works(s: Core, t: Core) {
    exists states, actions ::
      && IsRun(states, actions) && states[0] == s && states[|actions|] == t
      && forall i :: 0 <= i < |actions| ==> IsWork(actions[i])
  }

  lemma WorksNot(s: Core)
    ensures Works(s, s)
  {
    hide Enabled, Next;
    var states, actions: seq<Action> := [s], [];
    assert IsRun(states, actions) && states[|actions|] == s;
  }

  lemma WorksOn(s: Core, t: Core, a: Action)
    requires Works(s, t) && Enabled(t, a) && IsWork(a)
    ensures Works(s, Next(t, a))
  {
    hide Enabled, Next;
    var states, actions :|
      && IsRun(states, actions) && states[0] == s && states[|actions|] == t
      && forall i :: 0 <= i < |actions| ==> IsWork(actions[i]);
    var longer, more := states + [Next(t, a)], actions + [a];
    assert IsRun(longer, more) && longer[0] == s && longer[|more|] == Next(t, a);
  }

  lemma WorkLeads(s: Core, t: Core)
    requires Works(s, t)
    ensures Leads(s, t)
  {
    hide Enabled, Next;
  }

  lemma WorkReaches(s: Core, t: Core)
    requires Reached(s) && Works(s, t)
    ensures Reached(t)
  {
    hide Reached, Enabled, Next;
    var states, actions :| IsRun(states, actions) && states[0] == s && states[|actions|] == t;
    RunReached(states, actions, |actions|);
  }

  /** What the model does when it is called: it opens the session, and gives this output. */
  function Choose(result: int): Choice {
    Choice(true, Some([Value(Some(result))]))
  }

  const CHOICE := Choose(9)

  function Session(state: ConnectionState, generation: nat, reader: Reader): Links {
    Links(map[1 := Connection(state, 0, generation, reader)], {}, map[], {1},
          if generation == 0 then map[] else map[0 := generation], 2)
  }

  const NONE := Requests(Policy(1, 0.0, [], {}, 0), [], map[], 1, map[], map[])

  /** One session is open, in this generation, and none of its steps was accepted yet. */
  function OpenCore(g: nat, log: seq<Call>, sent: seq<Message>): Core {
    Core(
      1, Serving, 0.0,
      Links(map[1 := Connection(Open, 0, g, Dispatching)], {1}, map[0 := 1], {}, map[0 := g], 2), [], {},
      NONE, Answers(map[], map[1 := Box(sent, 0, false)]),
      true, Idle, [], Up, log, {}, false)
  }

  const OPEN := OpenCore(1, [Opened(0, 1)], [Welcome(1)])

  lemma StartReached()
    ensures Reached(Start(1, 1, 0.0))
  {
    hide Enabled, Next;
    var states, actions: seq<Action> := [Start(1, 1, 0.0)], [];
    assert IsRun(states, actions) && states[|actions|] == Start(1, 1, 0.0);
    assert Reachable(Start(1, 1, 0.0), 1, 1, 0.0);
  }

  lemma GreetWorks()
    ensures Works(Start(1, 1, 0.0), Start(1, 1, 0.0).(links := Session(Opening, 0, Dispatching), events := [Opens(1)]))
  {
    hide Works;
    var s := Start(1, 1, 0.0);
    WorksNot(s);
    var a := s.(links := Session(Connecting, 0, Greeting));
    assert Next(s, AcceptsLink) == a;
    WorksOn(s, s, AcceptsLink);
    var b := s.(links := Session(Opening, 0, Dispatching), events := [Opens(1)]);
    assert Next(a, Greets(1, ForSlot(0))) == b;
    WorksOn(s, a, Greets(1, ForSlot(0)));
  }

  /** A turn with nothing queued only takes the events. */
  lemma TurnTakesEvents(s: Core)
    requires s.requests == NONE && s.answers.fates == map[] && s.server == Serving && s.events != [] && s.errands == []
    ensures RunTurn(s, 0.0) == s.(events := [], errands := Does(s.events))
  {
    assert ByTicket(map[], {}, 1) == [];
    assert Overdue(map[], 0.0) == {};
  }

  /** A session gets its slot and its welcome. */
  lemma OpenWorks()
    ensures Works(Start(1, 1, 0.0), OPEN)
  {
    hide Works;
    GreetWorks();
    var s := Start(1, 1, 0.0);
    var b := s.(links := Session(Opening, 0, Dispatching), events := [Opens(1)]);
    TurnTakesEvents(b);
    WorksOn(s, b, Turns(0.0));
    var c := b.(events := [], errands := [Do(Opens(1))]);
    assert Does([Opens(1)]) == [Do(Opens(1))];
    OpensFrom(s, c);
  }

  lemma OpensFrom(s: Core, c: Core)
    requires Works(s, c)
    requires c == Start(1, 1, 0.0).(links := Session(Opening, 0, Dispatching), errands := [Do(Opens(1))])
    ensures Works(s, OPEN)
  {
    hide Works;
    var d := c.(errands := [], doing := OpeningCall(1));
    assert Next(c, Continues(CHOICE)) == d;
    WorksOn(s, c, Continues(CHOICE));
    OpensThen(s, d);
  }

  lemma OpensThen(s: Core, d: Core)
    requires Works(s, d)
    requires d == Start(1, 1, 0.0).(links := Session(Opening, 0, Dispatching), doing := OpeningCall(1))
    ensures Works(s, OPEN)
  {
    hide Works;
    var e := d.(links := Session(Opening, 1, Dispatching), log := [Opened(0, 1)], doing := OpenedCall(1, true));
    assert Next(d, Continues(CHOICE)) == e;
    WorksOn(s, d, Continues(CHOICE));
    var f := e.(links := OPEN.links, doing := Welcoming(1));
    assert Next(e, Continues(CHOICE)) == f;
    WorksOn(s, e, Continues(CHOICE));
    WelcomesSession(f);
    WorksOn(s, f, Continues(CHOICE));
  }

  lemma WelcomesSession(f: Core)
    requires f == Start(1, 1, 0.0).(links := OPEN.links, log := [Opened(0, 1)], doing := Welcoming(1))
    ensures Next(f, Continues(CHOICE)) == OPEN
  {
    var boxes: map<int, Box> := map[];
    assert boxes[1 := Box([Welcome(1)], 0, false)] == OPEN.answers.boxes;
    var sent: seq<Message> := [];
    assert BoxOf(boxes, 1) == Box(sent, 0, false) && sent + [Welcome(1)] == [Welcome(1)];
    assert Post(boxes, Open, 1, Welcome(1)) == OPEN.answers.boxes;
  }

  lemma OpenReached()
    ensures Reached(OPEN)
  {
    hide Reached, Works;
    StartReached();
    OpenWorks();
    WorkReaches(Start(1, 1, 0.0), OPEN);
  }

  // -- a step --------------------------------------------------------------------------------------

  /** The session's first step was accepted. */
  function Asked(q: Core, w: Waiting): Core {
    q.(requests := Requests(Policy(1, 0.0, [w], {1}, 1), [], map[], 1, map[0 := Entry(w, Queued)], map[1 := 0]),
       answers := Answers(map[0 := Awaiting], q.answers.boxes))
  }

  /** It was taken, and is about to be handed to `step()`. */
  function TakenCore(g: nat, q: Core, w: Waiting): Core {
    q.(requests := Requests(Policy(1, 0.0, [], {1}, 1), [w], map[], 1, map[0 := Entry(w, Taken)], map[1 := 0]),
       answers := Answers(map[0 := Awaiting], q.answers.boxes),
       doing := Inserting([Pending(w, 0, g, false, false, false)]))
  }

  predicate IsFirst(w: Waiting) {
    w.connection == 1 && w.arrived == 0.0 && w.deadline == None && w.order == 0
  }

  lemma StepAsked(g: nat, log: seq<Call>, sent: seq<Message>, w: Waiting)
    requires IsFirst(w)
    ensures Enabled(OpenCore(g, log, sent), Steps(w))
            && Next(OpenCore(g, log, sent), Steps(w)) == Asked(OpenCore(g, log, sent), w)
  {
  }

  lemma TakesStep(g: nat, log: seq<Call>, sent: seq<Message>, w: Waiting)
    requires IsFirst(w)
    ensures var q := OpenCore(g, log, sent); Works(Asked(q, w), TakenCore(g, q, w))
  {
    hide Works;
    var q := OpenCore(g, log, sent);
    WorksNot(Asked(q, w));
    var b := TakenCore(g, q, w).(doing := Idle, errands := [RunBatch]);
    TurnTakesStep(g, log, sent, w);
    WorksOn(Asked(q, w), Asked(q, w), Turns(0.0));
    PreparesStep(g, log, sent, w);
    WorksOn(Asked(q, w), b, Continues(CHOICE));
  }

  lemma PreparesStep(g: nat, log: seq<Call>, sent: seq<Message>, w: Waiting)
    requires IsFirst(w)
    ensures var b := TakenCore(g, OpenCore(g, log, sent), w).(doing := Idle, errands := [RunBatch]);
            Next(b, Continues(CHOICE)) == TakenCore(g, OpenCore(g, log, sent), w)
  {
    var b := TakenCore(g, OpenCore(g, log, sent), w).(doing := Idle, errands := [RunBatch]);
    assert Prepare(b.links, [w]) == [Pending(w, 0, g, false, false, false)];
  }

  lemma TurnTakesStep(g: nat, log: seq<Call>, sent: seq<Message>, w: Waiting)
    requires IsFirst(w)
    ensures var q := OpenCore(g, log, sent);
            RunTurn(Asked(q, w), 0.0) == TakenCore(g, q, w).(doing := Idle, errands := [RunBatch])
  {
    var a := Asked(OpenCore(g, log, sent), w);
    var r := a.requests;
    assert Timely([w], 0.0) == [w] && Late([w], 0.0) == [];
    assert Overdue(r.pending, 0.0) == {} && ByTicket(map[], {}, 1) == [];
    assert Mark(r, {}) == r;
    var open := OpenSessions(a.links);
    assert Purged(r.policy, 0.0) == r.policy;
    assert Decision(r.policy, 0.0, open) == Turn([w], [], None);
    assert Take(r.policy, 0.0, open) == r.policy.(waiting := []);
    assert Orders([w]) == {0};
    assert TurnLedger(Turn([w], [], None), r.ledger) == map[0 := Entry(w, Taken)];
    assert TakeTurn(r, 0.0, open) == TakenCore(g, OpenCore(g, log, sent), w).requests;
    assert Mend(a.answers.fates, {}, Owed) == a.answers.fates;
  }

  function InsertedCore(g: nat, q: Core, w: Waiting): Core {
    TakenCore(g, q, w).(
      requests := Requests(Policy(1, 0.0, [], {1}, 1), [], map[1 := Pending(w, 0, g, false, false, false)], 2,
                           map[0 := Entry(w, Running(1))], map[1 := 0]),
      doing := Calling(1, 2))
  }

  lemma InsertsStep(g: nat, log: seq<Call>, sent: seq<Message>, w: Waiting)
    requires IsFirst(w)
    ensures var q := OpenCore(g, log, sent); Next(TakenCore(g, q, w), Continues(CHOICE)) == InsertedCore(g, q, w)
  {
    var q := OpenCore(g, log, sent);
    var item := Pending(w, 0, g, false, false, false);
    assert [w][1..] == [] && [item][1..] == [];
    assert Insert(TakenCore(g, q, w).requests, item) == InsertedCore(g, q, w).requests;
    assert InsertAll(TakenCore(g, q, w).requests, [item]) == InsertAll(InsertedCore(g, q, w).requests, []);
  }

  /** The step's output is posted as its answer. */
  lemma AnswersStep(g: nat, log: seq<Call>, sent: seq<Message>, w: Waiting, result: int)
    requires IsFirst(w) && |sent| < OUTBOX
    ensures var q := OpenCore(g, log, sent);
            exists t :: Works(TakenCore(g, q, w), t) && t.links == q.links
                        && BoxOf(t.answers.boxes, 1).sent == sent + [Answer(0, w.requestId, g, Some(result))]
  {
    hide Works;
    var q := OpenCore(g, log, sent);
    var taken, e := TakenCore(g, q, w), InsertedCore(g, q, w);
    WorksNot(taken);
    InsertsStep(g, log, sent, w);
    WorksOn(taken, taken, Continues(CHOICE));
    WorksOn(taken, e, Continues(Choose(result)));
    var f := Next(e, Continues(Choose(result)));
    WorksOn(taken, f, Continues(CHOICE));
    GivesOutput(g, log, sent, w, result);
  }

  lemma GivesOutput(g: nat, log: seq<Call>, sent: seq<Message>, w: Waiting, result: int)
    requires IsFirst(w) && |sent| < OUTBOX
    ensures var f := Next(InsertedCore(g, OpenCore(g, log, sent), w), Continues(Choose(result)));
            && Enabled(f, Continues(CHOICE))
            && var t := Next(f, Continues(CHOICE));
               && t.links == OpenCore(g, log, sent).links
               && BoxOf(t.answers.boxes, 1).sent == sent + [Answer(0, w.requestId, g, Some(result))]
  {
  }

  // -- a cancel that is not recorded -----------------------------------------------------------------

  const STEP := Waiting(1, 7, 5, 0.0, None, 0)

  const TAKEN := TakenCore(1, OPEN, STEP)

  lemma TakenReached()
    ensures Reached(TAKEN)
  {
    hide Reached, Works;
    OpenReached();
    StepAsked(1, [Opened(0, 1)], [Welcome(1)], STEP);
    OneAction(OPEN, Steps(STEP));
    TakesStep(1, [Opened(0, 1)], [Welcome(1)], STEP);
    WorkReaches(Asked(OPEN, STEP), TAKEN);
  }

  lemma UnrecordedCancelIsAnswered()
    ensures exists s, t :: Reached(s) && Enabled(s, Cancels(1, 7)) && 0 in s.requests.ledger
                           && s.requests.ledger[0].request.connection == 1
                           && s.requests.ledger[0].request.requestId == 7
                           && Leads(Next(s, Cancels(1, 7)), t) && AnsweredAt(t, 1, 1, 0)
  {
    hide Reached, Leads, Works;
    TakenReached();
    assert Next(TAKEN, Cancels(1, 7)) == TAKEN;
    AnswersStep(1, [Opened(0, 1)], [Welcome(1)], STEP, 9);
    var t :| Works(TAKEN, t) && t.links == OPEN.links
             && BoxOf(t.answers.boxes, 1).sent == [Welcome(1)] + [Answer(0, 7, 1, Some(9))];
    WorkLeads(TAKEN, t);
    assert AnsweredAt(t, 1, 1, 0);
  }

  // -- resets ----------------------------------------------------------------------------------------

  /** A reset of the session is being applied, others still to come after it. */
  function Applying(q: Core, requestId: int, more: seq<Errand>): Core {
    q.(resetting := {1}, errands := [Do(Resets(1, requestId))] + more)
  }

  lemma StartsReset(g: nat, log: seq<Call>, sent: seq<Message>, requestId: int, more: seq<Errand>)
    ensures var q := OpenCore(g, log, sent);
            Next(Applying(q, requestId, more), Continues(CHOICE))
            == q.(resetting := {1}, errands := more, doing := Dropped(1, requestId, []))
  {
    var q := OpenCore(g, log, sent);
    var c, d := Applying(q, requestId, more),
      q.(resetting := {1}, errands := more, doing := Dropped(1, requestId, []));
    forall tickets ensures ByTicket(map[], tickets, 1) == [] {
    }
    assert Of([], 1) == [];
    assert Release(NONE, 1) == NONE;
    assert Mend(map[], Orders([]), Owed) == map[];
    var e := c.(errands := c.errands[1..]);
    assert e == d.(doing := Idle);
    assert Next(c, Continues(CHOICE)) == StartReset(e, 1, requestId);
    assert StartReset(e, 1, requestId).requests == NONE && StartReset(e, 1, requestId).doing.owed == [];
    assert StartReset(e, 1, requestId).answers == q.answers;
  }

  /** The model closes the generation, and opens the next. */
  function ReopenedCore(g: nat, log: seq<Call>, sent: seq<Message>, more: seq<Errand>): Core {
    OpenCore(g + 1, log + [Closed(0, g), Opened(0, g + 1)], sent).(errands := more)
  }

  lemma Reopens(g: nat, log: seq<Call>, sent: seq<Message>, requestId: int, more: seq<Errand>)
    ensures var c := Applying(OpenCore(g, log, sent), requestId, more);
            Works(c, ReopenedCore(g, log, sent, more).(doing := ResetReply(1, requestId, true)))
  {
    hide Works;
    var q := OpenCore(g, log, sent);
    var c := Applying(q, requestId, more);
    WorksNot(c);
    StartsReset(g, log, sent, requestId, more);
    WorksOn(c, c, Continues(CHOICE));
    var d := q.(resetting := {1}, errands := more, doing := Dropped(1, requestId, []));
    var e := d.(log := log + [Closed(0, g)], doing := Reopening(1, requestId));
    assert Next(d, Continues(CHOICE)) == e;
    WorksOn(c, d, Continues(CHOICE));
    ReopensFrom(g, log, sent, requestId, more, c, e);
  }

  lemma ReopensFrom(g: nat, log: seq<Call>, sent: seq<Message>, requestId: int, more: seq<Errand>, c: Core, e: Core)
    requires Works(c, e)
    requires e == OpenCore(g, log, sent).(resetting := {1}, errands := more, log := log + [Closed(0, g)],
                                       doing := Reopening(1, requestId))
    ensures Works(c, ReopenedCore(g, log, sent, more).(doing := ResetReply(1, requestId, true)))
  {
    hide Works;
    var f := ReopenedCore(g, log, sent, more).(resetting := {1}, doing := Reopened(1, requestId, true));
    OpensAgain(g, log, sent, requestId, more, e);
    WorksOn(c, e, Continues(CHOICE));
    Settles(g, log, sent, requestId, more);
    WorksOn(c, f, Continues(CHOICE));
  }

  lemma OpensAgain(g: nat, log: seq<Call>, sent: seq<Message>, requestId: int, more: seq<Errand>, e: Core)
    requires e == OpenCore(g, log, sent).(resetting := {1}, errands := more, log := log + [Closed(0, g)],
                                       doing := Reopening(1, requestId))
    ensures Next(e, Continues(CHOICE))
         == ReopenedCore(g, log, sent, more).(resetting := {1}, doing := Reopened(1, requestId, true))
  {
    assert log + [Closed(0, g)] + [Opened(0, g + 1)] == log + [Closed(0, g), Opened(0, g + 1)];
  }

  lemma Settles(g: nat, log: seq<Call>, sent: seq<Message>, requestId: int, more: seq<Errand>)
    ensures Next(ReopenedCore(g, log, sent, more).(resetting := {1}, doing := Reopened(1, requestId, true)),
                 Continues(CHOICE))
         == ReopenedCore(g, log, sent, more).(doing := ResetReply(1, requestId, true))
  {
  }

  /** With two resets of a session queued, the first one clears its mark: the second is still to be
      applied, and a step that comes in between is accepted. */
  lemma FirstResetClearsMark()
    ensures exists s :: Reached(s) && Do(Resets(1, 6)) in s.errands && 1 !in s.resetting
                        && Enabled(s, Steps(STEP)) && 0 !in s.requests.ledger
                        && 0 in Next(s, Steps(STEP)).requests.ledger
  {
    hide Reached, Works;
    OpenReached();
    OneAction(OPEN, Resetting(1, 5));
    var a := OPEN.(resetting := {1}, events := [Resets(1, 5)]);
    assert Next(OPEN, Resetting(1, 5)) == a;
    OneAction(a, Resetting(1, 6));
    var b := OPEN.(resetting := {1}, events := [Resets(1, 5), Resets(1, 6)]);
    assert Next(a, Resetting(1, 6)) == b;
    TurnTakesEvents(b);
    OneAction(b, Turns(0.0));
    assert Does(b.events) == [Do(Resets(1, 5))] + [Do(Resets(1, 6))];
    var c := Applying(OPEN, 5, [Do(Resets(1, 6))]);
    assert RunTurn(b, 0.0) == c;
    Reopens(1, [Opened(0, 1)], [Welcome(1)], 5, [Do(Resets(1, 6))]);
    StillQueued(ReopenedCore(1, [Opened(0, 1)], [Welcome(1)], [Do(Resets(1, 6))]).(doing := ResetReply(1, 5, true)));
    WorkReaches(c, ReopenedCore(1, [Opened(0, 1)], [Welcome(1)], [Do(Resets(1, 6))]).(doing := ResetReply(1, 5, true)));
  }

  lemma StillQueued(s: Core)
    requires s == ReopenedCore(1, [Opened(0, 1)], [Welcome(1)], [Do(Resets(1, 6))]).(doing := ResetReply(1, 5, true))
    ensures Do(Resets(1, 6)) in s.errands && 1 !in s.resetting
    ensures Enabled(s, Steps(STEP)) && 0 !in s.requests.ledger && 0 in Next(s, Steps(STEP)).requests.ledger
  {
  }

  /** A reset that came alone is applied, and its session told the next generation. */
  lemma AppliesReset(g: nat, log: seq<Call>, sent: seq<Message>, requestId: int)
    requires |sent| < OUTBOX
    ensures var q := OpenCore(g, log, sent);
            && Enabled(q, Resetting(1, requestId))
            && Works(Next(q, Resetting(1, requestId)),
                     OpenCore(g + 1, log + [Closed(0, g), Opened(0, g + 1)], sent + [ResetDone(requestId, g + 1)]))
  {
    hide Works;
    var q := OpenCore(g, log, sent);
    var b, c := Next(q, Resetting(1, requestId)), Applying(q, requestId, []);
    TakesReset(g, log, sent, requestId);
    Reopens(g, log, sent, requestId, []);
    var d := ReopenedCore(g, log, sent, []).(doing := ResetReply(1, requestId, true));
    WorksThen(b, c, d);
    RepliesDone(g, log, sent, requestId);
    WorksOn(b, d, Continues(CHOICE));
  }

  lemma TakesReset(g: nat, log: seq<Call>, sent: seq<Message>, requestId: int)
    ensures var q := OpenCore(g, log, sent);
            && Enabled(q, Resetting(1, requestId))
            && Works(Next(q, Resetting(1, requestId)), Applying(q, requestId, []))
  {
    hide Works;
    var q := OpenCore(g, log, sent);
    var b := q.(resetting := {1}, events := [Resets(1, requestId)]);
    assert Next(q, Resetting(1, requestId)) == b;
    WorksNot(b);
    TurnTakesEvents(b);
    WorksOn(b, b, Turns(0.0));
    assert Does(b.events) == [Do(Resets(1, requestId))] + [];
    assert RunTurn(b, 0.0) == Applying(q, requestId, []);
  }

  lemma RepliesDone(g: nat, log: seq<Call>, sent: seq<Message>, requestId: int)
    requires |sent| < OUTBOX
    ensures Next(ReopenedCore(g, log, sent, []).(doing := ResetReply(1, requestId, true)), Continues(CHOICE))
         == OpenCore(g + 1, log + [Closed(0, g), Opened(0, g + 1)], sent + [ResetDone(requestId, g + 1)])
  {
    var boxes := OpenCore(g, log, sent).answers.boxes;
    assert Post(boxes, Open, 1, ResetDone(requestId, g + 1)) ==
      map[1 := Box(sent + [ResetDone(requestId, g + 1)], 0, false)];
  }

  lemma WorksThen(a: Core, b: Core, c: Core)
    requires Works(a, b) && Works(b, c)
    ensures Works(a, c)
  {
    hide Enabled, Next;
    var states, actions :|
      && IsRun(states, actions) && states[0] == a && states[|actions|] == b
      && forall i :: 0 <= i < |actions| ==> IsWork(actions[i]);
    var others, more :|
      && IsRun(others, more) && others[0] == b && others[|more|] == c
      && forall i :: 0 <= i < |more| ==> IsWork(more[i]);
    var all, does := states + others[1..], actions + more;
    forall i | 0 <= i < |does| ensures Enabled(all[i], does[i]) && all[i + 1] == Next(all[i], does[i]) {
      if i >= |actions| {
        assert all[i] == others[i - |actions|] && all[i + 1] == others[i + 1 - |actions|];
      }
    }
    assert IsRun(all, does) && all[0] == a && all[|does|] == c;
  }
}
