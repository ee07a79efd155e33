/** Results leave the model server in the order their requests were accepted: a session's next request is
    accepted only once no result of the last one can come any more. Failures come as they may. */
module ResultOrder {
  import opened Batching
  import opened RequestTable
  import opened CallLog
  import opened ServerCore
  import opened LinkInvariant
  import opened RequestInvariant
  import opened LogInvariant
  import opened AnswerInvariant
  import opened AnswerSteps
  import opened AnswerErrands
  import opened EndInvariant
  import opened ServerProperties
  import opened FinalFates

  // -- the invariant -----------------------------------------------------------------------------

  predicate IsResult(m: Message) {
    m.Answer? && m.result.Some?
  }

  ghost predicate Ascends(sent: seq<Message>) {
    forall i, j :: 0 <= i < j < |sent| && IsResult(sent[i]) && IsResult(sent[j]) ==> sent[i].order < sent[j].order
  }

  ghost predicate AllBelow(sent: seq<Message>, order: nat) {
    forall i :: 0 <= i < |sent| && IsResult(sent[i]) ==> sent[i].order < order
  }

  /** Each outbox has its results in the order they were accepted, all of them before the request its
      session is held for. */
  ghost predicate ResultsOk(boxes: map<int, Box>, hold: map<int, nat>, nextOrder: nat) {
    forall n ::
      && Ascends(BoxOf(boxes, n).sent)
      && AllBelow(BoxOf(boxes, n).sent, if n in hold then hold[n] else nextOrder)
      && AllBelow(BoxOf(boxes, n).sent, nextOrder)
  }

  // -- steps that post no result -----------------------------------------------------------------

  ghost predicate NoResults(boxes: map<int, Box>, boxes': map<int, Box>) {
    forall n ::
      && BoxOf(boxes, n).sent <= BoxOf(boxes', n).sent
      && forall i :: |BoxOf(boxes, n).sent| <= i < |BoxOf(boxes', n).sent| ==> !IsResult(BoxOf(boxes', n).sent[i])
  }

  /** Sessions are freed, or held for a request accepted now. */
  ghost predicate HeldAnew(r: Requests, q: Requests) {
    && r.policy.nextOrder <= q.policy.nextOrder
    && forall n :: n in q.hold ==>
         (n in r.hold && q.hold[n] == r.hold[n]) || r.policy.nextOrder <= q.hold[n] < q.policy.nextOrder
  }

  lemma NoneNew(boxes: map<int, Box>, boxes': map<int, Box>, r: Requests, q: Requests)
    requires ResultsOk(boxes, r.hold, r.policy.nextOrder) && NoResults(boxes, boxes') && HeldAnew(r, q)
    ensures ResultsOk(boxes', q.hold, q.policy.nextOrder)
  {
    forall n
      ensures Ascends(BoxOf(boxes', n).sent) && AllBelow(BoxOf(boxes', n).sent, q.policy.nextOrder)
      ensures AllBelow(BoxOf(boxes', n).sent, if n in q.hold then q.hold[n] else q.policy.nextOrder)
    {
      var sent, sent' := BoxOf(boxes, n).sent, BoxOf(boxes', n).sent;
      assert sent <= sent';
      assert forall i :: 0 <= i < |sent'| && IsResult(sent'[i]) ==> i < |sent| && sent'[i] == sent[i];
    }
  }

  lemma SameBoxes(boxes: map<int, Box>)
    ensures NoResults(boxes, boxes)
  {
  }

  lemma PostNone(boxes: map<int, Box>, state: ConnectionState, n: int, m: Message)
    requires !IsResult(m)
    ensures NoResults(boxes, Post(boxes, state, n, m))
  {
  }

  lemma FlushNone(boxes: map<int, Box>, n: int)
    ensures NoResults(boxes, Flushed(boxes, n))
  {
  }

  lemma NoneThen(a: map<int, Box>, b: map<int, Box>, c: map<int, Box>)
    requires NoResults(a, b) && NoResults(b, c)
    ensures NoResults(a, c)
  {
    forall n
      ensures BoxOf(a, n).sent <= BoxOf(c, n).sent
      ensures forall i :: |BoxOf(a, n).sent| <= i < |BoxOf(c, n).sent| ==> !IsResult(BoxOf(c, n).sent[i])
    {
      assert BoxOf(a, n).sent <= BoxOf(b, n).sent <= BoxOf(c, n).sent;
    }
  }

  lemma FailNone(a: Answers, state: ConnectionState, w: Waiting)
    ensures NoResults(a.boxes, AnswerRequest(a, state, w, 0, None).boxes)
  {
    hide Post;
    PostNone(a.boxes, state, w.connection, Answer(w.order, w.requestId, 0, None));
  }

  lemma SameHold(r: Requests, q: Requests)
    requires q.policy.nextOrder == r.policy.nextOrder && forall n :: n in q.hold ==>
               n in r.hold && q.hold[n] == r.hold[n]
    ensures HeldAnew(r, q)
  {
  }

  /** What a step leaves behind of results and holds. */
  ghost predicate Silent(s: Core, t: Core) {
    NoResults(s.answers.boxes, t.answers.boxes) && HeldAnew(s.requests, t.requests)
  }

  lemma Untouched(s: Core)
    ensures HeldAnew(s.requests, s.requests)
  {
  }

  // -- the reader threads, the writers, the lifecycle -----------------------------------------------

  lemma GreetSilent(s: Core, n: int, hello: Hello)
    requires n in s.links.connections
    ensures Silent(s, Greet(s, n, hello))
  {
    hide Post, Flushed, MayMove, NoResults, HeldAnew;
    Untouched(s);
    SameBoxes(s.answers.boxes);
    PostNone(s.answers.boxes, StateOf(s, n), n, Refused);
    FlushNone(s.answers.boxes, n);
    GreetPosts(s, n, hello);
  }

  lemma GreetPosts(s: Core, n: int, hello: Hello)
    requires n in s.links.connections
    ensures var t := Greet(s, n, hello);
            && t.requests == s.requests
            && (t.answers.boxes == s.answers.boxes
                || t.answers.boxes == Post(s.answers.boxes, StateOf(s, n), n, Refused)
                || t.answers.boxes == Flushed(s.answers.boxes, n))
  {
    hide Post, Flushed, MayMove;
  }

  lemma StepSilent(s: Core, w: Waiting)
    ensures Silent(s, TakeStep(s, w))
  {
    hide Post, NoResults;
    SameBoxes(s.answers.boxes);
    PostNone(s.answers.boxes, StateOf(s, w.connection), w.connection, Failed(w.requestId));
  }

  lemma CancelSilent(s: Core, n: int, requestId: int)
    ensures Silent(s, TakeCancel(s, n, requestId))
  {
    hide NoResults;
    SameBoxes(s.answers.boxes);
  }

  lemma ResetSilent(s: Core, n: int, requestId: int)
    ensures Silent(s, TakeReset(s, n, requestId))
  {
    hide Post, NoResults, HeldAnew;
    Untouched(s);
    SameBoxes(s.answers.boxes);
    PostNone(s.answers.boxes, StateOf(s, n), n, Failed(requestId));
  }

  lemma WriteSilent(s: Core, n: int)
    ensures Silent(s, WriteNext(s, n)) && Silent(s, Break(s, n))
  {
    Untouched(s);
    hide HeldAnew;
  }

  lemma TurnSilent(s: Core, now: real)
    ensures Silent(s, RunTurn(s, now))
  {
    hide NoResults, Decision, ByTicket, Overdue, Mend, TurnLedger;
    SameBoxes(s.answers.boxes);
  }

  lemma SettleSilent(s: Core, order: seq<int>, shut: seq<int>)
    ensures Silent(s, SettleAll(s, order, shut))
  {
    hide NoResults, ByTicket, DroppedBy, Mend, DropEach;
    SameBoxes(s.answers.boxes);
    SettledOrder(s.requests.policy, order);
  }

  lemma {:induction false} SettledOrder(p: Policy, order: seq<int>)
    ensures DropEach(p, order).nextOrder == p.nextOrder
    decreases |order|
  {
    if order != [] {
      SettledOrder(Drop(p, order[0]), order[1..]);
    }
  }

  lemma PlainSilent(s: Core, a: Action)
    requires Enabled(s, a)
    requires a.AcceptsLink? || a.Ends? || a.Drains? || a.Stops? || a.FinishesDrain? || a.LeavesAll? || a.FinishesStop?
    ensures Silent(s, Next(s, a))
  {
    hide HeldAnew, NoResults;
    Untouched(s);
    SameBoxes(s.answers.boxes);
  }

  // -- the step thread -----------------------------------------------------------------------------

  lemma LeaveSilent(s: Core, n: int, next: Option<int>)
    ensures Silent(s, Leave(s, n, next))
  {
    hide Flushed, MayMove, NoResults, HeldAnew;
    Untouched(s);
    SameBoxes(s.answers.boxes);
    FlushNone(s.answers.boxes, n);
  }

  lemma EventSilent(s: Core, e: Errand)
    requires !IsAnswer(e)
    ensures Silent(s, RunErrand(s, e))
  {
    hide Leave, Post, Flushed, MayMove, NoResults, Prepare, Of, ByTicket, Mend, Orders, AnswerRequest;
    SameBoxes(s.answers.boxes);
    match e
    case Do(Opens(n)) =>
      if SlotOf(s.links, n) in s.links.bySlot { LeaveSilent(s, s.links.bySlot[SlotOf(s.links, n)], Some(n)); }
    case Do(Leaves(n)) => LeaveSilent(s, n, None);
    case Refuse(Leaves(n)) => LeaveSilent(s, n, None);
    case LeaveNow(n) => LeaveSilent(s, n, None);
    case Refuse(Resets(n, id)) => PostNone(s.answers.boxes, StateOf(s, n), n, Failed(id));
    case ShutOpening(n) => FlushNone(s.answers.boxes, n);
    case _ =>
  }

  lemma AnswerSilent(s: Core, e: Errand)
    requires IsAnswer(e)
    ensures Silent(s, RunErrand(s, e))
  {
    hide NoResults, HeldAnew, AnswerRequest;
    Untouched(s);
    SameBoxes(s.answers.boxes);
    FailNone(s.answers, StateOf(s, e.w.connection), e.w);
  }

  lemma {:induction false} InsertedHold(r: Requests, items: seq<Pending>)
    ensures InsertAll(r, items).hold == r.hold && InsertAll(r, items).policy == r.policy
    decreases |items|
  {
    if items != [] {
      InsertedHold(Insert(r, items[0]), items[1..]);
    }
  }

  lemma DoingSilent(s: Core, choice: Choice)
    requires s.doing != Idle && !s.doing.Returned?
    ensures Silent(s, Continue(s, choice))
  {
    hide Post, Flushed, MayMove, NoResults, HeldAnew, AnswerRequest, Mend, InsertAll, Release;
    Untouched(s);
    SameBoxes(s.answers.boxes);
    match s.doing
    case Forgetting(n, _, _) => ReleaseHold(s.requests, n);
    case Ending(n, _) => FlushNone(s.answers.boxes, n);
    case UndoingCall(n) => FlushNone(s.answers.boxes, n);
    case OpenedCall(n, ok) => FinishSilent(s, n, ok);
    case Welcoming(n) => PostNone(s.answers.boxes, StateOf(s, n), n, Welcome(GenerationOf(s.links, n)));
    case Dropped(n, _, owed) => if owed != [] { FailNone(s.answers, StateOf(s, owed[0].connection), owed[0]); }
    case ResetReply(n, id, ok) =>
      PostNone(s.answers.boxes, StateOf(s, n), n, ResetDone(id, GenerationOf(s.links, n)));
      PostNone(s.answers.boxes, StateOf(s, n), n, Failed(id));
    case Inserting(items) => InsertedHold(s.requests, items); SameHold(s.requests, InsertAll(s.requests, items));
    case _ =>
  }

  lemma ReleaseHold(r: Requests, n: int)
    ensures HeldAnew(r, Release(r, n))
  {
  }

  lemma FinishSilent(s: Core, n: int, ok: bool)
    ensures Silent(s, FinishOpen(s, n, ok))
  {
    hide Post, Flushed, MayMove, NoResults, HeldAnew;
    Untouched(s);
    var boxes := s.answers.boxes;
    SameBoxes(boxes);
    FlushNone(boxes, n);
    PostNone(boxes, StateOf(Unlist(s, n), n), n, Refused);
    FlushNone(Post(boxes, StateOf(Unlist(s, n), n), n, Refused), n);
    NoneThen(boxes, Post(boxes, StateOf(Unlist(s, n), n), n, Refused),
             Flushed(Post(boxes, StateOf(Unlist(s, n), n), n, Refused), n));
  }

  // -- the step that posts a result ------------------------------------------------------------------

  lemma HeldForIt(r: Requests, t: nat)
    requires Consistent(r) && t in r.pending && !r.pending[t].detached
    ensures var w := r.pending[t].waiting; w.connection in r.hold && r.hold[w.connection] == w.order
    ensures r.pending[t].waiting.order < r.policy.nextOrder
  {
    hide Ordered, Listed, Ascending;
    assert Holding(r.pending, r.ledger, r.pending[t].waiting.order);
  }

  lemma CompleteResults(s: Core, t: nat, result: Option<int>)
    requires Consistent(s.requests) && t in s.requests.pending
    requires ResultsOk(s.answers.boxes, s.requests.hold, s.requests.policy.nextOrder)
    ensures var u := CompleteItem(s, t, result);
            ResultsOk(u.answers.boxes, u.requests.hold, u.requests.policy.nextOrder)
  {
    var u, item := CompleteItem(s, t, result), s.requests.pending[t];
    CompletedHold(s.requests, t);
    if Reaches(s.links, item) && result.Some? {
      HeldForIt(s.requests, t);
      PostedResult(s.answers.boxes, s.requests, u.requests, item.waiting, item.generation, result.value);
      hide ResultsOk, Consistent;
    } else {
      SameBoxes(s.answers.boxes);
      PostNone(s.answers.boxes, Open, item.waiting.connection,
               Answer(item.waiting.order, item.waiting.requestId, item.generation, None));
      NoneNew(s.answers.boxes, u.answers.boxes, s.requests, u.requests);
      hide ResultsOk, Consistent;
    }
  }

  lemma CompletedHold(r: Requests, t: nat)
    requires t in r.pending
    ensures HeldAnew(r, Complete(r, t)) && Complete(r, t).policy.nextOrder == r.policy.nextOrder
    ensures !r.pending[t].detached ==> r.pending[t].waiting.connection !in Complete(r, t).hold
  {
  }

  lemma PostedResult(boxes: map<int, Box>, r: Requests, q: Requests, w: Waiting, generation: nat,
                     result: int)
    requires ResultsOk(boxes, r.hold, r.policy.nextOrder) && HeldAnew(r, q) && q.policy.nextOrder == r.policy.nextOrder
    requires w.connection in r.hold && r.hold[w.connection] == w.order < r.policy.nextOrder && w.connection !in q.hold
    ensures ResultsOk(Post(boxes, Open, w.connection, Answer(w.order, w.requestId, generation, Some(result))), q.hold,
                      q.policy.nextOrder)
  {
    var m := Answer(w.order, w.requestId, generation, Some(result));
    var boxes' := Post(boxes, Open, w.connection, m);
    forall n
      ensures Ascends(BoxOf(boxes', n).sent) && AllBelow(BoxOf(boxes', n).sent, q.policy.nextOrder)
      ensures AllBelow(BoxOf(boxes', n).sent, if n in q.hold then q.hold[n] else q.policy.nextOrder)
    {
      var sent := BoxOf(boxes, n).sent;
      assert Ascends(sent) && AllBelow(sent, r.policy.nextOrder);
      assert AllBelow(sent, if n in r.hold then r.hold[n] else r.policy.nextOrder);
      if n == w.connection {
        OneMoreResult(sent, m, r.policy.nextOrder);
      }
    }
  }

  lemma OneMoreResult(sent: seq<Message>, m: Message, bound: nat)
    requires Ascends(sent) && IsResult(m) && AllBelow(sent, m.order) && m.order < bound
    ensures Ascends(sent + [m]) && AllBelow(sent + [m], bound)
  {
  }

  lemma {:induction false} OutputsResults(s: Core, first: nat, last: nat, outputs: Option<seq<Output>>)
    requires Awaits(s, first, last) && first <= last
    requires ResultsOk(s.answers.boxes, s.requests.hold, s.requests.policy.nextOrder)
    ensures var u := TakeOutputs(s, first, last, outputs);
            ResultsOk(u.answers.boxes, u.requests.hold, u.requests.policy.nextOrder)
    decreases last - first
  {
    if first < last {
      assert first in s.requests.pending;
      hide Awaits, ResultsOk, Consistent;
      AwaitsConsistent(s, first, last);
      var whole := IsWhole(outputs, last - first);
      var t := if !whole then CompleteItem(s, first, None)
               else if outputs.value[0].Future? then s.(requests := Register(s.requests, first))
               else CompleteItem(s, first, outputs.value[0].result);
      CompleteResults(s, first, if whole && !outputs.value[0].Future? then outputs.value[0].result else None);
      TakeOne(s, t, first, last);
      OutputsResults(t, first + 1, last, if whole then Some(outputs.value[1..]) else None);
    }
  }

  ghost predicate InOrder(s: Core) {
    ResultsOk(s.answers.boxes, s.requests.hold, s.requests.policy.nextOrder)
  }

  lemma SilentKeeps(s: Core, t: Core)
    requires InOrder(s) && Silent(s, t)
    ensures InOrder(t)
  {
    NoneNew(s.answers.boxes, t.answers.boxes, s.requests, t.requests);
    hide ResultsOk, NoResults, HeldAnew;
  }

  lemma ResolveResults(s: Core, t: nat, result: Option<int>)
    requires ServerOk(s) && InOrder(s)
    ensures InOrder(Resolve(s, t, result))
  {
    hide ServerOk, ResultsOk, CompleteItem, Consistent;
    OkConsistent(s);
    if t in s.requests.pending {
      CompleteResults(s, t, result);
    }
  }

  lemma ContinueResults(s: Core, choice: Choice)
    requires ServerOk(s) && InOrder(s) && !AtRest(s)
    ensures InOrder(Continue(s, choice))
  {
    hide ServerOk, InOrder, Continue, RunErrand, Silent;
    if s.doing == Idle {
      PopsErrand(s, choice);
      var t := s.(errands := s.errands[1..]);
      if IsAnswer(s.errands[0]) { AnswerSilent(t, s.errands[0]); } else { EventSilent(t, s.errands[0]); }
      Popped(s, t);
      SilentKeeps(t, Continue(s, choice));
    } else if s.doing.Returned? {
      ReturnedResults(s, choice);
    } else {
      DoingSilent(s, choice);
      SilentKeeps(s, Continue(s, choice));
    }
  }

  lemma Popped(s: Core, t: Core)
    requires InOrder(s) && t.answers == s.answers && t.requests == s.requests
    ensures InOrder(t)
  {
    hide ResultsOk;
  }

  lemma ReturnedResults(s: Core, choice: Choice)
    requires ServerOk(s) && InOrder(s) && s.doing.Returned?
    ensures InOrder(Continue(s, choice))
  {
    hide ServerOk;
    OkParts(s);
    hide Consistent, HeldOpen, Current, Fresh, TablesAgree, AnswersOk, QueuesFit, TakeOutputs, ResultsOk;
    OutputsResults(s, s.doing.first, s.doing.last, s.doing.outputs);
  }

  lemma NextResults(s: Core, a: Action)
    requires ServerOk(s) && InOrder(s) && Enabled(s, a)
    ensures InOrder(Next(s, a))
  {
    hide ServerOk, InOrder, Silent, TakeStep, TakeCancel, TakeReset, Resolve, RunTurn, Continue, SettleAll, Greet,
         WriteNext, Break;
    match a
    case Resolves(t, result) => ResolveResults(s, t, result);
    case Continues(choice) => ContinueResults(s, choice);
    case _ => NextSilent(s, a); SilentKeeps(s, Next(s, a));
  }

  lemma NextSilent(s: Core, a: Action)
    requires Enabled(s, a) && !a.Resolves? && !a.Continues?
    ensures Silent(s, Next(s, a))
  {
    hide Silent, TakeStep, TakeCancel, TakeReset, RunTurn, SettleAll, Greet, WriteNext, Break;
    match a
    case Greets(n, hello) => GreetSilent(s, n, hello);
    case Steps(w) => StepSilent(s, w);
    case Cancels(n, id) => CancelSilent(s, n, id);
    case Resetting(n, id) => ResetSilent(s, n, id);
    case Writes(n) => WriteSilent(s, n);
    case Breaks(n) => WriteSilent(s, n);
    case Turns(now) => TurnSilent(s, now);
    case Settles(order, shut) => SettleSilent(s, order, shut);
    case _ => PlainSilent(s, a);
  }

  // -- every run -----------------------------------------------------------------------------------

  lemma {:induction false} RunResults(states: seq<Core>, actions: seq<Action>, i: nat)
    requires IsRun(states, actions) && ServerOk(states[0]) && InOrder(states[0]) && i <= |actions|
    ensures InOrder(states[i])
    decreases i
  {
    hide ServerOk, InOrder;
    if i > 0 {
      RunResults(states, actions, i - 1);
      RunKeeps(states, actions, i - 1);
      NextResults(states[i - 1], actions[i - 1]);
    }
  }

  /** In every run, the results in a session's outbox are in the order their requests were accepted, and
      all of them before the request the session is busy with. */
  lemma ResultsInOrder(s: Core, n: int)
    requires Reached(s)
    ensures var sent := BoxOf(s.answers.boxes, n).sent;
            && (forall i, j :: 0 <= i < j < |sent| && IsResult(sent[i]) && IsResult(sent[j]) ==>
                  sent[i].order < sent[j].order)
            && (forall i, t :: 0 <= i < |sent| && IsResult(sent[i]) && IsHeld(s.requests, t, n) ==>
                  sent[i].order < s.requests.pending[t].waiting.order)
  {
    ReachedInOrder(s);
    ReachedOk(s);
    hide Reached, ServerOk, Consistent;
    OkConsistent(s);
    assert Ascends(BoxOf(s.answers.boxes, n).sent);
    assert AllBelow(BoxOf(s.answers.boxes, n).sent, if n in s.requests.hold then s.requests.hold[n]
      else s.requests.policy.nextOrder);
    forall t | IsHeld(s.requests, t, n) ensures n in s.requests.hold
      && s.requests.hold[n] == s.requests.pending[t].waiting.order {
      HeldForIt(s.requests, t);
    }
  }

  lemma ReachedInOrder(s: Core)
    requires Reached(s)
    ensures InOrder(s)
  {
    hide ServerOk, InOrder;
    var maxSessions: nat, maxBatch: nat, window: real :| maxBatch >= 1 && Reachable(s, maxSessions, maxBatch, window);
    var states, actions :|
      IsRun(states, actions) && states[0] == Start(maxSessions, maxBatch, window) && states[|actions|] == s;
    StartOk(maxSessions, maxBatch, window);
    StartInOrder(maxSessions, maxBatch, window);
    RunResults(states, actions, |actions|);
  }

  lemma StartInOrder(maxSessions: nat, maxBatch: nat, window: real)
    ensures InOrder(Start(maxSessions, maxBatch, window))
  {
  }
}
