/** What a client's calls come to: when it may step, what a step puts on the channel, what its reply makes
    of it, and where the output it returns comes from. */
module ClientCalls {
  import opened Batching
  import opened RequestTable
  import opened CallLog
  import opened ServerCore
  import opened AnswerInvariant
  import opened ServerProperties
  import opened FinalFates
  import opened ResultOrder
  import opened StepOutputs
  import opened SessionReplies
  import opened Clients
  import opened EndToEnd
  import opened ResultIds

  // -- one call ------------------------------------------------------------------------------------

  /** A reset that was answered by its own `ResetDone` leaves the client in the new generation, free to step. */
  lemma ResetLetsStep(c: Client, id: int, g: nat)
    requires c.call == ResetCall(id) && c.reply == Some(ResetDone(id, g))
    ensures Clients.Result(c) == WasReset(g)
    ensures var d := Finish(c);
            && d.generation == g && !d.resetRequired && d.call == NoCall && d.reply == None
            && d.state == c.state && d.nextId == c.nextId
  {
  }

  /** Whatever else ends a call leaves the generation, and what is required, as they were. */
  lemma OtherEndsChangeNothing(c: Client)
    requires c.call != NoCall && c.reply.Some? && !(c.call.ResetCall? && c.reply.value.ResetDone?)
    ensures Finish(c) == c.(call := NoCall, reply := None)
    ensures !Clients.Result(c).WasReset?
  {
  }

  /** The reply to a step is what it returns: the result in it, or the error it raises. */
  lemma ReplyEndsStep(c: Client, m: Message)
    requires c.call.StepCall? && (m.Answer? || m.Failed?) && m.requestId == c.call.id
    ensures var d := Clients.Hear(c, m);
            && d == c.(reply := Some(m))
            && Clients.Result(d) == if m.Answer? && m.result.Some? then Gave(m) else Raised
  {
  }

  /** No other message touches it. */
  lemma OthersAreDropped(c: Client, m: Message)
    requires c.call == NoCall || m.Welcome? || m.Refused? || m.Flush? || m.requestId != c.call.id
    ensures Clients.Hear(c, m) == c
  {
  }

  /** A step on a usable link that needs no reset is put on the channel, under a new id, with its payload,
      and waits. */
  lemma StepIsSent(y: System, payload: int, timeout: Option<real>)
    requires y.client.state == Usable && !y.client.resetRequired && y.client.call == NoCall
    ensures EndToEnd.Possible(y, BeginsStep(payload, timeout, Done))
    ensures var z := EndToEnd.Then(y, BeginsStep(payload, timeout, Done));
            && z.up == y.up + [SentStep(y.client.nextId, payload, timeout)] && z.core == y.core
            && z.client.call == StepCall(y.client.nextId) && z.client.reply == None
            && z.client.nextId == y.client.nextId + 1
  {
  }

  /** So is a reset, whether or not one is required; no step until it completed. */
  lemma ResetIsSent(y: System)
    requires y.client.state == Usable && y.client.call == NoCall
    ensures EndToEnd.Possible(y, BeginsReset(Done))
    ensures var z := EndToEnd.Then(y, BeginsReset(Done));
            && z.up == y.up + [SentReset(y.client.nextId)] && z.core == y.core
            && z.client.call == ResetCall(y.client.nextId) && z.client.resetRequired
  {
  }

  /** A step that gives up puts its cancel on the channel; a reset sends none. */
  lemma GivingUpCancels(y: System)
    requires y.client.state == Usable && y.client.call != NoCall && y.client.reply.None?
    ensures EndToEnd.Possible(y, TimesOut(Done))
    ensures var z := EndToEnd.Then(y, TimesOut(Done));
            && z.up == y.up + (if y.client.call.StepCall? then [SentCancel(y.client.call.id)] else [])
            && z.client.call == NoCall && z.client.resetRequired == y.client.resetRequired
  {
  }

  /** Nothing is sent on a link that ended, and no step where a reset is required. */
  lemma NothingSent(y: System, e: EndToEnd.Event)
    requires EndToEnd.Possible(y, e) && (e.BeginsStep? || e.BeginsReset? || e.TimesOut?)
    requires y.client.state != Usable || (e.BeginsStep? && y.client.resetRequired)
    ensures EndToEnd.Then(y, e).up == y.up
  {
  }

  // -- a step arrives --------------------------------------------------------------------------------

  /** A step that the server takes off the channel when it takes steps of the session waits there as it was
      sent: under its id, with its payload, until its timeout from then on, or without a bound. */
  lemma StepArrives(y: System, now: real)
    requires Occurs(y) && EndToEnd.Possible(y, Delivers(now)) && y.up[0].SentStep? && TakesSteps(y.core, y.n)
    ensures var z, o, m := EndToEnd.Then(y, Delivers(now)), y.core.requests.policy.nextOrder, y.up[0];
            && z.up == y.up[1..]
            && z.core.requests.policy.waiting != []
            && var w := z.core.requests.policy.waiting[|z.core.requests.policy.waiting| - 1];
               && w.order == o && w.connection == y.n && w.requestId == m.id && w.payload == m.payload
               && w.arrived == now && (w.deadline.Some? <==> m.timeout.Some?)
               && (m.timeout.Some? ==> w.deadline.value == now + m.timeout.value)
  {
    hide Occurs, TakesSteps;
    ResultIds.OccursReached(y);
    var w := Heard(y.up[0], y.n, now).w;
    StepAcceptedExactlyWhen(y.core, w);
    hide TakeStep;
  }

  // -- the end of a link -------------------------------------------------------------------------------

  /** Whether this event ends the client's link: it is lost or closed, a send finds it gone, or the server
      answers the hello with anything but a welcome. */
  predicate EndsLink(y: System, e: EndToEnd.Event)
    requires EndToEnd.Possible(y, e)
  {
    match e
    case Loses => true
    case Closes => true
    case Joins => !Inbox(y)[y.read].Welcome?
    case BeginsStep(_, _, delivery) => y.client.state == Usable && !y.client.resetRequired && delivery == LinkGone
    case BeginsReset(delivery) => y.client.state == Usable && delivery == LinkGone
    case TimesOut(delivery) => y.client.state == Usable && y.client.call.StepCall? && delivery == LinkGone
    case _ => false
  }

  /** The link ends exactly at those events, and is usable only from the welcome, whose generation it takes. */
  lemma LinkEndsExactlyWhen(y: System, e: EndToEnd.Event)
    requires EndToEnd.Possible(y, e)
    ensures var z := EndToEnd.Then(y, e);
            && (z.client.state == Ended <==> y.client.state == Ended || EndsLink(y, e))
            && (z.client.state == Usable && y.client.state != Usable ==>
                  e.Joins? && Inbox(y)[y.read] == Welcome(z.client.generation))
  {
    hide Next;
  }

  /** Over every history, a link that ended stays so, and nothing is put on its channel any more. */
  lemma {:induction false} EndedForGood(systems: seq<System>, events: seq<EndToEnd.Event>, i: nat, j: nat)
    requires IsHistory(systems, events) && i <= j <= |events| && systems[i].client.state == Ended
    ensures systems[j].client.state == Ended
    ensures exists k :: 0 <= k <= |systems[i].up| && systems[j].up == systems[i].up[k..]
    decreases j - i
  {
    if i == j {
      assert systems[i].up[0..] == systems[j].up;
    } else {
      EndedForGood(systems, events, i, j - 1);
      var y, e := systems[j - 1], events[j - 1];
      var k :| 0 <= k <= |systems[i].up| && y.up == systems[i].up[k..];
      LinkEndsExactlyWhen(y, e);
      EndedSends(y, e);
      hide EndToEnd.Possible, EndToEnd.Then, EndsLink;
      if systems[j].up == y.up {
        assert systems[j].up == systems[i].up[k..];
      } else {
        assert systems[j].up == systems[i].up[k + 1..];
      }
    }
  }

  lemma EndedSends(y: System, e: EndToEnd.Event)
    requires EndToEnd.Possible(y, e) && y.client.state == Ended
    ensures EndToEnd.Then(y, e).up == y.up || (y.up != [] && EndToEnd.Then(y, e).up == y.up[1..])
  {
    hide Next;
  }

  // -- when a client may step ------------------------------------------------------------------------

  predicate Begins(y: System, e: EndToEnd.Event) {
    e.BeginsReset? && y.client.state == Usable
  }

  predicate Completes(y: System, e: EndToEnd.Event) {
    e.Finishes? && y.client.call.ResetCall? && y.client.reply.Some? && y.client.reply.value.ResetDone?
  }

  /** The last reset begun before place `i` of a history. */
  function LastReset(systems: seq<System>, events: seq<EndToEnd.Event>, i: nat): (r: Option<nat>)
    requires |systems| == |events| + 1 && i <= |events|
    ensures r.Some? ==> r.value < i && Begins(systems[r.value], events[r.value])
  {
    if i == 0 then None
    else if Begins(systems[i - 1], events[i - 1]) then Some(i - 1)
    else LastReset(systems, events, i - 1)
  }

  /** Whether the last reset begun was answered by its own `ResetDone`, and ended with it. */
  ghost predicate ResetCompleted(systems: seq<System>, events: seq<EndToEnd.Event>, i: nat)
    requires |systems| == |events| + 1 && i <= |events|
  {
    LastReset(systems, events, i).Some?
    && exists e :: CompletedAt(systems, events, i, e)
  }

  ghost predicate CompletedAt(systems: seq<System>, events: seq<EndToEnd.Event>, i: nat, e: nat)
    requires |systems| == |events| + 1 && i <= |events| && LastReset(systems, events, i).Some?
  {
    && LastReset(systems, events, i).value < e < i && Completes(systems[e], events[e])
    && systems[e].client.call == ResetCall(systems[LastReset(systems, events, i).value].client.nextId)
  }

  lemma ClientStep(y: System, e: EndToEnd.Event)
    requires EndToEnd.Possible(y, e)
    ensures var z := EndToEnd.Then(y, e);
            && (z.client.resetRequired == if Begins(y, e) then true else if Completes(y, e) then false
                                          else y.client.resetRequired)
            && (z.client.call.ResetCall? ==>
                  z.client.call == if Begins(y, e) then ResetCall(y.client.nextId) else y.client.call)
            && (Begins(y, e) ==> !Completes(y, e))
  {
    hide Next;
  }

  /** Over every history, a client may step if and only if the last reset it began completed. */
  lemma {:induction false} MayStepExactlyWhen(systems: seq<System>, events: seq<EndToEnd.Event>, i: nat)
    requires IsHistory(systems, events) && systems[0].client == NEW_CLIENT && i <= |events|
    ensures !systems[i].client.resetRequired <==> ResetCompleted(systems, events, i)
    ensures systems[i].client.call.ResetCall? ==>
              && LastReset(systems, events, i).Some?
              && systems[i].client.call == ResetCall(systems[LastReset(systems, events, i).value].client.nextId)
    decreases i
  {
    if i > 0 {
      MayStepExactlyWhen(systems, events, i - 1);
      var y, e := systems[i - 1], events[i - 1];
      ClientStep(y, e);
      hide EndToEnd.Then, EndToEnd.Possible;
      if Completes(y, e) {
        assert CompletedAt(systems, events, i, i - 1);
      } else if !Begins(y, e) {
        SameCompleted(systems, events, i);
      }
    }
  }

  lemma SameCompleted(systems: seq<System>, events: seq<EndToEnd.Event>, i: nat)
    requires |systems| == |events| + 1 && 0 < i <= |events|
    requires !Begins(systems[i - 1], events[i - 1]) && !Completes(systems[i - 1], events[i - 1])
    ensures ResetCompleted(systems, events, i) <==> ResetCompleted(systems, events, i - 1)
  {
    if ResetCompleted(systems, events, i) {
      var e :| CompletedAt(systems, events, i, e);
      assert CompletedAt(systems, events, i - 1, e);
    }
    if ResetCompleted(systems, events, i - 1) {
      var e :| CompletedAt(systems, events, i - 1, e);
      assert CompletedAt(systems, events, i, e);
    }
  }

  // -- where the output comes from -------------------------------------------------------------------

  /** What the server does at an event of the system, if anything. */
  function ActionOf(y: System, e: EndToEnd.Event): Option<Action>
    requires EndToEnd.Possible(y, e)
  {
    match e
    case Serves(a) => Some(a)
    case Delivers(now) => Some(Heard(y.up[0], y.n, now))
    case _ => None
  }

  ghost predicate GivesIn(y: System, e: EndToEnd.Event, o: nat, result: int) {
    EndToEnd.Possible(y, e) && ActionOf(y, e).Some? && Gives(y.core, ActionOf(y, e).value, o, result)
  }

  lemma ThenSends(y: System, e: EndToEnd.Event, i: nat)
    requires Reached(y.core) && EndToEnd.Possible(y, e) && i < |Inbox(EndToEnd.Then(y, e))|
    requires IsResult(Inbox(EndToEnd.Then(y, e))[i])
    ensures (i < |Inbox(y)| && Inbox(EndToEnd.Then(y, e))[i] == Inbox(y)[i])
         || (var m := Inbox(EndToEnd.Then(y, e))[i]; GivesIn(y, e, m.order, m.result.value))
  {
    hide Reached, Gives, Next, Dispatches;
    if e.Serves? || e.Delivers? {
      if e.Delivers? { HeardEnabled(y, e.now); }
      var a := ActionOf(y, e).value;
      if i < |Inbox(y)| {
        SentStays(y.core, a, y.n, i);
      } else {
        NextGives(y.core, a, y.n, i);
      }
    }
  }

  lemma {:induction false} HistoryGives(systems: seq<System>, events: seq<EndToEnd.Event>, j: nat, i: nat)
    requires IsHistory(systems, events) && Reached(systems[0].core) && Inbox(systems[0]) == [] && j <= |events|
    requires i < |Inbox(systems[j])| && IsResult(Inbox(systems[j])[i])
    ensures var m := Inbox(systems[j])[i];
            exists k :: 0 <= k < j && GivesIn(systems[k], events[k], m.order, m.result.value)
    decreases j
  {
    hide Reached, GivesIn, EndToEnd.Then, EndToEnd.Possible;
    HistoryReached(systems, events, j - 1);
    ThenSends(systems[j - 1], events[j - 1], i);
    if !(var m := Inbox(systems[j])[i]; GivesIn(systems[j - 1], events[j - 1], m.order, m.result.value)) {
      HistoryGives(systems, events, j - 1, i);
    }
  }

  /** A step returns exactly what the model gave for it: at an earlier event, the model gave this output for
      the one request the server accepted from this session under the step's id. */
  lemma StepReturnsTheModelsOutput(systems: seq<System>, events: seq<EndToEnd.Event>, j: nat, maxSessions: nat,
                                   maxBatch: nat,
                                   window: real)
    requires maxBatch >= 1 && IsHistory(systems, events) && j <= |events|
    requires systems[0] == First(maxSessions, maxBatch, window, systems[j].n)
    requires systems[j].client.call.StepCall? && systems[j].client.reply.Some?
             && Clients.Result(systems[j].client).Gave?
    ensures var y, m := systems[j], Clients.Result(systems[j].client).answer;
            && m.requestId == y.client.call.id && IsOwn(y, m.order) && IdOf(y, m.order) == y.client.call.id
            && exists k :: 0 <= k < j && GivesIn(systems[k], events[k], m.order, m.result.value)
  {
    hide Reached, Occurs, GivesIn, EndToEnd.Then, EndToEnd.Possible;
    HistoryOccurs(systems, events, j, maxSessions, maxBatch, window);
    var y := systems[j];
    StepReturnsItsOwn(y);
    ReplyIsInbox(y);
    var i: nat :| i < |Inbox(y)| && Inbox(y)[i] == y.client.reply.value;
    ResultIds.StartReached(maxSessions, maxBatch, window);
    HistoryGives(systems, events, j, i);
  }

  lemma HistoryOccurs(systems: seq<System>, events: seq<EndToEnd.Event>, j: nat, maxSessions: nat, maxBatch: nat,
                      window: real)
    requires maxBatch >= 1 && IsHistory(systems, events) && j <= |events|
    requires systems[0] == First(maxSessions, maxBatch, window, systems[j].n)
    ensures Occurs(systems[j])
  {
    hide EndToEnd.Then, EndToEnd.Possible;
    assert IsHistory(systems[..j + 1], events[..j]);
    assert systems[..j + 1][|events[..j]|] == systems[j];
  }

  lemma ReplyIsInbox(y: System)
    requires Occurs(y) && y.client.call != NoCall && y.client.reply.Some?
    ensures exists i: nat :: i < |Inbox(y)| && Inbox(y)[i] == y.client.reply.value
  {
    hide Occurs, ServerOk;
    OccursOk(y);
    hide RepliesOk, IdsOk;
  }
}
