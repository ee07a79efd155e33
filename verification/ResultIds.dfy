/** End to end: a session receives its results in the order of its own request ids. */
module ResultIds {
  import opened Batching
  import opened RequestTable
  import opened ServerCore
  import opened AnswerInvariant
  import opened ServerProperties
  import opened FinalFates
  import opened ResultOrder
  import opened EndToEnd

  /** What happens between a client and its server is a run of the server. */
  lemma ThenReached(y: System, e: EndToEnd.Event)
    requires Reached(y.core) && EndToEnd.Possible(y, e)
    ensures Reached(EndToEnd.Then(y, e).core)
  {
    hide Reached, Enabled, Next, Dispatches;
    match e
    case Serves(a) => OneAction(y.core, a);
    case Delivers(now) =>
      HeardEnabled(y, now);
      OneAction(y.core, Heard(y.up[0], y.n, now));
    case _ =>
  }

  lemma HeardEnabled(y: System, now: real)
    requires y.up != [] && Dispatches(y.core, y.n)
    ensures Enabled(y.core, Heard(y.up[0], y.n, now))
  {
    hide Dispatches;
  }

  lemma {:induction false} HistoryReached(systems: seq<System>, events: seq<EndToEnd.Event>, i: nat)
    requires IsHistory(systems, events) && Reached(systems[0].core) && i <= |events|
    ensures Reached(systems[i].core)
    decreases i
  {
    hide Reached, EndToEnd.Then, EndToEnd.Possible;
    if i > 0 {
      HistoryReached(systems, events, i - 1);
      ThenReached(systems[i - 1], events[i - 1]);
    }
  }

  lemma OccursReached(y: System)
    requires Occurs(y)
    ensures Reached(y.core)
  {
    hide Reached, EndToEnd.Then, EndToEnd.Possible;
    var systems, events, maxSessions: nat, maxBatch: nat, window: real :|
      && maxBatch >= 1 && IsHistory(systems, events)
      && systems[0] == First(maxSessions, maxBatch, window, y.n) && systems[|events|] == y;
    StartReached(maxSessions, maxBatch, window);
    HistoryReached(systems, events, |events|);
  }

  lemma StartReached(maxSessions: nat, maxBatch: nat, window: real)
    requires maxBatch >= 1
    ensures Reached(Start(maxSessions, maxBatch, window))
  {
    hide Enabled, Next;
    var states, actions: seq<Action> := [Start(maxSessions, maxBatch, window)], [];
    assert IsRun(states, actions) && states[|actions|] == Start(maxSessions, maxBatch, window);
    assert Reachable(Start(maxSessions, maxBatch, window), maxSessions, maxBatch, window);
  }

  /** Whatever is refused, expires or comes late in between, the results a session is sent carry rising
      ids. */
  lemma ResultsById(y: System, i: nat, j: nat)
    requires Occurs(y) && i < j < |Inbox(y)| && IsResult(Inbox(y)[i]) && IsResult(Inbox(y)[j])
    ensures Inbox(y)[i].requestId < Inbox(y)[j].requestId
  {
    hide Occurs, Reached, SystemOk, ServerOk, IdsOk;
    OccursReached(y);
    ResultsInOrder(y.core, y.n);
    OccursOk(y);
    IdParts(y);
    AnswerIsOld(y, i);
    AnswerIsOld(y, j);
    IdsRise(y, Inbox(y)[i].order, Inbox(y)[j].order);
  }

  lemma IdParts(y: System)
    requires SystemOk(y)
    ensures ServerOk(y.core) && IdsOk(y)
  {
    hide ServerOk, IdsOk, RepliesOk, ClientOk, Rising;
  }

  lemma IdsRise(y: System, o: nat, p: nat)
    requires IdsOk(y) && IsOwn(y, o) && IsOwn(y, p) && o < p
    ensures IdOf(y, o) < IdOf(y, p)
  {
  }
}
