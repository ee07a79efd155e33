/** A whole run: a session connects, resets its slot and steps, and the step returns the model's output. */
module EndToEndRun {
  import opened Batching
  import opened RequestTable
  import opened CallLog
  import opened ServerCore
  import opened ServerProperties
  import opened FinalFates
  import opened ServerRuns
  import opened Clients
  import opened EndToEnd
  import opened ClientCalls

  lemma OccursThen(y: System, e: EndToEnd.Event)
    requires Occurs(y) && EndToEnd.Possible(y, e)
    ensures Occurs(EndToEnd.Then(y, e))
  {
    hide EndToEnd.Then, EndToEnd.Possible;
    var systems, events, maxSessions: nat, maxBatch: nat, window: real :|
      && maxBatch >= 1 && IsHistory(systems, events)
      && systems[0] == First(maxSessions, maxBatch, window, y.n) && systems[|events|] == y;
    var z := EndToEnd.Then(y, e);
    var longer, more := systems + [z], events + [e];
    SameSession(y, e);
    assert IsHistory(longer, more) && longer[0] == First(maxSessions, maxBatch, window, z.n) && longer[|more|] == z;
  }

  lemma SameSession(y: System, e: EndToEnd.Event)
    requires EndToEnd.Possible(y, e)
    ensures EndToEnd.Then(y, e).n == y.n
  {
    hide Next;
  }

  /** What the server does by itself happens in the system too. */
  lemma {:induction false} ServesRun(y: System, states: seq<Core>, actions: seq<Action>, i: nat)
    requires Occurs(y) && IsRun(states, actions) && states[0] == y.core && i <= |actions|
    requires forall k :: 0 <= k < |actions| ==> IsWork(actions[k])
    ensures Occurs(y.(core := states[i]))
    decreases i
  {
    hide Occurs, Enabled, Next;
    if i > 0 {
      ServesRun(y, states, actions, i - 1);
      OccursThen(y.(core := states[i - 1]), Serves(actions[i - 1]));
    }
  }

  lemma ServesWork(y: System, t: Core)
    requires Occurs(y) && Works(y.core, t)
    ensures Occurs(y.(core := t))
  {
    hide Occurs, Enabled, Next;
    var states, actions :|
      && IsRun(states, actions) && states[0] == y.core && states[|actions|] == t
      && forall i :: 0 <= i < |actions| ==> IsWork(actions[i]);
    ServesRun(y, states, actions, |actions|);
  }

  lemma FirstOccurs()
    ensures Occurs(First(1, 1, 0.0, 1))
  {
    hide EndToEnd.Then, EndToEnd.Possible;
    var systems, events: seq<EndToEnd.Event> := [First(1, 1, 0.0, 1)], [];
    assert IsHistory(systems, events) && systems[|events|] == First(1, 1, 0.0, 1);
  }

  // -- connecting ----------------------------------------------------------------------------------

  const WELCOMED := Client(Usable, true, 1, 1, NoCall, None)

  lemma Connects()
    ensures Occurs(System(OPEN, 1, WELCOMED, [], 1))
  {
    hide Occurs, Works;
    FirstOccurs();
    OpenWorks();
    var y := First(1, 1, 0.0, 1);
    ServesWork(y, OPEN);
    var z := y.(core := OPEN);
    assert Inbox(z) == [Welcome(1)];
    OccursThen(z, Joins);
    assert EndToEnd.Then(z, Joins) == System(OPEN, 1, WELCOMED, [], 1);
  }

  // -- resetting -----------------------------------------------------------------------------------

  const LOG := [Opened(0, 1), Closed(0, 1), Opened(0, 2)]
  const SENT := [Welcome(1), ResetDone(1, 2)]

  /** The client is told the generation of its reset. */
  const RESET := Client(Usable, false, 2, 2, NoCall, None)

  lemma SendsReset()
    ensures Occurs(System(Next(OPEN, Resetting(1, 1)), 1, Client(Usable, true, 1, 2, ResetCall(1), None), [], 1))
  {
    hide Occurs;
    Connects();
    var y := System(OPEN, 1, WELCOMED, [], 1);
    ResetIsSent(y);
    OccursThen(y, BeginsReset(Done));
    var z := EndToEnd.Then(y, BeginsReset(Done));
    assert z == System(OPEN, 1, Client(Usable, true, 1, 2, ResetCall(1), None), [SentReset(1)], 1);
    OccursThen(z, Delivers(0.0));
    assert z.up[1..] == [];
    assert EndToEnd.Then(z, Delivers(0.0)) == z.(core := Next(OPEN, Resetting(1, 1)), up := []);
  }

  lemma Resets()
    ensures Occurs(System(OpenCore(2, LOG, SENT), 1, RESET, [], 2))
  {
    hide Occurs, Works;
    SendsReset();
    AppliesReset(1, [Opened(0, 1)], [Welcome(1)], 1);
    var y := System(Next(OPEN, Resetting(1, 1)), 1, Client(Usable, true, 1, 2, ResetCall(1), None), [], 1);
    assert [Opened(0, 1)] + [Closed(0, 1), Opened(0, 2)] == LOG && [Welcome(1)] + [ResetDone(1, 2)] == SENT;
    ServesWork(y, OpenCore(2, LOG, SENT));
    var z := y.(core := OpenCore(2, LOG, SENT));
    assert Inbox(z) == SENT;
    OccursThen(z, EndToEnd.Hears);
    var u := EndToEnd.Then(z, EndToEnd.Hears);
    assert u == z.(client := z.client.(reply := Some(ResetDone(1, 2))), read := 2);
    ResetLetsStep(u.client, 1, 2);
    OccursThen(u, Finishes);
    assert EndToEnd.Then(u, Finishes) == System(OpenCore(2, LOG, SENT), 1, RESET, [], 2);
  }

  // -- stepping ------------------------------------------------------------------------------------

  lemma SendsStep(payload: int)
    ensures var w := Waiting(1, 2, payload, 0.0, None, 0);
            Occurs(System(Asked(OpenCore(2, LOG, SENT), w), 1, Client(Usable, false, 2, 3, StepCall(2), None), [], 2))
  {
    hide Occurs;
    Resets();
    var y := System(OpenCore(2, LOG, SENT), 1, RESET, [], 2);
    StepIsSent(y, payload, None);
    OccursThen(y, BeginsStep(payload, None, Done));
    var z := EndToEnd.Then(y, BeginsStep(payload, None, Done));
    assert z == y.(client := Client(Usable, false, 2, 3, StepCall(2), None), up := [SentStep(2, payload, None)]);
    OccursThen(z, Delivers(0.0));
    StepAsked(2, LOG, SENT, Waiting(1, 2, payload, 0.0, None, 0));
    assert z.up[1..] == [];
    assert EndToEnd.Then(z, Delivers(0.0)).core == Asked(OpenCore(2, LOG, SENT), Waiting(1, 2, payload, 0.0, None, 0));
  }

  /** For any payload and any output of the model, some run has a step with the one return the other. */
  lemma StepCanReturn(payload: int, result: int)
    ensures exists y :: Occurs(y) && y.client.call.StepCall? && y.client.reply.Some?
                        && Clients.Result(y.client).Gave? && Clients.Result(y.client).answer.result == Some(result)
  {
    hide Occurs, Works;
    var w := Waiting(1, 2, payload, 0.0, None, 0);
    SendsStep(payload);
    var y := System(Asked(OpenCore(2, LOG, SENT), w), 1, Client(Usable, false, 2, 3, StepCall(2), None), [], 2);
    TakesStep(2, LOG, SENT, w);
    ServesWork(y, TakenCore(2, OpenCore(2, LOG, SENT), w));
    AnswersStep(2, LOG, SENT, w, result);
    var t :| Works(TakenCore(2, OpenCore(2, LOG, SENT), w), t) && t.links == OpenCore(2, LOG, SENT).links
             && BoxOf(t.answers.boxes, 1).sent == SENT + [Answer(0, 2, 2, Some(result))];
    ServesWork(y.(core := TakenCore(2, OpenCore(2, LOG, SENT), w)), t);
    var z := y.(core := t);
    assert Inbox(z)[2] == Answer(0, 2, 2, Some(result));
    OccursThen(z, EndToEnd.Hears);
    ReplyEndsStep(z.client, Answer(0, 2, 2, Some(result)));
  }
}
