/** What each region tells a session, and which requests it takes or fails: when a step is accepted, what
    a reset marks, what a greeting leads to, and which running requests a turn fails. */
module SessionReplies {
  import opened Batching
  import opened RequestTable
  import opened CallLog
  import opened ServerCore
  import opened LinkInvariant
  import opened RequestInvariant
  import opened AnswerInvariant
  import opened LogInvariant
  import opened EndInvariant
  import opened ServerProperties
  import opened StepOutputs
  import opened StepWaits

  /** What a session is sent when `m` is posted to it: nothing once its connection is shut, or with no
      room in its outbox. */
  function Posted(s: Core, n: int, m: Message): seq<Message> {
    if StateOf(s, n) == Shut || |SentTo(s, n)| - BoxOf(s.answers.boxes, n).written >= OUTBOX then [] else [m]
  }

  /** What ends a session's link once everything before it, `sent`, is written: nothing if there is no room
      for it, and then the link is closed at once. */
  function Flushing(s: Core, n: int, sent: seq<Message>): seq<Message> {
    if |sent| - BoxOf(s.answers.boxes, n).written >= OUTBOX then [] else [Flush]
  }

  // -- steps ---------------------------------------------------------------------------------------

  /** Whether the server takes a step of this session. */
  ghost predicate TakesSteps(s: Core, n: int) {
    && s.server == Serving && n in s.links.open && StateOf(s, n) == Open && n !in s.resetting
    && !Queues(s.requests, n) && !IsTaken(s.requests, n) && !Runs(s.requests, n)
  }

  /** In every run: a step is accepted exactly when the server serves, its session is open and not being
      reset, and has no request that waits, is taken, or runs. It then waits behind all others, as it was
      sent, and nothing is sent back; otherwise nothing changes but that its session is told it failed. */
  lemma StepAcceptedExactlyWhen(s: Core, w: Waiting)
    requires Reached(s) && Enabled(s, Steps(w))
    ensures var t, n, o := Next(s, Steps(w)), w.connection, s.requests.policy.nextOrder;
            && o !in s.requests.ledger
            && (o in t.requests.ledger <==> TakesSteps(s, n))
            && (TakesSteps(s, n) ==>
                  && t.requests.policy.waiting == s.requests.policy.waiting + [w.(order := o)]
                  && t.answers.fates == s.answers.fates[o := Awaiting] && t.answers.boxes == s.answers.boxes)
            && (!TakesSteps(s, n) ==>
                  && t.requests == s.requests && t.answers.fates == s.answers.fates
                  && SentTo(t, n) == SentTo(s, n) + Posted(s, n, Failed(w.requestId))
                  && forall k :: k != n ==> SentTo(t, k) == SentTo(s, k))
  {
    hide Reached, ServerOk, Consistent, Queues, IsTaken, Runs;
    ReachedOk(s);
    OkConsistent(s);
    NextIsNew(s.requests);
    OpenListed(s);
    BusyExactlyOnce(s, w.connection);
  }

  lemma NextIsNew(r: Requests)
    requires Consistent(r)
    ensures r.policy.nextOrder !in r.ledger
  {
    hide Ordered, Listed, Ascending, Ticketed, HoldsOne;
  }

  lemma OpenListed(s: Core)
    requires ServerOk(s)
    ensures forall n :: StateOf(s, n) == Open ==> n in s.links.open
  {
    hide RequestsOk, LogOk, AnswersOk, EndsOk, SlotsInRange, OpeningListed, Numbered, GreetingFits, QueuesFit,
         DoingFits;
  }

  // -- resets ----------------------------------------------------------------------------------------

  /** A reset is queued, and marks its session so that its steps are refused; a server that no longer
      serves tells the session that it failed. */
  lemma ResetMarks(s: Core, n: int, requestId: int)
    ensures var t := TakeReset(s, n, requestId);
            && t.requests == s.requests
            && (s.server == Serving ==>
                  && n in t.resetting && t.answers == s.answers && t.events == s.events + [Resets(n, requestId)]
                  && !TakesSteps(t, n))
            && (s.server != Serving ==>
                  && t.events == s.events && t.resetting == s.resetting
                  && SentTo(t, n) == SentTo(s, n) + Posted(s, n, Failed(requestId)))
  {
  }

  /** Whether this step of the server is the one that settles a reset of `n`: it has been applied or
      turned down, or its session has gone. */
  predicate SettlesReset(s: Core, a: Action, n: int) {
    && a.Continues?
    && if s.doing.Idle? then s.errands != [] && ErrandSettles(s, s.errands[0], n)
       else (s.doing.Reopened? || s.doing.Forgetting?) && s.doing.n == n
  }

  predicate ErrandSettles(s: Core, e: Errand, n: int) {
    || (e.Do? && e.event.Resets? && e.event.n == n && StateOf(s, n) != Open)
    || (e.Refuse? && e.event.Resets? && e.event.n == n)
  }

  /** The mark stays until then. */
  lemma MarkStays(s: Core, a: Action, n: int)
    requires Enabled(s, a) && n in s.resetting
    ensures n in Next(s, a).resetting <==> !SettlesReset(s, a, n)
  {
    hide TakeBatch, Expire, TakeCancel, CompleteItem, SettleAll, RunErrand, TakeOutputs, TakeStep;
    if a.Continues? {
      if s.doing.Idle? {
        ErrandMarks(s.(errands := s.errands[1..]), s.errands[0], n);
      } else {
        DoingMarks(s, a.choice, n);
      }
    } else {
      OthersMark(s, a);
    }
  }

  lemma OthersMark(s: Core, a: Action)
    requires Enabled(s, a) && !a.Continues?
    ensures s.resetting <= Next(s, a).resetting
  {
    hide Decision, ByTicket, Overdue, AnswerRequest, Complete, Settle, DroppedBy, Withdraw, Mend, Mark;
  }

  lemma ErrandMarks(s: Core, e: Errand, n: int)
    requires n in s.resetting
    ensures n in RunErrand(s, e).resetting <==> !ErrandSettles(s, e, n)
  {
    hide AnswerRequest, Release, Prepare, ByTicket, Mend, Of;
  }

  lemma DoingMarks(s: Core, choice: Choice, n: int)
    requires !s.doing.Idle? && n in s.resetting
    ensures n in Continue(s, choice).resetting <==> !SettlesReset(s, Continues(choice), n)
  {
    hide AnswerRequest, Release, InsertAll, Mend, Reaching, TakeOutputs;
    if s.doing.Returned? {
      TakeOutputsLinks(s, s.doing.first, s.doing.last, s.doing.outputs);
    }
  }

  /** From the moment a serving server takes a reset until that session's reset is settled, no step of the
      session is accepted. */
  lemma ResetRefusesSteps(states: seq<Core>, actions: seq<Action>, i: nat, j: nat, n: int)
    requires IsRun(states, actions) && i < j < |actions|
    requires actions[i].Resetting? && actions[i].n == n && states[i].server == Serving
    requires forall k :: i < k < j ==> !SettlesReset(states[k], actions[k], n)
    requires actions[j].Steps? && actions[j].w.connection == n
    ensures states[j + 1].requests == states[j].requests
  {
    hide SettlesReset;
    MarkedUntil(states, actions, i, j, n);
  }

  lemma {:induction false} MarkedUntil(states: seq<Core>, actions: seq<Action>, i: nat, j: nat, n: int)
    requires IsRun(states, actions) && i < j <= |actions|
    requires actions[i].Resetting? && actions[i].n == n && states[i].server == Serving
    requires forall k :: i < k < j ==> !SettlesReset(states[k], actions[k], n)
    ensures n in states[j].resetting
    decreases j
  {
    hide SettlesReset, Enabled, Next;
    if j == i + 1 {
      TakesMark(states[i], actions[i]);
    } else {
      MarkedUntil(states, actions, i, j - 1, n);
      MarkStays(states[j - 1], actions[j - 1], n);
    }
  }

  lemma TakesMark(s: Core, a: Action)
    requires Enabled(s, a) && a.Resetting? && s.server == Serving
    ensures a.n in Next(s, a).resetting
  {
  }

  // -- connections -----------------------------------------------------------------------------------

  /** A link is taken exactly when the server serves and fewer than `maxSessions` connections are being
      opened; each link gets a number of its own. */
  lemma LinkTakenExactlyWhen(s: Core)
    requires Reached(s)
    ensures var t, n := Next(s, AcceptsLink), s.links.next;
            && n !in s.links.connections && t.links.next == n + 1
            && (n in t.links.connections <==> s.server == Serving && |s.links.opening| < s.maxSessions)
            && (n in t.links.connections ==>
                  StateOf(t, n) == Connecting && n in t.links.opening && Enabled(t, Greets(n, NotHello)))
            && (forall k :: k in s.links.connections ==>
                  k in t.links.connections && t.links.connections[k] == s.links.connections[k])
  {
    hide Reached, ServerOk;
    ReachedOk(s);
    NumberIsNew(s);
  }

  lemma NumberIsNew(s: Core)
    requires ServerOk(s)
    ensures s.links.next !in s.links.connections
  {
    hide RequestsOk, LogOk, AnswersOk, EndsOk, TablesAgree, SlotsInRange, OpeningListed, GreetingFits, QueuesFit,
         DoingFits;
  }

  /** When a session's link ends, that its reader ends is queued for the step thread, and nothing else
      changes. */
  lemma EndingIsQueued(s: Core, n: int)
    requires Enabled(s, Ends(n))
    ensures var t := Next(s, Ends(n));
            && t.events == s.events + [Leaves(n)] && t.requests == s.requests && t.answers == s.answers
            && StateOf(t, n) == StateOf(s, n) && !Dispatches(t, n) && t.links.open == s.links.open
  {
  }

  /** The writer takes what is queued in order, one message at a time, up to the flush that ends it. */
  lemma WritingTakesNext(s: Core, n: int)
    requires Enabled(s, Writes(n))
    ensures var t, b := Next(s, Writes(n)), BoxOf(s.answers.boxes, n);
            && t == s.(answers := t.answers) && t.answers.fates == s.answers.fates && SentTo(t, n) == SentTo(s, n)
            && (forall k :: k != n ==> BoxOf(t.answers.boxes, k) == BoxOf(s.answers.boxes, k))
            && BoxOf(t.answers.boxes, n).written ==
                 if b.written < |b.sent| && b.sent[b.written] != Flush then b.written + 1 else b.written
  {
  }

  /** A link that breaks is marked, and loses nothing that was queued before. */
  lemma BreakingIsMarked(s: Core, n: int)
    requires Enabled(s, Breaks(n))
    ensures var t := Next(s, Breaks(n));
            && BoxOf(t.answers.boxes, n) == BoxOf(s.answers.boxes, n).(broken := true)
            && t == s.(answers := t.answers) && t.answers.fates == s.answers.fates
            && forall k :: k != n ==> BoxOf(t.answers.boxes, k) == BoxOf(s.answers.boxes, k)
  {
  }

  /** The step thread's next four regions for a session that leaves: from the table, the call into the
      model, and the end. */
  function FourMore(s: Core, choice: Choice): Core {
    Continue(Continue(Continue(Continue(s, choice), choice), choice), choice)
  }

  /** A session that leaves while it is open is forgotten: what it had waiting is dropped, what it had
      running is detached, the model closes its generation, and its connection is shut, after what its
      outbox held was sent. */
  lemma LeavingCloses(s: Core, choice: Choice, n: int)
    requires Reached(s) && s.doing == Idle && s.errands != [] && s.errands[0] == Do(Leaves(n)) && StateOf(s, n) == Open
    ensures var t := FourMore(s, choice);
            && t.doing == Idle && t.errands == s.errands[1..]
            && StateOf(t, n) == Shut && n !in t.links.open && n !in t.resetting
            && t.log == s.log + [Closed(SlotOf(s.links, n), GenerationOf(s.links, n))]
            && (SlotOf(s.links, n) in t.links.bySlot ==> t.links.bySlot[SlotOf(s.links, n)] != n)
            && !Queues(t.requests, n) && !Runs(t.requests, n)
            && SentTo(t, n) == SentTo(s, n) + Flushing(s, n, SentTo(s, n))
  {
    hide Reached, ServerOk, Release, Mend, DueOf, Forget, Queues, Runs;
    ReachedOk(s);
    OpenListed(s);
    var c := s.(errands := s.errands[1..]);
    var d := ServerCore.Move(Unlist(c, n), n, Closing).(doing := Forgetting(n, true, None));
    assert Continue(s, choice) == d;
    var e := ForgetRegion(d, n, true, None);
    assert Continue(d, choice) == e;
    assert Continue(Continue(e, choice), choice) == FourMore(s, choice);
    Forgets(d.links, n);
    Releases(s.requests, n);
  }

  lemma Forgets(l: Links, n: int)
    ensures var m := Forget(l, n);
            && n !in m.open && m.connections == l.connections
            && (SlotOf(l, n) in m.bySlot && n in l.connections ==> m.bySlot[SlotOf(l, n)] != n)
  {
  }

  lemma Releases(r: Requests, n: int)
    ensures !Queues(Release(r, n), n) && !Runs(Release(r, n), n)
  {
    OthersMembers(r.policy.waiting, n);
  }

  /** A first message leads to an opening exactly when it is a hello for one of the server's slots and the
      server serves. One in another protocol, or for no slot, is refused. */
  lemma GreetingLeadsTo(s: Core, n: int, hello: Hello)
    requires Reached(s) && Enabled(s, Greets(n, hello))
    ensures var t := Next(s, Greets(n, hello));
            var fits := hello.ForSlot? && 0 <= hello.slot < s.maxSessions;
            && t.requests == s.requests && t.links.open == s.links.open
            && (fits && s.server == Serving <==> StateOf(t, n) == Opening)
            && (StateOf(t, n) == Opening ==>
                  && t.events == s.events + [Opens(n)] && SlotOf(t.links, n) == hello.slot
                  && t.links.connections[n].reader == Dispatching && t.answers == s.answers)
            && (StateOf(t, n) != Opening ==>
                  t.events == s.events && t.links.connections[n].reader == ServerCore.Reader.Leaving)
            && (hello.NotHello? ==> SentTo(t, n) == SentTo(s, n))
            && (!hello.NotHello? && !fits ==> SentTo(t, n) == SentTo(s, n) + Posted(s, n, Refused))
            && (fits && s.server != Serving ==> SentTo(t, n) == SentTo(s, n) + Flushing(s, n, SentTo(s, n)))
  {
    hide Reached, ServerOk, Greet;
    ReachedOk(s);
    StillConnecting(s, n);
    if Fits(s, hello) {
      FittingGreeting(s, n, hello);
    } else {
      FailingGreeting(s, n, hello);
      FailingIsTold(s, n, hello);
    }
  }

  /** The hello of a session whose slot the server serves. */
  predicate Fits(s: Core, hello: Hello) {
    hello.ForSlot? && 0 <= hello.slot < s.maxSessions && s.server == Serving
  }

  lemma FittingGreeting(s: Core, n: int, hello: Hello)
    requires n in s.links.connections && s.links.connections[n].state == Connecting && Fits(s, hello)
    ensures var t := Greet(s, n, hello);
            && t.requests == s.requests && t.links.open == s.links.open && StateOf(t, n) == Opening
            && t.events == s.events + [Opens(n)] && SlotOf(t.links, n) == hello.slot
            && t.links.connections[n].reader == Dispatching && t.answers == s.answers
  {
    hide Close, PostTo;
    var c := s.links.connections[n];
    assert Greet(s, n, hello).links ==
      s.links.(connections := s.links.connections[n := c.(state := Opening, slot := hello.slot,
                                                          reader := Dispatching)]);
  }

  lemma FailingGreeting(s: Core, n: int, hello: Hello)
    requires n in s.links.connections && s.links.connections[n].state != Opening && !Fits(s, hello)
    ensures var t := Greet(s, n, hello);
            && t.requests == s.requests && t.links.open == s.links.open && StateOf(t, n) != Opening
            && t.events == s.events && t.links.connections[n].reader == ServerCore.Reader.Leaving
  {
    hide Post, Flushed, BoxOf, ServerCore.Move;
  }

  lemma FailingIsTold(s: Core, n: int, hello: Hello)
    requires n in s.links.connections && !Fits(s, hello)
    ensures var t := Greet(s, n, hello);
            && (hello.NotHello? ==> SentTo(t, n) == SentTo(s, n))
            && (!hello.NotHello? && !(hello.ForSlot? && 0 <= hello.slot < s.maxSessions) ==>
                  SentTo(t, n) == SentTo(s, n) + Posted(s, n, Refused))
            && (hello.ForSlot? && 0 <= hello.slot < s.maxSessions ==>
                  SentTo(t, n) == SentTo(s, n) + Flushing(s, n, SentTo(s, n)))
  {
    hide ServerCore.Move;
  }

  lemma StillConnecting(s: Core, n: int)
    requires ServerOk(s) && n in s.links.connections && s.links.connections[n].reader == Greeting
    ensures s.links.connections[n].state != Opening
    ensures s.server == Serving ==> s.links.connections[n].state == Connecting
  {
    hide RequestsOk, LogOk, AnswersOk, EndsOk, TablesAgree, SlotsInRange, OpeningListed, Numbered, QueuesFit, DoingFits;
  }

  /** The model's answer to an opening decides it: a session whose opening it took becomes open, in its
      slot, while the server serves; one whose opening raised is told it was refused, and closed. */
  lemma OpeningEnds(s: Core, choice: Choice)
    requires Reached(s) && s.doing.OpenedCall?
    ensures var t, n := Continue(s, choice), s.doing.n;
            && (s.doing.ok && s.server == Serving ==>
                  && StateOf(t, n) == Open && n in t.links.open
                    && t.links.bySlot == s.links.bySlot[SlotOf(s.links, n) := n]
                  && t.doing == Welcoming(n) && t.answers == s.answers)
            && t.links.opening == s.links.opening - {n}
            && (!s.doing.ok ==>
                  && StateOf(t, n) == Closing && n !in t.links.open && t.doing == Idle
                  && var told := SentTo(s, n) + (if s.server == Serving then Posted(s, n, Refused) else []);
                     SentTo(t, n) == told + Flushing(s, n, told))
            && (s.doing.ok && s.server != Serving ==> t.doing == UndoingCall(n) && t.answers == s.answers)
  {
    hide Reached, ServerOk;
    ReachedOk(s);
    OpensNow(s);
  }

  /** An opening that the model took while the server began to stop is undone: the model closes the
      generation it just opened, and the link is closed after what was sent. */
  lemma OpeningUndone(s: Core, choice: Choice)
    requires Reached(s) && s.doing.UndoingCall?
    ensures var t, n := Continue(s, choice), s.doing.n;
            && t.doing == Idle && StateOf(t, n) == Closing && n !in t.links.open
            && t.log == s.log + [Closed(SlotOf(s.links, n), GenerationOf(s.links, n))]
            && SentTo(t, n) == SentTo(s, n) + Flushing(s, n, SentTo(s, n))
  {
    hide Reached, ServerOk;
    ReachedOk(s);
    UndoesNow(s);
  }

  lemma UndoesNow(s: Core)
    requires ServerOk(s) && s.doing.UndoingCall?
    ensures Is(s.links, s.doing.n, Opening) && s.doing.n !in s.links.open
  {
    hide RequestsOk, LogOk, AnswersOk, EndsOk, SlotsInRange, OpeningListed, Numbered, GreetingFits, QueuesFit;
  }

  /** Once the server ends, a connection that was still being opened is closed. */
  lemma OpeningIsShut(s: Core, choice: Choice, n: int)
    requires s.doing.Idle? && s.errands != [] && s.errands[0] == ShutOpening(n)
    ensures var t, opening := Continue(s, choice), StateOf(s, n) == Connecting || StateOf(s, n) == Opening;
            && t.errands == s.errands[1..] && t.log == s.log && t.requests == s.requests
            && StateOf(t, n) == (if opening then Closing else StateOf(s, n))
            && SentTo(t, n) == SentTo(s, n) + if opening then Flushing(s, n, SentTo(s, n)) else []
  {
    hide StartOpen, Leave, StartReset, StartBatch, TakeOutputs, ForgetRegion, CallOpened, FinishOpen, SettleReset,
         ReplyReset, InsertBatch, CallStep, AnswerRequest, CallClosed;
  }

  lemma OpensNow(s: Core)
    requires ServerOk(s) && s.doing.OpenedCall?
    ensures Is(s.links, s.doing.n, Opening) && s.doing.n !in s.links.open
  {
    hide RequestsOk, LogOk, AnswersOk, EndsOk, SlotsInRange, OpeningListed, Numbered, GreetingFits, QueuesFit;
  }

  /** The generation a session is told, when it is welcomed and after each reset, is the one that is open
      in the model for its slot at that moment. */
  lemma ToldGenerationIsOpen(s: Core, choice: Choice)
    requires Reached(s) && (s.doing.Welcoming? || (s.doing.ResetReply? && s.doing.ok))
    ensures var n, slot := s.doing.n, SlotOf(s.links, s.doing.n);
            && slot in OpenNow(s.log)
            && SentTo(Continue(s, choice), n) == SentTo(s, n) +
                 Posted(s, n, if s.doing.Welcoming? then Welcome(OpenNow(s.log)[slot])
                              else ResetDone(s.doing.requestId, OpenNow(s.log)[slot]))
  {
    hide Reached, ServerOk, OpenNow;
    ReachedOk(s);
    ToldIsLive(s);
  }

  lemma ToldIsLive(s: Core)
    requires ServerOk(s) && (s.doing.Welcoming? || (s.doing.ResetReply? && s.doing.ok))
    ensures var n := s.doing.n;
            && SlotOf(s.links, n) in OpenNow(s.log)
            && OpenNow(s.log)[SlotOf(s.links, n)] == GenerationOf(s.links, n)
  {
    hide RequestsOk, AnswersOk, EndsOk, SlotsInRange, OpeningListed, Numbered, GreetingFits, QueuesFit, OpenNow,
         LastOpened, WellBracketed, GenerationsCover;
  }

  /** A reset whose session could not be opened again tells the session that it failed, and closes it; the
      model has no generation open for its slot by then, and is not asked to close one. */
  lemma FailedResetCloses(s: Core, choice: Choice)
    requires Reached(s) && s.doing.ResetReply? && !s.doing.ok
    ensures var t, n := Continue(s, choice), s.doing.n;
            && SentTo(t, n) == SentTo(s, n) + Posted(s, n, Failed(s.doing.requestId))
            && StateOf(t, n) == Closing && t.doing == Forgetting(n, false, None) && t.log == s.log
            && SlotOf(s.links, n) !in OpenNow(s.log)
  {
    hide Reached, ServerOk, OpenNow;
    ReachedOk(s);
    FailedIsShut(s);
  }

  lemma FailedIsShut(s: Core)
    requires ServerOk(s) && s.doing.ResetReply? && !s.doing.ok
    ensures Is(s.links, s.doing.n, Open) && SlotOf(s.links, s.doing.n) !in OpenNow(s.log)
  {
    hide RequestsOk, AnswersOk, EndsOk, SlotsInRange, OpeningListed, Numbered, GreetingFits, QueuesFit, OpenNow,
         LastOpened, WellBracketed, GenerationsCover;
    LiveApart(s);
  }

  // -- turns -----------------------------------------------------------------------------------------

  /** A turn that takes from the queue is to fail every request that expired there, and leaves none of them
      in the queue; it is to run a batch exactly if it took one. */
  lemma FailsTheExpired(s: Core, now: real)
    requires Enabled(s, Turns(now)) && s.server == Serving && s.events == []
    ensures var t := Next(s, Turns(now));
            && (forall w :: w in s.requests.policy.waiting && w.deadline.Some? && w.deadline.value <= now ==>
                  AnswerIfThere(w) in t.errands && w !in t.requests.policy.waiting && w !in t.requests.batch)
            && (RunBatch in t.errands <==> t.requests.batch != [])
  {
    hide Enabled, Expire, TakeBatch, Decision, Take;
    TurnIsTake(s, now);
    var e, p, k := Expire(s, now), s.requests.policy, OpenSessions(s.links);
    ExpiredParts(s, now);
    TakeParts(e, now, k);
    TurnMembers(p, now, k);
    forall w | w in p.waiting && w.deadline.Some? && w.deadline.value <= now
      ensures AnswerIfThere(w) in TakeBatch(e, now).errands
    {
      assert w in Decision(p, now, k).expired;
      IsListed(Decision(p, now, k).expired, w);
    }
  }

  lemma TurnIsTake(s: Core, now: real)
    requires Enabled(s, Turns(now)) && s.server == Serving && s.events == []
    ensures Next(s, Turns(now)) == TakeBatch(Expire(s, now), now)
  {
    hide Expire, TakeBatch;
  }

  lemma ExpiredParts(s: Core, now: real)
    ensures var e := Expire(s, now);
            e.requests.policy == s.requests.policy && e.links == s.links && RunBatch !in e.errands
  {
    hide ByTicket, Overdue;
  }

  lemma TakeParts(e: Core, now: real, k: nat)
    requires k == OpenSessions(e.links) && RunBatch !in e.errands
    ensures var t, turn := TakeBatch(e, now), Decision(e.requests.policy, now, k);
            && t.requests.policy == Take(e.requests.policy, now, k) && t.requests.batch == turn.batch
            && (forall x :: x in AnswersIfThere(turn.expired) ==> x in t.errands)
            && (RunBatch in t.errands <==> turn.batch != [])
  {
    hide Decision, OpenSessions, Take, Mend;
    var turn := Decision(e.requests.policy, now, k);
    var last := if turn.batch == [] then [] else [RunBatch];
    assert TakeBatch(e, now).errands == e.errands + AnswersIfThere(turn.expired) + last;
    assert RunBatch !in AnswersIfThere(turn.expired);
    assert turn.batch != [] ==> RunBatch in last;
  }

  lemma TurnMembers(p: Policy, now: real, k: nat)
    ensures var turn := Decision(p, now, k);
            && (forall w :: w in turn.expired <==> w in p.waiting && IsLate(w, now))
            && (forall w :: w in turn.batch || w in Take(p, now, k).waiting ==> !IsLate(w, now))
  {
    LateMembers(p.waiting, now);
    TimelyMembers(p.waiting, now);
    hide Holds, Late, Timely;
  }

  lemma IsListed(ws: seq<Waiting>, w: Waiting)
    requires w in ws
    ensures AnswerIfThere(w) in AnswersIfThere(ws)
  {
    var i :| 0 <= i < |ws| && ws[i] == w;
    assert AnswersIfThere(ws)[i] == AnswerIfThere(w);
  }

  /** A request that is to be failed is: its session is sent exactly one failure for it, under its id, if its
      connection is not shut, has room and, for one that expired in the queue, is still open. */
  lemma OwedIsTold(s: Core, choice: Choice)
    requires s.doing.Idle? && s.errands != [] && (s.errands[0].AnswerTo? || s.errands[0].AnswerIfThere?)
    ensures var t, w := Continue(s, choice), s.errands[0].w;
            var told := s.errands[0].AnswerTo? || w.connection in s.links.open;
            && t.errands == s.errands[1..] && t.requests == s.requests
            && SentTo(t, w.connection) == SentTo(s, w.connection) +
                 (if told then Posted(s, w.connection, Answer(w.order, w.requestId, 0, None)) else [])
            && (forall k :: k != w.connection ==> SentTo(t, k) == SentTo(s, k))
  {
    hide StartOpen, Leave, StartReset, StartBatch, TakeOutputs, ForgetRegion, CallOpened, FinishOpen, SettleReset,
         ReplyReset, InsertBatch, CallStep;
  }

  /** So is each request that a reset drops, one after the other, before the model closes the generation. */
  lemma DroppedIsTold(s: Core, choice: Choice)
    requires s.doing.Dropped? && s.doing.owed != []
    ensures var t, w := Continue(s, choice), s.doing.owed[0];
            && t.doing == Dropped(s.doing.n, s.doing.requestId, s.doing.owed[1..]) && t.log == s.log
            && SentTo(t, w.connection) == SentTo(s, w.connection) +
                 Posted(s, w.connection, Answer(w.order, w.requestId, 0, None))
  {
    hide StartOpen, Leave, StartReset, StartBatch, TakeOutputs, ForgetRegion, CallOpened, FinishOpen, SettleReset,
         ReplyReset, InsertBatch, CallStep, RunErrand;
  }

  /** A reset that is refused while the server stops is told so, and no longer marks its session. */
  lemma RefusedResetIsTold(s: Core, choice: Choice, n: int, requestId: int)
    requires s.doing.Idle? && s.errands != [] && s.errands[0] == Refuse(Resets(n, requestId))
    ensures var t := Continue(s, choice);
            && n !in t.resetting && t.errands == s.errands[1..] && t.requests == s.requests
            && SentTo(t, n) == SentTo(s, n) + Posted(s, n, Failed(requestId))
  {
    hide StartOpen, Leave, StartReset, StartBatch, TakeOutputs, ForgetRegion, CallOpened, FinishOpen, SettleReset,
         ReplyReset, InsertBatch, CallStep;
  }

  /** A turn that goes on takes every event, in the order they came: to do them while the server serves, and
      to refuse them while it drains. */
  lemma TurnTakesEvents(s: Core, now: real)
    requires Enabled(s, Turns(now)) && Next(s, Turns(now)).alive
    ensures var t, k := Next(s, Turns(now)), |Next(s, Turns(now)).errands| - |s.events|;
            && t.events == []
            && (s.events != [] ==> k >= 0 && forall i :: 0 <= i < |s.events| ==>
                  t.errands[k + i] == if s.server == Serving then Do(s.events[i]) else Refuse(s.events[i]))
  {
    hide Decision, ByTicket, Overdue, Mend, Mark, OpenSessions, TakeTurn, AnyAwaited;
  }

  /** Once a serving server is told to drain, its deadline is that one for good, and it never serves again. */
  lemma {:induction false} DrainDeadlineStays(states: seq<Core>, actions: seq<Action>, i: nat, j: nat, deadline: real)
    requires IsRun(states, actions) && i < j <= |actions|
    requires actions[i] == Drains(deadline) && states[i].server == Serving
    ensures states[j].server != Serving && states[j].drainBy == deadline
    decreases j
  {
    hide Enabled, Next;
    if j == i + 1 {
      DrainsBy(states[i], deadline);
    } else {
      DrainDeadlineStays(states, actions, i, j - 1, deadline);
      DeadlineStays(states[j - 1], actions[j - 1]);
    }
  }

  lemma DrainsBy(s: Core, deadline: real)
    requires Enabled(s, Drains(deadline)) && s.server == Serving
    ensures Next(s, Drains(deadline)).server == Draining && Next(s, Drains(deadline)).drainBy == deadline
  {
  }

  lemma DeadlineStays(s: Core, a: Action)
    requires Enabled(s, a) && s.server != Serving
    ensures Next(s, a).server != Serving && Next(s, a).drainBy == s.drainBy
  {
    hide Decision, ByTicket, Overdue, AnswerRequest, Complete, Settle, DroppedBy, Withdraw, Mend, Mark, Continue;
    if a.Continues? {
      ContinueServer(s, a.choice);
    }
  }

  lemma ContinueServer(s: Core, choice: Choice)
    ensures Continue(s, choice).server == s.server && Continue(s, choice).drainBy == s.drainBy
  {
    hide AnswerRequest, Release, InsertAll, Mend, Reaching, TakeOutputs, RunErrand;
    if s.doing.Returned? {
      TakeOutputsLinks(s, s.doing.first, s.doing.last, s.doing.outputs);
    } else if s.doing.Idle? && s.errands != [] {
      ErrandServer(s.(errands := s.errands[1..]), s.errands[0]);
    }
  }

  lemma ErrandServer(s: Core, e: Errand)
    ensures RunErrand(s, e).server == s.server && RunErrand(s, e).drainBy == s.drainBy
  {
    hide AnswerRequest, Release, Prepare, ByTicket, Mend, Of;
  }

  /** The step thread ends exactly when the server stopped, or drains and either its deadline passed or
      nothing that runs is still awaited. */
  lemma EndsExactlyWhen(s: Core, now: real)
    requires Enabled(s, Turns(now))
    ensures !Next(s, Turns(now)).alive
       <==> || s.server == Stopped
            || (s.server == Draining
                && (now >= s.drainBy || forall t :: t in s.requests.pending ==> !s.requests.pending[t].Awaited()))
  {
    hide Expire, TakeBatch;
    TurnAlive(s, now);
  }

  lemma TurnAlive(s: Core, now: real)
    ensures Expire(s, now).alive == s.alive && TakeBatch(Expire(s, now), now).alive == s.alive
  {
    hide Decision, ByTicket, Overdue;
  }

  /** A turn that goes on marks every running request that is still awaited and overdue, and is to fail it;
      every other running request stays as it is. */
  lemma FailsTheOverdue(s: Core, now: real, u: nat)
    requires Reached(s) && Enabled(s, Turns(now)) && Next(s, Turns(now)).alive && u in s.requests.pending
    ensures var t, p := Next(s, Turns(now)), s.requests.pending[u];
            && u in t.requests.pending
            && (if p.future && p.Awaited() && p.waiting.deadline.Some? && p.waiting.deadline.value <= now
                then t.requests.pending[u] == p.(answered := true) && AnswerTo(p.waiting) in t.errands
                     && p.waiting.order in t.answers.fates && t.answers.fates[p.waiting.order] == Owed
                else t.requests.pending[u] == p)
  {
    hide Reached, ServerOk, Consistent, Decision, OpenSessions, Expire, TakeBatch, IsOverdue;
    ReachedOk(s);
    OkConsistent(s);
    TicketBelow(s.requests, u);
    ExactlyOnePlace(s, s.requests.pending[u].waiting.order);
    ExpiresOverdue(s, now, u);
    TakingLeaves(Expire(s, now), now, u);
    OverdueMeans(s.requests.pending[u], now);
  }

  lemma OverdueMeans(p: Pending, now: real)
    ensures IsOverdue(p, now)
       <==> p.future && p.Awaited() && p.waiting.deadline.Some? && p.waiting.deadline.value <= now
  {
  }

  lemma TicketBelow(r: Requests, u: nat)
    requires Consistent(r) && u in r.pending
    ensures u < r.nextTicket && r.pending[u].waiting.order in r.ledger
  {
    hide Ordered, Listed, Ascending, HoldsOne, Named;
  }

  lemma ExpiresOverdue(s: Core, now: real, u: nat)
    requires u in s.requests.pending && u < s.requests.nextTicket
    ensures var t, p := Expire(s, now), s.requests.pending[u];
            && u in t.requests.pending
            && (if IsOverdue(p, now)
                then t.requests.pending[u] == p.(answered := true) && AnswerTo(p.waiting) in t.errands
                     && (p.waiting.order in s.answers.fates ==>
                           p.waiting.order in t.answers.fates && t.answers.fates[p.waiting.order] == Owed)
                else t.requests.pending[u] == p)
  {
    hide IsOverdue;
    var late := Overdue(s.requests.pending, now);
    if u in late {
      var i := TicketAt(s.requests.pending, late, s.requests.nextTicket, u);
      assert AnswersTo(ByTicket(s.requests.pending, late, s.requests.nextTicket))[i] ==
        AnswerTo(s.requests.pending[u].waiting);
    }
  }

  lemma {:induction false} TicketAt(pending: map<nat, Pending>, tickets: set<nat>, below: nat, u: nat) returns (i: nat)
    requires u in tickets && u in pending && u < below
    ensures i < |ByTicket(pending, tickets, below)| && ByTicket(pending, tickets, below)[i] == pending[u].waiting
  {
    if u == below - 1 {
      i := |ByTicket(pending, tickets, below - 1)|;
    } else {
      i := TicketAt(pending, tickets, below - 1, u);
    }
  }

  lemma TakingLeaves(s: Core, now: real, u: nat)
    requires u in s.requests.pending
    ensures var t := TakeBatch(s, now);
            && t.requests.pending == s.requests.pending && s.errands <= t.errands
            && t.answers.fates.Keys == s.answers.fates.Keys
            && forall o :: o in s.answers.fates && s.answers.fates[o] == Owed ==> t.answers.fates[o] == Owed
  {
    hide Decision, OpenSessions;
  }
}
