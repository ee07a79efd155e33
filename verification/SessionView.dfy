/** The model server as one session sees it: which of its resets are still to be answered, the
    generation its connection is in, and what is posted to it. `Passes` is what any one transition
    may do to that. */
module SessionView {
  import opened Batching
  import opened RequestTable
  import opened ServerCore
  import opened LinkInvariant
  import opened RequestInvariant
  import opened AnswerInvariant
  import opened AnswerSteps
  import opened AnswerTurns
  import opened EndInvariant
  import opened LogInvariant
  import opened ServerProperties

  // -- the resets of a session that the server has not answered, in the order it applies them ----

  function DoingReset(d: Doing, n: int): seq<int> {
    if (d.Dropped? || d.Reopening? || d.Reopened? || d.ResetReply?) && d.n == n then [d.requestId] else []
  }

  function EventResets(events: seq<Event>, n: int): seq<int> {
    if events == [] then []
    else (if events[0].Resets? && events[0].n == n then [events[0].requestId] else []) + EventResets(events[1..], n)
  }

  function ErrandReset(e: Errand, n: int): seq<int> {
    if (e.Do? || e.Refuse?) && e.event.Resets? && e.event.n == n then [e.event.requestId] else []
  }

  function ErrandResets(errands: seq<Errand>, n: int): seq<int> {
    if errands == [] then [] else ErrandReset(errands[0], n) + ErrandResets(errands[1..], n)
  }

  function Unanswered(s: Core, n: int): seq<int> {
    DoingReset(s.doing, n) + ErrandResets(s.errands, n) + EventResets(s.events, n)
  }

  // -- what a transition may do ------------------------------------------------------------------

  /** The connection has been opened, if it ever is: it connects or opens no more. */
  predicate Beyond(l: Links, n: int) {
    n in l.connections && l.connections[n].state != Connecting && l.connections[n].state != Opening
  }

  predicate NewGeneration(d: Doing, n: int) {
    (d.OpeningCall? || d.Reopening?) && d.n == n
  }

  ghost predicate GenerationKept(s: Core, t: Core, n: int) {
    NewGeneration(s.doing, n) || GenerationOf(t.links, n) == GenerationOf(s.links, n)
  }

  ghost predicate Pops(s: Core, t: Core, n: int) {
    Unanswered(t, n) == Unanswered(s, n) || (Unanswered(s, n) != [] && Unanswered(t, n) == Unanswered(s, n)[1..])
  }

  /** A message posted to the session by this transition. A result was computed in the generation
      the connection is in, and a reset is reported done once the server has opened a new one. */
  ghost predicate Fits(m: Message, s: Core, t: Core, n: int) {
    && (m.ResetDone? ==>
          && Unanswered(s, n) == [m.requestId] + Unanswered(t, n)
          && m.generation == GenerationOf(t.links, n) == GenerationOf(s.links, n))
    && (m.Answer? && m.result.Some? ==> m.generation == GenerationOf(t.links, n) == GenerationOf(s.links, n))
    && (m.Welcome? ==> Beyond(t.links, n))
  }

  ghost predicate Posts(s: Core, t: Core, n: int) {
    var old_, new_ := BoxOf(s.answers.boxes, n).sent, BoxOf(t.answers.boxes, n).sent;
    old_ <= new_ && forall i :: |old_| <= i < |new_| ==> Fits(new_[i], s, t, n)
  }

  ghost predicate SameAccepted(s: Core, t: Core, n: int) {
    forall o :: o in t.requests.ledger && t.requests.ledger[o].request.connection == n ==>
      o in s.requests.ledger && s.requests.ledger[o].request == t.requests.ledger[o].request
  }

  ghost predicate StaysBeyond(s: Core, t: Core) {
    forall n :: Beyond(s.links, n) ==> Beyond(t.links, n)
  }

  ghost predicate Passes(s: Core, t: Core, n: int) {
    && GenerationKept(s, t, n)
    && Pops(s, t, n)
    && Posts(s, t, n)
    && SameAccepted(s, t, n)
    && StaysBeyond(s, t)
  }

  // -- lists of resets ---------------------------------------------------------------------------

  lemma FirstErrand(errands: seq<Errand>, n: int)
    requires errands != []
    ensures ErrandResets(errands, n) == ErrandReset(errands[0], n) + ErrandResets(errands[1..], n)
  {
  }

  lemma {:induction false} ErrandsJoin(a: seq<Errand>, b: seq<Errand>, n: int)
    ensures ErrandResets(a + b, n) == ErrandResets(a, n) + ErrandResets(b, n)
  {
    if a == [] {
      assert a + b == b;
    } else {
      hide ErrandResets, ErrandReset;
      ErrandsJoin(a[1..], b, n);
      FirstErrand(a + b, n);
      FirstErrand(a, n);
      JoinTail(a, b);
      JoinThree(ErrandReset(a[0], n), ErrandResets(a[1..], n), ErrandResets(b, n));
    }
  }

  lemma {:induction false} ErrandsNone(errands: seq<Errand>, n: int)
    requires forall i :: 0 <= i < |errands| ==> !errands[i].Do? && !errands[i].Refuse?
    ensures ErrandResets(errands, n) == []
  {
    if errands != [] {
      ErrandsNone(errands[1..], n);
    }
  }

  lemma {:induction false} ErrandsOfResets(events: seq<Event>, n: int)
    ensures ErrandResets(Does(events), n) == EventResets(events, n)
            && ErrandResets(Refuses(events), n) == EventResets(events, n)
  {
    if events != [] {
      ErrandsOfResets(events[1..], n);
      assert Does(events)[1..] == Does(events[1..]);
      assert Refuses(events)[1..] == Refuses(events[1..]);
    }
  }

  lemma {:induction false} EventsAdd(events: seq<Event>, e: Event, n: int)
    ensures EventResets(events + [e], n)
         == EventResets(events, n) + (if e.Resets? && e.n == n then [e.requestId] else [])
  {
    if events != [] {
      EventsAdd(events[1..], e, n);
      assert (events + [e])[1..] == events[1..] + [e];
    }
  }

  // -- what posts nothing of interest ------------------------------------------------------------

  predicate Plain(m: Message) {
    m.Failed? || m.Refused? || m.Flush?
  }

  /** The outbox of `n` grows by messages that say nothing of a generation. */
  ghost predicate PlainGrowth(boxes: map<int, Box>, boxes': map<int, Box>, n: int) {
    var before, after := BoxOf(boxes, n).sent, BoxOf(boxes', n).sent;
    before <= after && forall i :: |before| <= i < |after| ==> Plain(after[i])
  }

  lemma PlainPosts(s: Core, t: Core, n: int)
    requires PlainGrowth(s.answers.boxes, t.answers.boxes, n)
    ensures Posts(s, t, n)
  {
    hide Unanswered, GenerationOf, Beyond;
  }

  lemma PlainPost(boxes: map<int, Box>, state: ConnectionState, k: int, m: Message, n: int)
    requires Plain(m)
    ensures PlainGrowth(boxes, Post(boxes, state, k, m), n)
  {
  }

  lemma PlainFlush(boxes: map<int, Box>, k: int, n: int)
    ensures PlainGrowth(boxes, Flushed(boxes, k), n)
  {
  }

  lemma PlainPostFlush(boxes: map<int, Box>, state: ConnectionState, k: int, m: Message, n: int)
    requires Plain(m)
    ensures PlainGrowth(boxes, Flushed(Post(boxes, state, k, m), k), n)
  {
  }

  /** A transition that changes nothing but the outboxes, plainly, and the tables of requests. */
  lemma AsidePasses(s: Core, t: Core, n: int)
    requires t.links == s.links && t.doing == s.doing && t.errands == s.errands && t.events == s.events
    requires Posts(s, t, n) && SameAccepted(s, t, n)
    ensures Passes(s, t, n)
  {
    hide Posts, SameAccepted, DoingReset, ErrandResets, EventResets;
  }

  // -- the reader threads, the writers, and completed futures --------------------------------------

  lemma MovesAccepted(s: Core, t: Core, n: int)
    requires Moves(s.requests.ledger, t.requests.ledger)
    ensures SameAccepted(s, t, n)
  {
  }

  lemma StepPasses(s: Core, w: Waiting, n: int)
    requires w.connection != n || TakeStep(s, w).requests == s.requests
    ensures Passes(s, TakeStep(s, w), n)
  {
    hide Post;
    var t := TakeStep(s, w);
    PlainPost(s.answers.boxes, StateOf(s, w.connection), w.connection, Failed(w.requestId), n);
    PlainPosts(s, t, n);
    AsidePasses(s, t, n);
  }

  lemma CancelMoves(r: Requests, n: int, requestId: int)
    requires Consistent(r) && Withdraws(r.policy, n, requestId)
    ensures Moves(r.ledger, Withdraw(r, n, requestId).ledger)
  {
    WithdrawnIsQueued(r, n, requestId);
    hide Consistent, Find, Cancel;
  }

  lemma CancelPasses(s: Core, k: int, requestId: int, n: int)
    requires Consistent(s.requests)
    ensures Passes(s, TakeCancel(s, k, requestId), n)
  {
    hide Find, Withdraw, Withdrawn, Posts, Consistent;
    var t := TakeCancel(s, k, requestId);
    if Withdraws(s.requests.policy, k, requestId) {
      CancelMoves(s.requests, k, requestId);
      MovesAccepted(s, t, n);
    }
    PlainPosts(s, t, n);
    AsidePasses(s, t, n);
  }

  lemma WritePasses(s: Core, k: int, n: int)
    ensures Passes(s, WriteNext(s, k), n) && Passes(s, Break(s, k), n)
  {
    PlainPosts(s, WriteNext(s, k), n);
    PlainPosts(s, Break(s, k), n);
    AsidePasses(s, WriteNext(s, k), n);
    AsidePasses(s, Break(s, k), n);
  }

  lemma ResetPasses(s: Core, k: int, requestId: int, n: int)
    requires k != n || s.server != Serving
    ensures Passes(s, TakeReset(s, k, requestId), n)
  {
    hide Post, Posts;
    var t := TakeReset(s, k, requestId);
    PlainPost(s.answers.boxes, StateOf(s, k), k, Failed(requestId), n);
    PlainPosts(s, t, n);
    EventsAdd(s.events, ServerCore.Resets(k, requestId), n);
    assert EventResets(s.events, n) + [] == EventResets(s.events, n);
  }

  /** A reset of the session arrives: it is the last one to be answered. */
  lemma OwnResetPasses(s: Core, n: int, requestId: int)
    requires s.server == Serving
    ensures var t := TakeReset(s, n, requestId);
            && Unanswered(t, n) == Unanswered(s, n) + [requestId]
            && t.links == s.links && t.requests == s.requests && t.answers == s.answers && t.doing == s.doing
  {
    EventsAdd(s.events, ServerCore.Resets(n, requestId), n);
  }

  lemma CompletePosts(s: Core, t: nat, result: Option<int>, n: int)
    requires t in s.requests.pending
    ensures Posts(s, CompleteItem(s, t, result), n)
  {
    hide Complete;
  }

  lemma CompleteMoves(r: Requests, t: nat)
    requires Ticketed(r.pending, r.ledger) && t in r.pending
    ensures Moves(r.ledger, Complete(r, t).ledger)
  {
  }

  lemma CompletePasses(s: Core, t: nat, result: Option<int>, n: int)
    requires Ticketed(s.requests.pending, s.requests.ledger) && t in s.requests.pending
    ensures Passes(s, CompleteItem(s, t, result), n)
  {
    CompletePosts(s, t, result, n);
    CompleteMoves(s.requests, t);
    MovesAccepted(s, CompleteItem(s, t, result), n);
    hide Posts, Ticketed, Complete, SameAccepted, AnswerRequest, Reaches;
    AsidePasses(s, CompleteItem(s, t, result), n);
  }

  lemma AcceptPasses(s: Core, n: int)
    requires Numbered(s.links)
    ensures Passes(s, AcceptLink(s), n)
  {
    hide Posts;
    PlainPosts(s, AcceptLink(s), n);
  }

  lemma EndPasses(s: Core, k: int, n: int)
    requires k in s.links.connections
    ensures Passes(s, ReaderEnds(s, k), n)
  {
    hide Posts;
    PlainPosts(s, ReaderEnds(s, k), n);
    EventsAdd(s.events, Leaves(k), n);
    assert EventResets(s.events, n) + [] == EventResets(s.events, n);
  }

  lemma GreetGrows(s: Core, k: int, hello: Hello, n: int)
    requires k in s.links.connections
    ensures PlainGrowth(s.answers.boxes, Greet(s, k, hello).answers.boxes, n)
  {
    hide Post, Flushed;
    PlainPost(s.answers.boxes, StateOf(s, k), k, Refused, n);
    PlainFlush(s.answers.boxes, k, n);
  }

  lemma GreetEvents(s: Core, k: int, hello: Hello)
    requires k in s.links.connections
    ensures Greet(s, k, hello).events == s.events || Greet(s, k, hello).events == s.events + [Opens(k)]
  {
    hide Post, Flushed, MayMove;
  }

  lemma GreetPops(s: Core, k: int, hello: Hello, n: int)
    requires k in s.links.connections
    ensures Unanswered(Greet(s, k, hello), n) == Unanswered(s, n)
  {
    hide Greet, DoingReset, ErrandResets, EventResets;
    GreetEvents(s, k, hello);
    GreetRest(s, k, hello);
    EventsAdd(s.events, Opens(k), n);
    assert EventResets(s.events, n) + [] == EventResets(s.events, n);
  }

  lemma GreetConnection(s: Core, k: int, hello: Hello, n: int)
    requires k in s.links.connections
    ensures GenerationKept(s, Greet(s, k, hello), n) && SameAccepted(s, Greet(s, k, hello), n)
  {
    hide Greet;
    GreetRest(s, k, hello);
    GreetOthers(s, k, hello);
    GreetGeneration(s, k, hello);
  }

  lemma GreetGeneration(s: Core, k: int, hello: Hello)
    requires k in s.links.connections
    ensures GenerationOf(Greet(s, k, hello).links, k) == GenerationOf(s.links, k)
  {
    hide Post, Flushed, MayMove, StateOf;
  }

  lemma GreetBeyond(s: Core, k: int, hello: Hello)
    requires k in s.links.connections && (s.server == Serving ==> s.links.connections[k].state == Connecting)
    ensures StaysBeyond(s, Greet(s, k, hello))
  {
    hide Post, Flushed;
  }

  lemma GreetPasses(s: Core, k: int, hello: Hello, n: int)
    requires LinksOk(s) && k in s.links.connections && s.links.connections[k].reader == Greeting
    ensures Passes(s, Greet(s, k, hello), n)
  {
    hide LinksOk, Greet, Posts, Unanswered, PlainGrowth, GenerationKept, SameAccepted, StaysBeyond;
    GreetingState(s, k);
    GreetGrows(s, k, hello, n);
    GreetPops(s, k, hello, n);
    GreetConnection(s, k, hello, n);
    GreetBeyond(s, k, hello);
    PlainPosts(s, Greet(s, k, hello), n);
  }
}
