/** What the step thread and the lifecycle may do to one session's view of the model server. */
module SessionSteps {
  import opened Batching
  import opened RequestTable
  import opened ServerCore
  import opened LinkInvariant
  import opened RequestInvariant
  import opened LogInvariant
  import opened AnswerInvariant
  import opened AnswerSteps
  import opened AnswerErrands
  import opened AnswerTurns
  import opened EndInvariant
  import opened ServerProperties
  import opened SessionView

  /** A connection about to be welcomed is open. */
  ghost predicate Welcomed(s: Core) {
    s.doing.Welcoming? ==> Beyond(s.links, s.doing.n)
  }

  /** `t` differs from `s` in one connection `k`, in where the step thread is, and in outboxes. */
  ghost predicate Stays(s: Core, t: Core) {
    && t.requests == s.requests && t.errands == s.errands && t.events == s.events
    && StaysBeyond(s, t)
  }

  lemma StayPasses(s: Core, t: Core, n: int)
    requires Stays(s, t) && Posts(s, t, n) && GenerationKept(s, t, n)
             && DoingReset(t.doing, n) == DoingReset(s.doing, n)
    ensures Passes(s, t, n)
  {
    hide Posts, GenerationKept, StaysBeyond, ErrandResets, EventResets, DoingReset;
  }

  // -- leaving and opening -----------------------------------------------------------------------

  lemma LeaveStays(s: Core, k: int, next: Option<int>, n: int)
    requires s.doing == Idle
    ensures var t := Leave(s, k, next);
            && Stays(s, t) && GenerationKept(s, t, n) && DoingReset(t.doing, n) == []
            && PlainGrowth(s.answers.boxes, t.answers.boxes, n)
  {
    hide Flushed, PlainGrowth;
    PlainFlush(s.answers.boxes, k, n);
    SameGrowth(s.answers.boxes, n);
  }

  lemma SameGrowth(boxes: map<int, Box>, n: int)
    ensures PlainGrowth(boxes, boxes, n)
  {
  }

  lemma LeavePasses(s: Core, k: int, next: Option<int>, n: int)
    requires s.doing == Idle
    ensures Passes(s, Leave(s, k, next), n)
  {
    hide Leave, Stays, GenerationKept, PlainGrowth, Posts;
    LeaveStays(s, k, next, n);
    PlainPosts(s, Leave(s, k, next), n);
    StayPasses(s, Leave(s, k, next), n);
  }

  lemma StartOpenPasses(s: Core, k: int, n: int)
    requires s.doing == Idle
    ensures Passes(s, StartOpen(s, k), n)
  {
    hide Leave, Posts, Passes, PlainGrowth;
    var slot, t := SlotOf(s.links, k), StartOpen(s, k);
    if StateOf(s, k) == Opening && slot in s.links.bySlot && s.links.bySlot[slot] != k {
      LeavePasses(s, s.links.bySlot[slot], Some(k), n);
    } else {
      SameGrowth(s.answers.boxes, n);
      PlainPosts(s, t, n);
      StayPasses(s, t, n);
    }
  }

  lemma ShutOpeningPasses(s: Core, k: int, n: int)
    requires s.doing == Idle
    ensures Passes(s, RunErrand(s, ShutOpening(k)), n)
  {
    hide Flushed, Posts, PlainGrowth, Passes;
    var t := RunErrand(s, ShutOpening(k));
    PlainFlush(s.answers.boxes, k, n);
    SameGrowth(s.answers.boxes, n);
    PlainPosts(s, t, n);
    StayPasses(s, t, n);
  }

  // -- answers -----------------------------------------------------------------------------------

  /** The answer to a request that failed. */
  lemma FailurePosts(s: Core, t: Core, w: Waiting, state: ConnectionState, n: int)
    requires t.answers.boxes == AnswerRequest(s.answers, state, w, 0, None).boxes || t.answers.boxes == s.answers.boxes
    ensures Posts(s, t, n)
  {
    hide Unanswered;
  }

  lemma AnswerPasses(s: Core, e: Errand, n: int)
    requires s.doing == Idle && IsAnswer(e)
    ensures Passes(s, RunErrand(s, e), n)
  {
    hide Posts, AnswerRequest, Passes;
    var t := RunErrand(s, e);
    FailurePosts(s, t, e.w, StateOf(s, e.w.connection), n);
    StayPasses(s, t, n);
  }

  // -- one errand --------------------------------------------------------------------------------

  /** Taking an errand that is no reset out of the list. */
  lemma PopPasses(s: Core, n: int)
    requires s.doing == Idle && s.errands != []
    ensures Unanswered(s, n) == ErrandReset(s.errands[0], n) + Unanswered(s.(errands := s.errands[1..]), n)
  {
    assert [] + ErrandResets(s.errands, n) + EventResets(s.events, n) == ErrandResets(s.errands, n)
      + EventResets(s.events, n);
  }

  lemma AfterPop(s: Core, p: Core, t: Core, n: int)
    requires Passes(p, t, n) && Unanswered(s, n) == Unanswered(p, n) && p == s.(errands := p.errands) && s.doing == Idle
    ensures Passes(s, t, n)
  {
    hide Unanswered;
  }

  /** A reset that begins, or that is dropped or refused. */
  lemma ResetErrandPasses(s: Core, p: Core, e: Errand, n: int)
    requires s.doing == Idle && s.errands != [] && p == s.(errands := s.errands[1..]) && e == s.errands[0]
    requires (e.Do? || e.Refuse?) && e.event.Resets?
    ensures Passes(s, RunErrand(p, e), n)
  {
    hide RunErrand, Unanswered, Posts, Post, PlainGrowth, SameAccepted, GenerationKept, StaysBeyond;
    var t := RunErrand(p, e);
    PopPasses(s, n);
    ResetErrandPops(s, p, e, n);
    ResetErrandMoves(s, p, e, n);
    ResetErrandGrows(p, e, n);
    PlainPosts(s, t, n);
    ResetErrandLinks(p, e);
    SameLinksStay(s, t, n);
  }

  lemma ResetErrandLinks(p: Core, e: Errand)
    requires (e.Do? || e.Refuse?) && e.event.Resets?
    ensures RunErrand(p, e).links == p.links
  {
    hide Post, Of, ByTicket, Release;
  }

  lemma SameLinksStay(s: Core, t: Core, n: int)
    requires t.links == s.links
    ensures GenerationKept(s, t, n) && StaysBeyond(s, t)
  {
  }

  lemma ResetErrandGrows(p: Core, e: Errand, n: int)
    requires (e.Do? || e.Refuse?) && e.event.Resets?
    ensures PlainGrowth(p.answers.boxes, RunErrand(p, e).answers.boxes, n)
  {
    hide Post, PlainGrowth, Of, ByTicket, Release;
    PlainPost(p.answers.boxes, StateOf(p, e.event.n), e.event.n, Failed(e.event.requestId), n);
    SameGrowth(p.answers.boxes, n);
  }

  lemma ResetErrandPops(s: Core, p: Core, e: Errand, n: int)
    requires s.doing == Idle && s.errands != [] && p == s.(errands := s.errands[1..]) && e == s.errands[0]
    requires (e.Do? || e.Refuse?) && e.event.Resets?
    requires Unanswered(s, n) == ErrandReset(e, n) + Unanswered(p, n)
    ensures Pops(s, RunErrand(p, e), n)
  {
    hide Post, Of, ByTicket, Release, ErrandResets, EventResets;
    var t := RunErrand(p, e);
    assert t.errands == p.errands && t.events == p.events;
    assert Unanswered(t, n) == DoingReset(t.doing, n) + Unanswered(p, n) by {
      assert [] + ErrandResets(p.errands, n) + EventResets(p.events, n) == ErrandResets(p.errands, n)
        + EventResets(p.events, n);
      JoinThree(DoingReset(t.doing, n), ErrandResets(p.errands, n), EventResets(p.events, n));
    }
  }

  lemma ResetErrandMoves(s: Core, p: Core, e: Errand, n: int)
    requires p == s.(errands := p.errands) && (e.Do? || e.Refuse?) && e.event.Resets?
    ensures SameAccepted(s, RunErrand(p, e), n)
  {
    hide Post, Of, ByTicket;
    ReleaseMoves(s.requests, e.event.n);
  }

  lemma ReleaseMoves(r: Requests, k: int)
    ensures Moves(r.ledger, Release(r, k).ledger)
  {
  }

  lemma StartBatchPasses(s: Core, n: int)
    requires s.doing == Idle
    ensures Passes(s, RunErrand(s, RunBatch), n)
  {
    hide Posts, Prepare, Passes;
    var t := RunErrand(s, RunBatch);
    SameGrowth(s.answers.boxes, n);
    PlainPosts(s, t, n);
    ForgoPasses(s, t, n);
  }

  lemma ForgoPasses(s: Core, t: Core, n: int)
    requires s.doing == Idle && t.links == s.links && t.errands == s.errands && t.events == s.events && Posts(s, t, n)
    requires t.doing == Idle || t.doing.Inserting?
    requires t.requests == s.requests || t.requests == Forgo(s.requests)
    ensures Passes(s, t, n)
  {
    hide Posts, ErrandResets, EventResets;
  }

  lemma RefuseOpensIdle(s: Core, k: int, n: int)
    ensures Passes(s, RunErrand(s, Refuse(Opens(k))), n)
  {
  }

  lemma ErrandPasses(s: Core, n: int)
    requires s.doing == Idle && s.errands != []
    ensures Passes(s, RunErrand(s.(errands := s.errands[1..]), s.errands[0]), n)
  {
    hide Leave, StartOpen, Passes, Unanswered, RunErrand;
    var p, e := s.(errands := s.errands[1..]), s.errands[0];
    PopPasses(s, n);
    if (e.Do? || e.Refuse?) && e.event.Resets? {
      ResetErrandPasses(s, p, e, n);
    } else {
      OtherErrandPasses(p, e, n);
      assert ErrandReset(e, n) == [];
      assert [] + Unanswered(p, n) == Unanswered(p, n);
      AfterPop(s, p, RunErrand(p, e), n);
    }
  }

  lemma OtherErrandPasses(s: Core, e: Errand, n: int)
    requires s.doing == Idle && !((e.Do? || e.Refuse?) && e.event.Resets?)
    ensures Passes(s, RunErrand(s, e), n)
  {
    hide Leave, StartOpen, Passes;
    match e
    case AnswerTo(_) => AnswerPasses(s, e, n);
    case AnswerIfThere(_) => AnswerPasses(s, e, n);
    case Do(Opens(k)) => StartOpenPasses(s, k, n);
    case Do(Leaves(k)) => LeavePasses(s, k, None, n);
    case Refuse(Opens(k)) => RefuseOpensIdle(s, k, n);
    case Refuse(Leaves(k)) => LeavePasses(s, k, None, n);
    case RunBatch => StartBatchPasses(s, n);
    case ShutOpening(k) => ShutOpeningPasses(s, k, n);
    case LeaveNow(k) => LeavePasses(s, k, None, n);
  }

  // -- inside one event or one batch ---------------------------------------------------------------

  lemma ForgetPasses(s: Core, n: int)
    requires s.doing.Forgetting?
    ensures Passes(s, ForgetRegion(s, s.doing.n, s.doing.wasOpen, s.doing.next), n)
  {
    hide Release, Posts, ErrandResets, EventResets, SameAccepted;
    var t := ForgetRegion(s, s.doing.n, s.doing.wasOpen, s.doing.next);
    ReleaseMoves(s.requests, s.doing.n);
    MovesAccepted(s, t, n);
    SameGrowth(s.answers.boxes, n);
    PlainPosts(s, t, n);
  }

  /** Calls into the model, and the moves around them, post nothing. */
  lemma CallPasses(s: Core, choice: Choice, n: int)
    requires s.doing.ClosingCall? || (s.doing.Dropped? && s.doing.owed == []) || s.doing.Reopened? || s.doing.Calling?
    ensures Passes(s, Continue(s, choice), n)
  {
    hide Posts, ErrandResets, EventResets, Reaching, PlainGrowth, FinishOpen, ReplyReset, InsertBatch, TakeOutputs,
         ForgetRegion, Flushed, RunErrand, AnswerRequest, Release, DueOf, Mend, Forget;
    SameGrowth(s.answers.boxes, n);
    PlainPosts(s, Continue(s, choice), n);
  }

  lemma OpenCallStays(s: Core, choice: Choice, n: int)
    requires s.doing.OpeningCall? || s.doing.Reopening?
    ensures var t := Continue(s, choice);
            && t.answers == s.answers && t.requests == s.requests && t.events == s.events && t.errands == s.errands
            && DoingReset(t.doing, n) == DoingReset(s.doing, n)
  {
  }

  lemma OpenCallPasses(s: Core, choice: Choice, n: int)
    requires s.doing.OpeningCall? || s.doing.Reopening?
    ensures Passes(s, Continue(s, choice), n)
  {
    hide Posts, ErrandResets, EventResets, PlainGrowth, DoingReset, FinishOpen, SettleReset, ReplyReset, InsertBatch,
         CallStep, TakeOutputs, ForgetRegion;
    OpenCallStays(s, choice, n);
    SameGrowth(s.answers.boxes, n);
    PlainPosts(s, Continue(s, choice), n);
  }

  lemma CloseStays(s: Core, choice: Choice, n: int)
    requires s.doing.Ending? || s.doing.UndoingCall?
    ensures var t := Continue(s, choice);
            && Stays(s, t) && GenerationKept(s, t, n) && DoingReset(t.doing, n) == []
            && PlainGrowth(s.answers.boxes, t.answers.boxes, n)
  {
    hide Flushed, PlainGrowth;
    PlainFlush(s.answers.boxes, s.doing.n, n);
  }

  lemma ClosePasses(s: Core, choice: Choice, n: int)
    requires s.doing.Ending? || s.doing.UndoingCall?
    ensures Passes(s, Continue(s, choice), n)
  {
    hide Continue, Posts, PlainGrowth, Stays, GenerationKept, Passes;
    CloseStays(s, choice, n);
    PlainPosts(s, Continue(s, choice), n);
    StayPasses(s, Continue(s, choice), n);
  }

  lemma FinishOpenGrows(s: Core, n: int)
    requires s.doing.OpenedCall?
    ensures PlainGrowth(s.answers.boxes, FinishOpen(s, s.doing.n, s.doing.ok).answers.boxes, n)
  {
    hide Post, Flushed, PlainGrowth, MayMove;
    var k := s.doing.n;
    PlainFlush(s.answers.boxes, k, n);
    PlainPostFlush(s.answers.boxes, StateOf(s, k), k, Refused, n);
    SameGrowth(s.answers.boxes, n);
  }

  lemma FinishOpenKeeps(s: Core, n: int)
    requires s.doing.OpenedCall?
    ensures var t := FinishOpen(s, s.doing.n, s.doing.ok);
            Stays(s, t) && GenerationKept(s, t, n) && DoingReset(t.doing, n) == []
  {
    hide Post, Flushed;
  }

  lemma FinishOpenPasses(s: Core, choice: Choice, n: int)
    requires s.doing.OpenedCall?
    ensures Passes(s, Continue(s, choice), n)
  {
    hide FinishOpen, Posts, PlainGrowth, Stays, GenerationKept, Passes;
    var t := Continue(s, choice);
    FinishOpenGrows(s, n);
    FinishOpenKeeps(s, n);
    PlainPosts(s, t, n);
    StayPasses(s, t, n);
  }

  lemma WelcomePasses(s: Core, choice: Choice, n: int)
    requires s.doing.Welcoming? && Welcomed(s)
    ensures Passes(s, Continue(s, choice), n)
  {
    hide ErrandResets, EventResets;
  }

  lemma DroppedPasses(s: Core, choice: Choice, n: int)
    requires s.doing.Dropped? && s.doing.owed != []
    ensures Passes(s, Continue(s, choice), n)
  {
    hide Posts, AnswerRequest, ErrandResets, EventResets;
    var w := s.doing.owed[0];
    FailurePosts(s, Continue(s, choice), w, StateOf(s, w.connection), n);
  }

  lemma ReplyPosts(s: Core, n: int)
    requires s.doing.ResetReply?
    ensures Posts(s, ReplyReset(s, s.doing.n, s.doing.requestId, s.doing.ok), n)
  {
    hide ErrandResets, EventResets;
  }

  lemma ReplyPops(s: Core, n: int)
    requires s.doing.ResetReply?
    ensures Pops(s, ReplyReset(s, s.doing.n, s.doing.requestId, s.doing.ok), n)
  {
    hide Post, ErrandResets, EventResets, MayMove, StateOf;
  }

  lemma ReplyStays(s: Core, n: int)
    requires s.doing.ResetReply?
    ensures var t := ReplyReset(s, s.doing.n, s.doing.requestId, s.doing.ok);
            GenerationKept(s, t, n) && SameAccepted(s, t, n) && StaysBeyond(s, t)
  {
    hide Post;
  }

  lemma ReplyPasses(s: Core, choice: Choice, n: int)
    requires s.doing.ResetReply?
    ensures Passes(s, Continue(s, choice), n)
  {
    hide ReplyReset, Posts, Pops, GenerationKept, SameAccepted, StaysBeyond;
    ReplyPosts(s, n);
    ReplyPops(s, n);
    ReplyStays(s, n);
  }

  lemma InsertPasses(s: Core, choice: Choice, n: int)
    requires s.doing.Inserting? && Consistent(s.requests) && Prepared(s.doing.items, s.requests.batch)
    ensures Passes(s, Continue(s, choice), n)
  {
    InsertAllSameDue(s.requests, s.doing.items);
    hide Posts, InsertAll, Due, Consistent, Prepared, ErrandResets, EventResets, SameAccepted;
    var t := Continue(s, choice);
    MovesAccepted(s, t, n);
    SameGrowth(s.answers.boxes, n);
    PlainPosts(s, t, n);
  }

  /** `s` with what a sequence of finished requests changes: outboxes and the tables of requests. */
  ghost predicate Beside(s: Core, t: Core) {
    t.links == s.links && t.doing == s.doing && t.errands == s.errands && t.events == s.events
  }

  lemma PostsThen(s: Core, m: Core, t: Core, n: int)
    requires Beside(s, m) && Beside(m, t) && Posts(s, m, n) && Posts(m, t, n)
    ensures Posts(s, t, n)
  {
    hide ErrandResets, EventResets;
    var a, b, c := BoxOf(s.answers.boxes, n).sent, BoxOf(m.answers.boxes, n).sent, BoxOf(t.answers.boxes, n).sent;
    forall i | |a| <= i < |c| ensures Fits(c[i], s, t, n) {
      if i < |b| {
        assert c[i] == b[i];
        assert Fits(b[i], s, m, n);
      } else {
        assert Fits(c[i], m, t, n);
      }
    }
  }

  lemma AcceptedThen(s: Core, m: Core, t: Core, n: int)
    requires SameAccepted(s, m, n) && SameAccepted(m, t, n)
    ensures SameAccepted(s, t, n)
  {
  }

  lemma {:induction false} OutputsPass(s: Core, first: nat, last: nat, outputs: Option<seq<Output>>, n: int)
    requires Awaits(s, first, last) && first <= last
    ensures var t := TakeOutputs(s, first, last, outputs); Beside(s, t) && Posts(s, t, n) && SameAccepted(s, t, n)
    decreases last - first
  {
    if first == last {
      SameGrowth(s.answers.boxes, n);
      PlainPosts(s, s, n);
    } else {
      assert first in s.requests.pending;
      AwaitsTickets(s, first, last);
      hide Awaits, Posts, SameAccepted, Ticketed;
      var whole := IsWhole(outputs, last - first);
      var t := if !whole then CompleteItem(s, first, None)
               else if outputs.value[0].Future? then s.(requests := Register(s.requests, first))
               else CompleteItem(s, first, outputs.value[0].result);
      OneOutput(s, t, first, if whole && !outputs.value[0].Future? then outputs.value[0].result else None, n);
      TakeOne(s, t, first, last);
      var rest := if whole then Some(outputs.value[1..]) else None;
      OutputsPass(t, first + 1, last, rest, n);
      PostsThen(s, t, TakeOutputs(t, first + 1, last, rest), n);
      AcceptedThen(s, t, TakeOutputs(t, first + 1, last, rest), n);
    }
  }

  lemma AwaitsTickets(s: Core, first: nat, last: nat)
    requires Awaits(s, first, last)
    ensures Ticketed(s.requests.pending, s.requests.ledger)
  {
    hide Fresh, Current, HeldOpen, Listed, HoldsOne;
  }

  lemma OneOutput(s: Core, t: Core, first: nat, result: Option<int>, n: int)
    requires first in s.requests.pending && Ticketed(s.requests.pending, s.requests.ledger)
    requires t == CompleteItem(s, first, result) || t == s.(requests := Register(s.requests, first))
    ensures Beside(s, t) && Posts(s, t, n) && SameAccepted(s, t, n)
  {
    hide Posts, AnswerRequest, Ticketed, Reaches;
    if t == s.(requests := Register(s.requests, first)) {
      SameGrowth(s.answers.boxes, n);
      PlainPosts(s, t, n);
    } else {
      CompleteMoves(s.requests, first);
      CompletePosts(s, first, result, n);
    }
  }

  lemma ReturnedAwaits(s: Core)
    requires RequestsOk(s) && s.doing.Returned?
    ensures s.doing.first <= s.doing.last && Awaits(s, s.doing.first, s.doing.last)
  {
    hide Consistent, HeldOpen, Current, Fresh;
  }

  lemma ReturnedPasses(s: Core, choice: Choice, n: int)
    requires RequestsOk(s) && s.doing.Returned?
    ensures Passes(s, Continue(s, choice), n)
  {
    hide RequestsOk, Awaits, TakeOutputs, ErrandResets, EventResets, SameAccepted, Posts, Passes;
    var first, last, outputs := s.doing.first, s.doing.last, s.doing.outputs;
    ReturnedAwaits(s);
    OutputsPass(s, first, last, outputs, n);
    var t := TakeOutputs(s, first, last, outputs);
    IdlePosts(s, t, n);
    assert Unanswered(t.(doing := Idle), n) == Unanswered(s, n);
    BesidePasses(s, t.(doing := Idle), n);
  }

  lemma IdlePosts(s: Core, t: Core, n: int)
    requires s.doing.Returned? && Beside(s, t) && Posts(s, t, n) && SameAccepted(s, t, n)
    ensures Posts(s, t.(doing := Idle), n) && SameAccepted(s, t.(doing := Idle), n)
  {
    hide ErrandResets, EventResets;
    var before, after := BoxOf(s.answers.boxes, n).sent, BoxOf(t.answers.boxes, n).sent;
    forall i | |before| <= i < |after| ensures Fits(after[i], s, t.(doing := Idle), n) {
      assert Fits(after[i], s, t, n);
    }
  }

  lemma BesidePasses(s: Core, t: Core, n: int)
    requires t.links == s.links && Unanswered(t, n) == Unanswered(s, n) && Posts(s, t, n) && SameAccepted(s, t, n)
    ensures Passes(s, t, n)
  {
    hide Unanswered, Posts, SameAccepted;
  }

  lemma BatchPrepared(s: Core)
    requires RequestsOk(s) && s.doing.Inserting?
    ensures Consistent(s.requests) && Prepared(s.doing.items, s.requests.batch)
  {
    hide Consistent, Prepared, Shape, Current, HeldOpen, Fresh;
  }

  lemma ContinuePasses(s: Core, choice: Choice, n: int)
    requires RequestsOk(s) && Welcomed(s) && !AtRest(s)
    ensures Passes(s, Continue(s, choice), n)
  {
    hide RequestsOk, Passes, Continue, Prepared, Consistent, Welcomed;
    match s.doing
    case Idle => ErrandPasses(s, n); PopsErrand(s, choice);
    case Forgetting(_, _, _) => ForgetPasses(s, n); ForgetsRegion(s, choice);
    case Ending(_, _) => ClosePasses(s, choice, n);
    case OpeningCall(_) => OpenCallPasses(s, choice, n);
    case Reopening(_, _) => OpenCallPasses(s, choice, n);
    case UndoingCall(_) => ClosePasses(s, choice, n);
    case OpenedCall(_, _) => FinishOpenPasses(s, choice, n);
    case Welcoming(_) => WelcomePasses(s, choice, n);
    case ResetReply(_, _, _) => ReplyPasses(s, choice, n);
    case Inserting(_) => BatchPrepared(s); InsertPasses(s, choice, n);
    case Returned(_, _, _) => ReturnedPasses(s, choice, n);
    case Dropped(_, _, owed) => if owed != [] { DroppedPasses(s, choice, n); } else { CallPasses(s, choice, n); }
    case _ => CallPasses(s, choice, n);
  }

  lemma ForgetsRegion(s: Core, choice: Choice)
    requires s.doing.Forgetting?
    ensures Continue(s, choice) == ForgetRegion(s, s.doing.n, s.doing.wasOpen, s.doing.next)
  {
  }

  // -- a turn, and the lifecycle -------------------------------------------------------------------

  /** An idle step thread's errands and events, before and after. */
  lemma IdleResets(s: Core, t: Core, n: int)
    requires AtRest(s) && t.doing == Idle
    requires ErrandResets(t.errands, n) + EventResets(t.events, n) == EventResets(s.events, n)
    ensures Unanswered(t, n) == Unanswered(s, n)
  {
    hide EventResets;
    ErrandsNone([], n);
    assert [] + EventResets(s.events, n) == EventResets(s.events, n);
    assert [] + ErrandResets(t.errands, n) == ErrandResets(t.errands, n);
  }

  /** What a turn leaves to do: answers, then the events or a batch. */
  lemma TurnErrandsAre(s: Core, now: real)
    requires AtRest(s)
    ensures var t := RunTurn(s, now);
            var late := AnswersTo(ByTicket(s.requests.pending, Overdue(s.requests.pending, now),
                                           s.requests.nextTicket));
            var turn := Decision(s.requests.policy, now, OpenSessions(s.links));
            && t.doing == Idle
            && ((t.events == s.events && t.errands == [])
                || (t.events == [] && (t.errands == late + Refuses(s.events) || t.errands == late + Does(s.events)
                    || (s.events == [] && t.errands == late + AnswersIfThere(turn.expired)
                      + (if turn.batch == [] then [] else [RunBatch])))))
  {
    hide Decision, ByTicket;
  }

  lemma TurnResets(s: Core, now: real, n: int)
    requires AtRest(s)
    ensures Unanswered(RunTurn(s, now), n) == Unanswered(s, n)
  {
    hide RunTurn, Decision, ByTicket, ErrandResets, EventResets;
    var late := AnswersTo(ByTicket(s.requests.pending, Overdue(s.requests.pending, now), s.requests.nextTicket));
    var turn := Decision(s.requests.policy, now, OpenSessions(s.links));
    var run := if turn.batch == [] then [] else [RunBatch];
    TurnErrandsAre(s, now);
    ErrandsNone([], n);
    ErrandsNone(late, n);
    ErrandsNone(late + AnswersIfThere(turn.expired) + run, n);
    ErrandsJoin(late, Does(s.events), n);
    ErrandsJoin(late, Refuses(s.events), n);
    ErrandsOfResets(s.events, n);
    NoEvents(n);
    IdleResets(s, RunTurn(s, now), n);
  }

  lemma NoEvents(n: int)
    ensures EventResets([], n) == []
  {
  }

  lemma TurnMoves(s: Core, now: real)
    ensures var t := RunTurn(s, now);
            && t.links == s.links && t.answers.boxes == s.answers.boxes
            && Moves(s.requests.ledger, t.requests.ledger)
  {
    hide Decision, ByTicket, Moves, TakeTurn;
    MovesNowhere(s.requests.ledger);
    TurnTakeMoves(s.requests, now, OpenSessions(s.links));
    TurnTakeMoves(Mark(s.requests, Overdue(s.requests.pending, now)), now, OpenSessions(s.links));
  }

  lemma MovesNowhere(ledger: Ledger)
    ensures Moves(ledger, ledger)
  {
  }

  lemma TurnTakeMoves(r: Requests, now: real, openSessions: nat)
    ensures Moves(r.ledger, TakeTurn(r, now, openSessions).ledger)
  {
    hide Decision;
  }

  lemma TurnPasses(s: Core, now: real, n: int)
    requires AtRest(s)
    ensures Passes(s, RunTurn(s, now), n)
  {
    hide RunTurn, Unanswered, Posts, SameAccepted;
    var t := RunTurn(s, now);
    TurnResets(s, now, n);
    TurnMoves(s, now);
    MovesAccepted(s, t, n);
    SameGrowth(s.answers.boxes, n);
    PlainPosts(s, t, n);
  }

  lemma SettleResets(s: Core, order: seq<int>, shut: seq<int>, n: int)
    requires AtRest(s)
    ensures Unanswered(SettleAll(s, order, shut), n) == Unanswered(s, n)
  {
    hide ByTicket, DroppedBy, Settle, ErrandResets, EventResets;
    var r := s.requests;
    var awaited := set t | t in r.pending && r.pending[t].Awaited();
    var running, queued := AnswersTo(ByTicket(r.pending, awaited, r.nextTicket)), AnswersTo(DroppedBy(r.policy, order));
    var shuts := seq(|shut|, i requires 0 <= i < |shut| => ShutOpening(shut[i]));
    ErrandsNone([], n);
    ErrandsNone(running, n);
    ErrandsNone(queued, n);
    ErrandsNone(shuts, n);
    ErrandsJoin(running + Refuses(s.events) + queued, shuts, n);
    ErrandsJoin(running + Refuses(s.events), queued, n);
    ErrandsJoin(running, Refuses(s.events), n);
    ErrandsOfResets(s.events, n);
    NoEvents(n);
  }

  lemma SettleLinksSame(s: Core, order: seq<int>, shut: seq<int>)
    ensures var t := SettleAll(s, order, shut);
            && t.links.connections == s.links.connections
            && t.answers.boxes == s.answers.boxes && t.requests == Settle(s.requests, order)
  {
    hide Settle;
  }

  lemma SettleMoves(r: Requests, order: seq<int>)
    ensures Moves(r.ledger, Settle(r, order).ledger)
  {
  }

  lemma SettlePasses(s: Core, order: seq<int>, shut: seq<int>, n: int)
    requires AtRest(s)
    ensures Passes(s, SettleAll(s, order, shut), n)
  {
    hide SettleAll, Unanswered, Posts, SameAccepted, Settle;
    var t := SettleAll(s, order, shut);
    SettleResets(s, order, shut, n);
    SettleLinksSame(s, order, shut);
    SettleMoves(s.requests, order);
    MovesAccepted(s, t, n);
    SameGrowth(s.answers.boxes, n);
    PlainPosts(s, t, n);
  }

  lemma LeaveAllPasses(s: Core, order: seq<int>, n: int)
    requires AtRest(s)
    ensures Passes(s, LeaveAll(s, order), n)
  {
    hide Posts, ErrandResets, EventResets;
    var t := LeaveAll(s, order);
    ErrandsNone([], n);
    ErrandsNone(t.errands, n);
    SameGrowth(s.answers.boxes, n);
    PlainPosts(s, t, n);
  }

  lemma LifePasses(s: Core, t: Core, n: int)
    requires t == s.(life := t.life, server := t.server, drainBy := t.drainBy)
    ensures Passes(s, t, n)
  {
    hide Posts, ErrandResets, EventResets;
    SameGrowth(s.answers.boxes, n);
    PlainPosts(s, t, n);
  }

  // -- any transition but the session's own messages -------------------------------------------------

  /** Whether this action takes a message of the session `n`. */
  predicate Hears(a: Action, n: int) {
    || (a.Steps? && a.w.connection == n)
    || (a.Cancels? && a.n == n)
    || (a.Resetting? && a.n == n)
  }

  lemma NextPasses(s: Core, a: Action, n: int)
    requires ServerOk(s) && Welcomed(s) && Enabled(s, a) && !Hears(a, n)
    ensures Passes(s, Next(s, a), n)
  {
    hide LinksOk, RequestsOk, LogOk, AnswersOk, EndsOk, Passes, Welcomed, Consistent, Ticketed, Named;
    OkConsistent(s);
    ConsistentTickets(s.requests);
    IsNumbered(s);
    match a
    case AcceptsLink => AcceptPasses(s, n);
    case Greets(k, hello) => GreetPasses(s, k, hello, n);
    case Ends(k) => EndPasses(s, k, n);
    case Steps(w) => StepPasses(s, w, n);
    case Cancels(k, id) => CancelPasses(s, k, id, n);
    case Resetting(k, id) => ResetPasses(s, k, id, n);
    case Writes(k) => WritePasses(s, k, n);
    case Breaks(k) => WritePasses(s, k, n);
    case Resolves(t, result) => ResolvePasses(s, t, result, n);
    case Turns(now) => TurnPasses(s, now, n);
    case Continues(choice) => ContinuePasses(s, choice, n);
    case Settles(order, shut) => SettlePasses(s, order, shut, n);
    case LeavesAll(order) => LeaveAllPasses(s, order, n);
    case _ => LifePasses(s, Next(s, a), n);
  }

  lemma IsNumbered(s: Core)
    requires LinksOk(s)
    ensures Numbered(s.links)
  {
    hide TablesAgree, QueuesFit, SlotsInRange, OpeningListed, GreetingFits, DoingFits;
  }

  lemma ResolvePasses(s: Core, t: nat, result: Option<int>, n: int)
    requires Ticketed(s.requests.pending, s.requests.ledger)
    ensures Passes(s, Resolve(s, t, result), n)
  {
    hide Ticketed, CompleteItem, Posts;
    if t in s.requests.pending && s.requests.pending[t].future {
      CompletePasses(s, t, result, n);
    } else {
      SameGrowth(s.answers.boxes, n);
      PlainPosts(s, s, n);
    }
  }

  // -- a connection is welcomed once it is open ------------------------------------------------------

  lemma ContinueWelcomes(s: Core, choice: Choice)
    requires LinksOk(s) && !AtRest(s) && Continue(s, choice).doing.Welcoming?
    ensures s.doing.OpenedCall? && Continue(s, choice).doing.n == s.doing.n
    ensures Beyond(Continue(s, choice).links, s.doing.n)
  {
    hide TablesAgree, QueuesFit, SlotsInRange, OpeningListed, GreetingFits, Continue, RunErrand;
    if s.doing == Idle {
      PopsErrand(s, choice);
      ErrandWelcomesNone(s.(errands := s.errands[1..]), s.errands[0]);
    } else {
      DoingWelcomes(s, choice);
    }
  }

  lemma DoingWelcomes(s: Core, choice: Choice)
    requires LinksOk(s) && s.doing != Idle
    ensures Continue(s, choice).doing.Welcoming? ==>
              && s.doing.OpenedCall? && Continue(s, choice).doing.n == s.doing.n
              && Beyond(Continue(s, choice).links, s.doing.n)
  {
    hide TablesAgree, QueuesFit, SlotsInRange, OpeningListed, GreetingFits, TakeOutputs, Post, Flushed;
  }

  lemma LeaveWelcomesNone(s: Core, k: int, next: Option<int>)
    ensures !Leave(s, k, next).doing.Welcoming?
  {
    hide Flushed, StateOf, MayMove;
  }

  lemma ErrandWelcomesNone(s: Core, e: Errand)
    requires s.doing == Idle
    ensures !RunErrand(s, e).doing.Welcoming?
  {
    hide Leave, Post, Flushed, StateOf, MayMove, Prepare, AnswerRequest;
    match e
    case Do(Opens(n)) =>
      if SlotOf(s.links, n) in s.links.bySlot { LeaveWelcomesNone(s, s.links.bySlot[SlotOf(s.links, n)], Some(n)); }
    case Do(Leaves(n)) => LeaveWelcomesNone(s, n, None);
    case Refuse(Leaves(n)) => LeaveWelcomesNone(s, n, None);
    case LeaveNow(n) => LeaveWelcomesNone(s, n, None);
    case _ =>
  }

  lemma OtherDoing(s: Core, a: Action)
    requires Enabled(s, a) && !a.Continues?
    ensures Next(s, a).doing == s.doing
  {
    hide Post, Flushed, MayMove, Decision, ByTicket, DroppedBy, Settle, CompleteItem, Reaches, AnswerRequest;
    if a.Greets? {
      GreetRest(s, a.n, a.hello);
    }
    if a.Resolves? {
      ResolveAside(s, a.ticket, a.result);
    }
  }

  lemma WelcomedKeeps(s: Core, a: Action)
    requires LinksOk(s) && Welcomed(s) && Enabled(s, a) && StaysBeyond(s, Next(s, a))
    ensures Welcomed(Next(s, a))
  {
    hide LinksOk, Next, Continue;
    if a.Continues? {
      ContinuesNext(s, a);
      if Continue(s, a.choice).doing.Welcoming? {
        ContinueWelcomes(s, a.choice);
      }
    } else {
      OtherDoing(s, a);
    }
  }

  lemma ContinuesNext(s: Core, a: Action)
    requires Enabled(s, a) && a.Continues?
    ensures Next(s, a) == Continue(s, a.choice)
  {
  }
}
