/** What becomes of each output of `step()`: the request at its place in the batch is the one it answers.
    And every result a session is sent is one the model gave for that very request. */
module StepOutputs {
  import opened Batching
  import opened RequestTable
  import opened CallLog
  import opened ServerCore
  import opened LinkInvariant
  import opened RequestInvariant
  import opened LogInvariant
  import opened AnswerInvariant
  import opened AnswerSteps
  import opened EndInvariant
  import opened ServerProperties
  import opened FinalFates
  import opened ResultOrder

  // -- one output --------------------------------------------------------------------------------

  /** The output at place `i` of `count`: none of them counts if `step()` raised, or gave more or fewer. */
  function OutputAt(outputs: Option<seq<Output>>, count: nat, i: nat): Output
    requires i < count
  {
    if outputs.Some? && |outputs.value| == count then outputs.value[i] else Value(None)
  }

  /** Whether the session of this request takes its answer: still open in the request's generation, with
      room in its outbox. */
  predicate TakesAnswer(s: Core, item: Pending) {
    var n := item.waiting.connection;
    && n in s.links.open && n in s.links.connections
    && s.links.connections[n].state == Open && s.links.connections[n].generation == item.generation
    && item.Awaited() && |BoxOf(s.answers.boxes, n).sent| - BoxOf(s.answers.boxes, n).written < OUTBOX
  }

  function SentTo(s: Core, n: int): seq<Message> {
    BoxOf(s.answers.boxes, n).sent
  }

  /** What `t` makes of `output`, given for the request under ticket `u` of `s`. */
  ghost predicate Lands(s: Core, t: Core, u: nat, output: Output)
    requires u in s.requests.pending
  {
    var item := s.requests.pending[u];
    var w := item.waiting;
    if output.Future? then
      && u in t.requests.pending && t.requests.pending[u] == item.(future := true)
      && SentTo(t, w.connection) == SentTo(s, w.connection)
    else
      && u !in t.requests.pending
      && SentTo(t, w.connection) ==
         SentTo(s, w.connection)
         + if TakesAnswer(s, item) then [Answer(w.order, w.requestId, item.generation, output.result)] else []
  }

  /** `t` leaves the request under ticket `u`, and the session `n`, as they were. */
  ghost predicate Unmoved(s: Core, t: Core, u: nat, n: int) {
    && (u in t.requests.pending <==> u in s.requests.pending)
    && (u in s.requests.pending ==> t.requests.pending[u] == s.requests.pending[u])
    && BoxOf(t.answers.boxes, n) == BoxOf(s.answers.boxes, n)
  }

  /** The first output of a batch. */
  function TakeFirst(s: Core, first: nat, output: Output): Core
    requires first in s.requests.pending
  {
    if output.Future? then s.(requests := Register(s.requests, first)) else CompleteItem(s, first, output.result)
  }

  lemma FirstLands(s: Core, first: nat, output: Output)
    requires first in s.requests.pending
    ensures Lands(s, TakeFirst(s, first, output), first, output)
  {
  }

  lemma OthersUnmoved(s: Core, first: nat, output: Output, u: nat, n: int)
    requires first in s.requests.pending && u != first && n != s.requests.pending[first].waiting.connection
    ensures Unmoved(s, TakeFirst(s, first, output), u, n)
  {
  }

  lemma FirstThenRest(s: Core, first: nat, last: nat, outputs: Option<seq<Output>>)
    requires first < last && first in s.requests.pending
    ensures var output := OutputAt(outputs, last - first, 0);
            var rest := if IsWhole(outputs, last - first) then Some(outputs.value[1..]) else None;
            TakeOutputs(s, first, last, outputs) == TakeOutputs(TakeFirst(s, first, output), first + 1, last, rest)
  {
    hide CompleteItem, Register;
  }

  lemma FirstAwaits(s: Core, first: nat, last: nat, output: Output)
    requires Awaits(s, first, last) && first < last
    ensures first in s.requests.pending && Awaits(TakeFirst(s, first, output), first + 1, last)
    ensures TakeFirst(s, first, output).links == s.links
  {
    assert first in s.requests.pending;
    hide Awaits;
    TakeOne(s, TakeFirst(s, first, output), first, last);
  }

  /** No two requests of a batch are of one session. */
  lemma SessionsApart(s: Core, first: nat, last: nat, u: nat, v: nat)
    requires Awaits(s, first, last) && first <= u < last && first <= v < last && u != v
    ensures u in s.requests.pending && v in s.requests.pending
    ensures s.requests.pending[u].waiting.connection != s.requests.pending[v].waiting.connection
  {
    AwaitsConsistent(s, first, last);
    assert u in s.requests.pending && v in s.requests.pending;
    hide Current, HeldOpen, LifeOk;
    HeldForIt(s.requests, u);
    HeldForIt(s.requests, v);
    OrdersApart(s.requests, u, v);
  }

  lemma OrdersApart(r: Requests, u: nat, v: nat)
    requires Consistent(r) && u in r.pending && v in r.pending && u != v
    ensures r.pending[u].waiting.order != r.pending[v].waiting.order
  {
    hide Ordered, Listed, HoldsOne, Ascending;
  }

  /** What the outputs do not concern is left as it was. */
  lemma {:induction false} RestUnmoved(s: Core, first: nat, last: nat, outputs: Option<seq<Output>>, u: nat, n: int)
    requires Awaits(s, first, last) && first <= last && !(first <= u < last)
    requires forall v :: first <= v < last ==> s.requests.pending[v].waiting.connection != n
    ensures Unmoved(s, TakeOutputs(s, first, last, outputs), u, n)
    decreases last - first
  {
    hide Awaits, TakeFirst, Unmoved, TakeOutputs;
    if first == last {
      NoneToTake(s, first, outputs, u, n);
    } else {
      var output := OutputAt(outputs, last - first, 0);
      AllThere(s, first, last);
      var t := TakeFirst(s, first, output);
      var rest := if IsWhole(outputs, last - first) then Some(outputs.value[1..]) else None;
      FirstAwaits(s, first, last, output);
      FirstThenRest(s, first, last, outputs);
      OthersUnmoved(s, first, output, u, n);
      SameRest(s, first, last, output);
      RestUnmoved(t, first + 1, last, rest, u, n);
      UnmovedThen(s, t, TakeOutputs(s, first, last, outputs), u, n);
    }
  }

  lemma NoneToTake(s: Core, first: nat, outputs: Option<seq<Output>>, u: nat, n: int)
    ensures Unmoved(s, TakeOutputs(s, first, first, outputs), u, n)
  {
  }

  lemma SameRest(s: Core, first: nat, last: nat, output: Output)
    requires Awaits(s, first, last) && first < last && first in s.requests.pending
    ensures forall v :: first < v < last ==>
              && v in s.requests.pending && v in TakeFirst(s, first, output).requests.pending
              && TakeFirst(s, first, output).requests.pending[v] == s.requests.pending[v]
  {
    hide Consistent, Current, HeldOpen, LifeOk, AnswerRequest;
  }

  lemma UnmovedThen(a: Core, b: Core, c: Core, u: nat, n: int)
    requires Unmoved(a, b, u, n) && Unmoved(b, c, u, n)
    ensures Unmoved(a, c, u, n)
  {
  }

  /** Each output lands where its request is: the one at its place in the batch. */
  lemma {:induction false} EachLands(s: Core, first: nat, last: nat, outputs: Option<seq<Output>>, u: nat)
    requires Awaits(s, first, last) && first <= u < last
    ensures u in s.requests.pending
    ensures Lands(s, TakeOutputs(s, first, last, outputs), u, OutputAt(outputs, last - first, u - first))
    decreases last - first
  {
    hide Awaits, TakeFirst, Unmoved, Lands, TakeOutputs;
    AllThere(s, first, last);
    var output := OutputAt(outputs, last - first, 0);
    var t := TakeFirst(s, first, output);
    var rest := if IsWhole(outputs, last - first) then Some(outputs.value[1..]) else None;
    var n := s.requests.pending[u].waiting.connection;
    FirstAwaits(s, first, last, output);
    FirstThenRest(s, first, last, outputs);
    SameRest(s, first, last, output);
    if u == first {
      FirstLands(s, first, output);
      forall v | first < v < last ensures t.requests.pending[v].waiting.connection != n {
        SessionsApart(s, first, last, u, v);
      }
      RestUnmoved(t, first + 1, last, rest, u, n);
      LandedStays(s, t, TakeOutputs(s, first, last, outputs), u, output);
    } else {
      SessionsApart(s, first, last, first, u);
      OthersUnmoved(s, first, output, u, n);
      EachLands(t, first + 1, last, rest, u);
      LandsLater(s, t, TakeOutputs(s, first, last, outputs), u, OutputAt(outputs, last - first, u - first));
    }
  }

  lemma LandedStays(s: Core, t: Core, v: Core, u: nat, output: Output)
    requires u in s.requests.pending && Lands(s, t, u, output)
    requires Unmoved(t, v, u, s.requests.pending[u].waiting.connection)
    ensures Lands(s, v, u, output)
  {
    hide TakesAnswer;
  }

  lemma LandsLater(s: Core, t: Core, v: Core, u: nat, output: Output)
    requires u in s.requests.pending && Unmoved(s, t, u, s.requests.pending[u].waiting.connection) && t.links == s.links
    requires u in t.requests.pending && Lands(t, v, u, output)
    ensures Lands(s, v, u, output)
  {
  }

  // -- every run -----------------------------------------------------------------------------------

  lemma ReturnedAwaits(s: Core)
    requires ServerOk(s) && s.doing.Returned?
    ensures Awaits(s, s.doing.first, s.doing.last) && s.doing.first < s.doing.last
  {
    hide LinksOk, LogOk, AnswersOk, EndsOk, Consistent, HeldOpen, Current, Fresh, LifeOk;
  }

  lemma TakesThem(s: Core, choice: Choice)
    requires s.doing.Returned?
    ensures Continue(s, choice) == TakeOutputs(s, s.doing.first, s.doing.last, s.doing.outputs).(doing := Idle)
  {
    hide TakeOutputs, RunErrand, CallOpened, FinishOpen, ForgetRegion, InsertBatch, CallStep, SettleReset, ReplyReset,
         AnswerRequest, CallClosed, PostTo, Close, Then, ServerCore.Move, StateOf, GenerationOf, SlotOf, IsWhole,
         InsertAll, Reaching, Release, Mend, DueOf, Forget, Flushed, Post, BoxOf, CompleteItem, Register, AtRest;
  }

  /** Once `step()` returned, each request of the batch is given the output at its own place: a future keeps
      it pending and posts nothing; a value finishes it, and its session is sent exactly that, under the
      request's own id, if it is still open in that generation and has room. If `step()` raised, or gave
      more or fewer outputs than requests, every request fails. */
  lemma OutputsLand(s: Core, choice: Choice, i: nat)
    requires Reached(s) && s.doing.Returned? && i < s.doing.last - s.doing.first
    ensures var u, output := s.doing.first + i, OutputAt(s.doing.outputs, s.doing.last - s.doing.first, i);
            u in s.requests.pending && Lands(s, Continue(s, choice), u, output)
  {
    hide Reached, ServerOk, Awaits, Lands, Continue;
    ReachedOk(s);
    ReturnedAwaits(s);
    TakesThem(s, choice);
    var u, output := s.doing.first + i, OutputAt(s.doing.outputs, s.doing.last - s.doing.first, i);
    EachLands(s, s.doing.first, s.doing.last, s.doing.outputs, u);
    SameLanding(s, TakeOutputs(s, s.doing.first, s.doing.last, s.doing.outputs), u, output);
  }

  lemma SameLanding(s: Core, t: Core, u: nat, output: Output)
    requires u in s.requests.pending && Lands(s, t, u, output)
    ensures Lands(s, t.(doing := Idle), u, output)
  {
    hide TakesAnswer;
  }

  /** Sessions with no request in the batch are sent nothing by it. */
  lemma OthersGetNothing(s: Core, choice: Choice, n: int)
    requires Reached(s) && s.doing.Returned?
    requires forall u :: s.doing.first <= u < s.doing.last && u in s.requests.pending ==>
               s.requests.pending[u].waiting.connection != n
    ensures SentTo(Continue(s, choice), n) == SentTo(s, n)
  {
    hide Reached, ServerOk, Continue;
    ReachedOk(s);
    ReturnedAwaits(s);
    TakesThem(s, choice);
    AllThere(s, s.doing.first, s.doing.last);
    hide Awaits;
    RestUnmoved(s, s.doing.first, s.doing.last, s.doing.outputs, s.doing.last, n);
  }

  lemma AllThere(s: Core, first: nat, last: nat)
    requires Awaits(s, first, last)
    ensures forall u :: first <= u < last ==> u in s.requests.pending
  {
    hide Consistent, Current, HeldOpen, LifeOk;
  }

  /** Ticket `u` is of this request, for its session's slot and generation, and nothing answered it yet. */
  predicate IsInserted(l: Links, pending: map<nat, Pending>, u: nat, w: Waiting) {
    && u in pending && pending[u].waiting == w && pending[u].Awaited() && !pending[u].future
    && pending[u].slot == SlotOf(l, w.connection) && pending[u].generation == GenerationOf(l, w.connection)
  }

  /** The batch goes into the table as it was taken: one new ticket after the other in its order, each
      request for its session's slot and generation. */
  lemma BatchIsInserted(s: Core, choice: Choice)
    requires Reached(s) && s.doing.Inserting?
    ensures var t, batch := Continue(s, choice), s.requests.batch;
            && t.doing.Calling? && t.doing.last - t.doing.first == |batch| > 0 && t.links == s.links
            && (forall u :: t.doing.first <= u < t.doing.last ==> u !in s.requests.pending)
            && (forall i :: 0 <= i < |batch| ==> IsInserted(s.links, t.requests.pending, t.doing.first + i, batch[i]))
  {
    hide Reached, ServerOk, InsertAll, Continue;
    ReachedOk(s);
    PreparedBatch(s);
    var r, items := s.requests, s.doing.items;
    InsertedPending(r, items);
    Inserts(s, choice);
    var t, batch := Continue(s, choice), r.batch;
    forall i | 0 <= i < |batch| ensures IsInserted(s.links, t.requests.pending, t.doing.first + i, batch[i]) {
      assert t.requests.pending[r.nextTicket + i] == items[i];
    }
  }

  lemma Inserts(s: Core, choice: Choice)
    requires s.doing.Inserting?
    ensures Continue(s, choice) == InsertBatch(s, s.doing.items)
  {
    hide TakeOutputs, RunErrand, CallOpened, FinishOpen, ForgetRegion, InsertBatch, CallStep, SettleReset, ReplyReset,
         AnswerRequest, CallClosed, PostTo, Close, Then, ServerCore.Move, StateOf, GenerationOf, SlotOf, IsWhole,
         InsertAll, Reaching, Release, Mend, DueOf, Forget, Flushed, Post, BoxOf, CompleteItem, Register, AtRest;
  }

  lemma PreparedBatch(s: Core)
    requires ServerOk(s) && s.doing.Inserting?
    ensures forall t :: t in s.requests.pending ==> t < s.requests.nextTicket
    ensures |s.doing.items| == |s.requests.batch| > 0
    ensures forall i :: 0 <= i < |s.requests.batch| ==>
              && s.doing.items[i].waiting == s.requests.batch[i]
              && s.doing.items[i].Awaited() && !s.doing.items[i].future
              && s.doing.items[i].slot == SlotOf(s.links, s.requests.batch[i].connection)
              && s.doing.items[i].generation == GenerationOf(s.links, s.requests.batch[i].connection)
  {
    hide LinksOk, LogOk, AnswersOk, EndsOk, HeldOpen, Current, LifeOk, Ordered, Listed, Ascending, Ticketed, HoldsOne;
  }

  /** The step receives the batch's requests in that same order: each at the place its output is taken from,
      with its payload, for its session's slot and generation. */
  lemma StepReceivesBatch(s: Core, choice: Choice)
    requires Reached(s) && s.doing.Calling?
    ensures var t := Continue(s, choice);
            && t.doing == Returned(s.doing.first, s.doing.last, choice.outputs) && t.requests == s.requests
            && t.log[..|s.log|] == s.log && |t.log| == |s.log| + 1 && t.log[|s.log|].Stepped?
            && |t.log[|s.log|].requests| == s.doing.last - s.doing.first
            && forall i :: 0 <= i < s.doing.last - s.doing.first ==>
                 && s.doing.first + i in s.requests.pending
                 && var p := s.requests.pending[s.doing.first + i];
                    t.log[|s.log|].requests[i] == Reach(p.slot, p.generation, p.waiting.payload)
  {
    hide Reached, ServerOk;
    ReachedOk(s);
    CallingThere(s);
    ReachingAll(s.requests.pending, s.doing.first, s.doing.last);
  }

  lemma CallingThere(s: Core)
    requires ServerOk(s) && s.doing.Calling?
    ensures s.doing.first < s.doing.last
    ensures forall u :: s.doing.first <= u < s.doing.last ==> u in s.requests.pending
  {
    hide LinksOk, LogOk, AnswersOk, EndsOk, Consistent, HeldOpen, Current, LifeOk;
  }

  /** A future's output goes to the request it was given for. */
  lemma FutureLands(s: Core, u: nat, result: Option<int>)
    requires u in s.requests.pending && s.requests.pending[u].future
    ensures Lands(s, Resolve(s, u, result), u, Value(result))
    ensures forall n :: n != s.requests.pending[u].waiting.connection ==>
            SentTo(Resolve(s, u, result), n) == SentTo(s, n)
  {
  }

  // -- every result comes from the model -------------------------------------------------------------

  /** The model gives `result` for request `o`: as the output at its place, or from its future. */
  ghost predicate Gives(s: Core, a: Action, o: nat, result: int) {
    || (a.Resolves? && a.ticket in s.requests.pending && s.requests.pending[a.ticket].future
        && s.requests.pending[a.ticket].waiting.order == o && a.result == Some(result))
    || (a.Continues? && s.doing.Returned?
        && exists i :: 0 <= i < s.doing.last - s.doing.first && GivesAt(s, i, o, result))
  }

  ghost predicate GivesAt(s: Core, i: nat, o: nat, result: int)
    requires s.doing.Returned? && i < s.doing.last - s.doing.first
  {
    && s.doing.first + i in s.requests.pending && s.requests.pending[s.doing.first + i].waiting.order == o
    && OutputAt(s.doing.outputs, s.doing.last - s.doing.first, i) == Value(Some(result))
  }

  lemma SilentGivesNone(s: Core, t: Core, n: int, i: nat)
    requires Silent(s, t) && |SentTo(s, n)| <= i < |SentTo(t, n)|
    ensures !IsResult(SentTo(t, n)[i])
  {
  }

  lemma ReturnedGives(s: Core, choice: Choice, n: int, i: nat)
    requires Reached(s) && s.doing.Returned? && |SentTo(s, n)| <= i < |SentTo(Continue(s, choice), n)|
    requires IsResult(SentTo(Continue(s, choice), n)[i])
    ensures var m := SentTo(Continue(s, choice), n)[i]; Gives(s, Continues(choice), m.order, m.result.value)
  {
    var t := Continue(s, choice);
    hide Reached, Continue;
    var first, last, pending := s.doing.first, s.doing.last, s.requests.pending;
    if u :| first <= u < last && u in pending && pending[u].waiting.connection == n {
      OutputsLand(s, choice, u - s.doing.first);
      assert GivesAt(s, u - s.doing.first, SentTo(t, n)[i].order, SentTo(t, n)[i].result.value);
    } else {
      OthersGetNothing(s, choice, n);
    }
  }

  lemma NextGives(s: Core, a: Action, n: int, i: nat)
    requires Reached(s) && Enabled(s, a) && |SentTo(s, n)| <= i < |SentTo(Next(s, a), n)|
    requires IsResult(SentTo(Next(s, a), n)[i])
    ensures var m := SentTo(Next(s, a), n)[i]; Gives(s, a, m.order, m.result.value)
  {
    hide Reached, Silent, Resolve, Continue;
    if a.Resolves? {
      ResolveGives(s, a.ticket, a.result, n, i);
    } else if a.Continues? {
      if s.doing.Returned? {
        ReturnedGives(s, a.choice, n, i);
      } else {
        ContinueSilent(s, a.choice);
        SilentGivesNone(s, Continue(s, a.choice), n, i);
      }
    } else {
      NextSilent(s, a);
      SilentGivesNone(s, Next(s, a), n, i);
    }
  }

  lemma ResolveGives(s: Core, u: nat, result: Option<int>, n: int, i: nat)
    requires |SentTo(s, n)| <= i < |SentTo(Resolve(s, u, result), n)| && IsResult(SentTo(Resolve(s, u, result), n)[i])
    ensures var m := SentTo(Resolve(s, u, result), n)[i]; Gives(s, Resolves(u, result), m.order, m.result.value)
  {
    if u in s.requests.pending && s.requests.pending[u].future {
      FutureLands(s, u, result);
    }
    hide CompleteItem;
  }

  lemma ContinueSilent(s: Core, choice: Choice)
    requires !AtRest(s) && !s.doing.Returned?
    ensures Silent(s, Continue(s, choice))
  {
    hide Continue, RunErrand, Silent;
    if s.doing == Idle {
      PopsErrand(s, choice);
      var t := s.(errands := s.errands[1..]);
      if IsAnswer(s.errands[0]) { AnswerSilent(t, s.errands[0]); } else { EventSilent(t, s.errands[0]); }
      SameSilent(s, t, Continue(s, choice));
    } else {
      DoingSilent(s, choice);
    }
  }

  lemma SameSilent(s: Core, t: Core, u: Core)
    requires t.answers == s.answers && t.requests == s.requests && Silent(t, u)
    ensures Silent(s, u)
  {
  }

  /** In every run, a result that is anywhere in a session's outbox is one the model gave, for that very
      request, in one of the steps before: as the output at its place in its batch, or from its future. */
  lemma {:induction false} ResultsAreTheModels(states: seq<Core>, actions: seq<Action>, j: nat, n: int, i: nat)
    requires IsRun(states, actions) && Reached(states[0]) && j <= |actions|
    requires forall k :: SentTo(states[0], k) == []
    requires i < |SentTo(states[j], n)| && IsResult(SentTo(states[j], n)[i])
    ensures var m := SentTo(states[j], n)[i];
            exists k :: 0 <= k < j && Gives(states[k], actions[k], m.order, m.result.value)
    decreases j
  {
    hide Reached, Gives, Enabled, Next;
    RunReached(states, actions, j - 1);
    if i < |SentTo(states[j - 1], n)| {
      SentStays(states[j - 1], actions[j - 1], n, i);
      ResultsAreTheModels(states, actions, j - 1, n, i);
    } else {
      NextGives(states[j - 1], actions[j - 1], n, i);
    }
  }

  lemma SentStays(s: Core, a: Action, n: int, i: nat)
    requires Reached(s) && Enabled(s, a) && i < |SentTo(s, n)|
    ensures i < |SentTo(Next(s, a), n)| && SentTo(Next(s, a), n)[i] == SentTo(s, n)[i]
  {
    hide Reached, Silent, Resolve, Continue;
    if a.Resolves? {
      ResolveStays(s, a.ticket, a.result, n);
    } else if a.Continues? {
      if s.doing.Returned? {
        ReturnedStays(s, a.choice, n);
      } else {
        ContinueSilent(s, a.choice);
        SilentStays(s, Continue(s, a.choice), n);
      }
    } else {
      NextSilent(s, a);
      SilentStays(s, Next(s, a), n);
    }
  }

  lemma SilentStays(s: Core, t: Core, n: int)
    requires Silent(s, t)
    ensures SentTo(s, n) <= SentTo(t, n)
  {
  }

  lemma ResolveStays(s: Core, u: nat, result: Option<int>, n: int)
    ensures SentTo(s, n) <= SentTo(Resolve(s, u, result), n)
  {
    if u in s.requests.pending && s.requests.pending[u].future {
      FutureLands(s, u, result);
    }
    hide CompleteItem;
  }

  lemma ReturnedStays(s: Core, choice: Choice, n: int)
    requires Reached(s) && s.doing.Returned?
    ensures SentTo(s, n) <= SentTo(Continue(s, choice), n)
  {
    hide Reached, Continue;
    var first, last, pending := s.doing.first, s.doing.last, s.requests.pending;
    if u :| first <= u < last && u in pending && pending[u].waiting.connection == n {
      OutputsLand(s, choice, u - s.doing.first);
    } else {
      OthersGetNothing(s, choice, n);
    }
  }
}
