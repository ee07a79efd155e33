/** What every interleaving keeps about the calls into the model: they are well bracketed, and the
    generations open in the model are those of the connections the server holds open. */
module LogInvariant {
  import opened Batching
  import opened RequestTable
  import opened CallLog
  import opened ServerCore
  import opened LinkInvariant
  import opened RequestInvariant

  /** The connections whose generation is open in the model. */
  function Live(l: Links, d: Doing): set<int> {
    match d
    case Forgetting(n, wasOpen, _) => if wasOpen then l.open else l.open - {n}
    case ClosingCall(n, _) => l.open + {n}
    case OpenedCall(n, ok) => if ok then l.open + {n} else l.open
    case UndoingCall(n) => l.open + {n}
    case Reopening(n, _) => l.open - {n}
    case Reopened(n, _, ok) => if ok then l.open else l.open - {n}
    case ResetReply(n, _, ok) => if ok then l.open else l.open - {n}
    case _ => l.open
  }

  ghost predicate OpenIs(open: map<int, nat>, l: Links, live: set<int>) {
    && (forall n :: n in live ==> SlotOf(l, n) in open && open[SlotOf(l, n)] == GenerationOf(l, n))
    && (forall k :: k in open ==> exists n :: n in live && SlotOf(l, n) == k)
  }

  ghost predicate GenerationsCover(last: map<int, nat>, generations: map<int, nat>) {
    forall k :: k in last ==> k in generations && last[k] <= generations[k]
  }

  ghost predicate LogOk(log: seq<Call>, l: Links, d: Doing, maxBatch: nat) {
    && WellBracketed(log, maxBatch)
    && OpenIs(OpenNow(log), l, Live(l, d))
    && GenerationsCover(LastOpened(log), l.generations)
  }

  /** Two live connections never share a slot. */
  lemma LiveApart(s: Core)
    requires LinksOk(s)
    ensures forall m, n :: m in Live(s.links, s.doing) && n in Live(s.links, s.doing) && m != n ==>
              SlotOf(s.links, m) != SlotOf(s.links, n)
    ensures forall n :: n in Live(s.links, s.doing) ==> n in s.links.connections
  {
  }

  /** A change that keeps the live connections, their slots and their generations. */
  lemma LogSame(log: seq<Call>, l: Links, d: Doing, m: Links, e: Doing, maxBatch: nat)
    requires LogOk(log, l, d, maxBatch) && Live(m, e) == Live(l, d) && m.generations == l.generations
    requires forall n :: n in Live(l, d) ==> SlotOf(m, n) == SlotOf(l, n) && GenerationOf(m, n) == GenerationOf(l, n)
    ensures LogOk(log, m, e, maxBatch)
  {
    hide Live;
    forall k | k in OpenNow(log) ensures exists n :: n in Live(m, e) && SlotOf(m, n) == k {
      var n :| n in Live(l, d) && SlotOf(l, n) == k;
      assert SlotOf(m, n) == k;
    }
  }

  /** `session_closed()` of a live connection, which is live no longer. */
  lemma LogCloses(log: seq<Call>, l: Links, live: set<int>, n: int, maxBatch: nat)
    requires WellBracketed(log, maxBatch) && OpenIs(OpenNow(log), l, live) && n in live
    requires forall m :: m in live && m != n ==> SlotOf(l, m) != SlotOf(l, n)
    ensures var more := log + [Closed(SlotOf(l, n), GenerationOf(l, n))];
            WellBracketed(more, maxBatch) && OpenIs(OpenNow(more), l, live - {n}) && LastOpened(more) == LastOpened(log)
  {
    var call := Closed(SlotOf(l, n), GenerationOf(l, n));
    Extended(log, call, maxBatch);
    hide WellBracketed, OpenNow;
    forall k | k in OpenNow(log) && k != SlotOf(l, n) ensures exists m :: m in live - {n} && SlotOf(l, m) == k {
      var m :| m in live && SlotOf(l, m) == k;
      assert m in live - {n};
    }
  }

  /** The connections `l` become `m` when `n` gets its slot's next generation. */
  ghost predicate Bumped(l: Links, m: Links, n: int) {
    && (forall k :: k != n ==> SlotOf(m, k) == SlotOf(l, k) && GenerationOf(m, k) == GenerationOf(l, k))
    && SlotOf(m, n) == SlotOf(l, n)
    && m.generations == l.generations[SlotOf(l, n) := GenerationOf(m, n)]
    && (SlotOf(l, n) in l.generations ==> l.generations[SlotOf(l, n)] < GenerationOf(m, n))
  }

  lemma OpenIsKept(open: map<int, nat>, l: Links, live: set<int>, n: int, m: Links)
    requires OpenIs(open, l, live) && n !in live && Bumped(l, m, n)
    ensures OpenIs(open, m, live)
  {
    forall k | k in open ensures exists j :: j in live && SlotOf(m, j) == k {
      var j :| j in live && SlotOf(l, j) == k;
      assert SlotOf(m, j) == k;
    }
  }

  lemma OpenIsAdds(open: map<int, nat>, l: Links, live: set<int>, n: int)
    requires OpenIs(open, l, live) && forall k :: k in live ==> SlotOf(l, k) != SlotOf(l, n)
    ensures OpenIs(open[SlotOf(l, n) := GenerationOf(l, n)], l, live + {n})
    ensures SlotOf(l, n) !in open
  {
    forall k | k in open ensures exists j :: j in live + {n} && SlotOf(l, j) == k {
      var j :| j in live && SlotOf(l, j) == k;
      assert j in live + {n};
    }
    assert n in live + {n};
  }

  /** `session_opened()` of a connection in a slot no live one holds, with the slot's next generation. */
  lemma LogOpens(log: seq<Call>, l: Links, live: set<int>, n: int, m: Links, maxBatch: nat)
    requires WellBracketed(log, maxBatch) && OpenIs(OpenNow(log), l, live) && n !in live
    requires GenerationsCover(LastOpened(log), l.generations) && Bumped(l, m, n)
    requires forall k :: k in live ==> SlotOf(l, k) != SlotOf(l, n)
    ensures var more := log + [Opened(SlotOf(l, n), GenerationOf(m, n))];
            && WellBracketed(more, maxBatch) && OpenIs(OpenNow(more), m, live + {n})
            && GenerationsCover(LastOpened(more), m.generations)
    ensures OpenIs(OpenNow(log), m, live) && GenerationsCover(LastOpened(log), m.generations)
  {
    hide WellBracketed, OpenNow, LastOpened, OpenIs;
    OpenIsKept(OpenNow(log), l, live, n, m);
    OpenIsAdds(OpenNow(log), m, live, n);
    Extended(log, Opened(SlotOf(l, n), GenerationOf(m, n)), maxBatch);
  }

  // -- the step thread -----------------------------------------------------------------------

  /** The connection whose generation closes is live, and is not once it is closed. */
  lemma ClosesLive(s: Core, choice: Choice)
    requires LinksOk(s) && (s.doing.ClosingCall? || s.doing.UndoingCall? || (s.doing.Dropped? && s.doing.owed == []))
    ensures var t, n := Continue(s, choice), s.doing.n;
            && n in Live(s.links, s.doing)
            && Live(t.links, t.doing) == Live(s.links, s.doing) - {n}
            && t.log == s.log + [Closed(SlotOf(s.links, n), GenerationOf(s.links, n))]
            && t.links.generations == s.links.generations
            && forall k ::
                SlotOf(t.links, k) == SlotOf(s.links, k) && GenerationOf(t.links, k) == GenerationOf(s.links, k)
  {
    var t, n := Continue(s, choice), s.doing.n;
    if s.doing.Dropped? {
      assert n in s.links.open;
    } else {
      assert n !in s.links.open;
    }
  }

  lemma ClosedLog(s: Core, choice: Choice)
    requires LinksOk(s) && LogOk(s.log, s.links, s.doing, s.requests.policy.maxBatch)
    requires s.doing.ClosingCall? || s.doing.UndoingCall? || (s.doing.Dropped? && s.doing.owed == [])
    ensures var t := Continue(s, choice); LogOk(t.log, t.links, t.doing, s.requests.policy.maxBatch)
  {
    var t, n := Continue(s, choice), s.doing.n;
    LiveApart(s);
    ClosesLive(s, choice);
    LogCloses(s.log, s.links, Live(s.links, s.doing), n, s.requests.policy.maxBatch);
    hide LinksOk, WellBracketed, OpenNow, LastOpened, Live, Continue;
    OpenIsSame(OpenNow(t.log), s.links, t.links, Live(t.links, t.doing));
  }

  lemma OpenIsSame(open: map<int, nat>, l: Links, m: Links, live: set<int>)
    requires OpenIs(open, l, live)
    requires forall k :: SlotOf(m, k) == SlotOf(l, k) && GenerationOf(m, k) == GenerationOf(l, k)
    ensures OpenIs(open, m, live)
  {
    forall k | k in open ensures exists j :: j in live && SlotOf(m, j) == k {
      var j :| j in live && SlotOf(l, j) == k;
      assert SlotOf(m, j) == k;
    }
  }

  lemma OpensFree(s: Core, choice: Choice)
    requires LinksOk(s) && (s.doing.OpeningCall? || s.doing.Reopening?)
    ensures var t, n, live := Continue(s, choice), s.doing.n, Live(s.links, s.doing);
            && n !in live && (forall k :: k in live ==> SlotOf(s.links, k) != SlotOf(s.links, n))
            && Bumped(s.links, t.links, n)
            && Live(t.links, t.doing) == (if choice.ok then live + {n} else live)
            && t.log == (if choice.ok then s.log + [Opened(SlotOf(s.links, n), GenerationOf(t.links, n))] else s.log)
  {
    if s.doing.OpeningCall? {
      assert s.doing.n !in s.links.open;
    } else {
      assert s.doing.n in s.links.open;
    }
  }

  lemma OpenedLog(s: Core, choice: Choice)
    requires LinksOk(s) && LogOk(s.log, s.links, s.doing, s.requests.policy.maxBatch)
    requires s.doing.OpeningCall? || s.doing.Reopening?
    ensures var t := Continue(s, choice); LogOk(t.log, t.links, t.doing, s.requests.policy.maxBatch)
  {
    OpensFree(s, choice);
    hide LinksOk, WellBracketed, OpenNow, LastOpened, OpenIs, Live, Continue, Bumped;
    LogOpens(s.log, s.links, Live(s.links, s.doing), s.doing.n, Continue(s, choice).links, s.requests.policy.maxBatch);
  }

  // -- a step --------------------------------------------------------------------------------

  lemma {:induction false} ReachingAll(pending: map<nat, Pending>, first: nat, last: nat)
    requires first <= last && forall t :: first <= t < last ==> t in pending
    ensures |Reaching(pending, first, last)| == last - first
    ensures forall i :: 0 <= i < last - first ==>
              Reaching(pending, first, last)[i] == ReachOf(pending[first + i])
    decreases last - first
  {
    if first < last {
      ReachingAll(pending, first + 1, last);
      var tail := Reaching(pending, first + 1, last);
      forall i | 0 <= i < last - first
        ensures Reaching(pending, first, last)[i] == ReachOf(pending[first + i])
      {
        if i > 0 {
          assert Reaching(pending, first, last)[i] == tail[i - 1];
        }
      }
    }
  }

  /** The tickets handed to a step belong to distinct open connections, in their generations. */
  lemma SteppingApart(r: Requests, l: Links, first: nat, last: nat)
    requires Consistent(r) && HeldOpen(r.hold, l.open) && Fresh(r.pending, first, last)
    ensures forall t :: first <= t < last ==> t in r.pending && r.pending[t].waiting.connection in l.open
    ensures forall t, u :: first <= t < u < last ==>
              r.pending[t].waiting.connection != r.pending[u].waiting.connection
  {
    forall t | first <= t < last ensures t in r.pending && Holding(r.pending, r.ledger, r.pending[t].waiting.order) {
    }
  }

  lemma StepAllowed(log: seq<Call>, r: Requests, l: Links, first: nat, last: nat)
    requires OpenIs(OpenNow(log), l, l.open) && Current(r.pending, l)
    requires forall m, n :: m in l.open && n in l.open && m != n ==> SlotOf(l, m) != SlotOf(l, n)
    requires Consistent(r) && HeldOpen(r.hold, l.open) && Fresh(r.pending, first, last)
    requires first < last <= first + r.policy.maxBatch
    ensures Allowed(log, Stepped(Reaching(r.pending, first, last)), r.policy.maxBatch)
  {
    SteppingApart(r, l, first, last);
    ReachingAll(r.pending, first, last);
    hide Consistent, OpenNow;
    var reach := Reaching(r.pending, first, last);
    forall i | 0 <= i < |reach|
      ensures reach[i].slot in OpenNow(log) && OpenNow(log)[reach[i].slot] == reach[i].generation
      ensures reach[i].slot == SlotOf(l, r.pending[first + i].waiting.connection)
    {
      assert r.pending[first + i].Awaited();
    }
    forall i, j | 0 <= i < j < |reach| ensures reach[i].slot != reach[j].slot {
      assert r.pending[first + i].waiting.connection != r.pending[first + j].waiting.connection;
    }
  }

  lemma SteppedLog(s: Core, choice: Choice)
    requires LinksOk(s) && RequestsOk(s) && LogOk(s.log, s.links, s.doing, s.requests.policy.maxBatch)
             && s.doing.Calling?
    ensures var t := Continue(s, choice); LogOk(t.log, t.links, t.doing, s.requests.policy.maxBatch)
  {
    hide LinksOk, RequestsOk, WellBracketed, OpenNow, LastOpened, OpenIs, Allowed, Reaching, Continue;
    StepMayFollow(s);
    StepCalled(s, choice);
    Extended(s.log, Stepped(Reaching(s.requests.pending, s.doing.first, s.doing.last)), s.requests.policy.maxBatch);
  }

  lemma StepCalled(s: Core, choice: Choice)
    requires s.doing.Calling?
    ensures var t := Continue(s, choice);
            && t.log == s.log + [Stepped(Reaching(s.requests.pending, s.doing.first, s.doing.last))]
            && t.links == s.links && Live(t.links, t.doing) == Live(s.links, s.doing)
  {
  }

  lemma StepMayFollow(s: Core)
    requires LinksOk(s) && RequestsOk(s) && LogOk(s.log, s.links, s.doing, s.requests.policy.maxBatch)
             && s.doing.Calling?
    ensures Allowed(s.log, Stepped(Reaching(s.requests.pending, s.doing.first, s.doing.last)),
                    s.requests.policy.maxBatch)
  {
    LiveApart(s);
    hide LinksOk, Consistent, HeldOpen, Current, Fresh, WellBracketed, OpenNow, LastOpened, OpenIs, Allowed, Reaching;
    StepAllowed(s.log, s.requests, s.links, s.doing.first, s.doing.last);
  }

  // -- what does not call the model ------------------------------------------------------------

  ghost predicate LogStays(s: Core, t: Core) {
    && t.log == s.log && t.links.generations == s.links.generations
    && Live(t.links, t.doing) == Live(s.links, s.doing)
    && forall n :: n in Live(s.links, s.doing) ==>
         SlotOf(t.links, n) == SlotOf(s.links, n) && GenerationOf(t.links, n) == GenerationOf(s.links, n)
  }

  lemma LeaveLog(s: Core, n: int, next: Option<int>)
    requires TablesAgree(s.links, {}) && s.doing == Idle
    ensures LogStays(s, Leave(s, n, next))
  {
  }

  lemma ForgetLog(s: Core)
    requires LinksOk(s) && s.doing.Forgetting?
    ensures LogStays(s, ForgetRegion(s, s.doing.n, s.doing.wasOpen, s.doing.next))
  {
    hide TablesAgree;
  }

  lemma FinishOpenLog(s: Core)
    requires LinksOk(s) && s.doing.OpenedCall?
    ensures LogStays(s, FinishOpen(s, s.doing.n, s.doing.ok))
  {
    hide TablesAgree;
  }

  lemma ErrandLog(s: Core, e: Errand)
    requires TablesAgree(s.links, {}) && s.doing == Idle
    ensures LogStays(s, RunErrand(s, e))
  {
    hide Leave;
    match e
    case Do(Opens(n)) =>
      if SlotOf(s.links, n) in s.links.bySlot { LeaveLog(s, s.links.bySlot[SlotOf(s.links, n)], Some(n)); }
    case Do(Leaves(n)) => LeaveLog(s, n, None);
    case Refuse(Leaves(n)) => LeaveLog(s, n, None);
    case LeaveNow(n) => LeaveLog(s, n, None);
    case _ =>
  }

  lemma ReturnedLog(s: Core, choice: Choice)
    requires s.doing.Returned?
    ensures LogStays(s, Continue(s, choice))
  {
    hide TakeOutputs;
    TakeOutputsLinks(s, s.doing.first, s.doing.last, s.doing.outputs);
  }

  lemma EndingLog(s: Core, choice: Choice)
    requires LinksOk(s)
    requires s.doing.Ending? || s.doing.Welcoming? || s.doing.Reopened? || s.doing.ResetReply?
    ensures LogStays(s, Continue(s, choice))
  {
    hide TablesAgree, Post, Flushed, QueuesFit, SlotsInRange, OpeningListed, GreetingFits;
  }

  lemma QuietDoing(s: Core, choice: Choice)
    requires LinksOk(s)
    requires s.doing.Ending? || s.doing.Welcoming? || (s.doing.Dropped? && s.doing.owed != []) || s.doing.Reopened?
          || s.doing.ResetReply? || s.doing.Inserting? || s.doing.Returned?
    ensures LogStays(s, Continue(s, choice))
  {
    hide LinksOk, InsertAll, AnswerRequest;
    if s.doing.Returned? {
      ReturnedLog(s, choice);
    } else if !s.doing.Dropped? && !s.doing.Inserting? {
      EndingLog(s, choice);
    }
  }

  lemma ContinueLog(s: Core, choice: Choice)
    requires LinksOk(s) && RequestsOk(s) && LogOk(s.log, s.links, s.doing, s.requests.policy.maxBatch)
    ensures var t := Continue(s, choice); LogOk(t.log, t.links, t.doing, s.requests.policy.maxBatch)
  {
    hide RequestsOk, LogOk, LogStays;
    match s.doing
    case Idle =>
      if s.errands != [] {
        ErrandLog(s.(errands := s.errands[1..]), s.errands[0]);
        Stays(s.(errands := s.errands[1..]), Continue(s, choice));
      }
    case Forgetting(_, _, _) => ForgetLog(s); Stays(s, Continue(s, choice));
    case ClosingCall(_, _) => ClosedLog(s, choice);
    case UndoingCall(_) => ClosedLog(s, choice);
    case OpeningCall(_) => OpenedLog(s, choice);
    case Reopening(_, _) => OpenedLog(s, choice);
    case OpenedCall(_, _) => FinishOpenLog(s); Stays(s, Continue(s, choice));
    case Calling(_, _) => SteppedLog(s, choice);
    case Dropped(_, _, owed) =>
      if owed == [] { ClosedLog(s, choice); } else { QuietDoing(s, choice); Stays(s, Continue(s, choice)); }
    case _ => QuietDoing(s, choice); Stays(s, Continue(s, choice));
  }

  lemma Stays(s: Core, t: Core)
    requires LogStays(s, t) && LogOk(s.log, s.links, s.doing, s.requests.policy.maxBatch)
    ensures LogOk(t.log, t.links, t.doing, s.requests.policy.maxBatch)
  {
    hide Live, LogOk;
    LogSame(s.log, s.links, s.doing, t.links, t.doing, s.requests.policy.maxBatch);
  }

  /** The reader threads only change connections that are not live. */
  lemma GreetLog(s: Core, n: int, hello: Hello)
    requires LinksOk(s) && n in s.links.connections && s.links.connections[n].reader == Greeting
    ensures LogStays(s, Greet(s, n, hello))
  {
    hide LinksOk, Greet, Live;
    GreetingNotLive(s, n);
    GreetChangesOne(s, n, hello);
    LiveSame(s, Greet(s, n, hello));
  }

  lemma GreetChangesOne(s: Core, n: int, hello: Hello)
    requires n in s.links.connections
    ensures var t := Greet(s, n, hello);
            && t.log == s.log && t.doing == s.doing && t.links.open == s.links.open
              && t.links.generations == s.links.generations
            && forall k :: k != n ==>
                SlotOf(t.links, k) == SlotOf(s.links, k) && GenerationOf(t.links, k) == GenerationOf(s.links, k)
  {
    hide Greet, SlotOf, GenerationOf;
    GreetTables(s, n, hello);
    GreetOthers(s, n, hello);
    SameButOne(s.links, Greet(s, n, hello).links, n);
  }

  lemma GreetTables(s: Core, n: int, hello: Hello)
    requires n in s.links.connections
    ensures var t := Greet(s, n, hello);
            t.log == s.log && t.doing == s.doing && t.links.open == s.links.open
              && t.links.generations == s.links.generations
  {
    hide Post, Flushed, MayMove, StateOf;
  }

  lemma GreetOthers(s: Core, n: int, hello: Hello)
    requires n in s.links.connections
    ensures var m := Greet(s, n, hello).links.connections;
            n in m && s.links.connections[n := m[n]] == m
  {
    hide Post, Flushed, MayMove, StateOf;
    var c := s.links.connections;
    assert forall a, b {:trigger c[n := a][n := b]} :: c[n := a][n := b] == c[n := b];
  }

  lemma SameButOne(l: Links, m: Links, n: int)
    requires n in m.connections && l.connections[n := m.connections[n]] == m.connections
    ensures forall k :: k != n ==> SlotOf(m, k) == SlotOf(l, k) && GenerationOf(m, k) == GenerationOf(l, k)
  {
  }

  lemma LiveSame(s: Core, t: Core)
    requires t.doing == s.doing && t.links.open == s.links.open
    ensures Live(t.links, t.doing) == Live(s.links, s.doing)
  {
  }

  lemma GreetingNotLive(s: Core, n: int)
    requires LinksOk(s) && n in s.links.connections && s.links.connections[n].reader == Greeting
    ensures n !in Live(s.links, s.doing)
  {
  }

  lemma AcceptLog(s: Core)
    requires LinksOk(s)
    ensures LogStays(s, AcceptLink(s))
  {
    LiveApart(s);
  }
}
