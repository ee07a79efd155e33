/** What every interleaving keeps about connections: the tables describe the same open
    connections, and no thread ever asks for a move the connection's sequence does not allow. */
module LinkInvariant {
  import opened Batching
  import opened RequestTable
  import opened ServerCore

  /** The connection the step thread is about to forget, if any. */
  function BeingForgotten(d: Doing): set<int> {
    if d.Forgetting? then {d.n} else {}
  }

  /** The open connections, by number and by slot, are the same ones. */
  ghost predicate TablesAgree(l: Links, forgetting: set<int>) {
    && (forall n :: n in l.connections && l.connections[n].state == Open ==> n in l.open)
    && (forall n :: n in l.open ==>
          && n in l.connections
          && (l.connections[n].state == Open || (n in forgetting && l.connections[n].state == Closing))
          && l.connections[n].slot in l.bySlot && l.bySlot[l.connections[n].slot] == n)
    && (forall k :: k in l.bySlot ==> l.bySlot[k] in l.open && l.connections[l.bySlot[k]].slot == k)
  }

  ghost predicate SlotsInRange(l: Links, maxSessions: nat) {
    forall n :: n in l.connections && (l.connections[n].state == Opening || n in l.open) ==>
      0 <= l.connections[n].slot < maxSessions
  }

  ghost predicate OpeningListed(l: Links, server: ServerState, maxSessions: nat) {
    && |l.opening| <= maxSessions
    && (server == Serving ==>
          forall n ::
              n in l.connections && (l.connections[n].state == Connecting || l.connections[n].state == Opening) ==>
            n in l.opening)
  }

  ghost predicate Numbered(l: Links) {
    && (forall n :: n in l.connections ==> n < l.next)
    && (forall n :: n in l.opening ==> n in l.connections)
  }

  /** A connection whose reader has not seen a hello is not opened, and still connects while the
      server serves. */
  ghost predicate GreetingFits(l: Links, server: ServerState) {
    forall n :: n in l.connections && l.connections[n].reader == Greeting ==>
      && n !in l.open
      && l.connections[n].state != Opening && l.connections[n].state != Open
      && (server == Serving ==> l.connections[n].state == Connecting)
  }

  ghost predicate Greeted(l: Links, n: int) {
    n in l.connections && l.connections[n].reader != Greeting
  }

  ghost predicate EventFits(l: Links, e: Event) {
    && e.n in l.connections
    && (e.Leaves? ==> l.connections[e.n].reader == Gone)
    && (e.Opens? ==> l.connections[e.n].state != Connecting)
  }

  ghost predicate ErrandFits(l: Links, server: ServerState, e: Errand) {
    match e
    case Do(event) => EventFits(l, event)
    case Refuse(event) => EventFits(l, event) && server != Serving
    case ShutOpening(n) => n in l.connections && server != Serving
    case LeaveNow(n) => Greeted(l, n) && server != Serving
    case _ => true
  }

  ghost predicate QueuesFit(l: Links, server: ServerState, events: seq<Event>, errands: seq<Errand>) {
    && (forall i :: 0 <= i < |events| ==> EventFits(l, events[i]))
    && (forall i :: 0 <= i < |errands| ==> ErrandFits(l, server, errands[i]))
  }

  ghost predicate Is(l: Links, n: int, state: ConnectionState) {
    n in l.connections && l.connections[n].state == state
  }

  /** The connection that opens once `n` has left waits for `n`'s slot. */
  ghost predicate NextFits(l: Links, n: int, next: Option<int>) {
    next.Some? ==>
      && Is(l, next.value, Opening) && next.value != n
      && n in l.connections && l.connections[next.value].slot == l.connections[n].slot
  }

  ghost predicate SlotFree(l: Links, n: int) {
    n in l.connections && l.connections[n].slot !in l.bySlot
  }

  ghost predicate DoingFits(l: Links, server: ServerState, d: Doing) {
    match d
    case Forgetting(n, wasOpen, next) =>
      Is(l, n, Closing) && Greeted(l, n) && NextFits(l, n, next) && (wasOpen || next.Some? ==> n in l.open)
    case ClosingCall(n, next) => Is(l, n, Closing) && Greeted(l, n) && SlotFree(l, n) && NextFits(l, n, next)
    case Ending(n, next) => Is(l, n, Closing) && Greeted(l, n) && (next.Some? ==> SlotFree(l, n))
      && NextFits(l, n, next)
    case OpeningCall(n) => Is(l, n, Opening) && SlotFree(l, n)
    case OpenedCall(n, _) => Is(l, n, Opening) && SlotFree(l, n)
    case UndoingCall(n) => Is(l, n, Opening) && SlotFree(l, n) && server != Serving
    case Welcoming(n) => Is(l, n, Open)
    case Dropped(n, _, _) => Is(l, n, Open)
    case Reopening(n, _) => Is(l, n, Open)
    case Reopened(n, _, _) => Is(l, n, Open)
    case ResetReply(n, _, _) => Is(l, n, Open)
    case _ => true
  }

  ghost predicate LinksOk(s: Core) {
    && !s.fault
    && TablesAgree(s.links, BeingForgotten(s.doing))
    && SlotsInRange(s.links, s.maxSessions)
    && OpeningListed(s.links, s.server, s.maxSessions)
    && Numbered(s.links)
    && GreetingFits(s.links, s.server)
    && QueuesFit(s.links, s.server, s.events, s.errands)
    && DoingFits(s.links, s.server, s.doing)
  }

  // -- one connection changes ----------------------------------------------------------------

  function With(l: Links, n: int, c: Connection): Links {
    l.(connections := l.connections[n := c])
  }

  lemma WithTables(l: Links, n: int, c: Connection, before: set<int>, after: set<int>)
    requires TablesAgree(l, before) && n in l.connections
    requires n in l.open ==> c.slot == l.connections[n].slot
    requires c.state == Open ==> n in l.open
    requires n in l.open ==> c.state == Open || (n in after && c.state == Closing)
    requires before - {n} <= after
    ensures TablesAgree(With(l, n, c), after)
  {
  }

  lemma WithQueues(l: Links, n: int, c: Connection, server: ServerState, events: seq<Event>, errands: seq<Errand>)
    requires QueuesFit(l, server, events, errands) && n in l.connections
    requires l.connections[n].reader == Gone ==> c.reader == Gone
    requires c.reader == Greeting ==> l.connections[n].reader == Greeting
    requires c.state == Connecting ==> l.connections[n].state == Connecting
    ensures QueuesFit(With(l, n, c), server, events, errands)
  {
    var m := With(l, n, c);
    forall i | 0 <= i < |events| ensures EventFits(m, events[i]) {
      assert EventFits(l, events[i]);
    }
    forall i | 0 <= i < |errands| ensures ErrandFits(m, server, errands[i]) {
      assert ErrandFits(l, server, errands[i]);
    }
  }

  lemma WithRest(l: Links, n: int, c: Connection, server: ServerState, maxSessions: nat)
    requires SlotsInRange(l, maxSessions) && OpeningListed(l, server, maxSessions) && Numbered(l)
             && GreetingFits(l, server)
    requires n in l.connections
    requires c.state == Opening || n in l.open ==> 0 <= c.slot < maxSessions
    requires server == Serving && (c.state == Connecting || c.state == Opening) ==> n in l.opening
    requires c.reader == Greeting ==> c == l.connections[n]
    ensures var m := With(l, n, c);
            SlotsInRange(m, maxSessions) && OpeningListed(m, server, maxSessions) && Numbered(m)
              && GreetingFits(m, server)
  {
  }

  /** A reader's own changes concern a connection the step thread is not busy with, or its reader alone. */
  lemma WithDoing(l: Links, n: int, c: Connection, server: ServerState, d: Doing)
    requires DoingFits(l, server, d) && GreetingFits(l, server) && n in l.connections && c.reader != Greeting
    requires l.connections[n].reader == Greeting
          || (c.state == l.connections[n].state && c.slot == l.connections[n].slot)
    ensures DoingFits(With(l, n, c), server, d)
  {
  }

  // -- the reader threads --------------------------------------------------------------------

  /** Posting, and anything else that leaves the connections alone, keeps what holds of them. */
  lemma SameLinks(s: Core, t: Core)
    requires LinksOk(s) && t.fault == s.fault && t.links == s.links && t.maxSessions == s.maxSessions
    requires t.server == s.server && t.doing == s.doing
    requires QueuesFit(t.links, t.server, t.events, t.errands)
    ensures LinksOk(t)
  {
    hide TablesAgree, SlotsInRange, OpeningListed, GreetingFits, QueuesFit, DoingFits;
  }

  lemma MoreEvents(l: Links, server: ServerState, events: seq<Event>, errands: seq<Errand>, e: Event)
    requires QueuesFit(l, server, events, errands) && EventFits(l, e)
    ensures QueuesFit(l, server, events + [e], errands)
  {
  }

  lemma AcceptLinks(s: Core)
    requires LinksOk(s)
    ensures LinksOk(AcceptLink(s))
  {
    hide TablesAgree, QueuesFit, DoingFits;
    var n := s.links.next;
    if s.server == Serving && |s.links.opening| < s.maxSessions {
      assert n !in s.links.connections;
      AcceptTables(s.links, n, BeingForgotten(s.doing));
      AcceptQueues(s.links, n, s.server, s.events, s.errands);
      AcceptDoing(s.links, n, s.server, s.doing);
      AcceptRest(s.links, n, s.server, s.maxSessions);
    } else {
      NextNumber(s);
    }
  }

  lemma NextNumber(s: Core)
    requires LinksOk(s)
    ensures LinksOk(s.(links := s.links.(next := s.links.next + 1)))
  {
    forall i | 0 <= i < |s.events| ensures EventFits(s.links.(next := s.links.next + 1), s.events[i]) {
      assert EventFits(s.links, s.events[i]);
    }
    forall i | 0 <= i < |s.errands| ensures ErrandFits(s.links.(next := s.links.next + 1), s.server, s.errands[i]) {
      assert ErrandFits(s.links, s.server, s.errands[i]);
    }
  }

  lemma AcceptRest(l: Links, n: int, server: ServerState, maxSessions: nat)
    requires SlotsInRange(l, maxSessions) && OpeningListed(l, server, maxSessions) && Numbered(l)
             && GreetingFits(l, server)
    requires n == l.next && |l.opening| < maxSessions && (forall k :: k in l.open ==> k in l.connections)
    ensures var m := Admitted(l, n);
            SlotsInRange(m, maxSessions) && OpeningListed(m, server, maxSessions) && Numbered(m)
              && GreetingFits(m, server)
  {
  }

  function Admitted(l: Links, n: int): Links {
    l.(connections := l.connections[n := Connection(Connecting, 0, 0, Greeting)], opening := l.opening + {n},
       next := n + 1)
  }

  lemma AcceptTables(l: Links, n: int, forgetting: set<int>)
    requires TablesAgree(l, forgetting) && n !in l.connections
    ensures TablesAgree(Admitted(l, n), forgetting)
  {
  }

  lemma AcceptQueues(l: Links, n: int, server: ServerState, events: seq<Event>, errands: seq<Errand>)
    requires QueuesFit(l, server, events, errands) && n !in l.connections
    ensures QueuesFit(Admitted(l, n), server, events, errands)
  {
    var m := Admitted(l, n);
    forall i | 0 <= i < |events| ensures EventFits(m, events[i]) {
      assert EventFits(l, events[i]);
    }
    forall i | 0 <= i < |errands| ensures ErrandFits(m, server, errands[i]) {
      assert ErrandFits(l, server, errands[i]);
    }
  }

  lemma AcceptDoing(l: Links, n: int, server: ServerState, d: Doing)
    requires DoingFits(l, server, d) && n !in l.connections
    ensures DoingFits(Admitted(l, n), server, d)
  {
  }

  lemma EndLinks(s: Core, n: int)
    requires LinksOk(s) && n in s.links.connections
    ensures LinksOk(ReaderEnds(s, n))
  {
    var c := s.links.connections[n].(reader := Gone);
    WithTables(s.links, n, c, BeingForgotten(s.doing), BeingForgotten(s.doing));
    WithQueues(s.links, n, c, s.server, s.events, s.errands);
    MoreEvents(With(s.links, n, c), s.server, s.events, s.errands, Leaves(n));
    WithRest(s.links, n, c, s.server, s.maxSessions);
    WithDoing(s.links, n, c, s.server, s.doing);
    hide TablesAgree, QueuesFit, DoingFits, SlotsInRange, OpeningListed, GreetingFits;
    assert ReaderEnds(s, n).links == With(s.links, n, c);
  }

  /** A reader that saw its hello: its connection `c` keeps its state, or begins to open. */
  lemma GreetedLinks(s: Core, t: Core, n: int, c: Connection)
    requires LinksOk(s) && n in s.links.connections && s.links.connections[n].reader == Greeting
    requires t.fault == s.fault && t.links == With(s.links, n, c) && t.maxSessions == s.maxSessions
    requires t.server == s.server && t.doing == s.doing && t.errands == s.errands
    requires t.events == s.events || (t.events == s.events + [Opens(n)] && c.state == Opening)
    requires c.reader != Greeting
    requires c.state == s.links.connections[n].state
          || (s.server == Serving && c.state == Opening && 0 <= c.slot < s.maxSessions)
    ensures LinksOk(t)
  {
    WithTables(s.links, n, c, BeingForgotten(s.doing), BeingForgotten(s.doing));
    WithQueues(s.links, n, c, s.server, s.events, s.errands);
    if c.state == Opening {
      MoreEvents(With(s.links, n, c), s.server, s.events, s.errands, Opens(n));
    }
    WithRest(s.links, n, c, s.server, s.maxSessions);
    WithDoing(s.links, n, c, s.server, s.doing);
    hide TablesAgree, QueuesFit, DoingFits, SlotsInRange, OpeningListed, GreetingFits;
  }

  lemma GreetLinks(s: Core, n: int, hello: Hello)
    requires LinksOk(s) && n in s.links.connections && s.links.connections[n].reader == Greeting
    ensures LinksOk(Greet(s, n, hello))
  {
    hide TablesAgree, QueuesFit, DoingFits, SlotsInRange, OpeningListed;
    GreetedLinks(s, Greet(s, n, hello), n, Greet(s, n, hello).links.connections[n]);
  }

  // -- the step thread -----------------------------------------------------------------------

  /** Everything but the step thread's place: what the lemmas below keep for the tables alone. */
  ghost predicate LinksRest(l: Links, server: ServerState, maxSessions: nat) {
    SlotsInRange(l, maxSessions) && OpeningListed(l, server, maxSessions) && Numbered(l) && GreetingFits(l, server)
  }

  /** The step thread changes connection `n` to `c` and takes it off the opening ones. */
  function Changed(l: Links, n: int, c: Connection): Links {
    With(l, n, c).(opening := l.opening - {n})
  }

  lemma ChangedRest(l: Links, n: int, c: Connection, server: ServerState, maxSessions: nat)
    requires LinksRest(l, server, maxSessions) && n in l.connections
    requires c.state == Closing || c.state == Shut || (c.state == Opening && server != Serving) || c.state == Open
    requires c.slot == l.connections[n].slot && c.reader == l.connections[n].reader
    requires c.reader == Greeting ==> n !in l.open && (c.state == Closing || c.state == Shut) && (server == Serving ==>
               c == l.connections[n])
    requires c.state == Opening ==> l.connections[n].state == Opening
    ensures LinksRest(Changed(l, n, c), server, maxSessions)
  {
    Fewer(l.opening, n);
  }

  lemma Fewer(a: set<int>, n: int)
    ensures |a - {n}| <= |a|
  {
    if n in a {
      assert a == (a - {n}) + {n};
    }
  }

  lemma ChangedQueues(l: Links, n: int, c: Connection, server: ServerState, events: seq<Event>, errands: seq<Errand>)
    requires QueuesFit(l, server, events, errands) && n in l.connections
    requires c.reader == l.connections[n].reader && c.state != Connecting
    ensures QueuesFit(Changed(l, n, c), server, events, errands)
  {
    WithQueues(l, n, c, server, events, errands);
    Retabled(With(l, n, c), Changed(l, n, c), server, events, errands);
  }

  /** The queues only speak of the connections, not of the tables beside them. */
  lemma Retabled(l: Links, m: Links, server: ServerState, events: seq<Event>, errands: seq<Errand>)
    requires QueuesFit(l, server, events, errands) && m.connections == l.connections
    ensures QueuesFit(m, server, events, errands)
  {
    forall i | 0 <= i < |events| ensures EventFits(m, events[i]) {
      assert EventFits(l, events[i]);
    }
    forall i | 0 <= i < |errands| ensures ErrandFits(m, server, errands[i]) {
      assert ErrandFits(l, server, errands[i]);
    }
  }

  lemma LeaveLinks(s: Core, n: int, next: Option<int>)
    requires LinksOk(s) && s.doing == Idle && Greeted(s.links, n)
    requires next.Some? ==> n in s.links.open && NextFits(s.links, n, next)
    ensures LinksOk(Leave(s, n, next))
  {
    hide TablesAgree, QueuesFit, SlotsInRange, OpeningListed, GreetingFits, Post, Flushed;
    var state := s.links.connections[n].state;
    var c := if state == Closing || state == Shut then s.links.connections[n]
      else s.links.connections[n].(state := Closing);
    assert s.links.connections[n := s.links.connections[n]] == s.links.connections;
    OpenState(s.links, n);
    assert next.Some? ==> state == Open;
    LeaveTables(s.links, n, c);
    ChangedQueues(s.links, n, c, s.server, s.events, s.errands);
    ChangedRest(s.links, n, c, s.server, s.maxSessions);
    assert Leave(s, n, next).links == Changed(s.links, n, c);
  }

  lemma OpenState(l: Links, n: int)
    requires TablesAgree(l, {})
    ensures n in l.open <==> n in l.connections && l.connections[n].state == Open
  {
  }

  lemma LeaveTables(l: Links, n: int, c: Connection)
    requires TablesAgree(l, {}) && n in l.connections && c.slot == l.connections[n].slot
    requires c.state == Closing || (c.state == Shut && n !in l.open)
    ensures TablesAgree(Changed(l, n, c), {n}) && (n !in l.open ==> TablesAgree(Changed(l, n, c), {}))
  {
  }

  lemma ForgetLinks(s: Core)
    requires LinksOk(s) && s.doing.Forgetting?
    ensures LinksOk(ForgetRegion(s, s.doing.n, s.doing.wasOpen, s.doing.next))
  {
    var t := ForgetRegion(s, s.doing.n, s.doing.wasOpen, s.doing.next);
    ForgetTables(s.links, s.doing.n);
    ForgetRest(s.links, s.doing.n, s.server, s.maxSessions);
    Retabled(s.links, t.links, s.server, s.events, s.errands);
    ForgetDoing(s.links, s.server, s.doing);
    hide TablesAgree, QueuesFit, SlotsInRange, OpeningListed, GreetingFits, DoingFits;
  }

  lemma ForgetTables(l: Links, n: int)
    requires TablesAgree(l, {n}) && Is(l, n, Closing)
    ensures TablesAgree(Forget(l, n), {})
    ensures n in l.open ==> SlotFree(Forget(l, n), n)
  {
  }

  lemma ForgetRest(l: Links, n: int, server: ServerState, maxSessions: nat)
    requires LinksRest(l, server, maxSessions)
    ensures LinksRest(Forget(l, n), server, maxSessions)
  {
  }

  lemma ForgetDoing(l: Links, server: ServerState, d: Doing)
    requires d.Forgetting? && TablesAgree(l, {d.n}) && DoingFits(l, server, d)
    ensures DoingFits(Forget(l, d.n), server, if d.wasOpen then ClosingCall(d.n, d.next) else Ending(d.n, d.next))
  {
    ForgetTables(l, d.n);
    hide TablesAgree;
  }

  /** The connection has left: its replacement, if any, finds the slot free. */
  lemma EndLeaveLinks(s: Core, choice: Choice)
    requires LinksOk(s) && (s.doing.ClosingCall? || s.doing.Ending?)
    ensures LinksOk(Continue(s, choice))
  {
    hide QueuesFit, SlotsInRange, OpeningListed, GreetingFits, TablesAgree;
    if s.doing.Ending? {
      var n := s.doing.n;
      var c := s.links.connections[n].(state := Shut);
      ShutTables(s.links, n);
      WithQueues(s.links, n, c, s.server, s.events, s.errands);
      WithRest(s.links, n, c, s.server, s.maxSessions);
    }
  }

  lemma ShutTables(l: Links, n: int)
    requires TablesAgree(l, {}) && Is(l, n, Closing)
    ensures n !in l.open && TablesAgree(With(l, n, l.connections[n].(state := Shut)), {})
  {
  }

  lemma CallOpenedLinks(s: Core, n: int, ok: bool, d: Doing)
    requires LinksOk(s) && (s.doing.OpeningCall? || s.doing.Reopening?) && n == s.doing.n
    requires d == if s.doing.OpeningCall? then OpenedCall(n, ok) else Reopened(n, s.doing.requestId, ok)
    ensures n in s.links.connections && LinksOk(CallOpened(s, n, ok).(doing := d))
  {
    var t := CallOpened(s, n, ok).(doing := d);
    var c := t.links.connections[n];
    WithTables(s.links, n, c, {}, {});
    WithQueues(s.links, n, c, s.server, s.events, s.errands);
    GenerationRest(s.links, n, c, s.server, s.maxSessions);
    hide QueuesFit, SlotsInRange, OpeningListed, GreetingFits;
    Retabled(With(s.links, n, c), t.links, s.server, s.events, s.errands);
  }

  lemma GenerationRest(l: Links, n: int, c: Connection, server: ServerState, maxSessions: nat)
    requires LinksRest(l, server, maxSessions) && n in l.connections
             && c == l.connections[n].(generation := c.generation)
    ensures LinksRest(With(l, n, c), server, maxSessions)
  {
  }

  lemma OpenedLinks(s: Core)
    requires LinksOk(s) && s.doing.OpenedCall? && s.doing.ok && s.server == Serving
    ensures LinksOk(FinishOpen(s, s.doing.n, true))
  {
    var n := s.doing.n;
    var c := s.links.connections[n].(state := Open);
    var t := FinishOpen(s, n, true);
    assert n !in s.links.open && Greeted(s.links, n);
    ChangedQueues(s.links, n, c, s.server, s.events, s.errands);
    ChangedRest(s.links, n, c, s.server, s.maxSessions);
    EnterTables(s.links, n);
    hide TablesAgree, QueuesFit, SlotsInRange, OpeningListed, GreetingFits;
    EnterRest(Changed(s.links, n, c), n, s.server, s.maxSessions);
    Retabled(Changed(s.links, n, c), t.links, s.server, s.events, s.errands);
  }

  /** An open that failed, or came too late, leaves its connection out of the tables. */
  lemma NotOpenedLinks(s: Core)
    requires LinksOk(s) && s.doing.OpenedCall? && (!s.doing.ok || s.server != Serving)
    ensures LinksOk(FinishOpen(s, s.doing.n, s.doing.ok))
  {
    var n := s.doing.n;
    var c := s.links.connections[n].(state := if s.doing.ok then Opening else Closing);
    assert n !in s.links.open && Greeted(s.links, n);
    assert s.links.connections[n := s.links.connections[n]] == s.links.connections;
    ChangedQueues(s.links, n, c, s.server, s.events, s.errands);
    ChangedRest(s.links, n, c, s.server, s.maxSessions);
    WithTables(s.links, n, c, {}, {});
    hide QueuesFit, SlotsInRange, OpeningListed, GreetingFits;
    assert FinishOpen(s, n, s.doing.ok).links == Changed(s.links, n, c);
    Reopens(With(s.links, n, c), Changed(s.links, n, c));
  }

  lemma Reopens(l: Links, m: Links)
    requires TablesAgree(l, {}) && m.connections == l.connections && m.open == l.open && m.bySlot == l.bySlot
    ensures TablesAgree(m, {})
  {
  }

  function Entered(l: Links, n: int): Links {
    l.(open := l.open + {n}, bySlot := l.bySlot[SlotOf(l, n) := n])
  }

  lemma EnterTables(l: Links, n: int)
    requires TablesAgree(l, {}) && Is(l, n, Opening) && SlotFree(l, n)
    ensures TablesAgree(Entered(Changed(l, n, l.connections[n].(state := Open)), n), {})
  {
  }

  lemma EnterRest(l: Links, n: int, server: ServerState, maxSessions: nat)
    requires LinksRest(l, server, maxSessions) && Greeted(l, n) && 0 <= l.connections[n].slot < maxSessions
    ensures LinksRest(Entered(l, n), server, maxSessions)
  {
  }

  /** Moving a connection towards its end, with the step thread at `d` afterwards. */
  lemma ClosingLinks(s: Core, t: Core, n: int, d: Doing)
    requires LinksOk(s) && BeingForgotten(s.doing) == {} && n in s.links.connections
    requires s.links.connections[n].state != Shut && s.links.connections[n].state != Closing
    requires t.links == With(s.links, n, s.links.connections[n].(state := Closing))
    requires t.fault == s.fault && t.maxSessions == s.maxSessions && t.server == s.server
    requires t.events == s.events && t.errands == s.errands && t.doing == d
    requires n in s.links.open ==> d == Forgetting(n, false, None)
    requires n !in s.links.open ==> d == Idle
    requires s.links.connections[n].reader == Greeting ==> s.server != Serving && d == Idle
    ensures LinksOk(t)
  {
    var c := s.links.connections[n].(state := Closing);
    WithTables(s.links, n, c, {}, BeingForgotten(d));
    WithQueues(s.links, n, c, s.server, s.events, s.errands);
    ClosingRest(s.links, n, c, s.server, s.maxSessions);
    hide TablesAgree, QueuesFit, SlotsInRange, OpeningListed, GreetingFits;
  }

  lemma ClosingRest(l: Links, n: int, c: Connection, server: ServerState, maxSessions: nat)
    requires LinksRest(l, server, maxSessions) && n in l.connections && c == l.connections[n].(state := Closing)
    requires l.connections[n].reader == Greeting ==> server != Serving
    ensures LinksRest(With(l, n, c), server, maxSessions)
  {
  }

  lemma ResetReplyLinks(s: Core)
    requires LinksOk(s) && s.doing.ResetReply?
    ensures LinksOk(ReplyReset(s, s.doing.n, s.doing.requestId, s.doing.ok))
  {
    var n := s.doing.n;
    assert n in s.links.open && Greeted(s.links, n);
    if !s.doing.ok {
      hide LinksOk;
      ClosingLinks(s, ReplyReset(s, n, s.doing.requestId, false), n, Forgetting(n, false, None));
    }
  }

  lemma UndoLinks(s: Core, choice: Choice)
    requires LinksOk(s) && s.doing.UndoingCall?
    ensures LinksOk(Continue(s, choice))
  {
    assert s.doing.n !in s.links.open;
    assert Greeted(s.links, s.doing.n);
    hide LinksOk;
    ClosingLinks(s, Continue(s, choice), s.doing.n, Idle);
  }

  lemma TakeOutputsLinks(s: Core, first: nat, last: nat, outputs: Option<seq<Output>>)
    ensures var t := TakeOutputs(s, first, last, outputs);
            && t.links == s.links && t.fault == s.fault && t.maxSessions == s.maxSessions && t.server == s.server
            && t.events == s.events && t.errands == s.errands && t.doing == s.doing && t.life == s.life
            && t.log == s.log && t.alive == s.alive && t.stayed == s.stayed && t.resetting == s.resetting
              && t.drainBy == s.drainBy
    decreases last - first
  {
  }

  /** The step thread inside one event or one batch. */
  lemma DoingLinks(s: Core, choice: Choice)
    requires LinksOk(s) && s.doing != Idle
    ensures LinksOk(Continue(s, choice))
  {
    match s.doing
    case Forgetting(_, _, _) => ForgetLinks(s);
    case ClosingCall(_, _) => EndLeaveLinks(s, choice);
    case Ending(_, _) => EndLeaveLinks(s, choice);
    case OpeningCall(n) => CallOpenedLinks(s, n, choice.ok, OpenedCall(n, choice.ok));
    case OpenedCall(_, ok) => if ok && s.server == Serving { OpenedLinks(s); } else { NotOpenedLinks(s); }
    case UndoingCall(_) => UndoLinks(s, choice);
    case Reopening(n, id) => CallOpenedLinks(s, n, choice.ok, Reopened(n, id, choice.ok));
    case Reopened(n, id, ok) =>
      assert s.links.connections[n := s.links.connections[n]] == s.links.connections;
      hide TablesAgree, QueuesFit, SlotsInRange, OpeningListed, GreetingFits;
    case ResetReply(_, _, _) => ResetReplyLinks(s);
    case Returned(first, last, outputs) =>
      TakeOutputsLinks(s, first, last, outputs);
      hide TablesAgree, QueuesFit, SlotsInRange, OpeningListed, GreetingFits, TakeOutputs;
    case _ => hide TablesAgree, QueuesFit, SlotsInRange, OpeningListed, GreetingFits;
  }

  lemma PopLinks(s: Core)
    requires LinksOk(s) && s.errands != []
    ensures LinksOk(s.(errands := s.errands[1..])) && ErrandFits(s.links, s.server, s.errands[0])
  {
    hide TablesAgree, SlotsInRange, OpeningListed, GreetingFits, DoingFits;
    var rest := s.errands[1..];
    forall i | 0 <= i < |rest| ensures ErrandFits(s.links, s.server, rest[i]) {
      assert rest[i] == s.errands[i + 1];
    }
  }

  lemma StartOpenLinks(s: Core, n: int)
    requires LinksOk(s) && s.doing == Idle && EventFits(s.links, Opens(n))
    ensures LinksOk(StartOpen(s, n))
  {
    var slot := SlotOf(s.links, n);
    if s.links.connections[n].state != Opening {
      assert s.links.connections[n := s.links.connections[n]] == s.links.connections;
      UnlistLinks(s, n);
    } else if slot in s.links.bySlot && s.links.bySlot[slot] != n {
      LeaveLinks(s, s.links.bySlot[slot], Some(n));
    } else {
      assert SlotFree(s.links, n);
      hide TablesAgree, QueuesFit, SlotsInRange, OpeningListed, GreetingFits;
    }
  }

  lemma UnlistLinks(s: Core, n: int)
    requires LinksOk(s) && s.doing == Idle && n in s.links.connections
    requires s.links.connections[n].state != Connecting && s.links.connections[n].state != Opening
    ensures LinksOk(Unlist(s, n))
  {
    Fewer(s.links.opening, n);
    Retabled(s.links, Unlist(s, n).links, s.server, s.events, s.errands);
    Reopens(s.links, Unlist(s, n).links);
    hide QueuesFit, TablesAgree;
  }

  lemma ShutOpeningLinks(s: Core, n: int)
    requires LinksOk(s) && s.doing == Idle && n in s.links.connections && s.server != Serving
    ensures LinksOk(RunErrand(s, ShutOpening(n)))
  {
    if s.links.connections[n].state == Connecting || s.links.connections[n].state == Opening {
      assert n !in s.links.open;
      hide LinksOk;
      ClosingLinks(s, RunErrand(s, ShutOpening(n)), n, Idle);
    }
  }

  lemma ErrandLinks(s: Core, e: Errand)
    requires LinksOk(s) && s.doing == Idle && ErrandFits(s.links, s.server, e)
    ensures LinksOk(RunErrand(s, e))
  {
    match e
    case Do(Opens(n)) => StartOpenLinks(s, n);
    case Do(Leaves(n)) => LeaveLinks(s, n, None);
    case Refuse(Leaves(n)) => LeaveLinks(s, n, None);
    case LeaveNow(n) => LeaveLinks(s, n, None);
    case ShutOpening(n) => ShutOpeningLinks(s, n);
    case _ => hide TablesAgree, QueuesFit, SlotsInRange, OpeningListed, GreetingFits, EventFits;
  }

  lemma ContinueLinks(s: Core, choice: Choice)
    requires LinksOk(s)
    ensures LinksOk(Continue(s, choice))
  {
    if s.doing != Idle {
      DoingLinks(s, choice);
    } else if s.errands != [] {
      PopLinks(s);
      ErrandLinks(s.(errands := s.errands[1..]), s.errands[0]);
    }
  }

  // -- a turn, and the lifecycle -------------------------------------------------------------

  ghost predicate ErrandsFit(l: Links, server: ServerState, errands: seq<Errand>) {
    forall i :: 0 <= i < |errands| ==> ErrandFits(l, server, errands[i])
  }

  lemma JoinErrands(l: Links, server: ServerState, a: seq<Errand>, b: seq<Errand>)
    requires ErrandsFit(l, server, a) && ErrandsFit(l, server, b)
    ensures ErrandsFit(l, server, a + b)
  {
  }

  lemma ErrandsOfEvents(l: Links, server: ServerState, events: seq<Event>)
    requires forall i :: 0 <= i < |events| ==> EventFits(l, events[i])
    ensures ErrandsFit(l, server, Does(events))
    ensures server != Serving ==> ErrandsFit(l, server, Refuses(events))
  {
  }

  lemma TurnErrands(s: Core, now: real)
    requires QueuesFit(s.links, s.server, s.events, []) && s.errands == []
    ensures ErrandsFit(s.links, s.server, RunTurn(s, now).errands)
  {
    var late := AnswersTo(ByTicket(s.requests.pending, Overdue(s.requests.pending, now), s.requests.nextTicket));
    ErrandsOfEvents(s.links, s.server, s.events);
    JoinErrands(s.links, s.server, late, Does(s.events));
    if s.server != Serving {
      JoinErrands(s.links, s.server, late, Refuses(s.events));
    }
    hide Decision, Overdue, OpenSessions, TakeTurn, Mend, Mark, AnyAwaited, ByTicket, OrdersOf;
  }

  lemma TurnLinks(s: Core, now: real)
    requires LinksOk(s) && AtRest(s)
    ensures LinksOk(RunTurn(s, now))
  {
    TurnErrands(s, now);
    hide TablesAgree, SlotsInRange, OpeningListed, GreetingFits, DoingFits;
  }

  /** Stopping the server only makes less of the connections depend on it. */
  lemma ServerLinks(s: Core, t: Core)
    requires LinksOk(s) && t.server != Serving
    requires t.links == s.links && t.fault == s.fault && t.maxSessions == s.maxSessions && t.doing == s.doing
    requires t.events == s.events && t.errands == s.errands
    ensures LinksOk(t)
  {
    hide TablesAgree;
    forall i | 0 <= i < |s.errands| ensures ErrandFits(t.links, t.server, s.errands[i]) {
      assert ErrandFits(s.links, s.server, s.errands[i]);
    }
  }

  lemma SettleLinks(s: Core, order: seq<int>, shut: seq<int>)
    requires LinksOk(s) && AtRest(s) && s.server != Serving && Lists(shut, s.links.opening)
    ensures LinksOk(SettleAll(s, order, shut))
  {
    var t := SettleAll(s, order, shut);
    forall i | 0 <= i < |t.errands| ensures ErrandFits(t.links, t.server, t.errands[i]) {
      assert forall k :: 0 <= k < |s.events| ==> EventFits(s.links, s.events[k]);
      if t.errands[i].ShutOpening? {
        assert t.errands[i].n in (set n | n in shut);
      }
    }
    Reopens(s.links, t.links);
    hide TablesAgree;
  }

  lemma LeaveAllLinks(s: Core, order: seq<int>)
    requires LinksOk(s) && AtRest(s) && s.server != Serving && Lists(order, s.links.open)
    ensures LinksOk(LeaveAll(s, order))
  {
    forall i | 0 <= i < |order| ensures Greeted(s.links, order[i]) {
      assert order[i] in (set n | n in order);
    }
  }
}
