/** The model server's core as a transition system.

    Reader threads, one step thread, the threads that complete futures, the writers and the
    lifecycle (`drain`, `stop`) share one state. Each region the source runs under its condition
    is one transition, and each call into the model is one more: every interleaving of the
    threads is a sequence of `Action`s.

    The step thread's place in its code is `doing`, what it still has to do in this turn is
    `errands`. Once it has ended, the lifecycle's thread runs the same code in its place.

    `ledger`, `hold` (in `RequestTable`), `fates`, `log` and `stayed` are bookkeeping the server
    does not have: no transition reads them to decide anything. */
module ServerCore {
  import opened Batching
  import opened RequestTable
  import opened CallLog

  // -- state -------------------------------------------------------------------------------

  datatype ServerState = Serving | Draining | Stopped

  datatype ConnectionState = Connecting | Opening | Open | Closing | Shut

  /** Where a connection's reader thread is. */
  datatype Reader = Greeting | Dispatching | Leaving | Gone

  datatype Connection = Connection(state: ConnectionState, slot: int, generation: nat, reader: Reader)

  /** What the server posts to a session. The order and the generation of an `Answer` say which request
      it answers; on the wire it is a `Result` with the model's output, or a `Failed`, with the
      request's id. `Failed` answers a message that was never accepted. */
  datatype Message =
    | Welcome(generation: nat)
    | Refused
    | Answer(order: nat, requestId: int, generation: nat, result: Option<int>)
    | Failed(requestId: int)
    | ResetDone(requestId: int, generation: nat)
    | Flush

  /** A connection's outbox: everything queued so far, how much of it the writer took, and whether
      the link was closed without a flush. */
  datatype Box = Box(sent: seq<Message>, written: nat, broken: bool)

  datatype Event = Opens(n: int) | Leaves(n: int) | Resets(n: int, requestId: int)

  /** What `step()` gives for one request: its output, an exception in its place, or a future. */
  datatype Output = Value(result: Option<int>) | Future

  /** Where the step thread is, inside one event or one batch. */
  datatype Doing =
    | Idle
    | Forgetting(n: int, wasOpen: bool, next: Option<int>)
    | ClosingCall(n: int, next: Option<int>)
    | Ending(n: int, next: Option<int>)
    | OpeningCall(n: int)
    | OpenedCall(n: int, ok: bool)
    | UndoingCall(n: int)
    | Welcoming(n: int)
    | Dropped(n: int, requestId: int, owed: seq<Waiting>)
    | Reopening(n: int, requestId: int)
    | Reopened(n: int, requestId: int, ok: bool)
    | ResetReply(n: int, requestId: int, ok: bool)
    | Inserting(items: seq<Pending>)
    | Calling(first: nat, last: nat)
    | Returned(first: nat, last: nat, outputs: Option<seq<Output>>)

  datatype Errand =
    | AnswerTo(w: Waiting)
    | AnswerIfThere(w: Waiting)
    | Do(event: Event)
    | Refuse(event: Event)
    | RunBatch
    | ShutOpening(n: int)
    | LeaveNow(n: int)

  /** What became of an accepted request: no answer yet, an answer about to be posted, its answer
      at this place of the outbox, withdrawn by a cancel, or dropped with its connection. */
  datatype Fate = Awaiting | Owed | Given(index: nat) | Cancelled | Lost

  /** How far the lifecycle is: `drain()`, then `stop()`. */
  datatype Life = Up | DrainJoin | DrainSettling | Drained | StopJoin | StopSettling | StopLeaving | Over

  datatype Links = Links(
    connections: map<int, Connection>,
    open: set<int>,
    bySlot: map<int, int>,
    opening: set<int>,
    generations: map<int, nat>,
    next: int)

  datatype Answers = Answers(fates: map<nat, Fate>, boxes: map<int, Box>)

  datatype Core = Core(
    maxSessions: nat,
    server: ServerState,
    drainBy: real,
    links: Links,
    events: seq<Event>,
    resetting: set<int>,
    requests: Requests,
    answers: Answers,
    alive: bool,
    doing: Doing,
    errands: seq<Errand>,
    life: Life,
    log: seq<Call>,
    stayed: set<int>,
    fault: bool)

  const OUTBOX := 64

  // -- connections -------------------------------------------------------------------------

  predicate MayMove(from: ConnectionState, to: ConnectionState) {
    match from
    case Connecting => to == Opening || to == Closing
    case Opening => to == Open || to == Closing
    case Open => to == Open || to == Closing
    case Closing => to == Shut
    case Shut => false
  }

  /** Move a connection's state; a move the sequence does not allow is a fault. */
  function Move(s: Core, n: int, state: ConnectionState): Core {
    if n in s.links.connections && MayMove(s.links.connections[n].state, state) then
      s.(links := s.links.(connections := s.links.connections[n := s.links.connections[n].(state := state)]))
    else
      s.(fault := true)
  }

  function BoxOf(boxes: map<int, Box>, n: int): Box {
    if n in boxes then boxes[n] else Box([], 0, false)
  }

  predicate IsFull(b: Box) {
    |b.sent| - b.written >= OUTBOX
  }

  /** Queue a message for a session; a full outbox closes its link. A closed connection takes nothing. */
  function Post(boxes: map<int, Box>, state: ConnectionState, n: int, m: Message): map<int, Box> {
    var b := BoxOf(boxes, n);
    if state == Shut then boxes
    else if IsFull(b) then boxes[n := b.(broken := true)]
    else boxes[n := b.(sent := b.sent + [m])]
  }

  /** Ask the writer to send what the outbox holds and close the link; a full outbox closes it at once. */
  function Flushed(boxes: map<int, Box>, n: int): map<int, Box> {
    var b := BoxOf(boxes, n);
    if IsFull(b) then boxes[n := b.(broken := true)] else boxes[n := b.(sent := b.sent + [Flush])]
  }

  function StateOf(s: Core, n: int): ConnectionState {
    if n in s.links.connections then s.links.connections[n].state else Shut
  }

  function PostTo(s: Core, n: int, m: Message): Core {
    s.(answers := s.answers.(boxes := Post(s.answers.boxes, StateOf(s, n), n, m)))
  }

  function Close(s: Core, n: int): Core {
    s.(answers := s.answers.(boxes := Flushed(s.answers.boxes, n)))
  }

  /** Post the answer to an accepted request. */
  function AnswerRequest(a: Answers, state: ConnectionState, w: Waiting, generation: nat,
                         result: Option<int>): Answers {
    var b := BoxOf(a.boxes, w.connection);
    var m := Answer(w.order, w.requestId, generation, result);
    Answers(
      a.fates[w.order := if state == Shut || IsFull(b) then Lost else Given(|b.sent|)],
      Post(a.boxes, state, w.connection, m))
  }

  /** Set the fate of every request in `orders`. */
  function Mend(fates: map<nat, Fate>, orders: set<nat>, fate: Fate): map<nat, Fate> {
    map o | o in fates :: if o in orders then fate else fates[o]
  }

  // -- the reader threads, the writers, the accept loop --------------------------------------

  function AcceptLink(s: Core): Core {
    var l := s.links;
    var n := l.next;
    if s.server == Serving && |l.opening| < s.maxSessions then
      s.(links := l.(connections := l.connections[n := Connection(Connecting, 0, 0, Greeting)],
                     opening := l.opening + {n}, next := n + 1))
    else
      s.(links := l.(next := n + 1))
  }

  /** What a session's first message is: not a hello, one in another protocol, or one for a slot. */
  datatype Hello = NotHello | OtherProtocol | ForSlot(slot: int)

  function SetReader(s: Core, n: int, reader: Reader): Core
    requires n in s.links.connections
  {
    s.(links := s.links.(connections := s.links.connections[n := s.links.connections[n].(reader := reader)]))
  }

  function SetSlot(s: Core, n: int, slot: int): Core
    requires n in s.links.connections
  {
    s.(links := s.links.(connections := s.links.connections[n := s.links.connections[n].(slot := slot)]))
  }

  function Greet(s: Core, n: int, hello: Hello): Core
    requires n in s.links.connections
  {
    match hello
    case NotHello => SetReader(s, n, Leaving)
    case OtherProtocol => SetReader(PostTo(s, n, Refused), n, Leaving)
    case ForSlot(slot) =>
      if !(0 <= slot < s.maxSessions) then SetReader(PostTo(s, n, Refused), n, Leaving)
      else
        var s1 := SetSlot(s, n, slot);
        if s.server == Serving then
          SetReader(Move(s1, n, Opening), n, Dispatching).(events := s.events + [Opens(n)])
        else
          SetReader(Close(s1, n), n, Leaving)
  }

  /** A reader thread ends: its link closed, or its session broke the protocol. */
  function ReaderEnds(s: Core, n: int): Core
    requires n in s.links.connections
  {
    SetReader(s, n, Gone).(events := s.events + [Leaves(n)])
  }

  /** A step arrives: queue it, or refuse it at once. */
  function TakeStep(s: Core, w: Waiting): Core {
    if s.server != Serving
    || StateOf(s, w.connection) != Open
    || w.connection in s.resetting
    || !Accepts(s.requests.policy, w)
    then PostTo(s, w.connection, Failed(w.requestId))
    else
      s.(requests := Accept(s.requests, w),
         answers := s.answers.(fates := s.answers.fates[s.requests.policy.nextOrder := Awaiting]))
  }

  predicate IsRunning(p: Pending, n: int, requestId: int) {
    p.waiting.connection == n && p.waiting.requestId == requestId && p.future && p.Awaited()
  }

  function TicketsOf(pending: map<nat, Pending>, n: int, requestId: int): set<nat> {
    set t | t in pending && IsRunning(pending[t], n, requestId)
  }

  function OrdersOf(pending: map<nat, Pending>, tickets: set<nat>): set<nat> {
    set t | t in tickets && t in pending :: pending[t].waiting.order
  }

  /** A cancel arrives: withdraw the request if it waits, else stop answering it if it runs. */
  function TakeCancel(s: Core, n: int, requestId: int): Core {
    if Withdraws(s.requests.policy, n, requestId) then
      s.(requests := Withdraw(s.requests, n, requestId),
         answers := s.answers.(fates := s.answers.fates[Withdrawn(s.requests, n, requestId).order := Cancelled]))
    else
      var tickets := TicketsOf(s.requests.pending, n, requestId);
      s.(requests := Mark(s.requests, tickets),
         answers := s.answers.(fates := Mend(s.answers.fates, OrdersOf(s.requests.pending, tickets), Cancelled)))
  }

  function TakeReset(s: Core, n: int, requestId: int): Core {
    if s.server == Serving then
      s.(resetting := s.resetting + {n}, events := s.events + [Resets(n, requestId)])
    else
      PostTo(s, n, Failed(requestId))
  }

  /** The writer takes the next message of the outbox; it ends at a flush. */
  function WriteNext(s: Core, n: int): Core {
    var b := BoxOf(s.answers.boxes, n);
    if b.written < |b.sent| && b.sent[b.written] != Flush then
      s.(answers := s.answers.(boxes := s.answers.boxes[n := b.(written := b.written + 1)]))
    else s
  }

  /** A link fails, or is closed from this end without a flush. */
  function Break(s: Core, n: int): Core {
    s.(answers := s.answers.(boxes := s.answers.boxes[n := BoxOf(s.answers.boxes, n).(broken := true)]))
  }

  // -- finishing a request -------------------------------------------------------------------

  /** Whether an output still reaches the session of this request. */
  predicate Reaches(l: Links, item: Pending) {
    var n := item.waiting.connection;
    && item.Awaited()
    && n in l.connections && l.connections[n].state == Open
    && l.connections[n].generation == item.generation
    && n in l.open
  }

  function CompleteItem(s: Core, t: nat, result: Option<int>): Core
    requires t in s.requests.pending
  {
    var item := s.requests.pending[t];
    s.(requests := Complete(s.requests, t),
       answers :=
         if Reaches(s.links, item) then AnswerRequest(s.answers, Open, item.waiting, item.generation, result)
         else if item.Awaited() then s.answers.(fates := s.answers.fates[item.waiting.order := Lost])
         else s.answers)
  }

  /** A future's done-callback runs: once it is done, or because `cancel()` cancelled it. */
  function Resolve(s: Core, t: nat, result: Option<int>): Core {
    if t in s.requests.pending && s.requests.pending[t].future then CompleteItem(s, t, result) else s
  }

  // -- the step thread: one turn of its loop -------------------------------------------------

  predicate IsOverdue(p: Pending, now: real) {
    p.future && p.Awaited() && IsLate(p.waiting, now)
  }

  function Overdue(pending: map<nat, Pending>, now: real): set<nat> {
    set t | t in pending && IsOverdue(pending[t], now)
  }

  /** The requests under `tickets`, by ticket, which is the order of the table. */
  function ByTicket(pending: map<nat, Pending>, tickets: set<nat>, below: nat): seq<Waiting> {
    if below == 0 then []
    else
      ByTicket(pending, tickets, below - 1)
      + (if below - 1 in tickets && below - 1 in pending then [pending[below - 1].waiting] else [])
  }

  function AnswersTo(ws: seq<Waiting>): seq<Errand> {
    seq(|ws|, i requires 0 <= i < |ws| => AnswerTo(ws[i]))
  }

  function AnswersIfThere(ws: seq<Waiting>): seq<Errand> {
    seq(|ws|, i requires 0 <= i < |ws| => AnswerIfThere(ws[i]))
  }

  function Does(events: seq<Event>): seq<Errand> {
    seq(|events|, i requires 0 <= i < |events| => Do(events[i]))
  }

  function Refuses(events: seq<Event>): seq<Errand> {
    seq(|events|, i requires 0 <= i < |events| => Refuse(events[i]))
  }

  predicate AnyAwaited(pending: map<nat, Pending>) {
    exists t :: t in pending && pending[t].Awaited()
  }

  function OpenSessions(l: Links): nat {
    |set n | n in l.open && n in l.connections && l.connections[n].state == Open|
  }

  /** Mark the running requests whose timeout passed, and take the events. */
  function Expire(s: Core, now: real): Core {
    var late := Overdue(s.requests.pending, now);
    s.(requests := Mark(s.requests, late),
       answers := s.answers.(fates := Mend(s.answers.fates, OrdersOf(s.requests.pending, late), Owed)),
       events := [],
       errands := AnswersTo(ByTicket(s.requests.pending, late, s.requests.nextTicket)))
  }

  /** Take a turn of the policy, after `Expire`. */
  function TakeBatch(s: Core, now: real): Core {
    var turn := Decision(s.requests.policy, now, OpenSessions(s.links));
    s.(requests := TakeTurn(s.requests, now, OpenSessions(s.links)),
       answers := s.answers.(fates := Mend(s.answers.fates, Orders(turn.expired), Owed)),
       errands := s.errands + AnswersIfThere(turn.expired) + (if turn.batch == [] then [] else [RunBatch]))
  }

  function RunTurn(s: Core, now: real): Core {
    if s.server == Stopped then s.(alive := false)
    else if s.server == Draining && (now >= s.drainBy || !AnyAwaited(s.requests.pending)) then s.(alive := false)
    else
      var s1 := Expire(s, now);
      if s.server == Draining then s1.(errands := s1.errands + Refuses(s.events))
      else if s.events != [] then s1.(errands := s1.errands + Does(s.events))
      else TakeBatch(s1, now)
  }

  // -- the step thread: opening, leaving, resetting ------------------------------------------

  /** Go on after a connection has left: open the one that replaces it, if any. */
  function Then(s: Core, next: Option<int>): Core {
    s.(doing := if next.Some? then OpeningCall(next.value) else Idle)
  }

  function Unlist(s: Core, n: int): Core {
    s.(links := s.links.(opening := s.links.opening - {n}))
  }

  function Leave(s: Core, n: int, next: Option<int>): Core {
    var s1 := Unlist(s, n);
    if StateOf(s1, n) == Closing || StateOf(s1, n) == Shut then Then(Close(s1, n), next)
    else Move(s1, n, Closing).(doing := Forgetting(n, StateOf(s1, n) == Open, next))
  }

  /** Drop everything the server holds for a connection. */
  function Forget(l: Links, n: int): Links {
    l.(open := l.open - {n},
       bySlot :=
         if n in l.connections && l.connections[n].slot in l.bySlot && l.bySlot[l.connections[n].slot] == n
         then l.bySlot - {l.connections[n].slot} else l.bySlot)
  }

  /** The requests of a connection that have no answer yet, and get none once it is forgotten. */
  function DueOf(r: Requests, n: int): set<nat> {
    set o | o in r.ledger && r.ledger[o].request.connection == n && Due(r.pending, r.ledger, o)
  }

  function ForgetRegion(s: Core, n: int, wasOpen: bool, next: Option<int>): Core {
    s.(requests := Release(s.requests, n),
       answers := s.answers.(fates := Mend(s.answers.fates, DueOf(s.requests, n), Lost)),
       resetting := s.resetting - {n},
       links := Forget(s.links, n),
       doing := if wasOpen then ClosingCall(n, next) else Ending(n, next))
  }

  function SlotOf(l: Links, n: int): int {
    if n in l.connections then l.connections[n].slot else 0
  }

  function GenerationOf(l: Links, n: int): nat {
    if n in l.connections then l.connections[n].generation else 0
  }

  function CallClosed(s: Core, n: int): Core {
    s.(log := s.log + [Closed(SlotOf(s.links, n), GenerationOf(s.links, n))])
  }

  /** Give a connection its slot's next generation, and call `session_opened()` for it. */
  function CallOpened(s: Core, n: int, ok: bool): Core
    requires n in s.links.connections
  {
    var l := s.links;
    var slot := l.connections[n].slot;
    var g := (if slot in l.generations then l.generations[slot] else 0) + 1;
    s.(links := l.(generations := l.generations[slot := g],
                   connections := l.connections[n := l.connections[n].(generation := g)]),
       log := if ok then s.log + [Opened(slot, g)] else s.log)
  }

  function StartOpen(s: Core, n: int): Core {
    var slot := SlotOf(s.links, n);
    if StateOf(s, n) != Opening then Unlist(s, n)
    else if slot in s.links.bySlot && s.links.bySlot[slot] != n then Leave(s, s.links.bySlot[slot], Some(n))
    else s.(doing := OpeningCall(n))
  }

  function FinishOpen(s: Core, n: int, ok: bool): Core {
    var s1 := Unlist(s, n);
    if !ok then
      var s2 := if s.server == Serving then PostTo(s1, n, Refused) else s1;
      Close(Move(s2, n, Closing), n).(doing := Idle)
    else if s.server == Serving then
      var s2 := Move(s1, n, Open);
      s2.(links := s2.links.(open := s2.links.open + {n}, bySlot := s2.links.bySlot[SlotOf(s.links, n) := n]),
          doing := Welcoming(n))
    else
      s1.(doing := UndoingCall(n))
  }

  function StartReset(s: Core, n: int, requestId: int): Core {
    if StateOf(s, n) != Open then s.(resetting := s.resetting - {n})
    else
      var r := s.requests;
      var running := set t | t in r.pending && r.pending[t].waiting.connection == n && r.pending[t].future
        && r.pending[t].Awaited();
      var owed := Of(r.policy.waiting, n) + ByTicket(r.pending, running, r.nextTicket);
      s.(requests := Release(r, n),
         answers := s.answers.(fates := Mend(s.answers.fates, Orders(owed), Owed)),
         doing := Dropped(n, requestId, owed))
  }

  function SettleReset(s: Core, n: int, requestId: int, ok: bool): Core {
    (if ok then Move(s, n, Open) else s).(resetting := s.resetting - {n}, doing := ResetReply(n, requestId, ok))
  }

  function ReplyReset(s: Core, n: int, requestId: int, ok: bool): Core {
    if ok then PostTo(s, n, ResetDone(requestId, GenerationOf(s.links, n))).(doing := Idle)
    else Move(PostTo(s, n, Failed(requestId)), n, Closing).(doing := Forgetting(n, false, None))
  }

  // -- the step thread: one batch ------------------------------------------------------------

  /** The batch's requests whose session is still there, as the step receives them. */
  function Prepare(l: Links, batch: seq<Waiting>): seq<Pending> {
    if batch == [] then []
    else
      var w := batch[0];
      (if w.connection in l.open
       then [Pending(w, SlotOf(l, w.connection), GenerationOf(l, w.connection), false, false, false)] else [])
      + Prepare(l, batch[1..])
  }

  function StartBatch(s: Core): Core {
    var items := Prepare(s.links, s.requests.batch);
    if items == [] then
      s.(requests := Forgo(s.requests),
         answers := s.answers.(fates := Mend(s.answers.fates, Orders(s.requests.batch), Lost)))
    else s.(doing := Inserting(items))
  }

  function InsertBatch(s: Core, items: seq<Pending>): Core {
    s.(requests := InsertAll(s.requests, items),
       doing := Calling(s.requests.nextTicket, s.requests.nextTicket + |items|))
  }

  /** A request as the model receives it. */
  function ReachOf(p: Pending): Reach {
    Reach(p.slot, p.generation, p.waiting.payload)
  }

  function Reaching(pending: map<nat, Pending>, first: nat, last: nat): seq<Reach>
    decreases last - first
  {
    if last <= first then []
    else (if first in pending then [ReachOf(pending[first])] else [])
         + Reaching(pending, first + 1, last)
  }

  function CallStep(s: Core, first: nat, last: nat, outputs: Option<seq<Output>>): Core {
    s.(log := s.log + [Stepped(Reaching(s.requests.pending, first, last))],
       doing := Returned(first, last, outputs))
  }

  /** Whether `step()` returned one output per request. */
  predicate IsWhole(outputs: Option<seq<Output>>, count: int) {
    outputs.Some? && |outputs.value| == count
  }

  /** Take the outputs of `step()`: a future keeps its request pending, anything else finishes it.
      A raise, or a wrong number of outputs, fails the batch. */
  function TakeOutputs(s: Core, first: nat, last: nat, outputs: Option<seq<Output>>): Core
    decreases last - first
  {
    if last <= first then s
    else
      var whole := IsWhole(outputs, last - first);
      var s1 :=
        if first !in s.requests.pending then s
        else if !whole then CompleteItem(s, first, None)
        else if outputs.value[0].Future? then s.(requests := Register(s.requests, first))
        else CompleteItem(s, first, outputs.value[0].result);
      TakeOutputs(s1, first + 1, last, if whole then Some(outputs.value[1..]) else None)
  }

  // -- the step thread, whatever it does -----------------------------------------------------

  /** What the model chooses: whether `session_opened()` raises, and what `step()` returns. */
  datatype Choice = Choice(ok: bool, outputs: Option<seq<Output>>)

  function RunErrand(s: Core, e: Errand): Core {
    match e
    case AnswerTo(w) => s.(answers := AnswerRequest(s.answers, StateOf(s, w.connection), w, 0, None))
    case AnswerIfThere(w) =>
      if w.connection in s.links.open
      then s.(answers := AnswerRequest(s.answers, StateOf(s, w.connection), w, 0, None))
      else s.(answers := s.answers.(fates := s.answers.fates[w.order := Lost]))
    case Do(Opens(n)) => StartOpen(s, n)
    case Do(Leaves(n)) => Leave(s, n, None)
    case Do(Resets(n, id)) => StartReset(s, n, id)
    case Refuse(Opens(n)) => s
    case Refuse(Leaves(n)) => Leave(s, n, None)
    case Refuse(Resets(n, id)) => PostTo(s.(resetting := s.resetting - {n}), n, Failed(id))
    case RunBatch => StartBatch(s)
    case ShutOpening(n) =>
      if StateOf(s, n) == Connecting || StateOf(s, n) == Opening then Close(Move(s, n, Closing), n) else s
    case LeaveNow(n) => Leave(s, n, None)
  }

  function Continue(s: Core, choice: Choice): Core {
    match s.doing
    case Idle => if s.errands == [] then s else RunErrand(s.(errands := s.errands[1..]), s.errands[0])
    case Forgetting(n, wasOpen, next) => ForgetRegion(s, n, wasOpen, next)
    case ClosingCall(n, next) => CallClosed(s, n).(doing := Ending(n, next))
    case Ending(n, next) => Then(Close(Move(s, n, Shut), n), next)
    case OpeningCall(n) =>
      if n in s.links.connections then CallOpened(s, n, choice.ok).(doing := OpenedCall(n, choice.ok)) else s
    case OpenedCall(n, ok) => FinishOpen(s, n, ok)
    case UndoingCall(n) => Close(Move(CallClosed(s, n), n, Closing), n).(doing := Idle)
    case Welcoming(n) => PostTo(s, n, Welcome(GenerationOf(s.links, n))).(doing := Idle)
    case Dropped(n, id, owed) =>
      if owed == [] then CallClosed(s, n).(doing := Reopening(n, id))
      else s.(answers := AnswerRequest(s.answers, StateOf(s, owed[0].connection), owed[0], 0, None),
              doing := Dropped(n, id, owed[1..]))
    case Reopening(n, id) =>
      if n in s.links.connections then CallOpened(s, n, choice.ok).(doing := Reopened(n, id, choice.ok)) else s
    case Reopened(n, id, ok) => SettleReset(s, n, id, ok)
    case ResetReply(n, id, ok) => ReplyReset(s, n, id, ok)
    case Inserting(items) => InsertBatch(s, items)
    case Calling(first, last) => CallStep(s, first, last, choice.outputs)
    case Returned(first, last, outputs) => TakeOutputs(s, first, last, outputs).(doing := Idle)
  }

  // -- the lifecycle -------------------------------------------------------------------------

  predicate ServerMayMove(from: ServerState, to: ServerState) {
    match from
    case Serving => to == Draining || to == Stopped
    case Draining => to == Stopped
    case Stopped => false
  }

  /** Move the server's state; a move its sequence does not allow is a fault. */
  function MoveServer(s: Core, state: ServerState): Core {
    if ServerMayMove(s.server, state) then s.(server := state) else s.(fault := true)
  }

  function Drain(s: Core, deadline: real): Core {
    (if s.server == Serving then MoveServer(s, Draining).(drainBy := deadline) else s).(life := DrainJoin)
  }

  function Stop(s: Core): Core {
    (if s.server != Stopped then MoveServer(s, Stopped) else s).(life := StopJoin)
  }

  /** Once the step thread has ended: fail the queued and the running requests, and finish the
      pending events and the opening connections. `order` and `shut` are the server's connections
      and opening connections, in the order of their tables. */
  function SettleAll(s: Core, order: seq<int>, shut: seq<int>): Core {
    var r := s.requests;
    var awaited := set t | t in r.pending && r.pending[t].Awaited();
    var running, queued := ByTicket(r.pending, awaited, r.nextTicket), DroppedBy(r.policy, order);
    s.(requests := Settle(r, order),
       answers := s.answers.(fates := Mend(s.answers.fates, Orders(running) + Orders(queued), Owed)),
       events := [],
       links := s.links.(opening := {}),
       errands := AnswersTo(running) + Refuses(s.events) + AnswersTo(queued)
                  + seq(|shut|, i requires 0 <= i < |shut| => ShutOpening(shut[i])),
       life := if s.life == DrainJoin then DrainSettling else StopSettling)
  }

  /** `stop()` leaves every connection still open. */
  function LeaveAll(s: Core, order: seq<int>): Core {
    s.(errands := seq(|order|, i requires 0 <= i < |order| => LeaveNow(order[i])),
       stayed := s.links.open,
       life := StopLeaving)
  }

  // -- runs ----------------------------------------------------------------------------------

  datatype Action =
    | AcceptsLink
    | Greets(n: int, hello: Hello)
    | Ends(n: int)
    | Steps(w: Waiting)
    | Cancels(n: int, requestId: int)
    | Resetting(n: int, requestId: int)
    | Writes(n: int)
    | Breaks(n: int)
    | Resolves(ticket: nat, result: Option<int>)
    | Turns(now: real)
    | Continues(choice: Choice)
    | Drains(deadline: real)
    | Stops
    | Settles(order: seq<int>, shut: seq<int>)
    | FinishesDrain
    | LeavesAll(order: seq<int>)
    | FinishesStop

  predicate Dispatches(s: Core, n: int) {
    n in s.links.connections && s.links.connections[n].reader == Dispatching
  }

  /** Whether the thread that runs the step thread's code has nothing left to do. */
  predicate AtRest(s: Core) {
    s.doing == Idle && s.errands == []
  }

  predicate Lists(order: seq<int>, members: set<int>) {
    (set n | n in order) == members
  }

  predicate Enabled(s: Core, a: Action) {
    match a
    case AcceptsLink => true
    case Greets(n, _) => n in s.links.connections && s.links.connections[n].reader == Greeting
    case Ends(n) => n in s.links.connections && s.links.connections[n].reader != Gone
    case Steps(w) => Dispatches(s, w.connection)
    case Cancels(n, _) => Dispatches(s, n)
    case Resetting(n, _) => Dispatches(s, n)
    case Writes(n) => n in s.links.connections
    case Breaks(n) => n in s.links.connections
    case Resolves(_, _) => true
    case Turns(_) => s.alive && AtRest(s)
    case Continues(_) => !AtRest(s)
    case Drains(_) => s.life == Up
    case Stops => s.life == Up || s.life == Drained
    case Settles(order, shut) =>
      && (s.life == DrainJoin || s.life == StopJoin)
      && !s.alive && AtRest(s) && Lists(order, s.links.open) && Lists(shut, s.links.opening)
    case FinishesDrain => s.life == DrainSettling && AtRest(s)
    case LeavesAll(order) => s.life == StopSettling && AtRest(s) && Lists(order, s.links.open)
    case FinishesStop => s.life == StopLeaving && AtRest(s)
  }

  function Next(s: Core, a: Action): Core
    requires Enabled(s, a)
  {
    match a
    case AcceptsLink => AcceptLink(s)
    case Greets(n, hello) => Greet(s, n, hello)
    case Ends(n) => ReaderEnds(s, n)
    case Steps(w) => TakeStep(s, w)
    case Cancels(n, id) => TakeCancel(s, n, id)
    case Resetting(n, id) => TakeReset(s, n, id)
    case Writes(n) => WriteNext(s, n)
    case Breaks(n) => Break(s, n)
    case Resolves(t, result) => Resolve(s, t, result)
    case Turns(now) => RunTurn(s, now)
    case Continues(choice) => Continue(s, choice)
    case Drains(deadline) => Drain(s, deadline)
    case Stops => Stop(s)
    case Settles(order, shut) => SettleAll(s, order, shut)
    case FinishesDrain => s.(life := Drained)
    case LeavesAll(order) => LeaveAll(s, order)
    case FinishesStop => s.(life := Over)
  }

  function Start(maxSessions: nat, maxBatch: nat, window: real): Core {
    Core(
      maxSessions, Serving, 0.0,
      Links(map[], {}, map[], {}, map[], 1), [], {},
      Requests(Policy(maxBatch, window, [], {}, 0), [], map[], 1, map[], map[]),
      Answers(map[], map[]),
      true, Idle, [], Up, [], {}, false)
  }

  ghost predicate IsRun(states: seq<Core>, actions: seq<Action>) {
    && |states| == |actions| + 1
    && forall i :: 0 <= i < |actions| ==> Enabled(states[i], actions[i]) && states[i + 1] == Next(states[i], actions[i])
  }

  /** The states some interleaving reaches. */
  ghost predicate Reachable(s: Core, maxSessions: nat, maxBatch: nat, window: real) {
    exists states, actions ::
      IsRun(states, actions) && states[0] == Start(maxSessions, maxBatch, window) && states[|actions|] == s
  }
}
