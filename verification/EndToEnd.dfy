/** One session's client composed with the model server: the client's calls, the messages on their
    way to the server, the server with any other sessions, and the outbox the client reads. */
module EndToEnd {
  import opened Batching
  import opened RequestTable
  import opened ServerCore
  import opened LinkInvariant
  import opened RequestInvariant
  import opened LogInvariant
  import opened AnswerInvariant
  import opened EndInvariant
  import opened ServerProperties
  import opened SessionView
  import opened SessionSteps
  import opened Clients

  // -- the system --------------------------------------------------------------------------------

  /** `n` is the session's connection; `up` is what it sent and the server has not taken; `read` is
      how much of its outbox the client has received. */
  datatype System = System(core: Core, n: int, client: Client, up: seq<Sent>, read: nat)

  datatype Event =
    | Serves(a: Action)
    | Delivers(now: real)
    | Joins
    | BeginsStep(payload: int, timeout: Option<real>, delivery: Delivery)
    | BeginsReset(delivery: Delivery)
    | Hears
    | Finishes
    | TimesOut(delivery: Delivery)
    | Loses
    | Closes

  function Inbox(y: System): seq<Message> {
    BoxOf(y.core.answers.boxes, y.n).sent
  }

  /** The server's action when a reader thread takes this message. */
  function Heard(m: Sent, n: int, now: real): Action {
    match m
    case SentStep(id, payload, timeout) =>
      Steps(Waiting(n, id, payload, now, if timeout.None? then None else Some(now + timeout.value), 0))
    case SentCancel(id) => Cancels(n, id)
    case SentReset(id) => Resetting(n, id)
  }

  predicate CanReceive(y: System) {
    y.read < |Inbox(y)| && Inbox(y)[y.read] != Flush
  }

  predicate Possible(y: System, e: Event) {
    match e
    case Serves(a) => Enabled(y.core, a) && !SessionSteps.Hears(a, y.n)
    case Delivers(now) => y.up != [] && Dispatches(y.core, y.n)
    case Joins => y.client.state == Joining && CanReceive(y)
    case BeginsStep(_, _, _) => y.client.state != Joining && y.client.call == NoCall
    case BeginsReset(_) => y.client.state != Joining && y.client.call == NoCall
    case Hears => y.client.state != Joining && CanReceive(y)
    case Finishes => y.client.call != NoCall && y.client.reply.Some?
    case TimesOut(_) => y.client.call != NoCall && y.client.reply.None?
    case Loses => y.client.state == Usable
    case Closes => y.client.state != Joining
  }

  function Push(up: seq<Sent>, m: Option<Sent>): seq<Sent> {
    if m.Some? then up + [m.value] else up
  }

  function Then(y: System, e: Event): System
    requires Possible(y, e)
  {
    match e
    case Serves(a) => y.(core := Next(y.core, a))
    case Delivers(now) => y.(core := Next(y.core, Heard(y.up[0], y.n, now)), up := y.up[1..])
    case Joins => y.(client := Join(y.client, Inbox(y)[y.read]), read := y.read + 1)
    case BeginsStep(payload, timeout, delivery) =>
      y.(client := BeginStep(y.client, delivery), up := Push(y.up, StepSent(y.client, payload, timeout, delivery)))
    case BeginsReset(delivery) =>
      y.(client := BeginReset(y.client, delivery), up := Push(y.up, ResetSent(y.client, delivery)))
    case Hears => y.(client := Hear(y.client, Inbox(y)[y.read]), read := y.read + 1)
    case Finishes => y.(client := Finish(y.client))
    case TimesOut(delivery) => y.(client := TimeOut(y.client, delivery),
                                  up := Push(y.up, CancelSent(y.client, delivery)))
    case Loses => y.(client := Lose(y.client))
    case Closes => y.(client := Quit(y.client))
  }

  // -- the invariant -----------------------------------------------------------------------------

  function UpResets(up: seq<Sent>): seq<int> {
    if up == [] then [] else (if up[0].SentReset? then [up[0].id] else []) + UpResets(up[1..])
  }

  /** The resets the client sent that have no answer, in the order they were sent. */
  function InFlight(y: System): seq<int> {
    Unanswered(y.core, y.n) + UpResets(y.up)
  }

  ghost predicate Rising(ids: seq<int>, below: int) {
    && (forall i, j :: 0 <= i < j < |ids| ==> ids[i] < ids[j])
    && (forall i :: 0 <= i < |ids| ==> 1 <= ids[i] < below)
  }

  function Generation(y: System): nat {
    GenerationOf(y.core.links, y.n)
  }

  /** A message of the outbox, against the resets in flight and the generation now. */
  ghost predicate ReplyOk(y: System, m: Message) {
    && (m.ResetDone? ==>
          && 1 <= m.requestId < y.client.nextId
          && (forall k :: 0 <= k < |InFlight(y)| ==> m.requestId < InFlight(y)[k])
          && (m.requestId == y.client.nextId - 1 ==> InFlight(y) == [] && m.generation == Generation(y)))
    && (m.Answer? && m.result.Some? && y.client.call == StepCall(m.requestId) ==> m.generation == y.client.generation)
    && (m.Welcome? ==> Beyond(y.core.links, y.n))
  }

  ghost predicate RepliesOk(y: System) {
    forall i :: 0 <= i < |Inbox(y)| ==> ReplyOk(y, Inbox(y)[i])
  }

  /** A request accepted from this session. */
  predicate IsOwn(y: System, o: nat) {
    o in y.core.requests.ledger && y.core.requests.ledger[o].request.connection == y.n
  }

  function IdOf(y: System, o: nat): int
    requires IsOwn(y, o)
  {
    y.core.requests.ledger[o].request.requestId
  }

  /** The session's accepted requests: each id once, and before those still on their way. */
  ghost predicate IdsOk(y: System) {
    && (forall o :: IsOwn(y, o) ==> 1 <= IdOf(y, o) < y.client.nextId)
    && (forall o, j :: IsOwn(y, o) && 0 <= j < |y.up| && y.up[j].SentStep? ==> IdOf(y, o) < y.up[j].id)
    && (forall o, p :: IsOwn(y, o) && IsOwn(y, p) && o < p ==> IdOf(y, o) < IdOf(y, p))
    && (forall j :: 0 <= j < |y.up| ==> 1 <= y.up[j].id < y.client.nextId)
    && (forall i, j :: 0 <= i < j < |y.up| && y.up[i].SentStep? && y.up[j].SentStep? ==> y.up[i].id < y.up[j].id)
  }

  /** The client was welcomed: it may call the model server, or has. */
  predicate HasJoined(c: Client) {
    c.state == Usable || c.nextId > 1
  }

  ghost predicate ClientOk(y: System) {
    && 1 <= y.client.nextId
    && (y.client.state == Joining ==> y.client.nextId == 1)
    && (y.client.nextId == 1 ==> y.client.resetRequired && y.client.call == NoCall)
    && (HasJoined(y.client) ==> Beyond(y.core.links, y.n))
    && (!y.client.resetRequired ==> InFlight(y) == [] && Generation(y) == y.client.generation)
    && (y.client.call.StepCall? ==> y.client.call.id == y.client.nextId - 1 && !y.client.resetRequired)
    && (y.client.call.ResetCall? ==> y.client.call.id == y.client.nextId - 1)
    && y.read <= |Inbox(y)|
    && (y.client.reply.Some? ==>
          y.client.call != NoCall && IsReplyTo(y.client.reply.value, y.client.call.id)
            && y.client.reply.value in Inbox(y))
  }

  ghost predicate SystemOk(y: System) {
    && ServerOk(y.core) && Welcomed(y.core)
    && Rising(InFlight(y), y.client.nextId)
    && RepliesOk(y)
    && IdsOk(y)
    && ClientOk(y)
  }

  // -- the server acts ---------------------------------------------------------------------------

  lemma OpeningNotBeyond(s: Core, n: int)
    requires LinksOk(s) && s.doing == OpeningCall(n)
    ensures !Beyond(s.links, n)
  {
    hide TablesAgree, QueuesFit, SlotsInRange, OpeningListed, GreetingFits;
  }

  /** The client, the outbox's old messages and the channel are as before; the server went on. */
  ghost predicate ServerMoved(y: System, z: System) {
    z == y.(core := z.core) && Passes(y.core, z.core, y.n)
    && (y.core.doing == OpeningCall(y.n) ==> !Beyond(y.core.links, y.n))
  }

  lemma MovedFlight(y: System, z: System)
    requires ServerMoved(y, z) && Rising(InFlight(y), y.client.nextId)
    ensures Rising(InFlight(z), z.client.nextId)
    ensures InFlight(z) == InFlight(y) || (InFlight(y) != [] && InFlight(z) == InFlight(y)[1..])
    ensures Unanswered(y.core, y.n) == [] ==> InFlight(z) == InFlight(y)
  {
    hide Unanswered, Posts, SameAccepted, StaysBeyond, GenerationKept;
    if Unanswered(z.core, y.n) == Unanswered(y.core, y.n) {
    } else {
      assert InFlight(z) == InFlight(y)[1..];
    }
  }

  /** Once the client has joined, its generation only changes with a reset in flight. */
  lemma MovedGeneration(y: System, z: System)
    requires ServerMoved(y, z) && Beyond(y.core.links, y.n) && InFlight(y) == []
    ensures Generation(z) == Generation(y)
  {
    hide Posts, SameAccepted, StaysBeyond, Pops, ErrandResets, EventResets;
    assert Unanswered(y.core, y.n) == [];
  }

  lemma OldReply(y: System, z: System, i: nat)
    requires ServerMoved(y, z) && RepliesOk(y) && ClientOk(y) && i < |Inbox(y)|
    requires InFlight(z) == InFlight(y) || (InFlight(y) != [] && InFlight(z) == InFlight(y)[1..])
    requires HasJoined(y.client) && InFlight(y) == [] ==> Generation(z) == Generation(y)
    ensures ReplyOk(z, Inbox(y)[i])
  {
    hide Unanswered, SameAccepted, GenerationKept, GenerationOf, Pops, UpResets, Posts, Beyond;
    assert ReplyOk(y, Inbox(y)[i]);
  }

  lemma NewReply(y: System, z: System, m: Message)
    requires ServerMoved(y, z) && Rising(InFlight(y), y.client.nextId) && ClientOk(y) && Fits(m, y.core, z.core, y.n)
    ensures ReplyOk(z, m)
  {
    hide Unanswered, SameAccepted, GenerationKept, GenerationOf, Pops, UpResets, Posts, Beyond;
    if m.ResetDone? {
      assert InFlight(y) == [m.requestId] + InFlight(z);
      assert InFlight(y)[0] == m.requestId;
      forall k | 0 <= k < |InFlight(z)| ensures m.requestId < InFlight(z)[k] < y.client.nextId {
        assert InFlight(z)[k] == InFlight(y)[k + 1];
      }
      if InFlight(z) != [] {
        assert m.requestId < InFlight(z)[0] < y.client.nextId;
      }
    }
  }

  lemma MovedReplies(y: System, z: System)
    requires ServerMoved(y, z) && Rising(InFlight(y), y.client.nextId) && RepliesOk(y) && ClientOk(y)
    ensures RepliesOk(z)
  {
    MovedFlight(y, z);
    if HasJoined(y.client) && InFlight(y) == [] {
      MovedGeneration(y, z);
    }
    hide Unanswered, SameAccepted, GenerationKept, GenerationOf, Pops, UpResets, ReplyOk, Fits;
    forall i: nat | i < |Inbox(z)| ensures ReplyOk(z, Inbox(z)[i]) {
      if i < |Inbox(y)| {
        assert Inbox(z)[i] == Inbox(y)[i];
        OldReply(y, z, i);
      } else {
        NewReply(y, z, Inbox(z)[i]);
      }
    }
  }

  lemma MovedIds(y: System, z: System)
    requires ServerMoved(y, z) && IdsOk(y)
    ensures IdsOk(z)
  {
    hide Posts, GenerationKept, Pops, Beyond;
    assert forall o :: IsOwn(z, o) ==> IsOwn(y, o) && IdOf(z, o) == IdOf(y, o);
    hide SameAccepted;
  }

  lemma MovedClient(y: System, z: System)
    requires ServerMoved(y, z) && Rising(InFlight(y), y.client.nextId) && ClientOk(y)
    ensures ClientOk(z)
  {
    MovedInbox(y, z);
    hide ServerMoved, Rising, InFlight, GenerationOf, Beyond;
    MovedFlight(y, z);
    if HasJoined(y.client) && InFlight(y) == [] {
      MovedGeneration(y, z);
    }
  }

  lemma MovedInbox(y: System, z: System)
    requires ServerMoved(y, z)
    ensures z == y.(core := z.core)
    ensures |Inbox(y)| <= |Inbox(z)| && forall m :: m in Inbox(y) ==> m in Inbox(z)
    ensures Beyond(y.core.links, y.n) ==> Beyond(z.core.links, y.n)
  {
    hide SameAccepted, GenerationKept, Pops, Fits;
    forall m | m in Inbox(y) ensures m in Inbox(z) {
      var i :| 0 <= i < |Inbox(y)| && Inbox(y)[i] == m;
      assert Inbox(z)[i] == Inbox(y)[i];
    }
  }

  lemma MovedKeeps(y: System, z: System)
    requires SystemOk(y) && ServerMoved(y, z) && ServerOk(z.core) && Welcomed(z.core)
    ensures SystemOk(z)
  {
    hide ServerOk, Welcomed, RepliesOk, IdsOk, ClientOk, ServerMoved, InFlight, Rising;
    MovedFlight(y, z);
    MovedReplies(y, z);
    MovedIds(y, z);
    MovedClient(y, z);
  }

  lemma ServesKeeps(y: System, a: Action)
    requires SystemOk(y) && Possible(y, Serves(a))
    ensures SystemOk(Then(y, Serves(a)))
  {
    hide ServerOk, Welcomed, RepliesOk, IdsOk, ClientOk, Passes, Next, InFlight, Rising, Beyond;
    NextKeeps(y.core, a);
    NextPasses(y.core, a, y.n);
    ServedBeyond(y.core, a, y.n);
    OpeningFits(y);
    MovedKeeps(y, Then(y, Serves(a)));
  }

  lemma OpeningFits(y: System)
    requires ServerOk(y.core)
    ensures y.core.doing == OpeningCall(y.n) ==> !Beyond(y.core.links, y.n)
  {
    hide ServerOk, Beyond;
    OkLinks(y.core);
    if y.core.doing == OpeningCall(y.n) {
      OpeningNotBeyond(y.core, y.n);
    }
  }

  lemma OkLinks(s: Core)
    requires ServerOk(s)
    ensures LinksOk(s)
  {
    hide LinksOk, RequestsOk, LogOk, AnswersOk, EndsOk;
  }

  lemma ServedBeyond(s: Core, a: Action, n: int)
    requires ServerOk(s) && Welcomed(s) && Enabled(s, a) && Passes(s, Next(s, a), n)
    ensures Welcomed(Next(s, a))
  {
    hide LinksOk, RequestsOk, LogOk, AnswersOk, EndsOk, Next, Welcomed, StaysBeyond, Pops, Posts, SameAccepted,
         GenerationKept;
    WelcomedKeeps(s, a);
  }

  // -- the client acts ---------------------------------------------------------------------------

  /** The outbox and the server are as before. */
  ghost predicate ClientMoved(y: System, z: System) {
    z.core == y.core && z.n == y.n && z.client.nextId >= y.client.nextId
  }

  lemma {:induction false} UpJoin(up: seq<Sent>, m: Sent)
    ensures UpResets(up + [m]) == UpResets(up) + (if m.SentReset? then [m.id] else [])
  {
    if up != [] {
      UpJoin(up[1..], m);
      assert (up + [m])[1..] == up[1..] + [m];
    }
  }

  /** A new id makes what was in flight, and every message so far, older. */
  lemma NewIdReplies(y: System, z: System)
    requires RepliesOk(y) && ClientMoved(y, z) && z.client.nextId == y.client.nextId + 1
    requires InFlight(z) == InFlight(y) || InFlight(z) == InFlight(y) + [y.client.nextId]
    requires z.client.generation == y.client.generation
    requires z.client.call == y.client.call == NoCall || z.client.call == ResetCall(y.client.nextId)
          || (z.client.call == StepCall(y.client.nextId) && ServerOk(y.core) && IdsOk(y))
    ensures RepliesOk(z)
  {
    hide InFlight, Beyond, GenerationOf, ServerOk, IdsOk;
    forall i: nat | i < |Inbox(z)| ensures ReplyOk(z, Inbox(z)[i]) {
      var m := Inbox(y)[i];
      assert ReplyOk(y, m);
      if m.Answer? && z.client.call.StepCall? {
        AnswerIsOld(y, i);
      }
    }
  }

  /** Whatever the server answered, this session asked under an id of its own. */
  lemma AnswerIsOld(y: System, i: nat)
    requires ServerOk(y.core) && IdsOk(y) && i < |Inbox(y)| && Inbox(y)[i].Answer?
    ensures var m := Inbox(y)[i];
            IsOwn(y, m.order) && IdOf(y, m.order) == m.requestId && 1 <= m.requestId < y.client.nextId
  {
    OkBoxes(y.core);
    hide ServerOk;
    assert IsGiven(Inbox(y)[i], y.n, i, y.core.answers.fates, y.core.requests.ledger);
    assert IsOwn(y, Inbox(y)[i].order);
  }

  lemma OkBoxes(s: Core)
    requires ServerOk(s)
    ensures BoxesOk(s.answers.boxes, s.answers.fates, s.requests.ledger)
  {
    hide LinksOk, RequestsOk, LogOk, EndsOk, BoxesOk, FatesOk, OwesOk, LostOk, AcceptedOn, FlushOk;
  }

  lemma SameIds(y: System, z: System)
    requires IdsOk(y) && ClientMoved(y, z) && z.up == y.up
    ensures IdsOk(z)
  {
    assert forall o :: IsOwn(z, o) <==> IsOwn(y, o);
  }

  lemma SameReplies(y: System, z: System)
    requires RepliesOk(y) && ClientMoved(y, z) && z.client.nextId == y.client.nextId && InFlight(z) == InFlight(y)
    requires z.client.call == NoCall || (z.client.call == y.client.call && z.client.generation == y.client.generation)
    ensures RepliesOk(z)
  {
    hide InFlight, Beyond, GenerationOf;
    forall i: nat | i < |Inbox(z)| ensures ReplyOk(z, Inbox(z)[i]) {
      assert ReplyOk(y, Inbox(y)[i]);
    }
  }

  /** The client went on without sending anything. */
  lemma QuietKeeps(y: System, z: System)
    requires SystemOk(y) && z == y.(client := z.client, read := z.read) && z.client.nextId == y.client.nextId
    requires z.client.call == NoCall || (z.client.call == y.client.call && z.client.generation == y.client.generation)
    requires ClientOk(z)
    ensures SystemOk(z)
  {
    hide ServerOk, Welcomed, RepliesOk, IdsOk, ClientOk, Rising, Unanswered, UpResets;
    SameReplies(y, z);
    SameIds(y, z);
  }

  lemma MessageOk(y: System, i: nat)
    requires SystemOk(y) && i < |Inbox(y)|
    ensures ReplyOk(y, Inbox(y)[i]) && ClientOk(y)
  {
    hide ServerOk, Welcomed, IdsOk, ClientOk, Rising, ReplyOk;
  }

  lemma JoinKeeps(y: System)
    requires SystemOk(y) && Possible(y, Joins)
    ensures SystemOk(Then(y, Joins))
  {
    hide SystemOk, Unanswered, UpResets, Beyond, GenerationOf;
    MessageOk(y, y.read);
    QuietKeeps(y, Then(y, Joins));
  }

  lemma HearKeeps(y: System)
    requires SystemOk(y) && Possible(y, Event.Hears)
    ensures SystemOk(Then(y, Event.Hears))
  {
    hide SystemOk, Unanswered, UpResets, Beyond, GenerationOf;
    MessageOk(y, y.read);
    QuietKeeps(y, Then(y, Event.Hears));
  }

  lemma FinishKeeps(y: System)
    requires SystemOk(y) && Possible(y, Finishes)
    ensures SystemOk(Then(y, Finishes))
  {
    hide SystemOk, Unanswered, UpResets, Beyond, GenerationOf;
    ReplyIsOk(y);
    QuietKeeps(y, Then(y, Finishes));
  }

  /** The reply the client holds came out of its outbox. */
  lemma ReplyIsOk(y: System)
    requires SystemOk(y) && y.client.reply.Some?
    ensures ReplyOk(y, y.client.reply.value) && ClientOk(y)
  {
    hide ServerOk, Welcomed, IdsOk, Rising, ReplyOk, Unanswered, UpResets, Beyond, GenerationOf;
    var i :| 0 <= i < |Inbox(y)| && Inbox(y)[i] == y.client.reply.value;
  }

  lemma LoseKeeps(y: System, e: Event)
    requires SystemOk(y) && Possible(y, e) && (e.Loses? || e.Closes?)
    ensures SystemOk(Then(y, e))
  {
    hide ServerOk, Welcomed, RepliesOk, IdsOk, Rising, Unanswered, UpResets, Beyond, GenerationOf;
    hide SystemOk;
    SystemParts(y);
    QuietKeeps(y, Then(y, e));
  }

  lemma SystemParts(y: System)
    requires SystemOk(y)
    ensures ServerOk(y.core) && Welcomed(y.core) && Rising(InFlight(y), y.client.nextId)
    ensures RepliesOk(y) && IdsOk(y) && ClientOk(y)
  {
    hide ServerOk, Welcomed, RepliesOk, IdsOk, Rising, InFlight, ClientOk;
  }

  // -- the client sends --------------------------------------------------------------------------

  /** One more message under way, under the newest id or for a step that gave up. */
  lemma SentIds(y: System, z: System, m: Sent)
    requires IdsOk(y) && ClientMoved(y, z) && z.up == y.up + [m]
    requires 1 <= m.id < z.client.nextId && (m.SentStep? ==> m.id >= y.client.nextId)
    ensures IdsOk(z)
  {
    assert forall o :: IsOwn(z, o) <==> IsOwn(y, o);
  }

  lemma SentFlight(y: System, z: System, m: Sent)
    requires Rising(InFlight(y), y.client.nextId) && ClientMoved(y, z) && z.up == y.up + [m]
    requires m.SentReset? ==> m.id == y.client.nextId && z.client.nextId == m.id + 1 && 1 <= m.id
    ensures Rising(InFlight(z), z.client.nextId)
    ensures InFlight(z) == InFlight(y) + (if m.SentReset? then [m.id] else [])
  {
    hide Unanswered;
    UpJoin(y.up, m);
    assert InFlight(z) == InFlight(y) + (if m.SentReset? then [m.id] else []);
  }

  lemma SendKeeps(y: System, z: System, m: Sent)
    requires SystemOk(y) && z == y.(client := z.client, up := y.up + [m])
    requires 1 <= m.id < z.client.nextId && (m.SentStep? ==> m.id >= y.client.nextId)
    requires (m.SentStep? || m.SentReset?) ==> m.id == y.client.nextId && z.client.nextId == y.client.nextId + 1
    requires m.SentCancel? ==> z.client.nextId == y.client.nextId && z.client.call == NoCall
    requires m.SentStep? ==> z.client.call == StepCall(m.id)
    requires m.SentReset? ==> z.client.call == ResetCall(m.id)
    requires z.client.generation == y.client.generation
    requires InFlight(z) == InFlight(y) + (if m.SentReset? then [m.id] else []) ==> ClientOk(z)
    ensures SystemOk(z)
  {
    hide SystemOk, ServerOk, Welcomed, RepliesOk, IdsOk, ClientOk, Rising, InFlight;
    SystemParts(y);
    SentIds(y, z, m);
    SentFlight(y, z, m);
    assert InFlight(y) + [] == InFlight(y);
    if m.SentCancel? {
      SameReplies(y, z);
    } else {
      NewIdReplies(y, z);
    }
    SystemWhole(z);
  }

  lemma SystemWhole(y: System)
    requires ServerOk(y.core) && Welcomed(y.core) && Rising(InFlight(y), y.client.nextId)
    requires RepliesOk(y) && IdsOk(y) && ClientOk(y)
    ensures SystemOk(y)
  {
    hide ServerOk, Welcomed, RepliesOk, IdsOk, Rising, InFlight, ClientOk;
  }

  /** An id was used up by a message that was not sent. */
  lemma UnsentKeeps(y: System, z: System)
    requires SystemOk(y) && z == y.(client := z.client) && z.client.nextId == y.client.nextId + 1
    requires z.client.call == y.client.call == NoCall && z.client.generation == y.client.generation && ClientOk(z)
    ensures SystemOk(z)
  {
    hide SystemOk, ServerOk, Welcomed, RepliesOk, IdsOk, ClientOk, Rising, Unanswered, UpResets;
    SystemParts(y);
    SameIds(y, z);
    NewIdReplies(y, z);
    RisingMore(InFlight(y), y.client.nextId);
    SystemWhole(z);
  }

  lemma RisingMore(ids: seq<int>, below: int)
    requires Rising(ids, below)
    ensures Rising(ids, below + 1)
  {
  }

  lemma BeginStepKeeps(y: System, payload: int, timeout: Option<real>, delivery: Delivery)
    requires SystemOk(y) && Possible(y, BeginsStep(payload, timeout, delivery))
    ensures SystemOk(Then(y, BeginsStep(payload, timeout, delivery)))
  {
    hide SystemOk, Unanswered, UpResets, Beyond, GenerationOf;
    SystemParts(y);
    hide RepliesOk, IdsOk, Rising;
    var z, m := Then(y, BeginsStep(payload, timeout, delivery)), StepSent(y.client, payload, timeout, delivery);
    if m.Some? {
      SendKeeps(y, z, m.value);
    } else if z.client.nextId > y.client.nextId {
      UnsentKeeps(y, z);
    } else {
      QuietKeeps(y, z);
    }
  }

  lemma BeginResetKeeps(y: System, delivery: Delivery)
    requires SystemOk(y) && Possible(y, BeginsReset(delivery))
    ensures SystemOk(Then(y, BeginsReset(delivery)))
  {
    hide SystemOk, Unanswered, UpResets, Beyond, GenerationOf;
    SystemParts(y);
    hide RepliesOk, IdsOk, Rising;
    var z, m := Then(y, BeginsReset(delivery)), ResetSent(y.client, delivery);
    if m.Some? {
      SendKeeps(y, z, m.value);
    } else if z.client.nextId > y.client.nextId {
      UnsentKeeps(y, z);
    } else {
      QuietKeeps(y, z);
    }
  }

  lemma TimeOutKeeps(y: System, delivery: Delivery)
    requires SystemOk(y) && Possible(y, TimesOut(delivery))
    ensures SystemOk(Then(y, TimesOut(delivery)))
  {
    hide SystemOk, Unanswered, UpResets, Beyond, GenerationOf;
    SystemParts(y);
    hide RepliesOk, IdsOk, Rising;
    var z, m := Then(y, TimesOut(delivery)), CancelSent(y.client, delivery);
    if m.Some? {
      SendKeeps(y, z, m.value);
    } else {
      QuietKeeps(y, z);
    }
  }

  // -- the server hears the session --------------------------------------------------------------

  /** The channel without its first message. */
  lemma PopKeeps(y: System)
    requires SystemOk(y) && y.up != []
    ensures SystemOk(y.(up := y.up[1..]))
  {
    hide SystemOk, ServerOk, Welcomed, RepliesOk, IdsOk, ClientOk, Rising, InFlight;
    var x := y.(up := y.up[1..]);
    SystemParts(y);
    PoppedIds(y);
    PoppedFlight(y);
    PoppedReplies(y, x);
    PoppedClient(y, x);
    SystemWhole(x);
  }

  lemma PoppedIds(y: System)
    requires IdsOk(y) && y.up != []
    ensures IdsOk(y.(up := y.up[1..]))
  {
    var x := y.(up := y.up[1..]);
    assert forall o :: IsOwn(x, o) <==> IsOwn(y, o);
    assert forall j :: 0 <= j < |x.up| ==> x.up[j] == y.up[j + 1];
  }

  /** What is in flight without the channel's first message: one reset less, if it is one. */
  lemma PoppedFlight(y: System)
    requires Rising(InFlight(y), y.client.nextId) && y.up != []
    ensures var x := y.(up := y.up[1..]);
            && Rising(InFlight(x), y.client.nextId)
            && (forall k :: 0 <= k < |InFlight(x)| ==> InFlight(x)[k] in InFlight(y))
            && (y.up[0].SentReset? ==> InFlight(y) != [])
            && (InFlight(y) == [] ==> InFlight(x) == [])
  {
    hide Unanswered;
    var x := y.(up := y.up[1..]);
    var k, before, after := |Unanswered(y.core, y.n)|, InFlight(y), InFlight(x);
    var gap := if y.up[0].SentReset? then 1 else 0;
    assert forall j :: 0 <= j < |after| ==> after[j] == before[if j < k then j else j + gap];
  }

  lemma PoppedReplies(y: System, x: System)
    requires RepliesOk(y) && x == y.(up := x.up)
    requires forall k :: 0 <= k < |InFlight(x)| ==> InFlight(x)[k] in InFlight(y)
    requires InFlight(y) == [] ==> InFlight(x) == []
    ensures RepliesOk(x)
  {
    hide InFlight, Beyond, GenerationOf;
    forall i: nat | i < |Inbox(x)| ensures ReplyOk(x, Inbox(x)[i]) {
      assert ReplyOk(y, Inbox(y)[i]);
    }
  }

  lemma PoppedClient(y: System, x: System)
    requires ClientOk(y) && x == y.(up := x.up) && (InFlight(y) == [] ==> InFlight(x) == [])
    ensures ClientOk(x)
  {
    hide InFlight, Beyond, GenerationOf;
  }

  /** The server took a message without accepting a request or a reset. */
  lemma TookKeeps(y: System, z: System)
    requires SystemOk(y) && y.up != [] && z == y.(core := z.core, up := y.up[1..])
    requires ServerOk(z.core) && Welcomed(z.core) && Passes(y.core, z.core, y.n)
    ensures SystemOk(z)
  {
    hide SystemOk, ServerOk, Welcomed, Passes, Beyond;
    PopKeeps(y);
    SystemParts(y);
    hide IdsOk, RepliesOk, ClientOk, Rising;
    OpeningFits(y);
    MovedKeeps(y.(up := y.up[1..]), z);
  }

  lemma SameWelcomed(s: Core, t: Core)
    requires Welcomed(s) && t.links == s.links && t.doing == s.doing
    ensures Welcomed(t)
  {
  }

  lemma HearsCancel(y: System, now: real)
    requires SystemOk(y) && Possible(y, Delivers(now)) && y.up[0].SentCancel?
    ensures SystemOk(Then(y, Delivers(now)))
  {
    hide SystemOk, ServerOk, Welcomed, Passes, TakeCancel, Consistent;
    SystemParts(y);
    hide IdsOk, RepliesOk, ClientOk, Rising, InFlight;
    var id := y.up[0].id;
    OkConsistent(y.core);
    CancelKeeps(y.core, y.n, id);
    CancelPasses(y.core, y.n, id, y.n);
    CancelAside(y.core, y.n, id);
    SameWelcomed(y.core, TakeCancel(y.core, y.n, id));
    TookKeeps(y, Then(y, Delivers(now)));
  }

  lemma HearsRefusedReset(y: System, now: real)
    requires SystemOk(y) && Possible(y, Delivers(now)) && y.up[0].SentReset? && y.core.server != Serving
    ensures SystemOk(Then(y, Delivers(now)))
  {
    hide SystemOk, ServerOk, Welcomed, Passes, Post;
    SystemParts(y);
    hide IdsOk, RepliesOk, ClientOk, Rising, InFlight;
    var id := y.up[0].id;
    ResetKeeps(y.core, y.n, id);
    ResetPasses(y.core, y.n, id, y.n);
    SameWelcomed(y.core, TakeReset(y.core, y.n, id));
    TookKeeps(y, Then(y, Delivers(now)));
  }

  /** A reset goes from the channel to the server's events: it stays in flight, in its place. */
  lemma HearsReset(y: System, now: real)
    requires SystemOk(y) && Possible(y, Delivers(now)) && y.up[0].SentReset? && y.core.server == Serving
    ensures SystemOk(Then(y, Delivers(now)))
  {
    hide SystemOk, ServerOk, Welcomed, Rising, IdsOk, RepliesOk, ClientOk, Unanswered, UpResets, TakeReset;
    SystemParts(y);
    var z, id := Then(y, Delivers(now)), y.up[0].id;
    ResetKeeps(y.core, y.n, id);
    OwnResetPasses(y.core, y.n, id);
    SameWelcomed(y.core, z.core);
    FirstUp(y.up);
    assert InFlight(z) == InFlight(y);
    PoppedIds(y);
    TookIds(y.(up := y.up[1..]), z);
    TookReplies(y, z);
    TookClient(y, z);
    SystemWhole(z);
  }

  lemma FirstUp(up: seq<Sent>)
    requires up != []
    ensures UpResets(up) == (if up[0].SentReset? then [up[0].id] else []) + UpResets(up[1..])
  {
  }

  lemma TookIds(y: System, z: System)
    requires IdsOk(y) && z == y.(core := z.core) && z.core.requests == y.core.requests
    ensures IdsOk(z)
  {
    assert forall o :: IsOwn(z, o) <==> IsOwn(y, o);
  }

  lemma TookReplies(y: System, z: System)
    requires RepliesOk(y) && z == y.(core := z.core, up := z.up)
    requires z.core.links == y.core.links && z.core.answers.boxes == y.core.answers.boxes && InFlight(z) == InFlight(y)
    ensures RepliesOk(z)
  {
    hide InFlight, Beyond, GenerationOf;
    forall i: nat | i < |Inbox(z)| ensures ReplyOk(z, Inbox(z)[i]) {
      assert ReplyOk(y, Inbox(y)[i]);
    }
  }

  lemma TookClient(y: System, z: System)
    requires ClientOk(y) && z == y.(core := z.core, up := z.up)
    requires z.core.links == y.core.links && z.core.answers.boxes == y.core.answers.boxes && InFlight(z) == InFlight(y)
    ensures ClientOk(z)
  {
    hide InFlight, Beyond, GenerationOf;
  }

  /** An accepted step: its id is new among the session's requests. */
  lemma AcceptedIds(y: System, z: System, now: real)
    requires IdsOk(y) && y.up != [] && y.up[0].SentStep? && z == y.(core := z.core, up := y.up[1..])
    requires z.core.requests == Accept(y.core.requests, Heard(y.up[0], y.n, now).w)
    requires forall o :: o in y.core.requests.ledger ==> o < y.core.requests.policy.nextOrder
    ensures IdsOk(z)
  {
    var w := Heard(y.up[0], y.n, now).w;
    if Accepts(y.core.requests.policy, w) {
      var o := y.core.requests.policy.nextOrder;
      assert forall p :: p != o ==> (IsOwn(z, p) <==> IsOwn(y, p));
      assert IdOf(z, o) == y.up[0].id;
    } else {
      assert forall p :: IsOwn(z, p) <==> IsOwn(y, p);
    }
    assert forall j :: 0 <= j < |z.up| ==> z.up[j] == y.up[j + 1];
  }

  lemma OrdersNamed(s: Core)
    requires ServerOk(s)
    ensures forall o :: o in s.requests.ledger ==> o < s.requests.policy.nextOrder
  {
    hide ServerOk, Ordered, Listed, Ticketed, HoldsOne;
    OkConsistent(s);
  }

  lemma HearsStep(y: System, now: real)
    requires SystemOk(y) && Possible(y, Delivers(now)) && y.up[0].SentStep?
    ensures SystemOk(Then(y, Delivers(now)))
  {
    hide SystemOk, ServerOk, Welcomed, Rising, IdsOk, RepliesOk, ClientOk, Unanswered, UpResets, TakeStep, Passes;
    SystemParts(y);
    var z, w := Then(y, Delivers(now)), Heard(y.up[0], y.n, now).w;
    StepKeeps(y.core, w);
    StepAside(y.core, w);
    SameWelcomed(y.core, z.core);
    if z.core.requests == y.core.requests {
      StepPasses(y.core, w, y.n);
      TookKeeps(y, z);
    } else {
      StepAccepts(y.core, w, y.n);
      FirstUp(y.up);
      assert InFlight(z) == InFlight(y);
      OrdersNamed(y.core);
      AcceptedIds(y, z, now);
      TookReplies(y, z);
      TookClient(y, z);
      SystemWhole(z);
    }
  }

  lemma StepAccepts(s: Core, w: Waiting, n: int)
    requires TakeStep(s, w).requests != s.requests
    ensures var t := TakeStep(s, w);
            && t.requests == Accept(s.requests, w) && t.answers.boxes == s.answers.boxes && t.links == s.links
            && Unanswered(t, n) == Unanswered(s, n)
  {
    hide ErrandResets, EventResets;
  }

  lemma DeliversKeeps(y: System, now: real)
    requires SystemOk(y) && Possible(y, Delivers(now))
    ensures SystemOk(Then(y, Delivers(now)))
  {
    hide SystemOk;
    if y.up[0].SentStep? {
      HearsStep(y, now);
    } else if y.up[0].SentCancel? {
      HearsCancel(y, now);
    } else if y.core.server == Serving {
      HearsReset(y, now);
    } else {
      HearsRefusedReset(y, now);
    }
  }

  // -- every run -----------------------------------------------------------------------------------

  lemma ThenKeeps(y: System, e: Event)
    requires SystemOk(y) && Possible(y, e)
    ensures SystemOk(Then(y, e))
  {
    hide SystemOk;
    match e
    case Serves(a) => ServesKeeps(y, a);
    case Delivers(now) => DeliversKeeps(y, now);
    case Joins => JoinKeeps(y);
    case BeginsStep(payload, timeout, delivery) => BeginStepKeeps(y, payload, timeout, delivery);
    case BeginsReset(delivery) => BeginResetKeeps(y, delivery);
    case Hears => HearKeeps(y);
    case Finishes => FinishKeeps(y);
    case TimesOut(delivery) => TimeOutKeeps(y, delivery);
    case _ => LoseKeeps(y, e);
  }

  ghost predicate IsHistory(systems: seq<System>, events: seq<Event>) {
    && |systems| == |events| + 1
    && forall i :: 0 <= i < |events| ==>
        Possible(systems[i], events[i]) && systems[i + 1] == Then(systems[i], events[i])
  }

  function First(maxSessions: nat, maxBatch: nat, window: real, n: int): System {
    System(Start(maxSessions, maxBatch, window), n, NEW_CLIENT, [], 0)
  }

  /** Some interleaving of the server, its other sessions, this one's client and the channels
      between them reaches this state. */
  ghost predicate Occurs(y: System) {
    exists systems, events, maxSessions: nat, maxBatch: nat, window: real ::
      && maxBatch >= 1 && IsHistory(systems, events)
      && systems[0] == First(maxSessions, maxBatch, window, y.n) && systems[|events|] == y
  }

  lemma FirstOk(maxSessions: nat, maxBatch: nat, window: real, n: int)
    requires maxBatch >= 1
    ensures SystemOk(First(maxSessions, maxBatch, window, n))
  {
    hide ServerOk;
    StartOk(maxSessions, maxBatch, window);
  }

  lemma {:induction false} HistoryKeeps(systems: seq<System>, events: seq<Event>, i: nat)
    requires IsHistory(systems, events) && SystemOk(systems[0]) && i <= |events|
    ensures SystemOk(systems[i])
    decreases i
  {
    hide SystemOk;
    if i > 0 {
      HistoryKeeps(systems, events, i - 1);
      ThenKeeps(systems[i - 1], events[i - 1]);
    }
  }

  lemma OccursOk(y: System)
    requires Occurs(y)
    ensures SystemOk(y)
  {
    hide SystemOk, Then, Possible;
    var systems, events, maxSessions: nat, maxBatch: nat, window: real :|
      && maxBatch >= 1 && IsHistory(systems, events)
      && systems[0] == First(maxSessions, maxBatch, window, y.n) && systems[|events|] == y;
    FirstOk(maxSessions, maxBatch, window, y.n);
    HistoryKeeps(systems, events, |events|);
  }

  /** Whenever the client may step, client and server agree on the generation and no reset is
      anywhere on its way: not sent, not queued, not being applied, whatever timed out before. */
  lemma AgreedWhenUsable(y: System)
    requires Occurs(y) && !y.client.resetRequired
    ensures GenerationOf(y.core.links, y.n) == y.client.generation
    ensures InFlight(y) == []
    ensures forall i :: 0 <= i < |y.up| ==> !y.up[i].SentReset?
  {
    hide Occurs, Unanswered, UpResets;
    OccursOk(y);
    hide ServerOk, Welcomed, RepliesOk, IdsOk, Rising;
    NoneUp(y.up);
  }

  lemma {:induction false} NoneUp(up: seq<Sent>)
    requires UpResets(up) == []
    ensures forall i :: 0 <= i < |up| ==> !up[i].SentReset?
  {
    if up != [] {
      NoneUp(up[1..]);
    }
  }

  /** A step returns only the answer to its own request: the one request the server accepted from
      this session under this id, computed in the generation of the client's last reset. */
  lemma StepReturnsItsOwn(y: System)
    requires Occurs(y) && y.client.call.StepCall? && y.client.reply.Some? && Result(y.client).Gave?
    ensures var m := Result(y.client).answer;
            && m.requestId == y.client.call.id
            && IsOwn(y, m.order) && IdOf(y, m.order) == y.client.call.id
            && (forall o :: IsOwn(y, o) && IdOf(y, o) == y.client.call.id ==> o == m.order)
            && m.generation == y.client.generation == GenerationOf(y.core.links, y.n)
            && (exists i :: AnsweredAt(y.core, y.n, i, m.order))
  {
    hide Occurs, Unanswered, UpResets, Beyond, GenerationOf;
    OccursOk(y);
    hide Welcomed, Rising, ServerOk;
    var i: nat :| i < |Inbox(y)| && Inbox(y)[i] == y.client.reply.value;
    assert ReplyOk(y, Inbox(y)[i]);
    AnswerIsOld(y, i);
    assert AnsweredAt(y.core, y.n, i, Inbox(y)[i].order);
  }
}
