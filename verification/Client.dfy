/** The session runtime's client of the model server: one call at a time, each under its own id, and
    no step until a reset has completed. `Client` is its state as a value; `ModelClient` is the
    object, proved against the functions. */
module Clients {
  import opened Batching
  import opened ServerCore

  datatype LinkState = Joining | Usable | Ended

  /** The call that waits for an answer, if any. */
  datatype Call = NoCall | StepCall(id: int) | ResetCall(id: int)

  datatype Client = Client(
    state: LinkState, resetRequired: bool, generation: nat, nextId: int, call: Call, reply: Option<Message>)

  datatype Sent = SentStep(id: int, payload: int, timeout: Option<real>) | SentCancel(id: int) | SentReset(id: int)

  /** What became of a send: done, refused before anything was sent, or the link was gone. */
  datatype Delivery = Done | Unsent | LinkGone

  /** A call raises, or returns a result, or the new generation. */
  datatype Outcome = Raised | Gave(answer: Message) | WasReset(generation: nat)

  const NEW_CLIENT := Client(Joining, true, 0, 1, NoCall, None)

  /** The answer to the hello. */
  function Join(c: Client, m: Message): Client {
    if m.Welcome? then c.(state := Usable, generation := m.generation) else c.(state := Ended)
  }

  function AfterSend(c: Client, delivery: Delivery, call: Call): Client {
    match delivery
    case Done => c.(call := call, reply := None)
    case Unsent => c
    case LinkGone => c.(state := Ended)
  }

  /** `step()` up to its wait. It raises at once on a link that ended, or before a reset. */
  function BeginStep(c: Client, delivery: Delivery): Client {
    if c.state != Usable || c.resetRequired then c
    else AfterSend(c.(nextId := c.nextId + 1), delivery, StepCall(c.nextId))
  }

  function StepSent(c: Client, payload: int, timeout: Option<real>, delivery: Delivery): Option<Sent> {
    if c.state == Usable && !c.resetRequired && delivery == Done then Some(SentStep(c.nextId, payload, timeout))
    else None
  }

  function BeginReset(c: Client, delivery: Delivery): Client {
    if c.state != Usable then c
    else AfterSend(c.(nextId := c.nextId + 1, resetRequired := true), delivery, ResetCall(c.nextId))
  }

  function ResetSent(c: Client, delivery: Delivery): Option<Sent> {
    if c.state == Usable && delivery == Done then Some(SentReset(c.nextId)) else None
  }

  /** Whether this message answers the call under `id`. */
  predicate IsReplyTo(m: Message, id: int) {
    (m.Answer? || m.Failed? || m.ResetDone?) && m.requestId == id
  }

  /** The reader keeps the answer to the call that waits, and drops every other message. */
  function Hear(c: Client, m: Message): Client {
    if c.call != NoCall && IsReplyTo(m, c.call.id) then c.(reply := Some(m)) else c
  }

  /** What the call that waits returns, once it has its reply. */
  function Result(c: Client): Outcome
    requires c.reply.Some?
  {
    if c.call.StepCall? && c.reply.value.Answer? && c.reply.value.result.Some? then Gave(c.reply.value)
    else if c.call.ResetCall? && c.reply.value.ResetDone? then WasReset(c.reply.value.generation)
    else Raised
  }

  function Finish(c: Client): Client
    requires c.reply.Some?
  {
    var ended := c.(call := NoCall, reply := None);
    if Result(c).WasReset? then ended.(generation := Result(c).generation, resetRequired := false) else ended
  }

  /** The call gives up on its answer, and a step is cancelled. */
  function TimeOut(c: Client, delivery: Delivery): Client {
    c.(call := NoCall, reply := None, state := if c.call.StepCall? && delivery == LinkGone && c.state == Usable
      then Ended else c.state)
  }

  function CancelSent(c: Client, delivery: Delivery): Option<Sent> {
    if c.call.StepCall? && c.state == Usable && delivery == Done then Some(SentCancel(c.call.id)) else None
  }

  function Lose(c: Client): Client {
    if c.state == Usable then c.(state := Ended) else c
  }

  function Quit(c: Client): Client {
    c.(state := Ended)
  }
}
