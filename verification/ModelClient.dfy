/** The client as the object its callers and its reader thread share: the replies kept by id, the id
    that waits, and the state every call checks first. Each method is one region of the source. */
module ModelClients {
  import opened Batching
  import opened ServerCore
  import opened Clients

  class ModelClient {
    var state: LinkState
    var resetRequired: bool
    var generation: nat
    var ids: int
    var replies: map<int, Message>
    var waiting: Option<int>
    /** Whether the call that waits is a reset: where its caller is in its code. */
    var resetting: bool

    /** At most the call that waits has a reply. */
    ghost predicate Valid()
      reads this
    {
      forall id :: id in replies ==> waiting == Some(id)
    }

    ghost function View(): Client
      reads this
    {
      Client(state, resetRequired, generation, ids,
        if waiting.None? then NoCall else if resetting then ResetCall(waiting.value) else StepCall(waiting.value),
        if waiting.Some? && waiting.value in replies then Some(replies[waiting.value]) else None)
    }

    constructor (welcome: Message)
      requires welcome.Welcome?
      ensures Valid() && View() == Join(NEW_CLIENT, welcome)
    {
      state, resetRequired, generation, ids, replies, waiting, resetting := Usable, true, welcome.generation, 1, map[],
        None, false;
    }

    /** Send the first message of a call, which then waits for its answer. */
    method Send(delivery: Delivery, isReset: bool) returns (sent: bool)
      requires Valid() && waiting.None?
      modifies this
      ensures Valid()
      ensures sent == (delivery == Done)
      ensures View() == AfterSend(old(View()).(nextId := old(ids) + 1), delivery,
                                  if isReset then ResetCall(old(ids)) else StepCall(old(ids)))
    {
      var id := ids;
      ids := ids + 1;
      sent := delivery == Done;
      match delivery
      case Done => waiting := Some(id); resetting := isReset;
      case Unsent =>
      case LinkGone => state := Ended;
    }

    /** `step()` up to its wait; `started` is false when it raises. */
    method StartStep(payload: int, timeout: Option<real>, delivery: Delivery) returns (started: bool,
        message: Option<Sent>)
      requires Valid() && waiting.None?
      modifies this
      ensures Valid() && View() == BeginStep(old(View()), delivery)
      ensures message == StepSent(old(View()), payload, timeout, delivery) && started == message.Some?
    {
      if state != Usable || resetRequired {
        return false, None;
      }
      var id := ids;
      started := Send(delivery, false);
      message := if started then Some(SentStep(id, payload, timeout)) else None;
    }

    /** `reset()` up to its wait. From here on, no step until it completed. */
    method StartReset(delivery: Delivery) returns (started: bool, message: Option<Sent>)
      requires Valid() && waiting.None?
      modifies this
      ensures Valid() && View() == BeginReset(old(View()), delivery)
      ensures message == ResetSent(old(View()), delivery) && started == message.Some?
    {
      if state != Usable {
        return false, None;
      }
      resetRequired := true;
      var id := ids;
      started := Send(delivery, true);
      message := if started then Some(SentReset(id)) else None;
    }

    /** The reader thread received a message. */
    method Read(message: Message)
      requires Valid()
      modifies this
      ensures Valid() && View() == Hear(old(View()), message)
    {
      if (message.Answer? || message.Failed? || message.ResetDone?) && waiting == Some(message.requestId) {
        replies := replies[message.requestId := message];
      }
    }

    /** The call that waits has its reply, and returns or raises. */
    method EndCall() returns (outcome: Outcome)
      requires Valid() && waiting.Some? && waiting.value in replies
      modifies this
      ensures Valid() && View() == Finish(old(View())) && outcome == Result(old(View()))
    {
      var reply := replies[waiting.value];
      outcome := Raised;
      if resetting && reply.ResetDone? {
        generation, resetRequired := reply.generation, false;
        outcome := WasReset(reply.generation);
      } else if !resetting && reply.Answer? && reply.result.Some? {
        outcome := Gave(reply);
      }
      waiting, replies := None, map[];
    }

    /** The call that waits gives up, and a step is cancelled. */
    method GiveUp(delivery: Delivery) returns (message: Option<Sent>)
      requires Valid() && waiting.Some? && waiting.value !in replies
      modifies this
      ensures Valid() && View() == TimeOut(old(View()), delivery)
      ensures message == CancelSent(old(View()), delivery)
    {
      message := None;
      if !resetting && state == Usable {
        if delivery == Done {
          message := Some(SentCancel(waiting.value));
        } else if delivery == LinkGone {
          state := Ended;
        }
      }
      waiting, replies := None, map[];
    }
  }
}
