/** What a session makes of the answers it reads: a result that arrives for the call that waits is what the
    call returns, byte for byte. */
module ShmReplies {
  import opened Slots
  import opened Payloads
  import opened ShmLinks
  import opened ShmUnsent

  /** Reading an answer takes it off the socket. The result of the call that waits becomes its reply, whole;
      a failure of that call becomes its failure; an answer to any other call changes nothing. */
  lemma HearingReplies(l: Link)
    requires Reached(l) && l.down != []
    ensures var m, id := Hear(l), l.down[0].id;
            && m.down == l.down[1..] && m.waiting == l.waiting && m.returned == l.returned
            && (l.waiting != Some(id) ==> m.reply == l.reply)
            && (l.waiting == Some(id) && l.down[0].FailedDown? ==> m.reply == Some(Failure))
            && (l.waiting == Some(id) && l.down[0].ResultDown? ==>
                  id in l.computed && m.reply == Some(ShmLinks.Result(Some(l.computed[id]))))
  {
    hide Reached, LinkOk, Unpacked;
    ReachedOk(l);
    if l.waiting == Some(l.down[0].id) && l.down[0].ResultDown? {
      HeardReply(l);
    }
  }

  /** A call whose reply is a result returns it, and one whose reply is a failure returns nothing; either
      way it no longer waits. */
  lemma ReturningGives(l: Link)
    requires Reached(l) && l.waiting.Some? && l.reply.Some?
    ensures var m, id := Return(l), l.waiting.value;
            && m.waiting == None && m.reply == None
            && (l.reply.value.Result? ==> id in l.computed && m.returned == l.returned + [(id, Some(l.computed[id]))])
            && (l.reply.value.Failure? ==> m.returned == l.returned)
  {
    hide Reached, BlocksOk, HeadersOk, OrderOk, LogsOk;
    ReachedOk(l);
  }

  // -- receiving ---------------------------------------------------------------------------------------

  /** The model server's end takes one message at a time. A step is read exactly if it has no arrays, or its
      block is the one still mapped, or the block's file is still there; it is then rebuilt from what is
      behind that name, and its block is the one mapped. One whose block is gone is skipped, and unmaps. */
  lemma ReceivingReads(l: Link)
    requires l.up != []
    ensures var m, head := Receive(l), l.up[0];
            && m.up == l.up[1..] && m.files == l.files && m.memory == l.memory && m.down == l.down
            && (head.CancelUp? ==> m.received == l.received && m.mapped == l.mapped)
            && (head.StepUp? ==>
                  var found := head.header.spans == [] || l.mapped == Some(head.block) || head.block in l.files;
                  && |m.received| == |l.received| + 1 && m.received[..|l.received|] == l.received
                  && m.received[|l.received|] ==
                       (if found then Read(head.id, Unpacked(head.header, Memory(l, head.block))) else Skipped(head.id))
                  && (head.header.spans != [] ==> m.mapped == if found then Some(head.block) else None)
                  && (head.header.spans == [] ==> m.mapped == l.mapped))
  {
    hide Unpacked;
  }

  // -- cancelling --------------------------------------------------------------------------------------

  /** A cancel that is sent goes last on the socket, and leaves its session a fresh block, of a name never
      used before and nothing written in it; the block of the cancelled step is kept, as it was, until the
      next cancel. A cancel that cannot be sent leaves the session its block. */
  lemma CancelLeaves(l: Link, sent: bool)
    requires Reached(l) && l.waiting.Some? && l.reply.None?
    ensures var m := SendCancel(l, sent);
            && m.waiting == None && m.reply == None && m.down == l.down && m.received == l.received
            && l.writer in l.memory
            && (sent ==>
                  && m.up == l.up + [CancelUp(l.waiting.value)]
                  && m.writer !in l.memory && m.writer !in l.files
                  && m.writer in m.memory && m.memory[m.writer] == seq(l.capacity, i => 0)
                  && l.writer in m.memory && m.memory[l.writer] == l.memory[l.writer]
                  && m.files == {m.writer, l.writer})
            && (!sent ==> m.up == l.up && m.writer == l.writer && m.memory == l.memory && m.files == {l.writer})
  {
    hide Reached, HeadersOk, OrderOk, LogsOk, AnswersOk;
    ReachedOk(l);
  }

  // -- a step and its result -------------------------------------------------------------------------

  lemma LeadsOn(l: Link, m: Link, a: Act, n: Link)
    requires Leads(l, m) && Reaches(m, a, n)
    ensures Leads(l, n)
  {
    hide Reaches;
    var links, acts :| IsRun(links, acts) && links[0] == l && links[|acts|] == m;
    var longer, more := links + [n], acts + [a];
    assert IsRun(longer, more) && longer[0] == l && longer[|more|] == n;
  }

  /** From any reachable link with nothing under way: a step is read whole, and the result written for it is
      what its caller gets, whatever the two hold and whatever the blocks held before. */
  lemma StepComesBack(l: Link, o: Payload, result: Payload)
    requires Reached(l) && l.waiting.None? && l.reply.None? && l.up == [] && l.down == []
    requires |Flat(o.buffers)| <= l.capacity && |Flat(result.buffers)| <= |l.output|
    ensures exists m :: Leads(l, m) && m.received == l.received + [Read(l.nextId, Some(o))]
                        && m.returned == l.returned + [(l.nextId, Some(result))]
  {
    hide Reached, LinkOk, Flat, Laid, Unpacked, Leads;
    ReachedOk(l);
    IdsAhead(l);
    SendsAndReads(l, o);
    var b: Link :| Leads(l, b) && LinkOk(b) && Reached(b) && b.received == l.received + [Read(l.nextId, Some(o))]
                   && b.waiting == Some(l.nextId) && b.reply.None? && b.down == [] && b.returned == l.returned
                   && b.lastAnswered == l.lastAnswered && b.output == l.output && b.up == [];
    AnswersAndReturns(l, b, l.nextId, result);
  }

  lemma IdsAhead(l: Link)
    requires LinkOk(l)
    ensures l.lastAnswered < l.nextId
  {
    hide BlocksOk, HeadersOk, AnswersOk, LogsOk;
  }

  lemma SendsAndReads(l: Link, o: Payload)
    requires Reached(l) && l.waiting.None? && l.reply.None? && l.up == [] && l.down == []
    requires |Flat(o.buffers)| <= l.capacity
    ensures exists b :: Leads(l, b) && LinkOk(b) && Reached(b) && b.received == l.received + [Read(l.nextId, Some(o))]
                        && b.waiting == Some(l.nextId) && b.reply.None? && b.down == [] && b.returned == l.returned
                        && b.lastAnswered == l.lastAnswered && b.output == l.output && b.up == []
  {
    hide Reached, Flat, Laid, Leads, HeadersOk, OrderOk, AnswersOk, LogsOk, Unpacked;
    ReachedOk(l);
    LeadsNowhere(l);
    DoKeeps(l, Steps(o));
    var a := Do(l, Steps(o));
    MoreReached(l, Steps(o), a);
    LeadsOn(l, l, Steps(o), a);
    DoKeeps(a, Receives);
    var b := Do(a, Receives);
    MoreReached(a, Receives, b);
    LeadsOn(l, a, Receives, b);
    ReadsNext(l, a, o);
  }

  lemma ReadsNext(l: Link, a: Link, o: Payload)
    requires LinkOk(a) && l.up == [] && a.waiting == Some(l.nextId) && a.received == l.received
    requires a.up == [StepUp(l.nextId, a.writer, ShmLinks.HeaderOf(o, a.writer))]
    requires a.writer in a.memory && a.writer in a.files && l.nextId in a.wrote && a.wrote[l.nextId] == o
    requires a.reply.None? && a.down == l.down && a.returned == l.returned
    ensures var b := Receive(a);
            && b.received == l.received + [Read(l.nextId, Some(o))] && b.up == []
            && b.waiting == a.waiting && b.reply == a.reply && b.down == a.down && b.returned == a.returned
            && b.lastAnswered == a.lastAnswered && b.output == a.output
  {
    hide Flat, Laid, AnswersOk, LogsOk, BlocksOk;
    NotDropped(a);
    UnpacksWhatWasPacked(o, a.up[0].header, a.memory[a.writer]);
    hide Unpacked;
  }

  lemma NotDropped(a: Link)
    requires LinkOk(a) && a.waiting.Some?
    ensures a.waiting.value !in a.dropped
  {
    hide BlocksOk, HeadersOk, AnswersOk, LogsOk;
  }

  lemma AnswersAndReturns(l: Link, b: Link, id: int, result: Payload)
    requires Leads(l, b) && Reached(b) && b.waiting == Some(id) && b.reply.None? && b.down == []
    requires b.received != [] && b.received[|b.received| - 1].Read? && b.received[|b.received| - 1].id == id
    requires |Flat(result.buffers)| <= |b.output| && b.lastAnswered < id && b.returned == l.returned
    ensures exists m :: Leads(l, m) && m.received == b.received && m.returned == l.returned + [(id, Some(result))]
  {
    hide Reached, Flat, Laid, Leads, LinkOk, Unpacked;
    ReachedOk(b);
    assert WasReceived(b, id);
    DoKeeps(b, Answers(id, result));
    var c := Do(b, Answers(id, result));
    MoreReached(b, Answers(id, result), c);
    LeadsOn(l, b, Answers(id, result), c);
    DoKeeps(c, ShmLinks.Hears);
    HearingReplies(c);
    var d := Do(c, ShmLinks.Hears);
    MoreReached(c, ShmLinks.Hears, d);
    LeadsOn(l, c, ShmLinks.Hears, d);
    DoKeeps(d, Returns);
    ReturningGives(d);
    LeadsOn(l, d, Returns, Do(d, Returns));
  }
}
