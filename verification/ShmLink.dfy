/** A session's shared-memory link: requests through a block the session rotates when it cancels,
    results through one block that is never replaced, headers on a socket that the other end reads
    as late as it likes, and no acknowledgement.

    A block is named by the rotation it was created in. `memory` is what is behind each name: a
    reader that has a block mapped still sees it once its file is gone. `wrote`, `computed`,
    `cancelled`, `dropped` and the logs are bookkeeping. */
module ShmLinks {
  import opened Slots
  import opened Payloads

  type Payload = Object<int>

  /** On the socket towards the model server. */
  datatype Up = StepUp(id: int, block: nat, header: Header<int>) | CancelUp(id: int)

  /** On the socket towards the session: a result's header, or a failure's whole message. */
  datatype Down = ResultDown(id: int, header: Header<int>) | FailedDown(id: int)

  /** What `receive()` gave the model server. */
  datatype Received = Read(id: int, payload: Option<Payload>) | Skipped(id: int)

  datatype Reply = Result(payload: Option<Payload>) | Failure

  datatype Link = Link(
    capacity: nat,
    // the session's end
    writer: nat,
    retired: Option<nat>,
    rotations: nat,
    files: set<nat>,
    memory: map<nat, Bytes>,
    nextId: int,
    waiting: Option<int>,
    reply: Option<Reply>,
    // the sockets, and the model server's end
    up: seq<Up>,
    mapped: Option<nat>,
    output: Bytes,
    lastAnswered: int,
    down: seq<Down>,
    // bookkeeping
    wrote: map<int, Payload>,
    computed: map<int, Payload>,
    cancelled: set<int>,
    dropped: set<int>,
    received: seq<Received>,
    returned: seq<(int, Option<Payload>)>)

  /** Bytes written from the block's start, over what it held. */
  function Over(block: Bytes, call: Bytes): Bytes
    requires |call| <= |block|
  {
    call + block[|call|..]
  }

  function HeaderOf(o: Payload, block: nat): Header<int> {
    Header(o.inline, [], Some(("", block)), Laid(o.buffers))
  }

  function Blank(size: nat): Bytes {
    seq(size, i => 0)
  }

  // -- what the two ends do ----------------------------------------------------------------------

  datatype Act =
    | Steps(o: Payload)
    | StepRefused(left: Bytes)
    | Abandons(sent: bool)
    | Receives
    | Answers(id: int, result: Payload)
    | Fails(id: int, left: Bytes)
    | Refuses(id: int)
    | Hears
    | Returns

  predicate WasReceived(l: Link, id: int) {
    exists i :: 0 <= i < |l.received| && l.received[i].Read? && l.received[i].id == id
  }

  /** A session sends its next step only once its previous call ended; a step gives up on its answer
      only while it has none. The model server's results, and the failures it sends instead of one its
      block cannot hold, come in the order of the steps, because it accepts one request of a session at a
      time; what it refuses, or fails without a result, it answers whenever it likes. */
  predicate May(l: Link, a: Act) {
    match a
    case Steps(o) => l.waiting.None? && |Flat(o.buffers)| <= l.capacity
    case StepRefused(left) => l.waiting.None? && |left| == l.capacity
    case Abandons(_) => l.waiting.Some? && l.reply.None?
    case Receives => l.up != []
    case Answers(id, result) => WasReceived(l, id) && id > l.lastAnswered && |Flat(result.buffers)| <= |l.output|
    case Fails(id, left) => WasReceived(l, id) && id > l.lastAnswered && |left| == |l.output|
    case Refuses(id) => WasReceived(l, id)
    case Hears => l.down != []
    case Returns => l.waiting.Some? && l.reply.Some?
  }

  /** `send()` of a step: its arrays over the request block, then its header. */
  function SendStep(l: Link, o: Payload): Link
    requires l.writer in l.memory && |Flat(o.buffers)| <= |l.memory[l.writer]|
  {
    l.(memory := l.memory[l.writer := Over(l.memory[l.writer], Flat(o.buffers))],
       up := l.up + [StepUp(l.nextId, l.writer, HeaderOf(o, l.writer))],
       wrote := l.wrote[l.nextId := o], waiting := Some(l.nextId), reply := None, nextId := l.nextId + 1)
  }

  /** A step too large for its block or its frame: some of its arrays were written, nothing was sent. */
  function RefuseStep(l: Link, left: Bytes): Link {
    l.(memory := l.memory[l.writer := left], nextId := l.nextId + 1)
  }

  /** Release the block a previous cancel retired. */
  function Release(l: Link): Link {
    l.(files := if l.retired.Some? then l.files - {l.retired.value} else l.files, retired := None)
  }

  /** `_send_cancel()`: move to a fresh block, and keep the old one as the retired block. With no
      room for the replacement nothing is sent and the link keeps its block. */
  function SendCancel(l: Link, sent: bool): Link
    requires l.waiting.Some?
  {
    var m := Release(l).(rotations := l.rotations + 1, waiting := None);
    if sent then
      m.(retired := Some(l.writer), writer := m.rotations, files := m.files + {m.rotations},
         memory := l.memory[m.rotations := Blank(l.capacity)],
         up := l.up + [CancelUp(l.waiting.value)], cancelled := l.cancelled + {l.waiting.value})
    else m.(dropped := l.dropped + {l.waiting.value})
  }

  function Memory(l: Link, block: nat): Bytes {
    if block in l.memory then l.memory[block] else []
  }

  /** `receive()` on the model server's end: copy the arrays out of the block the header names; skip
      a step whose block is gone. */
  function Receive(l: Link): Link
    requires l.up != []
  {
    var m, rest := l.up[0], l.(up := l.up[1..]);
    match m
    case CancelUp(_) => rest
    case StepUp(id, block, header) =>
      if header.spans == [] || l.mapped == Some(block) then
        rest.(received := l.received + [Read(id, Unpacked(header, Memory(l, block)))])
      else if block in l.files then
        rest.(mapped := Some(block), received := l.received + [Read(id, Unpacked(header, Memory(l, block)))])
      else
        rest.(mapped := None, received := l.received + [Skipped(id)])
  }

  function SendResult(l: Link, id: int, result: Payload): Link
    requires |Flat(result.buffers)| <= |l.output|
  {
    l.(output := Over(l.output, Flat(result.buffers)), lastAnswered := id,
       down := l.down + [ResultDown(id, HeaderOf(result, 0))], computed := l.computed[id := result])
  }

  /** A result the block could not hold: some of it was written, and its session gets the error instead. */
  function SendFailure(l: Link, id: int, left: Bytes): Link {
    l.(output := left, lastAnswered := id, down := l.down + [FailedDown(id)])
  }

  /** A failure that has no result behind it: a refused step, or one that expired or whose batch failed. */
  function SendRefusal(l: Link, id: int): Link {
    l.(down := l.down + [FailedDown(id)])
  }

  /** The session's reader copies the arrays out as soon as it reads a header, and keeps only the
      answer to the call that waits. */
  function Hear(l: Link): Link
    requires l.down != []
  {
    var m, rest := l.down[0], l.(down := l.down[1..]);
    if l.waiting != Some(m.id) then rest
    else rest.(reply := Some(if m.ResultDown? then Result(Unpacked(m.header, l.output)) else Failure))
  }

  function Return(l: Link): Link
    requires l.waiting.Some? && l.reply.Some?
  {
    l.(waiting := None, reply := None,
       returned := if l.reply.value.Result? then l.returned + [(l.waiting.value, l.reply.value.payload)]
         else l.returned)
  }

  function Do(l: Link, a: Act): Link
    requires May(l, a) && l.writer in l.memory && |l.memory[l.writer]| == l.capacity
  {
    match a
    case Steps(o) => SendStep(l, o)
    case StepRefused(left) => RefuseStep(l, left)
    case Abandons(sent) => SendCancel(l, sent)
    case Receives => Receive(l)
    case Answers(id, result) => SendResult(l, id, result)
    case Fails(id, left) => SendFailure(l, id, left)
    case Refuses(id) => SendRefusal(l, id)
    case Hears => Hear(l)
    case Returns => Return(l)
  }

  function Connected(input: nat, output: nat): Link {
    Link(input, 0, None, 0, {0}, map[0 := Blank(input)], 1, None, None, [], None, Blank(output), 0, [],
         map[], map[], {}, {}, [], [])
  }

  // -- the invariant -----------------------------------------------------------------------------

  /** The session's blocks: the one it writes, and the one its last cancel retired. */
  ghost predicate BlocksOk(l: Link) {
    && (forall b :: b in l.memory ==> b <= l.rotations)
    && l.writer in l.memory && |l.memory[l.writer]| == l.capacity
    && l.writer <= l.rotations && (l.retired.Some? ==> l.retired.value != l.writer && l.retired.value <= l.rotations)
    && l.files == {l.writer} + (if l.retired.Some? then {l.retired.value} else {})
  }

  /** Every header still unread names bytes nobody wrote over, unless its step was given up without
      its cancel; one whose block may go has been cancelled. */
  ghost predicate HeadersOk(l: Link) {
    forall k :: 0 <= k < |l.up| && l.up[k].StepUp? ==>
      var m := l.up[k];
      && m.id in l.wrote && m.header == HeaderOf(l.wrote[m.id], m.block)
      && (m.id !in l.dropped ==>
            && m.block in l.memory && Flat(l.wrote[m.id].buffers) <= l.memory[m.block]
            && (if l.waiting == Some(m.id) then m.block == l.writer else m.id in l.cancelled && m.block != l.writer))
  }

  /** Steps are sent, and read, in the order of their ids. */
  ghost predicate OrderOk(l: Link) {
    && (forall i, k :: 0 <= i < k < |l.up| && l.up[i].StepUp? && l.up[k].StepUp? ==> l.up[i].id < l.up[k].id)
    && (forall i, k :: 0 <= i < |l.received| && 0 <= k < |l.up| && l.up[k].StepUp? ==> l.received[i].id < l.up[k].id)
    && (forall k :: 0 <= k < |l.up| && l.up[k].StepUp? ==> l.up[k].id < l.nextId)
    && (forall i :: 0 <= i < |l.received| ==> l.received[i].id < l.nextId)
    && (l.waiting.Some? ==>
         l.waiting.value == l.nextId - 1 && l.waiting.value in l.wrote && l.waiting.value !in l.dropped)
    && (forall id :: id in l.wrote || id in l.dropped ==> id < l.nextId)
    && l.lastAnswered < l.nextId
  }

  /** The last result is the only one whose bytes are still in the output block for sure, and the
      only one a caller can still be waiting for. */
  ghost predicate AnswersOk(l: Link) {
    && (forall k :: 0 <= k < |l.down| ==> WasReceived(l, l.down[k].id))
    && (forall k :: 0 <= k < |l.down| && l.down[k].ResultDown? ==>
          && l.down[k].id <= l.lastAnswered
          && l.down[k].id in l.computed && l.down[k].header == HeaderOf(l.computed[l.down[k].id], 0)
          && (l.down[k].id == l.lastAnswered ==> Flat(l.computed[l.down[k].id].buffers) <= l.output))
    && (l.reply.Some? ==> l.waiting.Some? && WasReceived(l, l.waiting.value))
    && (l.reply.Some? && l.reply.value.Result? ==>
          l.waiting.value in l.computed && l.reply.value.payload == Some(l.computed[l.waiting.value]))
    && (forall id :: id in l.computed ==> id <= l.lastAnswered)
  }

  /** What was read and returned so far. */
  ghost predicate LogsOk(l: Link) {
    && (forall i :: 0 <= i < |l.received| && l.received[i].Read? ==>
          l.received[i].id in l.wrote
          && (l.received[i].id in l.dropped || l.received[i].payload == Some(l.wrote[l.received[i].id])))
    && (forall i :: 0 <= i < |l.received| && l.received[i].Skipped? ==>
          l.received[i].id in l.cancelled || l.received[i].id in l.dropped)
    && (forall i :: 0 <= i < |l.returned| ==>
          l.returned[i].0 in l.computed && l.returned[i].1 == Some(l.computed[l.returned[i].0]))
  }

  ghost predicate LinkOk(l: Link) {
    BlocksOk(l) && HeadersOk(l) && OrderOk(l) && AnswersOk(l) && LogsOk(l)
  }

  // -- every act keeps it --------------------------------------------------------------------------

  lemma OverStarts(block: Bytes, call: Bytes)
    requires |call| <= |block|
    ensures call <= Over(block, call) && |Over(block, call)| == |block|
  {
  }

  /** With no call waiting, no header but one given up without its cancel names the block in use. */
  lemma WriterFree(l: Link, k: nat)
    requires HeadersOk(l) && l.waiting.None? && k < |l.up| && l.up[k].StepUp? && l.up[k].id !in l.dropped
    ensures l.up[k].block != l.writer
  {
  }

  lemma StepKeeps(l: Link, o: Payload)
    requires LinkOk(l) && May(l, Steps(o))
    ensures LinkOk(SendStep(l, o))
  {
    var m := SendStep(l, o);
    OverStarts(l.memory[l.writer], Flat(o.buffers));
    StepHeaders(l, o);
    StepAnswers(l, m, o);
    hide HeadersOk, AnswersOk, Flat, Laid;
  }

  lemma StepHeaders(l: Link, o: Payload)
    requires BlocksOk(l) && HeadersOk(l) && OrderOk(l) && May(l, Steps(o))
    ensures HeadersOk(SendStep(l, o))
  {
    hide Flat, Laid;
    var m := SendStep(l, o);
    OverStarts(l.memory[l.writer], Flat(o.buffers));
    forall k | 0 <= k < |m.up| && m.up[k].StepUp? && m.up[k].id !in m.dropped && k < |l.up|
      ensures m.up[k].block in m.memory && Flat(m.wrote[m.up[k].id].buffers) <= m.memory[m.up[k].block]
      ensures m.waiting != Some(m.up[k].id) && m.up[k].id in m.cancelled && m.up[k].block != m.writer
    {
      assert m.up[k] == l.up[k];
      WriterFree(l, k);
    }
  }

  lemma StepAnswers(l: Link, m: Link, o: Payload)
    requires AnswersOk(l) && OrderOk(l) && l.waiting.None? && m.received == l.received && m.down == l.down
    requires m.lastAnswered == l.lastAnswered && m.computed == l.computed && m.output == l.output && m.reply.None?
    ensures AnswersOk(m)
  {
    hide Flat, Laid;
    assert forall id :: WasReceived(l, id) ==> WasReceived(m, id);
  }

  /** An act that leaves the answers' direction alone. */
  lemma SameAnswers(l: Link, m: Link)
    requires AnswersOk(l) && m.down == l.down && m.lastAnswered == l.lastAnswered && m.computed == l.computed
    requires m.output == l.output && (m.reply.None? || (m.reply == l.reply && m.waiting == l.waiting))
    requires l.received <= m.received
    ensures AnswersOk(m)
  {
    hide Flat, Laid;
    forall id | WasReceived(l, id) ensures WasReceived(m, id) {
      var i :| 0 <= i < |l.received| && l.received[i].Read? && l.received[i].id == id;
      assert m.received[i] == l.received[i];
    }
  }

  lemma RefuseKeeps(l: Link, left: Bytes)
    requires LinkOk(l) && May(l, StepRefused(left))
    ensures LinkOk(RefuseStep(l, left))
  {
    hide Flat, Laid;
    var m := RefuseStep(l, left);
    forall k: nat | k < |l.up| && l.up[k].StepUp? && l.up[k].id !in l.dropped ensures l.up[k].block != l.writer {
      WriterFree(l, k);
    }
    SameAnswers(l, m);
    hide AnswersOk;
  }

  lemma CancelBlocks(l: Link, sent: bool)
    requires BlocksOk(l) && l.waiting.Some?
    ensures BlocksOk(SendCancel(l, sent))
  {
  }

  lemma CancelHeaders(l: Link, sent: bool)
    requires BlocksOk(l) && HeadersOk(l) && l.waiting.Some?
    ensures HeadersOk(SendCancel(l, sent))
  {
    hide Flat, Laid, Blank;
    var m := SendCancel(l, sent);
    forall k: nat | k < |m.up| && m.up[k].StepUp? && m.up[k].id !in l.dropped
      ensures k < |l.up| && m.up[k] == l.up[k] && m.up[k].block != m.rotations
    {
    }
  }

  lemma CancelKeeps(l: Link, sent: bool)
    requires LinkOk(l) && May(l, Abandons(sent))
    ensures LinkOk(SendCancel(l, sent))
  {
    CancelBlocks(l, sent);
    CancelHeaders(l, sent);
    SameAnswers(l, SendCancel(l, sent));
    hide AnswersOk, HeadersOk, Flat, Laid, Blank;
  }

  /** What reading a header gives: the step's own bytes, or nothing because its block is gone. */
  lemma ReceiveReads(l: Link)
    requires LinkOk(l) && l.up != [] && l.up[0].StepUp?
    ensures var m := l.up[0]; var r := Receive(l).received[|l.received|];
            && Receive(l).received == l.received + [r] && r.id == m.id && m.id in l.wrote
            && (r.Read? ==> m.id in l.dropped || r.payload == Some(l.wrote[m.id]))
            && (r.Skipped? ==> m.id in l.cancelled || m.id in l.dropped)
  {
    hide AnswersOk, Flat, Laid;
    var m := l.up[0];
    assert m.id in l.wrote && m.header == HeaderOf(l.wrote[m.id], m.block);
    if m.id !in l.dropped {
      UnpacksWhatWasPacked(l.wrote[m.id], m.header, Memory(l, m.block));
    }
  }

  lemma ReceiveHeaders(l: Link)
    requires HeadersOk(l) && OrderOk(l) && l.up != []
    requires l.up[0].StepUp? ==> |Receive(l).received| == |l.received| + 1 && l.received <= Receive(l).received
                                 && Receive(l).received[|l.received|].id == l.up[0].id
    ensures HeadersOk(Receive(l)) && OrderOk(Receive(l))
  {
    ReceivePops(l);
    hide Receive, Flat, Laid, Unpacked;
    PoppedHeaders(l, Receive(l));
    PoppedOrder(l, Receive(l));
  }

  /** Everything but the channel and what was received is as before. */
  ghost predicate Popped(l: Link, m: Link) {
    && |m.up| == |l.up| - 1 && (forall k :: 0 <= k < |m.up| ==> m.up[k] == l.up[k + 1])
    && m.wrote == l.wrote && m.dropped == l.dropped && m.cancelled == l.cancelled && m.memory == l.memory
    && m.waiting == l.waiting && m.writer == l.writer && m.nextId == l.nextId && m.lastAnswered == l.lastAnswered
  }

  lemma ReceivePops(l: Link)
    requires l.up != []
    ensures Popped(l, Receive(l)) && (l.up[0].CancelUp? ==> Receive(l).received == l.received)
  {
    hide Unpacked;
  }

  lemma PoppedHeaders(l: Link, m: Link)
    requires HeadersOk(l) && Popped(l, m)
    ensures HeadersOk(m)
  {
    hide Flat, Laid;
  }

  lemma PoppedOrder(l: Link, m: Link)
    requires OrderOk(l) && l.up != [] && Popped(l, m)
    requires m.received == l.received
          || (|m.received| == |l.received| + 1 && l.received <= m.received && l.up[0].StepUp?
            && m.received[|l.received|].id == l.up[0].id)
    ensures OrderOk(m)
  {
  }

  lemma ReceiveLogs(l: Link, m: Link)
    requires LogsOk(l) && m.wrote == l.wrote && m.dropped == l.dropped && m.cancelled == l.cancelled
    requires m.returned == l.returned && m.computed == l.computed
    requires m.received == l.received || (m.received != [] && m.received[..|m.received| - 1] == l.received)
    requires m.received != l.received ==> var r := m.received[|m.received| - 1];
               && r.id in l.wrote
               && (r.Read? ==> r.id in l.dropped || r.payload == Some(l.wrote[r.id]))
               && (r.Skipped? ==> r.id in l.cancelled || r.id in l.dropped)
    ensures LogsOk(m)
  {
    if m.received != l.received {
      assert forall i :: 0 <= i < |l.received| ==> m.received[i] == l.received[i];
    }
  }

  lemma ReceiveKeeps(l: Link)
    requires LinkOk(l) && May(l, Receives)
    ensures LinkOk(Receive(l))
  {
    hide AnswersOk, HeadersOk, OrderOk, LogsOk, Flat, Laid, Unpacked;
    if l.up[0].StepUp? {
      ReceiveReads(l);
    }
    ReceiveHeaders(l);
    ReceiveLogs(l, Receive(l));
    SameAnswers(l, Receive(l));
  }

  lemma AnswerKeeps(l: Link, id: int, result: Payload)
    requires LinkOk(l) && May(l, Answers(id, result))
    ensures LinkOk(SendResult(l, id, result))
  {
    var m := SendResult(l, id, result);
    OverStarts(l.output, Flat(result.buffers));
    SentAnswers(l, id, result);
    hide AnswersOk, HeadersOk, Flat, Laid;
  }

  lemma SentAnswers(l: Link, id: int, result: Payload)
    requires AnswersOk(l) && May(l, Answers(id, result))
    ensures AnswersOk(SendResult(l, id, result))
  {
    hide Flat, Laid;
    var m := SendResult(l, id, result);
    OverStarts(l.output, Flat(result.buffers));
    assert forall j :: WasReceived(l, j) ==> WasReceived(m, j);
  }

  lemma FailKeeps(l: Link, id: int, left: Bytes)
    requires LinkOk(l) && May(l, Fails(id, left))
    ensures LinkOk(SendFailure(l, id, left))
  {
    var m := SendFailure(l, id, left);
    assert forall j :: WasReceived(l, j) ==> WasReceived(m, j);
    hide HeadersOk, Flat, Laid;
  }

  lemma RefusalKeeps(l: Link, id: int)
    requires LinkOk(l) && May(l, Refuses(id))
    ensures LinkOk(SendRefusal(l, id))
  {
    var m := SendRefusal(l, id);
    assert forall j :: WasReceived(l, j) ==> WasReceived(m, j);
    hide HeadersOk, Flat, Laid;
  }

  /** The reply a caller waits for is the last one sent, so its bytes are still in the block. */
  lemma HeardReply(l: Link)
    requires LinkOk(l) && l.down != [] && l.waiting == Some(l.down[0].id) && l.down[0].ResultDown?
    ensures var id := l.down[0].id;
            id in l.computed && Unpacked(l.down[0].header, l.output) == Some(l.computed[id])
  {
    hide HeadersOk, Flat, Laid;
    var id := l.down[0].id;
    assert id <= l.lastAnswered < l.nextId && id == l.nextId - 1;
    UnpacksWhatWasPacked(l.computed[id], l.down[0].header, l.output);
  }

  lemma HearKeeps(l: Link)
    requires LinkOk(l) && May(l, Hears)
    ensures LinkOk(Hear(l))
  {
    var m := Hear(l);
    if l.waiting == Some(l.down[0].id) && l.down[0].ResultDown? {
      HeardReply(l);
    }
    hide HeadersOk, Flat, Laid, Unpacked;
    assert forall k :: 0 <= k < |m.down| ==> m.down[k] == l.down[k + 1];
    assert forall j :: WasReceived(l, j) <==> WasReceived(m, j);
  }

  /** A request that was answered has no header left unread. */
  lemma ReturnHeaders(l: Link)
    requires HeadersOk(l) && OrderOk(l) && AnswersOk(l) && May(l, Returns)
    ensures HeadersOk(Return(l))
  {
    hide Flat, Laid;
    var id := l.waiting.value;
    var i :| 0 <= i < |l.received| && l.received[i].Read? && l.received[i].id == id;
    assert forall k :: 0 <= k < |l.up| && l.up[k].StepUp? ==> l.received[i].id < l.up[k].id;
  }

  lemma ReturnKeeps(l: Link)
    requires LinkOk(l) && May(l, Returns)
    ensures LinkOk(Return(l))
  {
    ReturnHeaders(l);
    assert forall j :: WasReceived(l, j) <==> WasReceived(Return(l), j);
    hide HeadersOk, Flat, Laid;
  }

  lemma DoKeeps(l: Link, a: Act)
    requires LinkOk(l) && May(l, a)
    ensures l.writer in l.memory && |l.memory[l.writer]| == l.capacity && LinkOk(Do(l, a))
  {
    hide HeadersOk, OrderOk, AnswersOk, LogsOk, May;
    assert l.writer in l.memory;
    hide LinkOk;
    match a
    case Steps(o) => StepKeeps(l, o);
    case StepRefused(left) => RefuseKeeps(l, left);
    case Abandons(sent) => CancelKeeps(l, sent);
    case Receives => ReceiveKeeps(l);
    case Answers(id, result) => AnswerKeeps(l, id, result);
    case Fails(id, left) => FailKeeps(l, id, left);
    case Refuses(id) => RefusalKeeps(l, id);
    case Hears => HearKeeps(l);
    case Returns => ReturnKeeps(l);
  }

  // -- every run -----------------------------------------------------------------------------------

  ghost predicate Reaches(l: Link, a: Act, m: Link) {
    May(l, a) && l.writer in l.memory && |l.memory[l.writer]| == l.capacity && m == Do(l, a)
  }

  ghost predicate IsRun(links: seq<Link>, acts: seq<Act>) {
    && |links| == |acts| + 1
    && forall i :: 0 <= i < |acts| ==> Reaches(links[i], acts[i], links[i + 1])
  }

  lemma ConnectedOk(input: nat, output: nat)
    ensures LinkOk(Connected(input, output))
  {
  }

  lemma {:induction false} RunKeeps(links: seq<Link>, acts: seq<Act>, i: nat)
    requires IsRun(links, acts) && LinkOk(links[0]) && i <= |acts|
    ensures LinkOk(links[i])
    decreases i
  {
    hide LinkOk, May, Do;
    if i > 0 {
      RunKeeps(links, acts, i - 1);
      ReachKeeps(links[i - 1], acts[i - 1], links[i]);
    }
  }

  lemma ReachKeeps(l: Link, a: Act, m: Link)
    requires LinkOk(l) && Reaches(l, a, m)
    ensures LinkOk(m)
  {
    hide LinkOk, May;
    DoKeeps(l, a);
  }

  /** Some run of the two ends, with headers read as late as they like, reaches this state. */
  ghost predicate Reached(l: Link) {
    exists links, acts, input: nat, output: nat ::
      IsRun(links, acts) && links[0] == Connected(input, output) && links[|acts|] == l
  }

  lemma ReachedOk(l: Link)
    requires Reached(l)
    ensures LinkOk(l)
  {
    hide LinkOk;
    var links, acts, input: nat, output: nat :|
      IsRun(links, acts) && links[0] == Connected(input, output) && links[|acts|] == l;
    ConnectedOk(input, output);
    RunKeeps(links, acts, |acts|);
  }

  /** Every step the model server unpacked holds exactly what its session wrote for it, unless it
      was given up and its cancel never sent; every step it skipped had been given up; and every
      result returned to a caller holds the bytes written for it. */
  lemma PayloadsIntact(l: Link, i: nat)
    requires Reached(l)
    ensures i < |l.received| && l.received[i].Read? && l.received[i].id !in l.dropped ==>
              l.received[i].id in l.wrote && l.received[i].payload == Some(l.wrote[l.received[i].id])
    ensures i < |l.received| && l.received[i].Skipped? ==>
              l.received[i].id in l.cancelled || l.received[i].id in l.dropped
    ensures i < |l.returned| ==>
              l.returned[i].0 in l.computed && l.returned[i].1 == Some(l.computed[l.returned[i].0])
  {
    hide Reached, BlocksOk, HeadersOk, OrderOk, AnswersOk;
    ReachedOk(l);
  }

  /** While every cancel could be sent, nothing is ever read wrong, and only cancelled steps are skipped. */
  lemma IntactWhenCancelsAreSent(l: Link, i: nat)
    requires Reached(l) && l.dropped == {} && i < |l.received|
    ensures if l.received[i].Read? then l.received[i].id in l.wrote
            && l.received[i].payload == Some(l.wrote[l.received[i].id])
            else l.received[i].id in l.cancelled
  {
    hide Reached;
    PayloadsIntact(l, i);
  }

  // -- a cancel that could not be sent -------------------------------------------------------------

  function One(value: bv8): Payload { Object(0, [[value]]) }

  function OneHeader(): Header<int> { Header(0, [], Some(("", 0)), [Span(0, 1)]) }

  /** The link once a step carrying `value` was sent under the next id, into its first block. */
  function Sent(l: Link, value: bv8): Link {
    l.(memory := map[0 := [value]], up := l.up + [StepUp(l.nextId, 0, OneHeader())],
       wrote := l.wrote[l.nextId := One(value)], waiting := Some(l.nextId), nextId := l.nextId + 1)
  }

  function GivenUp(l: Link): Link {
    l.(rotations := l.rotations + 1, waiting := None, dropped := l.dropped + {l.nextId - 1})
  }

  lemma SendsOne(l: Link, value: bv8)
    requires l.writer == 0 && l.memory.Keys == {0} && |l.memory[0]| == 1 == l.capacity && l.waiting.None?
             && l.reply.None?
    ensures Reaches(l, Steps(One(value)), Sent(l, value))
  {
    FlatOne([value]);
    assert l.memory[0 := [value]] == map[0 := [value]];
    assert Over(l.memory[0], [value]) == [value];
  }

  lemma GivesUp(l: Link)
    requires l.writer == 0 && l.memory.Keys == {0} && |l.memory[0]| == 1 == l.capacity
    requires l.waiting == Some(l.nextId - 1) && l.reply.None? && l.retired.None?
    ensures Reaches(l, Abandons(false), GivenUp(l))
  {
  }

  lemma ReadsWrong(l: Link, value: bv8)
    requires l.writer == 0 && l.memory == map[0 := [value]] && l.capacity == 1 && l.files == {0}
    requires l.up != [] && l.up[0] == StepUp(1, 0, OneHeader())
    ensures var m := Receive(l);
            && Reaches(l, Receives, m) && m.wrote == l.wrote
            && m.received == l.received + [Read(1, Some(One(value)))]
  {
    var block: Bytes := [value];
    assert block[0..1] == block;
    assert Cut(block, Span(0, 1)) == Some(block);
    assert Unpacked(OneHeader(), [value]).value.buffers == [[value]];
  }

  /** A step given up without its cancel can be read wrong: the next step is written over it. */
  lemma UnsentCancelCorrupts()
    ensures exists l ::
              Reached(l) && l.received == [Read(1, Some(One(2)))] && 1 in l.wrote && l.wrote[1] == One(1) != One(2)
  {
    hide Reaches, Reached, Receive;
    var a := Connected(1, 1);
    var b, c, d := Sent(a, 1), GivenUp(Sent(a, 1)), Sent(GivenUp(Sent(a, 1)), 2);
    assert a.memory.Keys == {0} && |a.memory[0]| == 1;
    SendsOne(a, 1);
    GivesUp(b);
    SendsOne(c, 2);
    ReadsWrong(d, 2);
    assert One(1).buffers[0] != One(2).buffers[0];
    ReachedByFour(a, b, c, d, Receive(d), [Steps(One(1)), Abandons(false), Steps(One(2)), Receives]);
  }

  lemma ReachedByFour(a: Link, b: Link, c: Link, d: Link, e: Link, acts: seq<Act>)
    requires a == Connected(1, 1) && |acts| == 4
    requires Reaches(a, acts[0], b) && Reaches(b, acts[1], c) && Reaches(c, acts[2], d) && Reaches(d, acts[3], e)
    ensures Reached(e)
  {
    hide Reaches, Connected;
    var links := [a, b, c, d, e];
    assert IsRun(links, acts);
    assert links[0] == Connected(1, 1) && links[|acts|] == e;
  }

  lemma FlatOne(bytes: Bytes)
    ensures Flat([bytes]) == bytes && Laid([bytes]) == [Span(0, |bytes|)]
  {
    assert [bytes][..0] == [];
  }
}
