/** What a cancel that could not be sent puts at risk: a step given up that way, and not read yet, can
    be read wrong, whatever came before. */
module ShmUnsent {
  import opened Slots
  import opened Payloads
  import opened ShmLinks

  ghost predicate Leads(l: Link, m: Link) {
    exists links, acts :: IsRun(links, acts) && links[0] == l && links[|acts|] == m
  }

  lemma LeadsNowhere(l: Link)
    ensures Leads(l, l)
  {
    hide Reaches;
    var links, acts: seq<Act> := [l], [];
    assert IsRun(links, acts) && links[|acts|] == l;
  }

  lemma LeadsFirst(l: Link, a: Act, m: Link, n: Link)
    requires Reaches(l, a, m) && Leads(m, n)
    ensures Leads(l, n)
  {
    hide Reaches;
    var links, acts :| IsRun(links, acts) && links[0] == m && links[|acts|] == n;
    var longer, more := [l] + links, [a] + acts;
    assert IsRun(longer, more) && longer[0] == l && longer[|more|] == n;
  }

  // -- reading back what is not there ----------------------------------------------------------------

  /** If every span gives its buffer, the block starts with all of them. */
  lemma {:induction false} CutsMeanPrefix(buffers: seq<Bytes>, block: Bytes)
    requires |Laid(buffers)| == |buffers|
    requires forall i :: 0 <= i < |buffers| ==> Cut(block, Laid(buffers)[i]) == Some(buffers[i])
    ensures Flat(buffers) <= block
  {
    if buffers != [] {
      var before, last := buffers[..|buffers| - 1], buffers[|buffers| - 1];
      LaidSize(before);
      forall i | 0 <= i < |before| ensures Cut(block, Laid(before)[i]) == Some(before[i]) {
        assert Laid(buffers)[i] == Laid(before)[i];
      }
      CutsMeanPrefix(before, block);
      assert Cut(block, Laid(buffers)[|before|]) == Some(last);
      assert block[..|Flat(before)| + |last|] == Flat(before) + last;
    }
  }

  /** An object is read back from a block only if the block starts with its bytes. */
  lemma ReadsBackOnlyWhole(o: Payload, name: nat, block: Bytes)
    requires Flat(o.buffers) != [] && !(Flat(o.buffers) <= block)
    ensures Unpacked(ShmLinks.HeaderOf(o, name), block) != Some(o)
    ensures ShmLinks.HeaderOf(o, name).spans != []
  {
    LaidSize(o.buffers);
    var header := ShmLinks.HeaderOf(o, name);
    if Unpacked(header, block) == Some(o) {
      forall i | 0 <= i < |o.buffers| ensures Cut(block, Laid(o.buffers)[i]) == Some(o.buffers[i]) {
        assert Cut(block, header.spans[i]).Some? && CutAt(block, header.spans, i) == o.buffers[i];
      }
      CutsMeanPrefix(o.buffers, block);
    }
  }

  // -- reading on --------------------------------------------------------------------------------------

  ghost predicate ReadAs(m: Link, id: int, payload: Option<Payload>) {
    exists i :: 0 <= i < |m.received| && m.received[i] == Read(id, payload)
  }

  /** Whether some run from here reads the step under `id` as something else than what was written. */
  ghost predicate CanReadWrong(l: Link, id: int) {
    exists m, payload :: Leads(l, m) && ReadAs(m, id, payload) && id in m.wrote && payload != Some(m.wrote[id])
  }

  lemma Earlier(l: Link, a: Act, m: Link, id: int)
    requires Reaches(l, a, m) && CanReadWrong(m, id)
    ensures CanReadWrong(l, id)
  {
    hide Reaches, Leads, ReadAs;
    var n, payload :| Leads(m, n) && ReadAs(n, id, payload) && id in n.wrote && payload != Some(n.wrote[id]);
    LeadsFirst(l, a, m, n);
  }

  lemma OneReceive(l: Link)
    requires LinkOk(l) && l.up != []
    ensures Reaches(l, Receives, Receive(l)) && LinkOk(Receive(l))
    ensures var m := Receive(l); m.up == l.up[1..] && m.wrote == l.wrote && m.memory == l.memory && m.writer == l.writer
    ensures var first := l.up[0];
            first.StepUp? && first.block == l.writer && first.header.spans != [] ==>
              ReadAs(Receive(l), first.id, Unpacked(first.header, l.memory[l.writer]))
  {
    hide HeadersOk, OrderOk, AnswersOk, LogsOk, Unpacked;
    DoKeeps(l, Receives);
    var m, first := Receive(l), l.up[0];
    if first.StepUp? && first.block == l.writer && first.header.spans != [] {
      assert m.received[|l.received|] == Read(first.id, Unpacked(first.header, l.memory[l.writer]));
    }
  }

  /** Reading on gets to a step whose block is the one in use, and reads what that block holds. */
  lemma {:induction false} ReadsOn(l: Link, k: nat)
    requires LinkOk(l) && k < |l.up| && l.up[k].StepUp? && l.up[k].block == l.writer && l.writer in l.memory
    requires l.up[k].header.spans != [] && l.up[k].id in l.wrote
    requires Unpacked(l.up[k].header, l.memory[l.writer]) != Some(l.wrote[l.up[k].id])
    ensures CanReadWrong(l, l.up[k].id)
    decreases k
  {
    hide LinkOk, Reaches, Leads, ReadAs, Receive;
    OneReceive(l);
    var m := Receive(l);
    if k == 0 {
      LeadsNowhere(m);
      assert CanReadWrong(m, l.up[0].id);
    } else {
      ReadsOn(m, k - 1);
    }
    Earlier(l, Receives, m, l.up[k].id);
  }

  // -- writing over it ---------------------------------------------------------------------------------

  /** The step at place `k` was given up, its cancel was not sent, and its header is still unread in the
      block the session writes. */
  ghost predicate AtRisk(l: Link, k: nat) {
    && k < |l.up| && l.up[k].StepUp? && l.up[k].id in l.dropped && l.up[k].block == l.writer
    && l.up[k].id in l.wrote && Flat(l.wrote[l.up[k].id].buffers) != []
  }

  lemma BlockThere(l: Link)
    requires LinkOk(l)
    ensures l.writer in l.memory && |l.memory[l.writer]| == l.capacity
    ensures forall k :: 0 <= k < |l.up| && l.up[k].StepUp? ==> l.up[k].id < l.nextId
  {
    hide HeadersOk, AnswersOk, LogsOk;
  }

  lemma ItsHeader(l: Link, k: nat)
    requires LinkOk(l) && k < |l.up| && l.up[k].StepUp?
    ensures l.up[k].id in l.wrote && l.up[k].header == ShmLinks.HeaderOf(l.wrote[l.up[k].id], l.up[k].block)
  {
    hide BlocksOk, OrderOk, AnswersOk, LogsOk, ShmLinks.HeaderOf;
  }

  /** The call that waits, if any, ends: it has its answer, or it is given up and its cancel not sent. */
  lemma EndsCall(l: Link, k: nat)
    requires LinkOk(l) && AtRisk(l, k) && l.waiting.Some?
    ensures var a := if l.reply.Some? then Returns else Abandons(false);
            && May(l, a) && l.writer in l.memory && |l.memory[l.writer]| == l.capacity
            && var m := Do(l, a); Reaches(l, a, m) && LinkOk(m) && m.waiting.None? && AtRisk(m, k) && m.up == l.up
  {
    hide HeadersOk, OrderOk, AnswersOk, LogsOk, Flat;
    BlockThere(l);
    DoKeeps(l, if l.reply.Some? then Returns else Abandons(false));
  }

  function Flipped(block: Bytes): Payload
    requires block != []
  {
    Object(0, [[block[0] + 1]])
  }

  /** The next step writes one other byte over it. */
  lemma WritesOver(l: Link, k: nat)
    requires LinkOk(l) && AtRisk(l, k) && l.waiting.None?
    requires l.writer in l.memory && Flat(l.wrote[l.up[k].id].buffers) <= l.memory[l.writer]
    ensures l.memory[l.writer] != []
    ensures var a := Steps(Flipped(l.memory[l.writer]));
            && May(l, a) && l.writer in l.memory && |l.memory[l.writer]| == l.capacity
            && var m := Do(l, a);
               && Reaches(l, a, m) && LinkOk(m) && m.up[..|l.up|] == l.up && k < |m.up| && m.up[k] == l.up[k]
               && m.writer == l.writer && m.writer in m.memory
                 && !(Flat(l.wrote[l.up[k].id].buffers) <= m.memory[m.writer])
               && l.up[k].id in m.wrote && m.wrote[l.up[k].id] == l.wrote[l.up[k].id]
  {
    hide HeadersOk, OrderOk, AnswersOk, LogsOk;
    BlockThere(l);
    var call := Flat(l.wrote[l.up[k].id].buffers);
    assert call[0] == l.memory[l.writer][0];
    var byte := l.memory[l.writer][0] + 1;
    FlatOne([byte]);
    DoKeeps(l, Steps(Flipped(l.memory[l.writer])));
    var m := Do(l, Steps(Flipped(l.memory[l.writer])));
    assert m.memory[m.writer][0] == byte != call[0];
  }

  /** From any reachable link, a step given up without its cancel, and still unread in the block in use,
      can be read wrong. */
  lemma UnsentCancelCanCorrupt(l: Link, k: nat)
    requires Reached(l) && AtRisk(l, k)
    ensures CanReadWrong(l, l.up[k].id)
  {
    hide Reached, LinkOk, CanReadWrong;
    ReachedOk(l);
    if l.waiting.Some? {
      EndsCall(l, k);
      var a := if l.reply.Some? then Returns else Abandons(false);
      OverwrittenIsWrong(Do(l, a), k);
      Earlier(l, a, Do(l, a), l.up[k].id);
    } else {
      OverwrittenIsWrong(l, k);
    }
  }

  lemma OverwrittenIsWrong(l: Link, k: nat)
    requires LinkOk(l) && AtRisk(l, k) && l.waiting.None?
    ensures CanReadWrong(l, l.up[k].id)
  {
    hide LinkOk, CanReadWrong, Flat, Laid, Unpacked, May, Do, ShmLinks.HeaderOf, Reaches;
    BlockThere(l);
    ItsHeader(l, k);
    var o := l.wrote[l.up[k].id];
    if Flat(o.buffers) <= l.memory[l.writer] {
      WritesOver(l, k);
      var a := Steps(Flipped(l.memory[l.writer]));
      var m := Do(l, a);
      BlockThere(m);
      ReadsBackOnlyWhole(o, l.up[k].block, m.memory[m.writer]);
      ReadsOn(m, k);
      Earlier(l, a, m, l.up[k].id);
    } else {
      ReadsBackOnlyWhole(o, l.up[k].block, l.memory[l.writer]);
      ReadsOn(l, k);
    }
  }

  // -- what stays right ------------------------------------------------------------------------------

  /** The logs only grow. */
  ghost predicate Grown(l: Link, m: Link) {
    l.received <= m.received && forall id :: id in l.wrote ==> id in m.wrote && m.wrote[id] == l.wrote[id]
  }

  /** Every read of this step so far was right, and no other can be wrong: its header is read already, or
      it has no bytes. */
  ghost predicate RightForGood(l: Link, id: int) {
    && id in l.wrote && id < l.nextId
    && (forall i :: 0 <= i < |l.received| && l.received[i].Read? && l.received[i].id == id ==>
          l.received[i].payload == Some(l.wrote[id]))
    && (Flat(l.wrote[id].buffers) == [] || forall k :: 0 <= k < |l.up| && l.up[k].StepUp? ==> l.up[k].id != id)
  }

  lemma ActGrows(l: Link, a: Act, m: Link)
    requires LinkOk(l) && Reaches(l, a, m)
    ensures Grown(l, m)
  {
    hide BlocksOk, HeadersOk, AnswersOk, LogsOk, Unpacked, Flat, Over, ShmLinks.HeaderOf, Blank, Receive;
    if a.Receives? { ReceiveGrows(l); }
  }

  lemma ReceiveGrows(l: Link)
    requires l.up != []
    ensures Receive(l).wrote == l.wrote && l.received <= Receive(l).received
  {
    hide Unpacked;
  }

  lemma ReceiveStaysRight(l: Link, id: int)
    requires LinkOk(l) && l.up != [] && RightForGood(l, id)
    ensures RightForGood(Receive(l), id)
  {
    hide LinkOk, Receive, Unpacked, Flat, Laid;
    OneReceive(l);
    ReceiveAdds(l);
    if l.up[0].StepUp? {
      ItsHeader(l, 0);
      if l.up[0].id == id && Flat(l.wrote[id].buffers) == [] {
        UnpacksWhatWasPacked(l.wrote[id], l.up[0].header, Memory(l, l.up[0].block));
      }
    }
    SameNext(l);
  }

  lemma SameNext(l: Link)
    requires l.up != []
    ensures Receive(l).nextId == l.nextId
  {
    hide Unpacked;
  }

  /** What reading one header adds to the log. */
  lemma ReceiveAdds(l: Link)
    requires l.up != []
    ensures var more, m := Receive(l).received, l.up[0];
            || more == l.received
            || (m.StepUp? && (more == l.received + [Skipped(m.id)]
                              || more == l.received + [Read(m.id, Unpacked(m.header, Memory(l, m.block)))]))
  {
    hide Unpacked, Memory;
  }

  lemma ActStaysRight(l: Link, a: Act, m: Link, id: int)
    requires LinkOk(l) && Reaches(l, a, m) && RightForGood(l, id)
    ensures RightForGood(m, id)
  {
    hide BlocksOk, HeadersOk, OrderOk, AnswersOk, LogsOk, Unpacked, Flat, Over, Receive;
    if a.Receives? { ReceiveStaysRight(l, id); }
  }

  lemma {:induction false} RunStaysRight(links: seq<Link>, acts: seq<Act>, i: nat, id: int)
    requires IsRun(links, acts) && LinkOk(links[0]) && i <= |acts|
    ensures LinkOk(links[i]) && Grown(links[0], links[i])
    ensures RightForGood(links[0], id) ==> RightForGood(links[i], id)
    decreases i
  {
    hide LinkOk, Reaches, RightForGood;
    if i > 0 {
      RunStaysRight(links, acts, i - 1, id);
      ReachKeeps(links[i - 1], acts[i - 1], links[i]);
      ActGrows(links[i - 1], acts[i - 1], links[i]);
      if RightForGood(links[i - 1], id) { ActStaysRight(links[i - 1], acts[i - 1], links[i], id); }
    }
  }

  /** A step that was read before it was given up, or whose cancel was sent, was read right, and stays so. */
  lemma ReadStaysIntact(l: Link, m: Link, i: nat)
    requires Reached(l) && Leads(l, m) && i < |l.received| && l.received[i].Read? && l.received[i].id !in l.dropped
    ensures i < |m.received| && m.received[i] == l.received[i]
    ensures m.received[i].id in m.wrote && m.received[i].payload == Some(m.wrote[m.received[i].id])
  {
    hide Reached, LinkOk, RightForGood;
    ReachedOk(l);
    PayloadsIntact(l, i);
    var links, acts :| IsRun(links, acts) && links[0] == l && links[|acts|] == m;
    RunStaysRight(links, acts, |acts|, l.received[i].id);
  }

  lemma NeverWrong(l: Link, id: int)
    requires LinkOk(l) && RightForGood(l, id)
    ensures !CanReadWrong(l, id)
  {
    hide LinkOk, ReadAs;
    if CanReadWrong(l, id) {
      var m, payload :| Leads(l, m) && ReadAs(m, id, payload) && id in m.wrote && payload != Some(m.wrote[id]);
      var links, acts :| IsRun(links, acts) && links[0] == l && links[|acts|] == m;
      RunStaysRight(links, acts, |acts|, id);
      RightReads(m, id, payload);
    }
  }

  lemma RightReads(m: Link, id: int, payload: Option<Payload>)
    requires RightForGood(m, id) && ReadAs(m, id, payload)
    ensures payload == Some(m.wrote[id])
  {
    var i :| 0 <= i < |m.received| && m.received[i] == Read(id, payload);
  }

  /** Right after a step is given up and its cancel not sent, some continuation reads it wrong if and only
      if its header is still unread and it has bytes. */
  lemma WrongExactlyIfUnread(l: Link, m: Link)
    requires Reached(l) && Reaches(l, Abandons(false), m)
    ensures var id := l.waiting.value;
            && id in m.wrote
            && (CanReadWrong(m, id) <==>
                  && (exists k :: 0 <= k < |m.up| && m.up[k].StepUp? && m.up[k].id == id)
                  && Flat(m.wrote[id].buffers) != [])
  {
    hide Reached, LinkOk, CanReadWrong, AtRisk, RightForGood;
    ReachedOk(l);
    var id := l.waiting.value;
    GivesUpUnsent(l, m);
    if Flat(m.wrote[id].buffers) != [] && exists k :: 0 <= k < |m.up| && m.up[k].StepUp? && m.up[k].id == id {
      var k: nat :| k < |m.up| && m.up[k].StepUp? && m.up[k].id == id;
      StillAtRisk(l, m, k);
      UnsentCancelCanCorrupt(m, k);
    } else {
      RightSoFar(l, m);
      NeverWrong(m, id);
    }
  }

  lemma GivesUpUnsent(l: Link, m: Link)
    requires Reached(l) && Reaches(l, Abandons(false), m)
    ensures Reached(m) && LinkOk(m) && l.waiting.value in m.wrote
    ensures m.up == l.up && m.wrote == l.wrote && m.received == l.received && m.writer == l.writer
    ensures l.waiting.value in m.dropped && l.waiting.value !in l.dropped && l.waiting.value < m.nextId
  {
    ReachedOk(l);
    ReachKeeps(l, Abandons(false), m);
    hide HeadersOk, AnswersOk, LogsOk;
    MoreReached(l, Abandons(false), m);
  }

  lemma MoreReached(l: Link, a: Act, m: Link)
    requires Reached(l) && Reaches(l, a, m)
    ensures Reached(m)
  {
    hide Reaches;
    var links, acts, input: nat, output: nat :|
      IsRun(links, acts) && links[0] == Connected(input, output) && links[|acts|] == l;
    var longer, more := links + [m], acts + [a];
    assert IsRun(longer, more) && longer[0] == Connected(input, output) && longer[|more|] == m;
  }

  lemma StillAtRisk(l: Link, m: Link, k: nat)
    requires LinkOk(l) && l.waiting.Some? && l.waiting.value !in l.dropped && k < |l.up| && m.up == l.up
    requires l.up[k].StepUp? && l.up[k].id == l.waiting.value && m.wrote == l.wrote && m.writer == l.writer
    requires l.waiting.value in m.dropped && l.waiting.value in m.wrote && Flat(m.wrote[l.waiting.value].buffers) != []
    ensures AtRisk(m, k)
  {
    hide BlocksOk, OrderOk, AnswersOk, LogsOk, Flat;
  }

  lemma RightSoFar(l: Link, m: Link)
    requires Reached(l) && LinkOk(l) && l.waiting.Some? && l.waiting.value !in l.dropped && l.waiting.value < m.nextId
    requires m.up == l.up && m.wrote == l.wrote && m.received == l.received && l.waiting.value in l.wrote
    requires Flat(l.wrote[l.waiting.value].buffers) == []
          || !exists k :: 0 <= k < |m.up| && m.up[k].StepUp? && m.up[k].id == l.waiting.value
    ensures RightForGood(m, l.waiting.value)
  {
    hide Reached, LinkOk, Flat;
    forall i: nat | i < |l.received| && l.received[i].Read? && l.received[i].id == l.waiting.value
      ensures l.received[i].payload == Some(l.wrote[l.waiting.value])
    {
      PayloadsIntact(l, i);
    }
  }
}
