/** The two ends of a link as objects that update their blocks in place, proved against the acts of
    `ShmLinks`. */
module ShmLinkEnds {
  import opened Slots
  import opened Payloads
  import opened ShmLinks

  /** What the model server's `receive()` does until it has a message: skip steps whose block is gone. */
  function ReceiveNext(l: Link): Link
    decreases |l.up|
  {
    if l.up == [] then l
    else
      var m := Receive(l);
      if |m.received| > |l.received| && m.received[|m.received| - 1].Skipped? then ReceiveNext(m) else m
  }

  lemma ReceiveOnce(l: Link)
    requires l.up != []
    ensures Receive(l).up == l.up[1..]
    ensures |Receive(l).received| > |l.received| && Receive(l).received[|Receive(l).received| - 1].Skipped?
       <==>
           l.up[0].StepUp? && l.up[0].header.spans != [] && l.mapped != Some(l.up[0].block) && l.up[0].block !in l.files
  {
  }

  class LinkEnds {
    const capacity: nat
    var writer: nat
    var retired: Option<nat>
    var rotations: nat
    var files: set<nat>
    var memory: map<nat, Bytes>
    var up: seq<Up>
    var mapped: Option<nat>
    /** Everything else: the calls, the results' direction, and the bookkeeping. */
    ghost var rest: Link

    ghost function View(): Link
      reads this
    {
      rest.(capacity := capacity, writer := writer, retired := retired, rotations := rotations, files := files,
            memory := memory,
            up := up, mapped := mapped)
    }

    constructor (input: nat, output: nat)
      ensures View() == Connected(input, output)
    {
      capacity := input;
      writer, retired, rotations, files, memory, up, mapped := 0, None, 0, {0}, map[0 := Blank(input)], [], None;
      rest := Connected(input, output);
    }

    /** Move to a fresh block when a step is cancelled; `room` is whether the replacement can be
        allocated, and `delivered` whether the cancel could be sent. */
    method SendCancel(id: int, room: bool, delivered: bool) returns (sent: bool)
      requires rest.waiting == Some(id)
      modifies this
      ensures sent == (room && delivered)
      ensures View() == ShmLinks.SendCancel(old(View()), sent)
    {
      if retired.Some? {
        files := files - {retired.value};
        retired := None;
      }
      rotations := rotations + 1;
      rest := rest.(waiting := None);
      sent := room && delivered;
      if sent {
        up := up + [CancelUp(id)];
        files := files + {rotations};
        memory := memory[rotations := Blank(capacity)];
        retired, writer := Some(writer), rotations;
        rest := rest.(cancelled := rest.cancelled + {id});
      } else {
        rest := rest.(dropped := rest.dropped + {id});
      }
    }

    /** Read headers until one gives a message, its arrays copied out. */
    method Receive() returns (payload: Option<Option<Payload>>)
      modifies this
      ensures View() == ReceiveNext(old(View()))
      ensures payload.Some? ==>
                var r := View().received; r != [] && r[|r| - 1].Read? && r[|r| - 1].payload == payload.value
    {
      while up != []
        invariant ReceiveNext(View()) == ReceiveNext(old(View()))
        decreases |up|
      {
        ghost var before := View();
        ReceiveOnce(before);
        var message := up[0];
        up := up[1..];
        match message {
          case CancelUp(_) =>
            return None;
          case StepUp(id, block, header) =>
            if header.spans == [] || mapped == Some(block) {
              var held := if block in memory then memory[block] else [];
              payload := Some(Unpacked(header, held));
              rest := rest.(received := rest.received + [Read(id, payload.value)]);
              return payload;
            } else if block in files {
              mapped := Some(block);
              var held := if block in memory then memory[block] else [];
              payload := Some(Unpacked(header, held));
              rest := rest.(received := rest.received + [Read(id, payload.value)]);
              return payload;
            }
            mapped := None;
            rest := rest.(received := rest.received + [Skipped(id)]);
        }
      }
      return None;
    }
  }
}
