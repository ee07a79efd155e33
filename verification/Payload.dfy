/** An object packed into a header and one call of a slot: its flat buffers go into the block in the
    order the pickle meets them, and the header names the block and where each one is. */
module Payloads {
  import opened Slots

  /** An object: what the pickle keeps inline, and its flat buffers in the pickle's order. */
  datatype Object<T> = Object(inline: T, buffers: seq<Bytes>)

  /** `name` is the slot's prefix and its block's generation; without a slot the buffers stay inline. */
  datatype Header<T> = Header(inline: T, kept: seq<Bytes>, name: Option<(string, nat)>, spans: seq<Span>)

  datatype Packed<T> = Packed(header: Header<T>) | TooLarge(needed: nat, limit: nat) | NoMemory

  function Total(buffers: seq<Bytes>): nat {
    if buffers == [] then 0 else Total(buffers[..|buffers| - 1]) + |buffers[|buffers| - 1]|
  }

  lemma {:induction false} TotalIsFlat(buffers: seq<Bytes>)
    ensures |Flat(buffers)| == Total(buffers)
  {
    if buffers != [] {
      TotalIsFlat(buffers[..|buffers| - 1]);
    }
  }

  /** The header of an object packed with no slot. */
  function PackInline<T>(o: Object<T>): Header<T> {
    Header(o.inline, o.buffers, None, [])
  }

  /** The directory a reader maps blocks from: the memory behind each name. */
  type Directory = map<(string, nat), array<bv8>>

  /** The object a header describes; `None` when its block is gone or a span ends past it. */
  function Unpacked<T>(header: Header<T>, block: Bytes): Option<Object<T>> {
    if header.spans == [] then Some(Object(header.inline, header.kept))
    else if forall i :: 0 <= i < |header.spans| ==> Cut(block, header.spans[i]).Some? then
      Some(Object(header.inline, seq(|header.spans|,
                                     i requires 0 <= i < |header.spans| => CutAt(block, header.spans, i))))
    else None
  }

  function CutAt(block: Bytes, spans: seq<Span>, i: nat): Bytes
    requires i < |spans|
  {
    if Cut(block, spans[i]).Some? then Cut(block, spans[i]).value else []
  }

  /** Whatever follows the call in the block, an object read back is the one that was packed. */
  lemma UnpacksWhatWasPacked<T>(o: Object<T>, header: Header<T>, block: Bytes)
    requires Flat(o.buffers) <= block
    requires header.inline == o.inline && header.kept == [] && header.spans == Laid(o.buffers)
    ensures Unpacked(header, block) == Some(o)
  {
    LaidSize(o.buffers);
    forall i | 0 <= i < |o.buffers| ensures Cut(block, header.spans[i]) == Some(o.buffers[i]) {
      CutsBack(o.buffers, block, i);
    }
    if header.spans != [] {
      assert Unpacked(header, block).value.buffers == o.buffers;
    }
  }

  /** Without a slot too. */
  lemma UnpacksInline<T>(o: Object<T>, block: Bytes)
    ensures Unpacked(PackInline(o), block) == Some(o)
  {
  }

  lemma {:induction false} TotalMonotone(buffers: seq<Bytes>, i: nat)
    requires i <= |buffers|
    ensures Total(buffers[..i]) <= Total(buffers)
  {
    if i == |buffers| {
      assert buffers[..i] == buffers;
    } else {
      var before := buffers[..|buffers| - 1];
      TotalMonotone(before, i);
      assert before[..i] == buffers[..i];
    }
  }

  /** Write an object's buffers into one call of the slot. `rooms` is how large a block the directory
      has room for at each write. A call past the slot's limit is refused with its whole size; of a
      refused call no header is returned. */
  method Pack<T>(o: Object<T>, slot: SharedSlot, rooms: nat -> nat) returns (packed: Packed<T>)
    requires slot.Valid()
    modifies slot, slot.block
    ensures slot.Valid()
    ensures packed.Packed? ==>
              && packed.header == Header(o.inline, [], Some((slot.prefix, slot.generation)), Laid(o.buffers))
              && slot.Call() == Flat(o.buffers)
    ensures packed.TooLarge? ==>
              slot.maxBytes == Some(packed.limit) && packed.needed == Total(o.buffers) > packed.limit
    ensures slot.maxBytes.Some? && Total(o.buffers) > slot.maxBytes.value ==> !packed.Packed?
    ensures packed.NoMemory? ==>
              exists i: nat :: i < |o.buffers| && rooms(i) < Total(o.buffers[..i + 1])
                               && (slot.maxBytes.Some? ==> Total(o.buffers[..i + 1]) <= slot.maxBytes.value)
    ensures slot.maxBytes == Some(old(slot.block.Length)) ==>
              (packed.TooLarge? <==> Total(o.buffers) > slot.maxBytes.value) && !packed.NoMemory?
    ensures slot.maxBytes == Some(old(slot.block.Length)) ==> slot.block == old(slot.block)
  {
    hide Total, Flat, Laid;
    slot.Begin();
    EmptyCall(o.buffers);
    var spans: seq<Span> := [];
    var needed, refused := 0, false;
    var limit := if slot.maxBytes.Some? then slot.maxBytes.value else 0;
    for i := 0 to |o.buffers|
      invariant slot.Valid()
      invariant slot.block == old(slot.block) || fresh(slot.block)
      invariant needed == Total(o.buffers[..i])
      invariant !refused ==> slot.Call() == Flat(o.buffers[..i]) && spans == Laid(o.buffers[..i])
      invariant !refused && slot.maxBytes.Some? ==> needed <= slot.maxBytes.value
      invariant refused ==> slot.maxBytes == Some(limit) && needed > limit
      invariant slot.maxBytes == Some(old(slot.block.Length)) ==> slot.block == old(slot.block)
    {
      var buffer := o.buffers[i];
      OneMore(o.buffers, i);
      needed := needed + |buffer|;
      if !refused {
        var written := slot.Write(buffer, rooms(i));
        match written
        case Wrote(span) => spans := spans + [span];
        case LimitExceeded(_, _) => refused := true;
        case NoRoom => return NoMemory;
      }
    }
    assert o.buffers[..|o.buffers|] == o.buffers;
    if refused {
      return TooLarge(needed, limit);
    }
    return Packed(Header(o.inline, [], Some((slot.prefix, slot.generation)), spans));
  }

  lemma EmptyCall(buffers: seq<Bytes>)
    ensures Total(buffers[..0]) == 0 && Flat(buffers[..0]) == [] && Laid(buffers[..0]) == []
  {
  }

  lemma OneMore(buffers: seq<Bytes>, i: nat)
    requires i < |buffers|
    ensures Total(buffers[..i + 1]) == Total(buffers[..i]) + |buffers[i]|
    ensures Flat(buffers[..i + 1]) == Flat(buffers[..i]) + buffers[i]
    ensures Laid(buffers[..i + 1]) == Laid(buffers[..i]) + [Span(|Flat(buffers[..i])|, |buffers[i]|)]
    ensures |Flat(buffers[..i])| == Total(buffers[..i])
  {
    assert buffers[..i + 1] == buffers[..i] + [buffers[i]];
    TotalAppend(buffers[..i], buffers[i]);
    FlatAppend(buffers[..i], buffers[i]);
    TotalIsFlat(buffers[..i]);
  }

  lemma TotalAppend(buffers: seq<Bytes>, buffer: Bytes)
    ensures Total(buffers + [buffer]) == Total(buffers) + |buffer|
  {
    assert (buffers + [buffer])[..|buffers|] == buffers;
  }

  /** The reading side: the block mapped last, whose memory it sees even once its file is gone. */
  class SlotReader {
    var name: Option<(string, nat)>
    var mapped: array<bv8>

    constructor ()
      ensures name == None
    {
      name, mapped := None, new bv8[0];
    }

    /** Map the block called `wanted`, unless it is mapped already. The previous mapping is dropped
        first, so a block that is gone leaves nothing mapped. */
    method Attach(wanted: (string, nat), directory: Directory) returns (there: bool)
      modifies this
      ensures there == (old(name) == Some(wanted) || wanted in directory)
      ensures name == if there then Some(wanted) else None
      ensures there ==> mapped == if old(name) == Some(wanted) then old(mapped) else directory[wanted]
    {
      if name == Some(wanted) {
        return true;
      }
      name := None;
      if wanted !in directory {
        return false;
      }
      name, mapped := Some(wanted), directory[wanted];
      return true;
    }

    /** Rebuild the object a header describes, its buffers copied out of the block. */
    method Unpack<T>(header: Header<T>, directory: Directory) returns (o: Option<Object<T>>)
      requires header.spans != [] ==> header.name.Some?
      modifies this
      ensures header.spans == [] ==> o == Some(Object(header.inline, header.kept))
      ensures header.spans != [] ==>
                var wanted := header.name.value;
                o == if old(name) == Some(wanted) then Unpacked(header, old(mapped)[..])
                     else if wanted in directory then Unpacked(header, directory[wanted][..]) else None
    {
      if header.spans == [] {
        return Some(Object(header.inline, header.kept));
      }
      var there := Attach(header.name.value, directory);
      if !there {
        return None;
      }
      var buffers: seq<Bytes> := [];
      for i := 0 to |header.spans|
        invariant |buffers| == i
        invariant forall j :: 0 <= j < i ==> Cut(mapped[..], header.spans[j]) == Some(buffers[j])
      {
        var bytes := Cut(mapped[..], header.spans[i]);
        if bytes.None? {
          return None;
        }
        buffers := buffers + [bytes.value];
      }
      assert Unpacked(header, mapped[..]).value.buffers == buffers;
      return Some(Object(header.inline, buffers));
    }
  }

  /** An object packed into a slot is read back whole, from the slot's own memory, by a reader that
      has the block mapped or finds it in the directory. */
  method RoundTrip<T>(o: Object<T>, slot: SharedSlot, rooms: nat -> nat, reader: SlotReader, directory: Directory)
    returns (packed: Packed<T>, back: Option<Object<T>>)
    requires slot.Valid() && reader.name == None
    modifies slot, slot.block, reader
    ensures packed.Packed? ==> back == Some(o)
  {
    packed := Pack(o, slot, rooms);
    back := None;
    if packed.Packed? {
      var blocks := directory[(slot.prefix, slot.generation) := slot.block];
      assert slot.block[..slot.cursor] == slot.Call();
      UnpacksWhatWasPacked(o, packed.header, slot.block[..]);
      back := reader.Unpack(packed.header, blocks);
    }
  }
}
