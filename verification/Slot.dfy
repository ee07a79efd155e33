/** A writer's shared block: one call's buffers laid end to end in it, and a block replaced by a
    larger one when they do not fit. */
module Slots {
  type Bytes = seq<bv8>

  /** Where a buffer is in the block. */
  datatype Span = Span(offset: nat, length: nat)

  datatype Option<+T> = None | Some(value: T)

  // -- one call's buffers ------------------------------------------------------------------------

  function Flat(buffers: seq<Bytes>): Bytes {
    if buffers == [] then [] else Flat(buffers[..|buffers| - 1]) + buffers[|buffers| - 1]
  }

  /** The spans of buffers laid end to end from the block's start. */
  function Laid(buffers: seq<Bytes>): seq<Span> {
    if buffers == [] then []
    else
      var before := buffers[..|buffers| - 1];
      Laid(before) + [Span(|Flat(before)|, |buffers[|buffers| - 1]|)]
  }

  lemma {:induction false} LaidSize(buffers: seq<Bytes>)
    ensures |Laid(buffers)| == |buffers|
  {
    if buffers != [] {
      LaidSize(buffers[..|buffers| - 1]);
    }
  }

  lemma FlatAppend(buffers: seq<Bytes>, buffer: Bytes)
    ensures Flat(buffers + [buffer]) == Flat(buffers) + buffer
    ensures Laid(buffers + [buffer]) == Laid(buffers) + [Span(|Flat(buffers)|, |buffer|)]
  {
    var all := buffers + [buffer];
    assert all[..|all| - 1] == buffers;
  }

  /** The bytes of a block under a span; `None` when the span ends past the block. */
  function Cut(block: Bytes, span: Span): Option<Bytes> {
    if span.offset + span.length <= |block| then Some(block[span.offset..span.offset + span.length]) else None
  }

  /** The spans of one call tile what it wrote: each begins where the one before it ends. */
  lemma {:induction false} SpansTile(buffers: seq<Bytes>, i: nat)
    requires i < |buffers|
    ensures |Laid(buffers)| == |buffers| && Laid(buffers)[i].length == |buffers[i]|
    ensures Laid(buffers)[i].offset == (if i == 0 then 0 else Laid(buffers)[i - 1].offset + Laid(buffers)[i - 1].length)
    ensures i == |buffers| - 1 ==> Laid(buffers)[i].offset + Laid(buffers)[i].length == |Flat(buffers)|
  {
    var before := buffers[..|buffers| - 1];
    LaidSize(before);
    if i < |before| {
      SpansTile(before, i);
    } else if i > 0 {
      SpansTile(before, i - 1);
    }
  }

  /** Whatever else a block holds, it gives every buffer of the call back under its span. */
  lemma {:induction false} CutsBack(buffers: seq<Bytes>, block: Bytes, i: nat)
    requires Flat(buffers) <= block && i < |buffers|
    ensures |Laid(buffers)| == |buffers| && Cut(block, Laid(buffers)[i]) == Some(buffers[i])
  {
    var before, last := buffers[..|buffers| - 1], buffers[|buffers| - 1];
    LaidSize(before);
    assert Flat(before) <= Flat(buffers);
    if i < |before| {
      CutsBack(before, block, i);
      assert before[i] == buffers[i];
    } else {
      assert block[|Flat(before)|..|Flat(before)| + |last|] == Flat(buffers)[|Flat(before)|..];
    }
  }

  lemma {:induction false} FlatMonotone(buffers: seq<Bytes>, i: nat)
    requires i <= |buffers|
    ensures |Flat(buffers[..i])| <= |Flat(buffers)| && Flat(buffers[..i]) <= Flat(buffers)
  {
    if i == |buffers| {
      assert buffers[..i] == buffers;
    } else {
      var before := buffers[..|buffers| - 1];
      FlatMonotone(before, i);
      assert before[..i] == buffers[..i];
    }
  }

  // -- the block -----------------------------------------------------------------------------------

  /** What a write reports: the buffer's span, more than the slot's limit, or no room for a larger block. */
  datatype Written = Wrote(span: Span) | LimitExceeded(needed: nat, limit: nat) | NoRoom

  function Max(a: nat, b: nat): nat { if a < b then b else a }

  function Min(a: nat, b: nat): nat { if a < b then a else b }

  /** The size a block of `capacity` bytes is replaced by, for a call that needs `needed`. */
  function Grown(capacity: nat, needed: nat, limit: Option<nat>): nat {
    var size := Max(needed, 2 * capacity);
    if limit.Some? then Min(size, limit.value) else size
  }

  /** A larger block holds what is needed and at least twice what it held, unless that is more than its
      limit: then it is as large as the limit. */
  lemma GrownFits(capacity: nat, needed: nat, limit: Option<nat>)
    requires limit.Some? ==> needed <= limit.value
    ensures var size := Grown(capacity, needed, limit);
            && needed <= size
            && (limit.Some? ==> size <= limit.value)
            && (size >= 2 * capacity || size == limit.value)
            && (size == needed || size == 2 * capacity || (limit.Some? && size == limit.value))
  {
  }

  class SharedSlot {
    const prefix: string
    const maxBytes: Option<nat>
    var generation: nat
    var block: array<bv8>
    var cursor: nat

    ghost predicate Valid()
      reads this, block
    {
      && cursor <= block.Length
      && (maxBytes.Some? ==> block.Length <= maxBytes.value)
    }

    /** What this call has written so far. */
    ghost function Call(): Bytes
      reads this, block
      requires Valid()
    {
      block[..cursor]
    }

    constructor (prefix: string, initialBytes: nat, maxBytes: Option<nat>)
      requires maxBytes.Some? ==> initialBytes <= maxBytes.value
      ensures Valid() && fresh(block) && Call() == []
      ensures this.prefix == prefix && this.maxBytes == maxBytes && generation == 0 && block.Length == initialBytes
    {
      this.prefix, this.maxBytes, generation, cursor := prefix, maxBytes, 0, 0;
      block := new bv8[initialBytes];
    }

    method Begin()
      requires Valid()
      modifies this`cursor
      ensures Valid() && Call() == []
    {
      cursor := 0;
    }

    /** Replace the block by one that holds `needed` bytes: twice as large, or, when `room` is not
        enough for that, of exactly that size. What the call wrote moves with it. */
    method Grow(needed: nat, room: nat) returns (failure: Option<Written>)
      requires Valid() && needed > block.Length
      modifies this
      ensures Valid() && Call() == old(Call()) && cursor == old(cursor)
      ensures failure == (if maxBytes.Some? && needed > maxBytes.value then Some(LimitExceeded(needed, maxBytes.value))
                          else if room < needed then Some(NoRoom) else None)
      ensures failure.Some? ==> block == old(block)
      ensures failure.None? ==>
                && fresh(block) && needed <= block.Length
                && block.Length == if Grown(old(block.Length), needed, maxBytes) <= room
                                   then Grown(old(block.Length), needed, maxBytes) else needed
      ensures generation == if maxBytes.Some? && needed > maxBytes.value then old(generation) else old(generation) + 1
    {
      var size := Max(needed, 2 * block.Length);
      if maxBytes.Some? {
        if needed > maxBytes.value {
          return Some(LimitExceeded(needed, maxBytes.value));
        }
        size := Min(size, maxBytes.value);
      }
      generation := generation + 1;
      if room < size {
        if size == needed || room < needed {
          return Some(NoRoom);
        }
        size := needed;
      }
      var replacement := new bv8[size];
      forall i | 0 <= i < cursor {
        replacement[i] := block[i];
      }
      assert replacement[..cursor] == block[..cursor];
      block := replacement;
      return None;
    }

    /** Append one buffer to this call. */
    method Write(buffer: Bytes, room: nat) returns (written: Written)
      requires Valid()
      modifies this, block
      ensures Valid()
      ensures written.Wrote? ==>
                && written.span == Span(old(cursor), |buffer|)
                && Call() == old(Call()) + buffer
      ensures !written.Wrote? ==> Call() == old(Call()) && block == old(block)
      ensures written.LimitExceeded? <==> maxBytes.Some? && old(cursor) + |buffer| > maxBytes.value
      ensures written.LimitExceeded? ==> written == LimitExceeded(old(cursor) + |buffer|, maxBytes.value)
      ensures written.NoRoom? ==> old(block.Length) < old(cursor) + |buffer| && room < old(cursor) + |buffer|
      ensures block == old(block) || fresh(block)
      ensures old(cursor) + |buffer| <= old(block.Length) ==> written.Wrote? && block == old(block)
    {
      var end := cursor + |buffer|;
      if end > block.Length {
        var failure := Grow(end, room);
        if failure.Some? {
          return failure.value;
        }
      }
      ghost var before := block[..cursor];
      forall i | 0 <= i < |buffer| {
        block[cursor + i] := buffer[i];
      }
      assert block[..end] == before + buffer;
      written := Wrote(Span(cursor, |buffer|));
      cursor := end;
    }
  }
}
