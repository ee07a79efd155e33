/** Messages on a byte stream: each frame is its length, in eight bytes, and its body. The stream gives
    as few bytes per read as it likes. */
module Framing {
  datatype Option<+T> = None | Some(value: T)

  newtype Byte = x: int | 0 <= x < 256

  type Bytes = seq<Byte>

  const HEADER := 8

  // -- the header ------------------------------------------------------------------------------------

  function Power(k: nat): nat {
    if k == 0 then 1 else 256 * Power(k - 1)
  }

  /** A number in `k` bytes, the highest first. */
  function Digits(n: nat, k: nat): (r: Bytes)
    ensures |r| == k
  {
    if k == 0 then [] else Digits(n / 256, k - 1) + [(n % 256) as Byte]
  }

  function Number(digits: Bytes): nat {
    if digits == [] then 0 else 256 * Number(digits[..|digits| - 1]) + digits[|digits| - 1] as int
  }

  lemma {:induction false} NumberOfDigits(n: nat, k: nat)
    requires n < Power(k)
    ensures Number(Digits(n, k)) == n
  {
    if k > 0 {
      var digits := Digits(n, k);
      assert digits[..k - 1] == Digits(n / 256, k - 1);
      NumberOfDigits(n / 256, k - 1);
      assert n == 256 * (n / 256) + n % 256;
    }
  }

  /** The bytes are in network order: the byte at place `i` of `k` counts the 256s to the `k - 1 - i`. */
  lemma {:induction false} DigitsAt(n: nat, k: nat, i: nat)
    requires i < k
    ensures Power(k - 1 - i) > 0 && Digits(n, k)[i] as int == n / Power(k - 1 - i) % 256
  {
    if i < k - 1 {
      DigitsAt(n / 256, k - 1, i);
      PowerOver(n, k - 2 - i);
    }
  }

  lemma PowerOver(n: nat, k: nat)
    requires Power(k) > 0
    ensures Power(k + 1) > 0 && n / 256 / Power(k) == n / Power(k + 1)
  {
    DivideTwice(n, 256, Power(k));
  }

  lemma DivideTwice(n: nat, a: nat, b: nat)
    requires a > 0 && b > 0
    ensures a * b > 0 && n / a / b == n / (a * b)
  {
    var q := n / a / b;
    var r := n - q * (a * b);
    var r1, r2 := n % a, n / a % b;
    assert n / a == b * q + r2;
    assert n == a * (n / a) + r1;
    assert n == a * (b * q + r2) + r1;
    ProductOver(a, b, q, r2);
    assert r == a * r2 + r1;
    assert 0 <= r < a * b by { RestBelow(a, b, r1, r2); }
    QuotientIs(n, a * b, q, r);
  }

  lemma ProductOver(a: int, b: int, q: int, r: int)
    ensures a * (b * q + r) == q * (a * b) + a * r
  {
  }

  lemma RestBelow(a: int, b: int, r1: int, r2: int)
    requires 0 <= r1 < a && 0 <= r2 < b
    ensures 0 <= a * r2 + r1 < a * b
  {
    assert a * r2 <= a * (b - 1);
  }

  lemma QuotientIs(n: int, d: int, q: int, r: int)
    requires d > 0 && 0 <= r < d && n == q * d + r
    ensures n / d == q
  {
    var p, t := n / d, n % d;
    assert n == p * d + t;
    SameQuotient(d, p, t, q, r);
  }

  lemma SameQuotient(d: int, p: int, t: int, q: int, r: int)
    requires 0 <= t < d && 0 <= r < d && p * d + t == q * d + r
    ensures p == q
  {
    assert (p - q) * d == r - t;
    if p > q {
      Grows(p - q, d);
    } else if p < q {
      Grows(q - p, d);
    }
  }

  lemma Grows(a: int, d: int)
    requires a >= 1 && d > 0
    ensures a * d >= d
  {
  }

  // -- frames ----------------------------------------------------------------------------------------

  /** What one receive gives: the body, a refusal of its length, or that the peer closed first. */
  datatype Received = Body(body: Bytes) | TooLong(length: nat) | Closed

  /** The bytes of one frame. */
  function Framed(body: Bytes): Bytes {
    Digits(|body|, HEADER) + body
  }

  /** One receive from a stream that holds these bytes and then ends, and what is left of it. */
  function Receive(stream: Bytes, limit: nat): (Received, Bytes) {
    if |stream| < HEADER then (Closed, [])
    else
      var length := Number(stream[..HEADER]);
      var rest := stream[HEADER..];
      if length > limit then (TooLong(length), rest)
      else if |rest| < length then (Closed, [])
      else (Body(rest[..length]), rest[length..])
  }

  predicate Sendable(body: Bytes, limit: nat) {
    |body| <= limit && |body| < Power(HEADER)
  }

  lemma FrameParts(body: Bytes, rest: Bytes)
    ensures var stream := Framed(body) + rest;
            && |stream| == HEADER + |body| + |rest|
            && stream[..HEADER] == Digits(|body|, HEADER) && stream[HEADER..] == body + rest
    ensures (body + rest)[..|body|] == body && (body + rest)[|body|..] == rest
  {
    hide Digits;
    var stream, header := Framed(body) + rest, Digits(|body|, HEADER);
    assert stream == header + (body + rest);
    assert (header + (body + rest))[..HEADER] == header;
    assert (header + (body + rest))[HEADER..] == body + rest;
  }

  /** A frame within the limit is received as it was sent, whatever follows it. */
  lemma ReceivesFrame(body: Bytes, rest: Bytes, limit: nat)
    requires Sendable(body, limit)
    ensures Receive(Framed(body) + rest, limit) == (Body(body), rest)
  {
    hide Digits, Number, Power, Framed;
    NumberOfDigits(|body|, HEADER);
    FrameParts(body, rest);
  }

  /** A stream that ends inside a frame gives no part of it: the receiver learns that it closed. */
  lemma ClosedInsideFrame(body: Bytes, part: Bytes, limit: nat)
    requires Sendable(body, limit) && part < Framed(body)
    ensures Receive(part, limit).0 == Closed
  {
    NumberOfDigits(|body|, HEADER);
    if |part| >= HEADER {
      assert part[..HEADER] == Framed(body)[..HEADER] == Digits(|body|, HEADER);
    }
  }

  function AllFramed(bodies: seq<Bytes>): Bytes {
    if bodies == [] then [] else Framed(bodies[0]) + AllFramed(bodies[1..])
  }

  /** Frames received one after another until the stream closes, or one is refused. */
  function ReceiveAll(stream: Bytes, limit: nat): (seq<Bytes>, Received)
    decreases |stream|
  {
    var (got, rest) := Receive(stream, limit);
    if got.Body? then
      var (more, end) := ReceiveAll(rest, limit);
      ([got.body] + more, end)
    else ([], got)
  }

  /** Frames sent back to back are received as the same sequence; of a stream cut anywhere, the whole
      frames before the cut, and then that it closed. */
  lemma {:induction false} ReceivesAll(bodies: seq<Bytes>, stream: Bytes, limit: nat)
    requires (forall i :: 0 <= i < |bodies| ==> Sendable(bodies[i], limit)) && stream <= AllFramed(bodies)
    ensures ReceiveAll(stream, limit).0 <= bodies && ReceiveAll(stream, limit).1 == Closed
    ensures AllFramed(ReceiveAll(stream, limit).0) <= stream
    ensures var got := |ReceiveAll(stream, limit).0|;
            got < |bodies| ==> |stream| < |AllFramed(bodies[..got + 1])|
    decreases |bodies|
  {
    hide Receive, Framed, Power;
    if bodies == [] {
      NothingReceived(stream, limit);
    } else if |stream| >= |Framed(bodies[0])| {
      var first, rest := Framed(bodies[0]), stream[|Framed(bodies[0])|..];
      assert stream == first + rest;
      ReceivesFrame(bodies[0], rest, limit);
      assert rest <= AllFramed(bodies[1..]);
      ReceivesAll(bodies[1..], rest, limit);
      OneMore(bodies, ReceiveAll(rest, limit).0);
    } else {
      assert stream < Framed(bodies[0]);
      ClosedInsideFrame(bodies[0], stream, limit);
      assert bodies[..1] == [bodies[0]];
      assert AllFramed(bodies[..1]) == Framed(bodies[0]) + AllFramed([]);
    }
  }

  lemma NothingReceived(stream: Bytes, limit: nat)
    requires stream == []
    ensures Receive(stream, limit).0 == Closed
  {
  }

  lemma OneMore(bodies: seq<Bytes>, more: seq<Bytes>)
    requires bodies != [] && more <= bodies[1..]
    ensures [bodies[0]] + more <= bodies
    ensures AllFramed([bodies[0]] + more) == Framed(bodies[0]) + AllFramed(more)
    ensures |more| < |bodies| - 1 ==>
              AllFramed(bodies[..|more| + 2]) == Framed(bodies[0]) + AllFramed(bodies[1..][..|more| + 1])
  {
    hide Framed, AllFramed;
    Prefixes(bodies, more);
    FramedCons(bodies[0], more);
    if |more| < |bodies| - 1 {
      FramedCons(bodies[0], bodies[1..][..|more| + 1]);
    }
  }

  lemma Prefixes<T>(a: seq<T>, more: seq<T>)
    requires a != [] && more <= a[1..]
    ensures [a[0]] + more <= a
    ensures |more| < |a| - 1 ==> a[..|more| + 2] == [a[0]] + a[1..][..|more| + 1]
  {
  }

  lemma FramedCons(body: Bytes, more: seq<Bytes>)
    ensures AllFramed([body] + more) == Framed(body) + AllFramed(more)
  {
    assert ([body] + more)[1..] == more;
  }

  /** Uncut, all of them. */
  lemma ReceivesWhole(bodies: seq<Bytes>, limit: nat)
    requires forall i :: 0 <= i < |bodies| ==> Sendable(bodies[i], limit)
    ensures ReceiveAll(AllFramed(bodies), limit) == (bodies, Closed)
  {
    ReceivesAll(bodies, AllFramed(bodies), limit);
    var got := ReceiveAll(AllFramed(bodies), limit).0;
    if |got| < |bodies| {
      FramedGrows(bodies, |got| + 1);
    }
    assert got == bodies[..|got|] && bodies[..|bodies|] == bodies;
    hide ReceiveAll, AllFramed;
  }

  lemma {:induction false} FramedGrows(bodies: seq<Bytes>, n: nat)
    requires n <= |bodies|
    ensures |AllFramed(bodies[..n])| <= |AllFramed(bodies)|
  {
    if n > 0 {
      FramedGrows(bodies[1..], n - 1);
      assert bodies[..n][1..] == bodies[1..][..n - 1];
    }
  }

  // -- reading from a socket -------------------------------------------------------------------------

  /** A connected socket: what its peer wrote and this end has not read, after which the peer closed. */
  class Socket {
    var stream: Bytes

    constructor (stream: Bytes)
      ensures this.stream == stream
    {
      this.stream := stream;
    }

    /** Read at most `room` bytes: as few as `chunk`, but at least one until the peer closed. */
    method ReceiveSome(room: nat, chunk: nat) returns (bytes: Bytes)
      requires room > 0
      modifies this
      ensures old(stream) == bytes + stream && |bytes| <= room
      ensures bytes == [] <==> old(stream) == []
    {
      var n := if chunk < 1 then 1 else chunk;
      n := if n > room then room else n;
      n := if n > |stream| then |stream| else n;
      bytes, stream := stream[..n], stream[n..];
    }
  }

  /** Read exactly `n` bytes, in as many reads as it takes; `None` when the peer closed before. */
  method Exactly(socket: Socket, n: nat, chunks: nat -> nat) returns (bytes: Option<Bytes>)
    modifies socket
    ensures |old(socket.stream)| >= n ==>
              bytes == Some(old(socket.stream)[..n]) && socket.stream == old(socket.stream)[n..]
    ensures |old(socket.stream)| < n ==> bytes == None && socket.stream == []
  {
    var got: Bytes := [];
    while |got| < n
      invariant |got| <= n && got + socket.stream == old(socket.stream)
      decreases n - |got|
    {
      var read := socket.ReceiveSome(n - |got|, chunks(|got|));
      if read == [] {
        return None;
      }
      got := got + read;
    }
    return Some(got);
  }

  /** Read one frame, refusing one longer than `limit` before its body. */
  method ReceiveFrame(socket: Socket, limit: nat, chunks: nat -> nat) returns (received: Received)
    modifies socket
    ensures (received, socket.stream) == Receive(old(socket.stream), limit)
  {
    var header := Exactly(socket, HEADER, chunks);
    if header.None? {
      return Closed;
    }
    var length := Number(header.value);
    if length > limit {
      return TooLong(length);
    }
    if length == 0 {
      return Body([]);
    }
    var body := Exactly(socket, length, chunks);
    if body.None? {
      return Closed;
    }
    return Body(body.value);
  }

  /** Write one frame: its header, then its body. */
  method SendFrame(socket: Socket, body: Bytes)
    requires |body| < Power(HEADER)
    modifies socket
    ensures socket.stream == old(socket.stream) + Framed(body)
  {
    socket.stream := socket.stream + Digits(|body|, HEADER);
    socket.stream := socket.stream + body;
  }
}
