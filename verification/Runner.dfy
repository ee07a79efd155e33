/** The runner's and the ranks' own loops: what a call broadcasts and collects, and what a rank
    answers. */
module Runners {
  import opened Slots
  import opened Payloads
  import opened Lockstep

  class DistributedRunner {
    const world: nat
    var healthy: bool
    var inboxes: array<seq<Request>>
    var outbox: seq<Answer>

    ghost predicate Valid()
      reads this
    {
      inboxes.Length == world
    }

    constructor (world: nat)
      ensures Valid() && healthy && outbox == [] && fresh(inboxes) && this.world == world
      ensures forall r :: 0 <= r < world ==> inboxes[r] == []
    {
      this.world, healthy, outbox := world, true, [];
      inboxes := new seq<Request>[world](r => []);
    }

    /** Put a request on every rank's queue. */
    method BroadcastRequest(request: Request)
      requires Valid()
      modifies inboxes
      ensures Valid() && inboxes[..] == Broadcast(old(inboxes[..]), request)
    {
      for r := 0 to inboxes.Length
        invariant forall q :: 0 <= q < r ==> inboxes[q] == old(inboxes[q]) + [request]
        invariant forall q :: r <= q < inboxes.Length ==> inboxes[q] == old(inboxes[q])
      {
        inboxes[r] := inboxes[r] + [request];
      }
    }

    /** Wait for one message per rank, in the order they arrive. Between two waits that bring none, a dead
        rank that has not answered ends the call, once everything that did arrive is taken; so does the
        end of its time, which is up after `limit` waits. Both leave the group unusable. */
    method CollectAnswers(waits: nat -> Wait, limit: nat) returns (messages: seq<Answer>, end: End, rounds: nat)
      requires Valid()
      modifies this`outbox, this`healthy
      ensures rounds <= limit
      ensures messages + outbox == old(outbox) + Came(waits, rounds)
      ensures healthy == (old(healthy) && end == Complete)
      ensures end == Complete <==> |messages| >= world && !end.Crashed?
      ensures end == Complete ==> |messages| == world || outbox == []
      ensures end == TimedOut ==> rounds == limit
      ensures end.Crashed? ==>
                outbox == [] && rounds > 0 && end.rank in waits(rounds - 1).dead && !HasAnswer(messages, end.rank)
    {
      hide Came, HasAnswer;
      NoneCame(waits);
      messages, rounds := [], 0;
      while |messages| < world
        invariant healthy == old(healthy) && rounds <= limit
        invariant messages + outbox == old(outbox) + Came(waits, rounds)
        invariant |messages| <= world || outbox == []
        decreases limit - rounds
      {
        if rounds >= limit {
          healthy, end := false, TimedOut;
          return;
        }
        var wait := waits(rounds);
        OneRound(messages, outbox, old(outbox), waits, rounds);
        rounds := rounds + 1;
        outbox := outbox + wait.arrives;
        if outbox != [] {
          FirstTaken(messages, outbox, wait.more);
          messages, outbox := messages + [outbox[0]], outbox[1..] + wait.more;
        } else {
          outbox := outbox + wait.more;
          if wait.dead != [] {
            AllTaken(messages, outbox);
            messages, outbox := messages + outbox, [];
            var missing := Unanswered(messages, wait.dead);
            if missing.Some? {
              healthy, end := false, Crashed(missing.value);
              return;
            }
          }
        }
      }
      end := Complete;
    }

    /** The first dead rank that has not answered. */
    method Unanswered(messages: seq<Answer>, dead: seq<nat>) returns (missing: Option<nat>)
      ensures missing.None? <==> forall rank :: rank in dead ==> HasAnswer(messages, rank)
      ensures missing.Some? ==> missing.value in dead && !HasAnswer(messages, missing.value)
    {
      var answered := set a | a in messages :: a.rank;
      for d := 0 to |dead|
        invariant forall e :: 0 <= e < d ==> HasAnswer(messages, dead[e])
      {
        if dead[d] !in answered {
          assert dead[d] in dead && !HasAnswer(messages, dead[d]);
          return Some(dead[d]);
        }
        var a :| a in messages && a.rank == dead[d];
        var i :| 0 <= i < |messages| && messages[i] == a;
      }
      return None;
    }
  }

  /** One wait for a message: what arrives until it ends, the ranks found dead if it brought none, and
      what arrives while they are looked for. */
  datatype Wait = Wait(arrives: seq<Answer>, dead: seq<nat>, more: seq<Answer>)

  datatype End = Complete | TimedOut | Crashed(rank: nat)

  /** Everything that arrives in the first `n` waits. */
  ghost function Came(waits: nat -> Wait, n: nat): seq<Answer> {
    if n == 0 then [] else Came(waits, n - 1) + waits(n - 1).arrives + waits(n - 1).more
  }

  lemma NoneCame(waits: nat -> Wait)
    ensures Came(waits, 0) == []
  {
  }

  lemma FirstTaken(messages: seq<Answer>, outbox: seq<Answer>, more: seq<Answer>)
    requires outbox != []
    ensures messages + [outbox[0]] + (outbox[1..] + more) == messages + (outbox + more)
  {
  }

  lemma AllTaken(messages: seq<Answer>, outbox: seq<Answer>)
    ensures messages + outbox + [] == messages + outbox
  {
  }

  lemma OneRound(messages: seq<Answer>, outbox: seq<Answer>, before: seq<Answer>, waits: nat -> Wait, n: nat)
    requires messages + outbox == before + Came(waits, n)
    ensures messages + (outbox + waits(n).arrives + waits(n).more) == before + Came(waits, n + 1)
  {
    var w := waits(n);
    assert before + Came(waits, n + 1) == before + Came(waits, n) + w.arrives + w.more;
  }

  // -- a rank --------------------------------------------------------------------------------------

  datatype Item = Asked(request: Request) | Shutdown | Unknown

  /** The requests a rank answers: those before it is told to shut down. */
  function Requests(items: seq<Item>): seq<Request> {
    if items == [] || items[0].Shutdown? then []
    else (if items[0].Asked? then [items[0].request] else []) + Requests(items[1..])
  }

  /** The answer to one request, given the worker's error, if any, and its result's header. */
  function Reply(rank: nat, request: Request, error: Option<int>, header: (nat, Header<int>)): Answer {
    if error.Some? then Answer(rank, request.call, None, error)
    else Answer(rank, request.call, if request.Generate? && rank == 0 then Some(header) else None, None)
  }

  /** The request loop: each request is answered once, in the order they came, until a shutdown. */
  method RankLoop(rank: nat, inbox: seq<Item>, errors: nat -> Option<int>, headers: nat -> (nat, Header<int>))
    returns (outbox: seq<Answer>)
    ensures |outbox| == |Requests(inbox)|
    ensures forall k :: 0 <= k < |outbox| ==> outbox[k] == Reply(rank, Requests(inbox)[k], errors(k), headers(k))
    ensures forall k :: 0 <= k < |outbox| ==>
              && outbox[k].rank == rank && outbox[k].call == Requests(inbox)[k].call && outbox[k].error == errors(k)
              && (outbox[k].header.Some? <==> rank == 0 && Requests(inbox)[k].Generate? && errors(k).None?)
              && (outbox[k].header.Some? ==> outbox[k].header.value == headers(k))
  {
    outbox := [];
    var i := 0;
    assert inbox[0..] == inbox;
    ghost var done: seq<Request> := [];
    while i < |inbox|
      invariant 0 <= i <= |inbox| && |done| == |outbox|
      invariant done + Requests(inbox[i..]) == Requests(inbox)
      invariant forall k :: 0 <= k < |outbox| ==> outbox[k] == Reply(rank, done[k], errors(k), headers(k))
    {
      assert inbox[i..][1..] == inbox[i + 1..];
      match inbox[i] {
        case Shutdown => break;
        case Unknown =>
        case Asked(request) =>
          outbox := outbox + [Reply(rank, request, errors(|outbox|), headers(|outbox|))];
          done := done + [request];
      }
      i := i + 1;
    }
    assert done == Requests(inbox);
  }
}
