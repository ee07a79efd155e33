/** The batching policy: which waiting requests the model steps together, and when.

    `Policy` is the policy's state as a value, with one function per operation and the laws of
    whole runs; the object that updates its queue in place is in `BatchPolicies`. */
module Batching {

  datatype Option<+T> = None | Some(value: T)

  /** One session's request. The payload is carried along untouched and is not modelled here. */
  datatype Waiting = Waiting(connection: int, requestId: int, payload: int, arrived: real, deadline: Option<real>,
                             order: nat)

  datatype Turn = Turn(batch: seq<Waiting>, expired: seq<Waiting>, wakeAt: Option<real>)

  datatype Policy = Policy(maxBatch: nat, window: real, waiting: seq<Waiting>, busy: set<int>, nextOrder: nat)

  // -- sequences -----------------------------------------------------------------------------

  lemma JoinTail<T>(a: seq<T>, b: seq<T>)
    requires a != []
    ensures (a + b)[0] == a[0] && (a + b)[1..] == a[1..] + b
  {
  }

  lemma JoinThree<T>(a: seq<T>, b: seq<T>, c: seq<T>)
    ensures (a + b) + c == a + (b + c)
  {
  }

  // -- reading the queue -------------------------------------------------------------------

  predicate IsLate(w: Waiting, now: real) {
    w.deadline.Some? && w.deadline.value <= now
  }

  /** The requests of other connections, in order. */
  function Others(ws: seq<Waiting>, connection: int): seq<Waiting> {
    if ws == [] then []
    else (if ws[0].connection != connection then [ws[0]] else []) + Others(ws[1..], connection)
  }

  lemma {:induction false} OthersMembers(ws: seq<Waiting>, connection: int)
    ensures |Others(ws, connection)| <= |ws|
    ensures forall w :: w in Others(ws, connection) <==> w in ws && w.connection != connection
  {
    if ws != [] {
      OthersMembers(ws[1..], connection);
      assert ws == [ws[0]] + ws[1..];
    }
  }

  /** The requests of one connection, in order. */
  function Of(ws: seq<Waiting>, connection: int): seq<Waiting> {
    if ws == [] then []
    else (if ws[0].connection == connection then [ws[0]] else []) + Of(ws[1..], connection)
  }

  lemma {:induction false} OfMembers(ws: seq<Waiting>, connection: int)
    ensures |Of(ws, connection)| <= |ws|
    ensures forall w :: w in Of(ws, connection) <==> w in ws && w.connection == connection
  {
    if ws != [] {
      OfMembers(ws[1..], connection);
      assert ws == [ws[0]] + ws[1..];
    }
  }

  /** The requests whose deadline passed at `now`, in order. */
  function Late(ws: seq<Waiting>, now: real): seq<Waiting> {
    if ws == [] then []
    else (if IsLate(ws[0], now) then [ws[0]] else []) + Late(ws[1..], now)
  }

  lemma {:induction false} LateMembers(ws: seq<Waiting>, now: real)
    ensures |Late(ws, now)| <= |ws|
    ensures forall w :: w in Late(ws, now) <==> w in ws && IsLate(w, now)
  {
    if ws != [] {
      LateMembers(ws[1..], now);
      assert ws == [ws[0]] + ws[1..];
    }
  }

  /** The requests that may still run at `now`, in order. */
  function Timely(ws: seq<Waiting>, now: real): seq<Waiting> {
    if ws == [] then []
    else (if !IsLate(ws[0], now) then [ws[0]] else []) + Timely(ws[1..], now)
  }

  lemma {:induction false} TimelyMembers(ws: seq<Waiting>, now: real)
    ensures |Timely(ws, now)| <= |ws|
    ensures forall w :: w in Timely(ws, now) <==> w in ws && !IsLate(w, now)
  {
    if ws != [] {
      TimelyMembers(ws[1..], now);
      assert ws == [ws[0]] + ws[1..];
    }
  }

  function Connections(ws: seq<Waiting>): set<int> {
    set w | w in ws :: w.connection
  }

  ghost predicate Ascending(ws: seq<Waiting>) {
    forall i, j :: 0 <= i < j < |ws| ==> ws[i].order < ws[j].order
  }

  /** The index of the first request of `connection` with this id, or the length of the queue. */
  function Find(ws: seq<Waiting>, connection: int, requestId: int): (i: nat)
    ensures i <= |ws|
    ensures i < |ws| ==> ws[i].connection == connection && ws[i].requestId == requestId
    ensures forall j :: 0 <= j < i ==> !(ws[j].connection == connection && ws[j].requestId == requestId)
  {
    if ws == [] then 0
    else if ws[0].connection == connection && ws[0].requestId == requestId then 0
    else 1 + Find(ws[1..], connection, requestId)
  }

  // -- the operations ----------------------------------------------------------------------

  function Accepts(p: Policy, w: Waiting): bool {
    w.connection !in p.busy
  }

  function Add(p: Policy, w: Waiting): Policy {
    if Accepts(p, w) then
      p.(waiting := p.waiting + [w.(order := p.nextOrder)],
         busy := p.busy + {w.connection},
         nextOrder := p.nextOrder + 1)
    else p
  }

  function Withdraws(p: Policy, connection: int, requestId: int): bool {
    Find(p.waiting, connection, requestId) < |p.waiting|
  }

  function Cancel(p: Policy, connection: int, requestId: int): Policy {
    var i := Find(p.waiting, connection, requestId);
    if i < |p.waiting| then
      p.(waiting := p.waiting[..i] + p.waiting[i + 1..], busy := p.busy - {connection})
    else p
  }

  function Drop(p: Policy, connection: int): Policy {
    p.(waiting := Others(p.waiting, connection), busy := p.busy - {connection})
  }

  function Finished(p: Policy, connections: set<int>): Policy {
    p.(busy := p.busy - connections)
  }

  /** How many sessions have a request running: the busy ones with nothing queued. */
  function Running(p: Policy): int {
    |p.busy| - |Connections(p.waiting)|
  }

  function Max(a: int, b: int): int { if a < b then b else a }

  function Min(a: int, b: int): int { if a < b then a else b }

  function Full(p: Policy, openSessions: nat): bool {
    |p.waiting| >= Min(p.maxBatch, Max(openSessions - Running(p), 1))
  }

  /** The earliest of `until` and every deadline in the queue. */
  function Earliest(until: real, ws: seq<Waiting>): (r: real)
    ensures r <= until
    ensures forall w :: w in ws && w.deadline.Some? ==> r <= w.deadline.value
    ensures r == until || exists w :: w in ws && w.deadline == Some(r)
  {
    if ws == [] then until
    else
      var r := Earliest(until, ws[1..]);
      assert ws == [ws[0]] + ws[1..];
      if ws[0].deadline.Some? && ws[0].deadline.value < r then ws[0].deadline.value else r
  }

  /** The queue once the expired requests are out of it. */
  function Purged(p: Policy, now: real): Policy {
    p.(waiting := Timely(p.waiting, now), busy := p.busy - Connections(Late(p.waiting, now)))
  }

  /** Whether the purged queue `q` waits longer for its batch to fill. */
  predicate Holds(q: Policy, now: real, openSessions: nat) {
    q.waiting != [] && !Full(q, openSessions) && now < q.waiting[0].arrived + q.window
  }

  /** How many requests of the purged queue `q` are stepped now. */
  function Cut(q: Policy, now: real, openSessions: nat): nat {
    if Holds(q, now, openSessions) then 0 else Min(q.maxBatch, |q.waiting|)
  }

  function Decision(p: Policy, now: real, openSessions: nat): Turn {
    var q := Purged(p, now);
    Turn(
      q.waiting[..Cut(q, now, openSessions)],
      Late(p.waiting, now),
      if Holds(q, now, openSessions) then Some(Earliest(q.waiting[0].arrived + q.window, q.waiting)) else None)
  }

  function Take(p: Policy, now: real, openSessions: nat): Policy {
    var q := Purged(p, now);
    q.(waiting := q.waiting[Cut(q, now, openSessions)..])
  }

  // -- what one take does ------------------------------------------------------------------

  ghost predicate Ordered(p: Policy) {
    && Ascending(p.waiting)
    && forall w :: w in p.waiting ==> w.order < p.nextOrder
  }

  ghost predicate OnePerConnection(ws: seq<Waiting>) {
    forall i, j :: 0 <= i < j < |ws| ==> ws[i].connection != ws[j].connection
  }

  lemma {:induction false} AscendingTail(ws: seq<Waiting>)
    requires Ascending(ws) && ws != []
    ensures Ascending(ws[1..]) && forall w :: w in ws[1..] ==> ws[0].order < w.order
  {
  }

  lemma {:induction false} AscendingCons(w: Waiting, ws: seq<Waiting>)
    requires Ascending(ws) && forall v :: v in ws ==> w.order < v.order
    ensures Ascending([w] + ws)
  {
  }

  lemma {:induction false} OthersAscend(ws: seq<Waiting>, connection: int)
    requires Ascending(ws)
    ensures Ascending(Others(ws, connection))
  {
    if ws != [] {
      AscendingTail(ws);
      OthersAscend(ws[1..], connection);
      OthersMembers(ws[1..], connection);
      AscendingCons(ws[0], Others(ws[1..], connection));
    }
  }

  lemma {:induction false} TimelyAscend(ws: seq<Waiting>, now: real)
    requires Ascending(ws)
    ensures Ascending(Timely(ws, now))
  {
    if ws != [] {
      AscendingTail(ws);
      TimelyAscend(ws[1..], now);
      TimelyMembers(ws[1..], now);
      AscendingCons(ws[0], Timely(ws[1..], now));
    }
  }

  lemma {:induction false} LateAndTimely(ws: seq<Waiting>, now: real)
    ensures multiset(ws) == multiset(Late(ws, now)) + multiset(Timely(ws, now))
  {
    if ws != [] {
      LateAndTimely(ws[1..], now);
      assert ws == [ws[0]] + ws[1..];
    }
  }

  /** A take splits the queue exactly: every request is expired, in the batch, or still waiting,
      the batch is the front of what may still run, and it is within the limit. */
  lemma TakeSplits(p: Policy, now: real, openSessions: nat)
    requires p.maxBatch >= 1
    ensures var t, rest := Decision(p, now, openSessions), Take(p, now, openSessions).waiting;
            && multiset(p.waiting) == multiset(t.expired) + multiset(t.batch) + multiset(rest)
            && t.batch + rest == Timely(p.waiting, now)
            && (forall w :: w in t.batch ==> !IsLate(w, now))
            && (forall w :: w in t.expired ==> IsLate(w, now))
            && |t.batch| <= p.maxBatch
            && (t.batch != [] && rest != [] ==> |t.batch| == p.maxBatch)
  {
    hide Late, Timely, Full, Earliest;
    LateAndTimely(p.waiting, now);
    LateMembers(p.waiting, now);
    TimelyMembers(p.waiting, now);
    var timely, cut := Timely(p.waiting, now), Cut(Purged(p, now), now, openSessions);
    assert timely[..cut] + timely[cut..] == timely;
    assert forall w :: w in timely[..cut] ==> w in timely;
  }

  /** When a take holds requests back, it is because the window of the oldest one has not ended
      and the batch is not full; and it asks to be woken in time for the window's end and for
      every deadline in the queue. */
  lemma HoldsBackOnlyBeforeWake(p: Policy, now: real, openSessions: nat)
    requires p.maxBatch >= 1
    requires Decision(p, now, openSessions).batch == [] && Timely(p.waiting, now) != []
    ensures var t := Decision(p, now, openSessions); var q := Take(p, now, openSessions);
            && q.waiting == Timely(p.waiting, now)
            && t.wakeAt.Some? && now < t.wakeAt.value <= q.waiting[0].arrived + p.window
            && (forall w :: w in q.waiting && w.deadline.Some? ==> t.wakeAt.value <= w.deadline.value)
            && |q.waiting| < p.maxBatch && !Full(Purged(p, now), openSessions)
  {
    var q := Purged(p, now);
    var until := q.waiting[0].arrived + q.window;
    TimelyMembers(p.waiting, now);
    WakesAhead(q.waiting, now, until);
    hide Earliest, Timely, Late;
  }

  lemma WakesAhead(ws: seq<Waiting>, now: real, until: real)
    requires now < until && forall w :: w in ws ==> !IsLate(w, now)
    ensures now < Earliest(until, ws)
  {
    if Earliest(until, ws) != until {
      var w :| w in ws && w.deadline == Some(Earliest(until, ws));
    }
  }

  lemma WorkIfLate(p: Policy, w: Waiting, now: real, openSessions: nat)
    requires w in p.waiting && IsLate(w, now)
    ensures Decision(p, now, openSessions).expired != []
  {
    LateMembers(p.waiting, now);
    assert w in Late(p.waiting, now);
  }

  lemma WorkIfWindowEnded(p: Policy, now: real, openSessions: nat)
    requires p.maxBatch >= 1 && p.waiting != [] && !IsLate(p.waiting[0], now)
    requires p.waiting[0].arrived + p.window <= now
    ensures Decision(p, now, openSessions).batch != []
  {
    assert Timely(p.waiting, now)[0] == p.waiting[0];
  }

  lemma EarliestIsSomeone(until: real, ws: seq<Waiting>)
    ensures Earliest(until, ws) == until || exists i :: 0 <= i < |ws| && ws[i].deadline == Some(Earliest(until, ws))
  {
    if Earliest(until, ws) != until {
      var w :| w in ws && w.deadline == Some(Earliest(until, ws));
      var i :| 0 <= i < |ws| && ws[i] == w;
    }
  }

  /** Woken at or after the time it asked for, the policy steps or expires something, whatever
      joined the queue behind in the meantime. */
  lemma WakesToWork(p: Policy, now: real, openSessions: nat, joined: Policy, later: real, openLater: nat)
    requires p.maxBatch >= 1
    requires Decision(p, now, openSessions).wakeAt.Some?
    requires Take(p, now, openSessions).waiting <= joined.waiting
    requires joined.maxBatch == p.maxBatch && joined.window == p.window
    requires Decision(p, now, openSessions).wakeAt.value <= later
    ensures var t := Decision(joined, later, openLater); t.batch != [] || t.expired != []
  {
    var queue := Take(p, now, openSessions).waiting;
    assert queue == Timely(p.waiting, now);
    var until := queue[0].arrived + p.window;
    EarliestIsSomeone(until, queue);
    assert joined.waiting[0] == queue[0];
    if Earliest(until, queue) != until {
      var i :| 0 <= i < |queue| && queue[i].deadline == Some(Earliest(until, queue));
      assert joined.waiting[i] == queue[i];
      WorkIfLate(joined, queue[i], later, openLater);
    } else if IsLate(queue[0], later) {
      WorkIfLate(joined, queue[0], later, openLater);
    } else {
      WorkIfWindowEnded(joined, later, openLater);
    }
  }

  lemma {:induction false} DistinctConnections(ws: seq<Waiting>)
    requires OnePerConnection(ws)
    ensures |Connections(ws)| == |ws|
  {
    if ws != [] {
      var init := ws[..|ws| - 1];
      DistinctConnections(init);
      assert ws == init + [ws[|ws| - 1]];
      assert Connections(ws) == Connections(init) + {ws[|ws| - 1].connection};
      assert ws[|ws| - 1].connection !in Connections(init);
    }
  }

  /** Given one queued request per session, each of them busy, the sessions counted as running
      are exactly the busy ones with nothing queued. */
  lemma RunningCountsTheRest(p: Policy)
    requires Connections(p.waiting) <= p.busy
    ensures Running(p) == |p.busy - Connections(p.waiting)|
  {
    assert p.busy == (p.busy - Connections(p.waiting)) + Connections(p.waiting);
  }

  /** Of a queue with one request per session, each of them busy, a take holds back what is in time exactly
      when that is fewer than a batch takes, fewer than the open sessions that have no request running, and
      the oldest one's window has not ended; it is then to be woken at the earliest of that end and the
      deadlines that wait. Otherwise it steps the first of them, as many as a batch takes. */
  lemma HeldBackExactlyWhen(p: Policy, now: real, openSessions: nat)
    requires p.maxBatch >= 1 && OnePerConnection(p.waiting) && Connections(p.waiting) <= p.busy
    ensures var t, timely := Decision(p, now, openSessions), Timely(p.waiting, now);
            var running := |p.busy - Connections(p.waiting)|;
            && (t.wakeAt.Some? <==>
                  && timely != [] && |timely| < p.maxBatch && |timely| < openSessions - running
                  && now < timely[0].arrived + p.window)
            && (t.wakeAt.Some? ==>
                  && t.batch == []
                  && t.wakeAt.value <= timely[0].arrived + p.window
                  && (forall w :: w in timely && w.deadline.Some? ==> t.wakeAt.value <= w.deadline.value)
                  && (t.wakeAt.value == timely[0].arrived + p.window
                      || exists w :: w in timely && w.deadline == t.wakeAt))
            && (t.wakeAt.None? ==> t.batch == if |timely| <= p.maxBatch then timely else timely[..p.maxBatch])
  {
    var q := Purged(p, now);
    hide Timely, Late, Earliest, Holds, Running, Connections;
    RunningApart(p, now);
    RunningCountsTheRest(q);
    HoldsExactlyWhen(q, now, openSessions);
    assert q.waiting[..|q.waiting|] == q.waiting;
  }

  lemma HoldsExactlyWhen(q: Policy, now: real, openSessions: nat)
    requires q.maxBatch >= 1
    ensures Holds(q, now, openSessions)
       <==> && q.waiting != [] && |q.waiting| < q.maxBatch && |q.waiting| < openSessions - Running(q)
            && now < q.waiting[0].arrived + q.window
  {
    hide Running;
  }

  /** Those with a request running are the busy ones with none queued, before and after the purge. */
  lemma RunningApart(p: Policy, now: real)
    requires OnePerConnection(p.waiting) && Connections(p.waiting) <= p.busy
    ensures var q := Purged(p, now);
            Connections(q.waiting) <= q.busy && q.busy - Connections(q.waiting) == p.busy - Connections(p.waiting)
  {
    TimelyMembers(p.waiting, now);
    LateMembers(p.waiting, now);
    var q := Purged(p, now);
    forall n | n in Connections(q.waiting) ensures n in q.busy {
      var w :| w in q.waiting && w.connection == n;
      if v :| v in Late(p.waiting, now) && v.connection == n {
        SameConnection(p.waiting, v, w);
      }
    }
    forall n ensures n in q.busy - Connections(q.waiting) <==> n in p.busy - Connections(p.waiting) {
      if n in Connections(p.waiting) {
        var w :| w in p.waiting && w.connection == n;
        assert w in Late(p.waiting, now) || w in q.waiting;
      }
    }
  }

  lemma SameConnection(ws: seq<Waiting>, v: Waiting, w: Waiting)
    requires OnePerConnection(ws) && v in ws && w in ws && v.connection == w.connection
    ensures v == w
  {
  }

  lemma FullWhenAllWait(p: Policy, open: set<int>)
    requires OnePerConnection(p.waiting) && Connections(p.waiting) <= p.busy <= open
    requires open - (p.busy - Connections(p.waiting)) <= Connections(p.waiting)
    ensures |p.waiting| >= |open| - Running(p)
  {
    var queued, running := Connections(p.waiting), p.busy - Connections(p.waiting);
    RunningCountsTheRest(p);
    DistinctConnections(p.waiting);
    assert open == (open - running) + running;
    Subset(open - running, queued);
  }

  /** A take never holds back once `maxBatch` requests that did not expire wait, nor once every open
      session that is not running a request has one waiting. */
  lemma NeverHoldsBackWhenAllWait(p: Policy, now: real, open: set<int>)
    requires p.maxBatch >= 1
    requires var q := Purged(p, now);
             && q.waiting != [] && OnePerConnection(q.waiting) && Connections(q.waiting) <= q.busy <= open
             && (|q.waiting| >= q.maxBatch || open - (q.busy - Connections(q.waiting)) <= Connections(q.waiting))
    ensures Decision(p, now, |open|).batch != []
  {
    var q := Purged(p, now);
    if |q.waiting| < q.maxBatch {
      FullWhenAllWait(q, open);
    }
  }

  lemma {:induction false} Subset<T>(a: set<T>, b: set<T>)
    requires a <= b
    ensures |a| <= |b|
  {
    assert b == a + (b - a);
  }

  lemma {:induction false} AppendOne(ws: seq<Waiting>, w: Waiting, connection: int)
    ensures Others(ws + [w], connection) == Others(ws, connection) + (if w.connection != connection then [w] else [])
    ensures Of(ws + [w], connection) == Of(ws, connection) + (if w.connection == connection then [w] else [])
  {
    if ws != [] {
      AppendOne(ws[1..], w, connection);
      assert (ws + [w])[1..] == ws[1..] + [w];
    }
  }

  lemma {:induction false} AppendOneTimed(ws: seq<Waiting>, w: Waiting, now: real)
    ensures Late(ws + [w], now) == Late(ws, now) + (if IsLate(w, now) then [w] else [])
    ensures Timely(ws + [w], now) == Timely(ws, now) + (if IsLate(w, now) then [] else [w])
  {
    if ws != [] {
      AppendOneTimed(ws[1..], w, now);
      assert (ws + [w])[1..] == ws[1..] + [w];
    }
  }

  // -- a whole run -------------------------------------------------------------------------

  datatype Op =
    | Adding(request: Waiting)
    | Cancelling(connection: int, requestId: int)
    | Dropping(connection: int)
    | Finishing(connections: set<int>)
    | Taking(now: real, openSessions: nat)

  function Apply(p: Policy, op: Op): Policy {
    match op
    case Adding(w) => Add(p, w)
    case Cancelling(c, id) => Cancel(p, c, id)
    case Dropping(c) => Drop(p, c)
    case Finishing(cs) => Finished(p, cs)
    case Taking(now, open) => Take(p, now, open)
  }

  function Taken(p: Policy, op: Op): seq<Waiting> {
    if op.Taking? then Decision(p, op.now, op.openSessions).batch else []
  }

  function After(p: Policy, ops: seq<Op>): Policy
    decreases |ops|
  {
    if ops == [] then p else After(Apply(p, ops[0]), ops[1..])
  }

  /** Every batch of a run, concatenated. */
  function Stepped(p: Policy, ops: seq<Op>): seq<Waiting>
    decreases |ops|
  {
    if ops == [] then [] else Taken(p, ops[0]) + Stepped(Apply(p, ops[0]), ops[1..])
  }

  /** How many batches of a run were not empty. */
  function Batches(p: Policy, ops: seq<Op>): nat
    decreases |ops|
  {
    if ops == [] then 0
    else (if Taken(p, ops[0]) != [] then 1 else 0) + Batches(Apply(p, ops[0]), ops[1..])
  }

  lemma AscendingSplit(ws: seq<Waiting>, n: nat)
    requires Ascending(ws) && n <= |ws|
    ensures Ascending(ws[..n]) && Ascending(ws[n..])
    ensures forall a, b :: a in ws[..n] && b in ws[n..] ==> a.order < b.order
  {
  }

  lemma AscendingJoin(a: seq<Waiting>, b: seq<Waiting>)
    requires Ascending(a) && Ascending(b)
    requires forall x, y :: x in a && y in b ==> x.order < y.order
    ensures Ascending(a + b)
  {
    var c := a + b;
    forall i, j | 0 <= i < j < |c| ensures c[i].order < c[j].order {
      if i < |a| <= j {
        assert c[i] in a && c[j] in b;
      }
    }
  }

  lemma AscendingDelete(ws: seq<Waiting>, i: nat)
    requires Ascending(ws) && i < |ws|
    ensures Ascending(ws[..i] + ws[i + 1..])
  {
  }

  lemma CancelKeepsOrder(p: Policy, connection: int, requestId: int)
    requires Ordered(p)
    ensures Ordered(Cancel(p, connection, requestId))
    ensures forall w :: w in Cancel(p, connection, requestId).waiting ==> w in p.waiting
  {
    var i := Find(p.waiting, connection, requestId);
    if i < |p.waiting| {
      AscendingDelete(p.waiting, i);
    }
  }

  lemma ApplyKeepsOrder(p: Policy, op: Op)
    requires Ordered(p)
    ensures Ordered(Apply(p, op))
    ensures Apply(p, op).nextOrder >= p.nextOrder && Apply(p, op).maxBatch == p.maxBatch
    ensures forall w :: w in Apply(p, op).waiting ==> w in p.waiting || w.order >= p.nextOrder
  {
    match op
    case Adding(w) =>
      AscendingJoin(p.waiting, [w.(order := p.nextOrder)]);
    case Cancelling(c, id) =>
      CancelKeepsOrder(p, c, id);
    case Dropping(c) =>
      OthersAscend(p.waiting, c);
      OthersMembers(p.waiting, c);
    case Finishing(_) =>
    case Taking(now, open) =>
      TakingKeepsOrder(p, now, open);
  }

  /** What a take steps, and what it leaves, are the two ends of an ascending part of the queue. */
  lemma TakingKeepsOrder(p: Policy, now: real, open: nat)
    requires Ordered(p)
    ensures Ordered(Take(p, now, open)) && Ascending(Decision(p, now, open).batch)
    ensures forall a, b :: a in Decision(p, now, open).batch && b in Take(p, now, open).waiting ==> a.order < b.order
    ensures forall w :: w in Decision(p, now, open).batch || w in Take(p, now, open).waiting ==> w in p.waiting
  {
    var t := Timely(p.waiting, now);
    TimelyAscend(p.waiting, now);
    TimelyMembers(p.waiting, now);
    AscendingSplit(t, Cut(Purged(p, now), now, open));
    assert forall w :: w in Decision(p, now, open).batch || w in Take(p, now, open).waiting ==> w in t;
  }

  lemma {:induction false} SteppedComeFromQueue(p: Policy, ops: seq<Op>)
    requires Ordered(p)
    ensures forall w :: w in Stepped(p, ops) ==> w in p.waiting || w.order >= p.nextOrder
    decreases |ops|
  {
    if ops != [] {
      ApplyKeepsOrder(p, ops[0]);
      SteppedComeFromQueue(Apply(p, ops[0]), ops[1..]);
      if ops[0].Taking? {
        TakingKeepsOrder(p, ops[0].now, ops[0].openSessions);
      }
    }
  }

  /** Over any run, the requests stepped come in strictly increasing arrival order. */
  lemma {:induction false} SteppedInArrivalOrder(p: Policy, ops: seq<Op>)
    requires Ordered(p)
    ensures Ascending(Stepped(p, ops))
    decreases |ops|
  {
    if ops != [] {
      var q := Apply(p, ops[0]);
      ApplyKeepsOrder(p, ops[0]);
      SteppedInArrivalOrder(q, ops[1..]);
      SteppedComeFromQueue(q, ops[1..]);
      if ops[0].Taking? {
        TakingKeepsOrder(p, ops[0].now, ops[0].openSessions);
      }
      AscendingJoin(Taken(p, ops[0]), Stepped(q, ops[1..]));
    }
  }

  /** How many requests of the queue arrived before `order`. */
  function Ahead(ws: seq<Waiting>, order: nat): nat {
    if ws == [] then 0 else (if ws[0].order < order then 1 else 0) + Ahead(ws[1..], order)
  }

  lemma {:induction false} AheadSplits(a: seq<Waiting>, b: seq<Waiting>, order: nat)
    ensures Ahead(a + b, order) == Ahead(a, order) + Ahead(b, order)
  {
    if a == [] {
      assert a + b == b;
    } else {
      AheadSplits(a[1..], b, order);
      assert (a + b)[1..] == a[1..] + b;
    }
  }

  lemma {:induction false} AheadAll(ws: seq<Waiting>, order: nat)
    requires forall w :: w in ws ==> w.order < order
    ensures Ahead(ws, order) == |ws|
  {
    if ws != [] {
      assert forall w :: w in ws[1..] ==> w in ws;
      AheadAll(ws[1..], order);
    }
  }

  lemma {:induction false} AheadNone(ws: seq<Waiting>, order: nat)
    requires forall w :: w in ws ==> w.order >= order
    ensures Ahead(ws, order) == 0
  {
    if ws != [] {
      assert forall w :: w in ws[1..] ==> w in ws;
      AheadNone(ws[1..], order);
    }
  }

  lemma {:induction false} AheadOfOthers(ws: seq<Waiting>, connection: int, order: nat)
    ensures Ahead(Others(ws, connection), order) <= Ahead(ws, order)
  {
    if ws != [] {
      AheadOfOthers(ws[1..], connection, order);
      assert ws[0].connection != connection ==> Others(ws, connection)[1..] == Others(ws[1..], connection);
      assert ws[0].connection == connection ==> Others(ws, connection) == Others(ws[1..], connection);
    }
  }

  lemma {:induction false} AheadOfTimely(ws: seq<Waiting>, now: real, order: nat)
    ensures Ahead(Timely(ws, now), order) <= Ahead(ws, order)
  {
    if ws != [] {
      AheadOfTimely(ws[1..], now, order);
      assert !IsLate(ws[0], now) ==> Timely(ws, now)[1..] == Timely(ws[1..], now);
      assert IsLate(ws[0], now) ==> Timely(ws, now) == Timely(ws[1..], now);
    }
  }

  lemma CancelMovesUp(p: Policy, connection: int, requestId: int, order: nat)
    ensures Ahead(Cancel(p, connection, requestId).waiting, order) <= Ahead(p.waiting, order)
  {
    var i := Find(p.waiting, connection, requestId);
    if i < |p.waiting| {
      var before, after := p.waiting[..i], p.waiting[i + 1..];
      assert p.waiting == before + ([p.waiting[i]] + after);
      AheadSplits(before, [p.waiting[i]] + after, order);
      AheadSplits([p.waiting[i]], after, order);
      AheadSplits(before, after, order);
    }
  }

  lemma FrontMovesUp(batch: seq<Waiting>, rest: seq<Waiting>, order: nat)
    requires forall w :: w in batch ==> w.order < order
    ensures Ahead(batch + rest, order) == |batch| + Ahead(rest, order)
  {
    AheadSplits(batch, rest, order);
    AheadAll(batch, order);
  }

  lemma TakeMovesUp(p: Policy, now: real, open: nat, r: Waiting)
    requires Ordered(p) && p.maxBatch >= 1 && r in Take(p, now, open).waiting
    ensures Ahead(Take(p, now, open).waiting, r.order)
            + (if Decision(p, now, open).batch != [] then p.maxBatch else 0) <= Ahead(p.waiting, r.order)
  {
    TakingKeepsOrder(p, now, open);
    FrontMovesUp(Decision(p, now, open).batch, Take(p, now, open).waiting, r.order);
    AheadOfTimely(p.waiting, now, r.order);
    TakeSplits(p, now, open);
  }

  /** A batch that leaves a request behind moves it up by a whole batch; nothing moves it back. */
  lemma ApplyMovesUp(p: Policy, op: Op, r: Waiting)
    requires Ordered(p) && p.maxBatch >= 1 && r in p.waiting && r in Apply(p, op).waiting
    ensures Ahead(Apply(p, op).waiting, r.order) + (if Taken(p, op) != [] then p.maxBatch else 0)
            <= Ahead(p.waiting, r.order)
  {
    match op
    case Adding(w) =>
      AheadSplits(p.waiting, [w.(order := p.nextOrder)], r.order);
      AheadNone([w.(order := p.nextOrder)], r.order);
    case Cancelling(c, id) =>
      CancelMovesUp(p, c, id, r.order);
    case Dropping(c) =>
      AheadOfOthers(p.waiting, c, r.order);
    case Finishing(_) =>
    case Taking(now, open) =>
      TakeMovesUp(p, now, open, r);
  }

  /** `maxBatch` for every batch of a run that was not empty. */
  function Room(p: Policy, ops: seq<Op>): nat
    decreases |ops|
  {
    if ops == [] then 0
    else (if Taken(p, ops[0]) != [] then p.maxBatch else 0) + Room(Apply(p, ops[0]), ops[1..])
  }

  lemma ApplyKeepsSize(p: Policy, op: Op)
    ensures Apply(p, op).maxBatch == p.maxBatch
  {
  }

  lemma {:induction false} RoomOfBatches(p: Policy, ops: seq<Op>)
    ensures Room(p, ops) == Batches(p, ops) * p.maxBatch
    decreases |ops|
  {
    if ops != [] {
      hide Apply, Taken, Room, Batches;
      var q := Apply(p, ops[0]);
      ApplyKeepsSize(p, ops[0]);
      RoomOfBatches(q, ops[1..]);
      FirstOfRun(p, ops);
      OneMore(Batches(q, ops[1..]), p.maxBatch);
    }
  }

  lemma FirstOfRun(p: Policy, ops: seq<Op>)
    requires ops != []
    ensures var q, some := Apply(p, ops[0]), Taken(p, ops[0]) != [];
            && Room(p, ops) == (if some then p.maxBatch else 0) + Room(q, ops[1..])
            && Batches(p, ops) == (if some then 1 else 0) + Batches(q, ops[1..])
  {
    hide Apply, Taken;
  }

  lemma OneMore(n: nat, m: nat)
    ensures (1 + n) * m == m + n * m
  {
  }

  lemma {:induction false} StaysWithinBatches(p: Policy, ops: seq<Op>, r: Waiting)
    requires Ordered(p) && p.maxBatch >= 1 && r in p.waiting && r in After(p, ops).waiting
    ensures Room(p, ops) <= Ahead(p.waiting, r.order)
    decreases |ops|
  {
    if ops != [] {
      ApplyKeepsOrder(p, ops[0]);
      StillThere(Apply(p, ops[0]), ops[1..], r);
      ApplyMovesUp(p, ops[0], r);
      StaysWithinBatches(Apply(p, ops[0]), ops[1..], r);
    }
  }

  /** A request that is in the queue later, and is not new, is in the queue now. */
  lemma {:induction false} StillThere(p: Policy, ops: seq<Op>, r: Waiting)
    requires Ordered(p) && r in After(p, ops).waiting && r.order < p.nextOrder
    ensures r in p.waiting
    decreases |ops|
  {
    if ops != [] {
      ApplyKeepsOrder(p, ops[0]);
      StillThere(Apply(p, ops[0]), ops[1..], r);
    }
  }

  lemma IndexIsAhead(ws: seq<Waiting>, k: nat)
    requires Ascending(ws) && k < |ws|
    ensures Ahead(ws, ws[k].order) == k
  {
    assert ws == ws[..k] + ws[k..];
    AheadSplits(ws[..k], ws[k..], ws[k].order);
    AheadAll(ws[..k], ws[k].order);
    AheadNone(ws[k..], ws[k].order);
  }

  /** A request with `k` ahead of it leaves the queue within `k / maxBatch + 1` batches, whatever
      else arrives, is cancelled, leaves or expires meanwhile. */
  lemma LeavesQueueInTime(p: Policy, ops: seq<Op>, k: nat)
    requires Ordered(p) && p.maxBatch >= 1 && k < |p.waiting|
    requires Batches(p, ops) >= k / p.maxBatch + 1
    ensures p.waiting[k] !in After(p, ops).waiting
  {
    if p.waiting[k] in After(p, ops).waiting {
      StaysWithinBatches(p, ops, p.waiting[k]);
      RoomOfBatches(p, ops);
      IndexIsAhead(p.waiting, k);
      TooMany(Batches(p, ops), p.maxBatch, k);
    }
  }

  lemma TooMany(n: nat, m: nat, k: nat)
    requires m >= 1 && n >= k / m + 1
    ensures n * m > k
  {
    var d := k / m;
    assert (n - (d + 1)) * m >= 0;
    assert n * m >= (d + 1) * m;
    assert (d + 1) * m == d * m + m;
    assert k == d * m + k % m;
  }
}
