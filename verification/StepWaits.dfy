/** How long the step thread sleeps when a turn found nothing to do, and that it never sleeps
    through anything it has to do. */
module StepWaits {
  import opened Batching
  import opened RequestTable
  import opened ServerCore
  import opened LinkInvariant
  import opened RequestInvariant
  import opened AnswerInvariant
  import opened AnswerTurns
  import opened LogInvariant
  import opened EndInvariant
  import opened ServerProperties

  const IDLE_WAIT: real := 0.5

  predicate HasDeadline(p: Pending) {
    p.future && p.Awaited() && p.waiting.deadline.Some?
  }

  /** The shorter of `wait` and the time left, at `now`, until a running request's timeout. */
  function NextWake(pending: map<nat, Pending>, wait: real, now: real, below: nat): (r: real)
    ensures r <= wait
    ensures forall t :: t in pending && t < below && HasDeadline(pending[t]) ==>
              r <= pending[t].waiting.deadline.value - now
    ensures r == wait || exists t ::
              t in pending && t < below && HasDeadline(pending[t]) && r == pending[t].waiting.deadline.value - now
  {
    if below == 0 then wait
    else
      var r := NextWake(pending, wait, now, below - 1);
      if below - 1 in pending && HasDeadline(pending[below - 1]) && pending[below - 1].waiting.deadline.value - now < r
      then pending[below - 1].waiting.deadline.value - now else r
  }

  function NotNegative(r: real): real { if r < 0.0 then 0.0 else r }

  function Shorter(a: real, b: real): real { if a < b then a else b }

  /** How long the step thread sleeps after its turn at `now`, if it does; the clock reads `later`
      by the time it looks at the running timeouts. */
  function Sleep(s: Core, now: real, later: real): Option<real> {
    var late := Overdue(s.requests.pending, now);
    if s.server == Stopped || (s.server == Draining && (now >= s.drainBy || !AnyAwaited(s.requests.pending))) then None
    else if s.events != [] || late != {} then None
    else if s.server == Draining then
      Some(NotNegative(Shorter(NextWake(s.requests.pending, IDLE_WAIT, later, s.requests.nextTicket), s.drainBy - now)))
    else
      var turn := Decision(s.requests.policy, now, OpenSessions(s.links));
      if turn.batch != [] || turn.expired != [] then None
      else
        var wait := if turn.wakeAt.None? then IDLE_WAIT else turn.wakeAt.value - now;
        Some(NotNegative(NextWake(s.requests.pending, wait, later, s.requests.nextTicket)))
  }

  /** The step thread sleeps exactly when its turn left it nothing to do and it has not ended. */
  lemma SleepsWhenIdle(s: Core, now: real, later: real)
    requires Consistent(s.requests) && AtRest(s) && s.alive
    ensures Sleep(s, now, later).Some? <==> RunTurn(s, now).alive && RunTurn(s, now).errands == []
  {
    hide Consistent, Decision, ByTicket, NextWake, Mend, TakeTurn, AnyAwaited, OpenSessions, OrdersOf, Orders,
         IsOverdue;
    LateErrands(s, Overdue(s.requests.pending, now));
  }

  lemma LateErrands(s: Core, late: set<nat>)
    requires Consistent(s.requests) && late <= s.requests.pending.Keys
    ensures AnswersTo(ByTicket(s.requests.pending, late, s.requests.nextTicket)) == [] <==> late == {}
  {
    if t :| t in late {
      ListsTicket(s.requests.pending, late, s.requests.nextTicket, t);
    } else {
      ListsNone(s.requests.pending, s.requests.nextTicket);
    }
  }

  lemma {:induction false} ListsTicket(pending: map<nat, Pending>, tickets: set<nat>, below: nat, t: nat)
    requires t in tickets && t in pending && t < below
    ensures ByTicket(pending, tickets, below) != []
  {
    if t < below - 1 {
      ListsTicket(pending, tickets, below - 1, t);
    }
  }

  lemma {:induction false} ListsNone(pending: map<nat, Pending>, below: nat)
    ensures ByTicket(pending, {}, below) == []
  {
    if below > 0 {
      ListsNone(pending, below - 1);
    }
  }

  /** It never sleeps past the timeout of a running request, past the time the policy asked to be
      woken, or past the end of the drain, and no running request is overdue while it sleeps. */
  lemma NeverSleepsPast(s: Core, now: real, later: real)
    requires Consistent(s.requests) && now <= later && Sleep(s, now, later).Some?
    ensures forall t :: t in s.requests.pending && HasDeadline(s.requests.pending[t]) ==>
              var d := s.requests.pending[t].waiting.deadline.value;
              now < d && (later + Sleep(s, now, later).value <= d || (d < later && Sleep(s, now, later).value == 0.0))
    ensures s.server == Draining ==> now + Sleep(s, now, later).value <= s.drainBy
    ensures s.server == Serving ==>
              var wakeAt := Decision(s.requests.policy, now, OpenSessions(s.links)).wakeAt;
              wakeAt.Some? && now <= wakeAt.value ==> now + Sleep(s, now, later).value <= wakeAt.value
    ensures 0.0 <= Sleep(s, now, later).value
  {
    hide Decision, Listed, HoldsOne, Ticketed, Ordered;
    forall t | t in s.requests.pending && HasDeadline(s.requests.pending[t])
      ensures t < s.requests.nextTicket && now < s.requests.pending[t].waiting.deadline.value
    {
      assert t !in Overdue(s.requests.pending, now);
    }
  }

  /** It sleeps as long as it may: a sleep ends with the idle wait, with the time the policy asked to be woken,
      with the drain, or with the timeout of a running request. */
  lemma SleepsAsLongAsItMay(s: Core, now: real, later: real)
    requires Sleep(s, now, later).Some? && Sleep(s, now, later).value > 0.0
    ensures var sleep := Sleep(s, now, later).value;
            var wakeAt := Decision(s.requests.policy, now, OpenSessions(s.links)).wakeAt;
            || (sleep == IDLE_WAIT && (s.server == Draining || wakeAt.None?))
            || (s.server == Serving && wakeAt.Some? && now + sleep == wakeAt.value)
            || (s.server == Draining && now + sleep == s.drainBy)
            || exists t :: t in s.requests.pending && HasDeadline(s.requests.pending[t])
                           && later + sleep == s.requests.pending[t].waiting.deadline.value
  {
    hide Decision, Overdue, OpenSessions;
  }

  // -- it does not hold back for nothing -----------------------------------------------------------

  /** The requests that wait and have not expired at `now`. */
  function InTime(s: Core, now: real): Policy {
    Purged(s.requests.policy, now)
  }

  /** In every run: the step thread's turn never holds a batch back once `maxBatch` requests wait in time,
      nor once every open session has one waiting in time, or running. */
  lemma TurnNeverHoldsBack(s: Core, now: real)
    requires Reached(s) && AtRest(s) && InTime(s, now).waiting != []
    requires |InTime(s, now).waiting| >= s.requests.policy.maxBatch
          || forall n :: n in s.links.open ==> n in Connections(InTime(s, now).waiting) || Runs(s.requests, n)
    ensures Decision(s.requests.policy, now, OpenSessions(s.links)).batch != []
  {
    hide Reached, ServerOk, Decision, Purged, OpenSessions, Runs;
    ReachedOk(s);
    OpenAreCounted(s);
    TurnParts(s);
    OnePerSession(s, now);
    PurgedBusy(s.requests, now);
    if |InTime(s, now).waiting| < s.requests.policy.maxBatch {
      AllWait(s, now);
    }
    PurgedLimit(s.requests.policy, now);
    NeverHoldsBackWhenAllWait(s.requests.policy, now, s.links.open);
  }

  lemma PurgedLimit(p: Policy, now: real)
    ensures Purged(p, now).maxBatch == p.maxBatch
  {
  }

  lemma TurnParts(s: Core)
    requires ServerOk(s)
    ensures Consistent(s.requests) && s.requests.policy.maxBatch >= 1
    ensures s.requests.policy.busy <= s.links.open
  {
    hide LinksOk, LogOk, AnswersOk, EndsOk, Ordered, Listed, Ticketed, HoldsOne, Shape, Current, Stepping, LifeOk;
    forall n | n in s.requests.policy.busy ensures n in s.links.open {
      assert n in s.requests.hold;
    }
  }

  lemma OpenAreCounted(s: Core)
    requires Reached(s) && s.doing == Idle
    ensures OpenSessions(s.links) == |s.links.open|
  {
    hide Reached;
    ConnectionsAgree(s);
    forall n | n in s.links.open ensures n in s.links.connections && s.links.connections[n].state == Open {
    }
    assert (set n | n in s.links.open && n in s.links.connections && s.links.connections[n].state == Open) ==
      s.links.open;
  }

  lemma OnePerSession(s: Core, now: real)
    requires Reached(s)
    ensures OnePerConnection(InTime(s, now).waiting)
  {
    hide Reached, ServerOk, Consistent, Queues, IsTaken, Runs, IsHeld;
    ReachedOk(s);
    OkConsistent(s);
    var ws := s.requests.policy.waiting;
    TimelyMembers(ws, now);
    TimelyOrder(s.requests, now);
    var q := Timely(ws, now);
    forall i, j | 0 <= i < j < |q| ensures q[i].connection != q[j].connection {
      BusyExactlyOnce(s, q[i].connection);
      assert q[i] in ws && q[j] in ws;
    }
  }

  lemma TimelyOrder(r: Requests, now: real)
    requires Consistent(r)
    ensures forall i, j :: 0 <= i < j < |Timely(r.policy.waiting, now)| ==>
              Timely(r.policy.waiting, now)[i].order < Timely(r.policy.waiting, now)[j].order
  {
    hide Listed, Ticketed, HoldsOne;
    TimelyAscend(r.policy.waiting, now);
  }

  lemma PurgedBusy(r: Requests, now: real)
    requires Consistent(r)
    ensures Connections(Purged(r.policy, now).waiting) <= Purged(r.policy, now).busy <= r.policy.busy
    ensures forall n :: Runs(r, n) ==>
              n in Purged(r.policy, now).busy && n !in Connections(Purged(r.policy, now).waiting)
  {
    hide Consistent, IsHeld;
    TimelyMembers(r.policy.waiting, now);
    LateMembers(r.policy.waiting, now);
    var q := Purged(r.policy, now);
    forall n | n in Connections(q.waiting) ensures n in q.busy {
      TablesHold(r, n);
      var w :| w in q.waiting && w.connection == n;
      assert forall v :: v in Late(r.policy.waiting, now) && v.connection == n ==> v == w;
    }
    forall n | Runs(r, n) ensures n in q.busy && n !in Connections(q.waiting) {
      TablesHold(r, n);
      var t :| IsHeld(r, t, n);
    }
  }

  lemma AllWait(s: Core, now: real)
    requires Consistent(s.requests)
    requires forall n :: n in s.links.open ==> n in Connections(InTime(s, now).waiting) || Runs(s.requests, n)
    ensures var q := InTime(s, now);
            s.links.open - (q.busy - Connections(q.waiting)) <= Connections(q.waiting)
  {
    hide Consistent, Runs, Purged;
    PurgedBusy(s.requests, now);
    var q := InTime(s, now);
    forall n | n in s.links.open && !(n in q.busy && n !in Connections(q.waiting)) ensures n in Connections(q.waiting) {
    }
  }
}
