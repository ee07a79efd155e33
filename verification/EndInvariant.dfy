/** What every interleaving keeps while `stop()` closes the sessions: each one still open is about
    to be closed, so none is left when it returns. */
module EndInvariant {
  import opened Batching
  import opened RequestTable
  import opened ServerCore
  import opened LinkInvariant
  import opened RequestInvariant

  predicate IsLeaving(d: Doing, errands: seq<Errand>, n: int) {
    LeaveNow(n) in errands || (d.Forgetting? && d.n == n)
  }

  ghost predicate EndsOk(s: Core) {
    && (s.life == StopLeaving ==> forall n :: n in s.links.open ==> IsLeaving(s.doing, s.errands, n))
    && (s.life == Over ==> AtRest(s) && s.links.open == {})
  }

  lemma SameEnds(s: Core, t: Core)
    requires EndsOk(s) && t.links.open == s.links.open && t.doing == s.doing && t.errands == s.errands
    requires t.life == s.life || (t.life != StopLeaving && t.life != Over)
    ensures EndsOk(t)
  {
  }

  lemma LeaveOpens(s: Core, n: int, next: Option<int>)
    ensures Leave(s, n, next).links.open == s.links.open && Leave(s, n, next).life == s.life
  {
    hide Flushed, StateOf, MayMove;
  }

  lemma ErrandOpens(s: Core, e: Errand)
    ensures RunErrand(s, e).links.open == s.links.open && RunErrand(s, e).life == s.life
  {
    hide Post, Flushed, StateOf, MayMove, Leave;
    match e
    case Do(Opens(n)) =>
      if SlotOf(s.links, n) in s.links.bySlot { LeaveOpens(s, s.links.bySlot[SlotOf(s.links, n)], Some(n)); }
    case Do(Leaves(n)) => LeaveOpens(s, n, None);
    case Refuse(Leaves(n)) => LeaveOpens(s, n, None);
    case LeaveNow(n) => LeaveOpens(s, n, None);
    case _ =>
  }

  /** What the step thread does inside one event or one batch of a server that stops. */
  lemma DoingOpens(s: Core, choice: Choice)
    requires s.doing != Idle && !s.doing.OpenedCall? && !s.doing.Forgetting?
    ensures Continue(s, choice).links.open == s.links.open && Continue(s, choice).life == s.life
  {
    if s.doing.Returned? {
      TakeOutputsLinks(s, s.doing.first, s.doing.last, s.doing.outputs);
    }
    hide TakeOutputs, Post, Flushed, StateOf, MayMove;
  }

  lemma LastOpens(s: Core, choice: Choice)
    requires s.doing.OpenedCall? || s.doing.Forgetting?
    ensures Continue(s, choice).life == s.life
    ensures s.doing.OpenedCall? && s.server != Serving ==> Continue(s, choice).links.open == s.links.open
    ensures s.doing.Forgetting? ==> Continue(s, choice).links.open == s.links.open - {s.doing.n}
  {
    hide Post, Flushed, StateOf, MayMove;
  }

  lemma PopsErrand(s: Core, choice: Choice)
    requires s.doing == Idle && s.errands != []
    ensures Continue(s, choice) == RunErrand(s.(errands := s.errands[1..]), s.errands[0])
  {
  }

  /** A server that stops opens no session. */
  lemma NoneOpens(s: Core, choice: Choice)
    requires s.server != Serving && !AtRest(s)
    ensures Continue(s, choice).links.open <= s.links.open
    ensures s.doing.Forgetting? ==> Continue(s, choice).links.open == s.links.open - {s.doing.n}
  {
    hide Continue, RunErrand;
    if s.doing == Idle {
      PopsErrand(s, choice);
      ErrandOpens(s.(errands := s.errands[1..]), s.errands[0]);
    } else if s.doing.OpenedCall? || s.doing.Forgetting? {
      LastOpens(s, choice);
    } else {
      DoingOpens(s, choice);
    }
  }

  lemma DoingErrands(s: Core, choice: Choice)
    requires s.doing != Idle
    ensures Continue(s, choice).errands == s.errands
  {
    if s.doing.Returned? {
      TakeOutputsLinks(s, s.doing.first, s.doing.last, s.doing.outputs);
    }
    hide TakeOutputs, Post, Flushed, StateOf, MayMove;
  }

  lemma ErrandPops(s: Core, e: Errand)
    ensures RunErrand(s, e).errands == s.errands
  {
    hide Post, Flushed, StateOf, MayMove;
  }

  lemma LeaveForgets(s: Core, n: int)
    requires TablesAgree(s.links, {}) && n in s.links.open
    ensures Leave(s, n, None).doing.Forgetting? && Leave(s, n, None).doing.n == n
  {
    hide Flushed;
  }

  lemma ErrandEnds(s: Core, choice: Choice)
    requires TablesAgree(s.links, {}) && EndsOk(s) && s.life == StopLeaving && s.server != Serving
    requires s.doing == Idle && s.errands != []
    ensures forall n :: n in Continue(s, choice).links.open ==>
              IsLeaving(Continue(s, choice).doing, Continue(s, choice).errands, n)
  {
    hide TablesAgree, RunErrand, Leave;
    var p, e, t := s.(errands := s.errands[1..]), s.errands[0], Continue(s, choice);
    NoneOpens(s, choice);
    ErrandPops(p, e);
    assert s.errands == [e] + p.errands;
    forall n | n in t.links.open ensures IsLeaving(t.doing, t.errands, n) {
      assert IsLeaving(s.doing, s.errands, n);
      if e == LeaveNow(n) {
        LeaveForgets(p, n);
        LeavesNow(p, n);
      }
    }
  }

  lemma LeavesNow(s: Core, n: int)
    ensures RunErrand(s, LeaveNow(n)) == Leave(s, n, None)
  {
  }

  lemma KeepsLife(s: Core, choice: Choice)
    requires !AtRest(s)
    ensures Continue(s, choice).life == s.life
  {
    hide Continue, RunErrand;
    if s.doing == Idle {
      PopsErrand(s, choice);
      ErrandOpens(s.(errands := s.errands[1..]), s.errands[0]);
    } else if s.doing.OpenedCall? || s.doing.Forgetting? {
      LastOpens(s, choice);
    } else {
      DoingOpens(s, choice);
    }
  }

  lemma ContinueEnds(s: Core, choice: Choice)
    requires LinksOk(s) && RequestsOk(s) && EndsOk(s) && !AtRest(s)
    ensures EndsOk(Continue(s, choice))
  {
    hide LinksOk, Consistent, HeldOpen, Current, Stepping, Shape, Continue;
    KeepsLife(s, choice);
    if s.life == StopLeaving {
      if s.doing == Idle {
        IdleAgree(s);
        ErrandEnds(s, choice);
      } else {
        NoneOpens(s, choice);
        DoingErrands(s, choice);
      }
    }
  }

  lemma IdleAgree(s: Core)
    requires LinksOk(s) && s.doing == Idle
    ensures TablesAgree(s.links, {})
  {
    hide TablesAgree, QueuesFit, SlotsInRange, OpeningListed, GreetingFits;
  }

  lemma LeaveAllEnds(s: Core, order: seq<int>)
    requires Enabled(s, LeavesAll(order))
    ensures EndsOk(LeaveAll(s, order))
  {
    forall n | n in s.links.open ensures LeaveNow(n) in LeaveAll(s, order).errands {
      assert n in (set m | m in order);
      var i :| 0 <= i < |order| && order[i] == n;
      assert LeaveAll(s, order).errands[i] == LeaveNow(n);
    }
  }
}
