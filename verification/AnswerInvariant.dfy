/** What every interleaving keeps about answers: an accepted request that is due has none, one that
    is owed an answer is owed it once, and one that was given its answer has it at one place of its
    own session's outbox, before anything closes that outbox. */
module AnswerInvariant {
  import opened Batching
  import opened RequestTable
  import opened ServerCore
  import opened LinkInvariant
  import opened RequestInvariant

  // -- the invariant -----------------------------------------------------------------------

  /** The requests these errands answer. */
  function OwedBy(errands: seq<Errand>): seq<Waiting> {
    if errands == [] then []
    else (if IsAnswer(errands[0]) then [errands[0].w] else []) + OwedBy(errands[1..])
  }

  function Owes(d: Doing, errands: seq<Errand>): seq<Waiting> {
    (if d.Dropped? then d.owed else []) + OwedBy(errands)
  }

  ghost predicate Distinct(ws: seq<Waiting>) {
    forall i, j :: 0 <= i < j < |ws| ==> ws[i].order != ws[j].order
  }

  /** The requests without an answer, that still wait for one, are the ones due. */
  ghost predicate FatesOk(pending: map<nat, Pending>, ledger: Ledger, fates: map<nat, Fate>) {
    fates.Keys == ledger.Keys && forall o :: o in ledger ==> (fates[o] == Awaiting <==> Due(pending, ledger, o))
  }

  /** What the step thread owes is exactly what it is still about to post, once each. */
  ghost predicate OwesOk(ws: seq<Waiting>, fates: map<nat, Fate>, ledger: Ledger) {
    && Distinct(ws)
    && (forall w :: w in ws ==>
          && w.order in fates && fates[w.order] == Owed
          && w.order in ledger && ledger[w.order].request == w)
    && (forall o :: o in fates && o in ledger && fates[o] == Owed ==> ledger[o].request in ws)
  }

  /** This message, at place `i` of the outbox of `n`, is the one answer of the request it names. */
  ghost predicate IsGiven(m: Message, n: int, i: nat, fates: map<nat, Fate>, ledger: Ledger)
    requires m.Answer?
  {
    && m.order in fates && fates[m.order] == Given(i)
    && m.order in ledger
    && ledger[m.order].request.connection == n && ledger[m.order].request.requestId == m.requestId
  }

  ghost predicate BoxesOk(boxes: map<int, Box>, fates: map<nat, Fate>, ledger: Ledger) {
    && (forall n, i: nat :: i < |BoxOf(boxes, n).sent| && BoxOf(boxes, n).sent[i].Answer? ==>
          IsGiven(BoxOf(boxes, n).sent[i], n, i, fates, ledger))
    && (forall o :: o in fates && o in ledger && fates[o].Given? ==>
          var sent := BoxOf(boxes, ledger[o].request.connection).sent;
          fates[o].index < |sent| && sent[fates[o].index].Answer? && sent[fates[o].index].order == o)
  }

  /** A connection that will never be open again. */
  predicate Ended(l: Links, server: ServerState, n: int) {
    && n in l.connections
    && (l.connections[n].state == Closing || l.connections[n].state == Shut
        || (l.connections[n].state == Connecting && server != Serving))
  }

  /** An answer is only lost with its connection: its link broke, or it left before the end. */
  ghost predicate LostOk(
    fates: map<nat, Fate>, ledger: Ledger, boxes: map<int, Box>, l: Links, server: ServerState, stayed: set<int>)
  {
    forall o :: o in fates && o in ledger && fates[o] == Lost ==>
      var n := ledger[o].request.connection;
      BoxOf(boxes, n).broken || (Ended(l, server, n) && n !in stayed)
  }

  /** The connection that is leaving now, if any. */
  function Going(d: Doing): set<int> {
    if d.Forgetting? || d.ClosingCall? || d.Ending? then {d.n} else {}
  }

  predicate Served(l: Links, d: Doing, n: int) {
    && n in l.connections
    && (l.connections[n].state == Open || l.connections[n].state == Shut
        || (l.connections[n].state == Closing && n in Going(d)))
  }

  /** Every accepted request came from a connection that was open. */
  ghost predicate AcceptedOn(ledger: Ledger, l: Links, d: Doing) {
    forall o :: o in ledger ==> Served(l, d, ledger[o].request.connection)
  }

  /** An outbox is flushed only when its connection ends, and takes no answer after that. */
  ghost predicate FlushOk(boxes: map<int, Box>, l: Links, server: ServerState) {
    forall n, i :: 0 <= i < |BoxOf(boxes, n).sent| && BoxOf(boxes, n).sent[i] == Flush ==>
      Ended(l, server, n) && forall j :: i < j < |BoxOf(boxes, n).sent| ==> !BoxOf(boxes, n).sent[j].Answer?
  }

  predicate Last(life: Life) {
    life == StopLeaving || life == Over
  }

  /** While `stop()` closes the sessions, and after, no answer is owed any more. */
  ghost predicate LastOk(life: Life, stayed: set<int>, owes: seq<Waiting>) {
    if Last(life) then owes == [] else stayed == {}
  }

  ghost predicate AnswersOk(s: Core) {
    && FatesOk(s.requests.pending, s.requests.ledger, s.answers.fates)
    && OwesOk(Owes(s.doing, s.errands), s.answers.fates, s.requests.ledger)
    && BoxesOk(s.answers.boxes, s.answers.fates, s.requests.ledger)
    && LostOk(s.answers.fates, s.requests.ledger, s.answers.boxes, s.links, s.server, s.stayed)
    && AcceptedOn(s.requests.ledger, s.links, s.doing)
    && FlushOk(s.answers.boxes, s.links, s.server)
    && LastOk(s.life, s.stayed, Owes(s.doing, s.errands))
  }

  // -- what leaves every answer alone ----------------------------------------------------------

  /** The outbox grows, by messages that answer no accepted request. */
  ghost predicate Adds(b: Box, b': Box, ended: bool) {
    && b.sent <= b'.sent && (b.broken ==> b'.broken)
    && forall i :: |b.sent| <= i < |b'.sent| ==> !b'.sent[i].Answer? && (b'.sent[i] == Flush ==> ended)
  }

  ghost predicate Grows(boxes: map<int, Box>, boxes': map<int, Box>, l: Links, server: ServerState) {
    forall n :: Adds(BoxOf(boxes, n), BoxOf(boxes', n), Ended(l, server, n))
  }

  /** A connection that ended stays so, and one that was open is open, leaving or gone. */
  ghost predicate Progress(s: Core, t: Core) {
    && (forall n :: Ended(s.links, s.server, n) ==> Ended(t.links, t.server, n))
    && (forall n :: Served(s.links, s.doing, n) ==> Served(t.links, t.doing, n))
  }

  ghost predicate SameDue(r: Requests, q: Requests) {
    && Moves(r.ledger, q.ledger)
    && forall o :: o in r.ledger ==> (Due(q.pending, q.ledger, o) <==> Due(r.pending, r.ledger, o))
  }

  /** A transition that answers nobody. */
  ghost predicate Quiet(s: Core, t: Core) {
    && SameDue(s.requests, t.requests)
    && t.answers.fates == s.answers.fates
    && Grows(s.answers.boxes, t.answers.boxes, t.links, t.server)
    && Progress(s, t)
    && Owes(t.doing, t.errands) == Owes(s.doing, s.errands)
    && t.stayed == s.stayed && (Last(t.life) <==> Last(s.life))
  }

  lemma QuietBoxes(boxes: map<int, Box>, boxes': map<int, Box>, l: Links, server: ServerState, fates: map<nat, Fate>,
                   ledger: Ledger)
    requires BoxesOk(boxes, fates, ledger) && Grows(boxes, boxes', l, server)
    ensures BoxesOk(boxes', fates, ledger)
  {
    forall n, i: nat | i < |BoxOf(boxes', n).sent| && BoxOf(boxes', n).sent[i].Answer?
      ensures IsGiven(BoxOf(boxes', n).sent[i], n, i, fates, ledger)
    {
      assert Adds(BoxOf(boxes, n), BoxOf(boxes', n), Ended(l, server, n));
      assert BoxOf(boxes, n).sent[i] == BoxOf(boxes', n).sent[i];
    }
    forall o | o in fates && o in ledger && fates[o].Given?
      ensures var sent := BoxOf(boxes', ledger[o].request.connection).sent;
              fates[o].index < |sent| && sent[fates[o].index].Answer? && sent[fates[o].index].order == o
    {
      var n := ledger[o].request.connection;
      assert Adds(BoxOf(boxes, n), BoxOf(boxes', n), Ended(l, server, n));
    }
  }

  lemma MovedBoxes(boxes: map<int, Box>, fates: map<nat, Fate>, ledger: Ledger, ledger': Ledger)
    requires BoxesOk(boxes, fates, ledger) && Moves(ledger, ledger')
    ensures BoxesOk(boxes, fates, ledger')
  {
  }

  lemma QuietFlush(boxes: map<int, Box>, boxes': map<int, Box>, s: Core, t: Core)
    requires FlushOk(boxes, s.links, s.server) && Grows(boxes, boxes', t.links, t.server) && Progress(s, t)
    ensures FlushOk(boxes', t.links, t.server)
  {
    forall n, i | 0 <= i < |BoxOf(boxes', n).sent| && BoxOf(boxes', n).sent[i] == Flush
      ensures Ended(t.links, t.server, n)
      ensures forall j :: i < j < |BoxOf(boxes', n).sent| ==> !BoxOf(boxes', n).sent[j].Answer?
    {
      assert Adds(BoxOf(boxes, n), BoxOf(boxes', n), Ended(t.links, t.server, n));
      if i < |BoxOf(boxes, n).sent| {
        assert BoxOf(boxes, n).sent[i] == Flush;
      }
      forall j | i < j < |BoxOf(boxes', n).sent| ensures !BoxOf(boxes', n).sent[j].Answer? {
        if j < |BoxOf(boxes, n).sent| {
          assert BoxOf(boxes, n).sent[j] == BoxOf(boxes', n).sent[j];
        }
      }
    }
  }

  lemma QuietLost(s: Core, t: Core)
    requires LostOk(s.answers.fates, s.requests.ledger, s.answers.boxes, s.links, s.server, s.stayed)
    requires Moves(s.requests.ledger, t.requests.ledger) && t.answers.fates == s.answers.fates && t.stayed == s.stayed
    requires Grows(s.answers.boxes, t.answers.boxes, t.links, t.server) && Progress(s, t)
    ensures LostOk(t.answers.fates, t.requests.ledger, t.answers.boxes, t.links, t.server, t.stayed)
  {
    forall o | o in t.answers.fates && o in t.requests.ledger && t.answers.fates[o] == Lost
      ensures var n := t.requests.ledger[o].request.connection;
              BoxOf(t.answers.boxes, n).broken || (Ended(t.links, t.server, n) && n !in t.stayed)
    {
      var n := t.requests.ledger[o].request.connection;
      assert Adds(BoxOf(s.answers.boxes, n), BoxOf(t.answers.boxes, n), Ended(t.links, t.server, n));
    }
  }

  lemma QuietFates(s: Core, t: Core)
    requires FatesOk(s.requests.pending, s.requests.ledger, s.answers.fates)
    requires OwesOk(Owes(s.doing, s.errands), s.answers.fates, s.requests.ledger)
    requires AcceptedOn(s.requests.ledger, s.links, s.doing)
    requires SameDue(s.requests, t.requests) && t.answers.fates == s.answers.fates && Progress(s, t)
    ensures FatesOk(t.requests.pending, t.requests.ledger, t.answers.fates)
    ensures OwesOk(Owes(s.doing, s.errands), t.answers.fates, t.requests.ledger)
    ensures AcceptedOn(t.requests.ledger, t.links, t.doing)
  {
    hide Due, Served, Ended;
  }

  lemma QuietKeeps(s: Core, t: Core)
    requires AnswersOk(s) && Quiet(s, t)
    ensures AnswersOk(t)
  {
    QuietFates(s, t);
    QuietLost(s, t);
    QuietFlush(s.answers.boxes, t.answers.boxes, s, t);
    QuietBoxes(s.answers.boxes, t.answers.boxes, t.links, t.server, s.answers.fates, s.requests.ledger);
    MovedBoxes(t.answers.boxes, s.answers.fates, s.requests.ledger, t.requests.ledger);
    hide FatesOk, OwesOk, BoxesOk, LostOk, AcceptedOn, FlushOk, Grows, Progress, SameDue;
  }

  // -- what takes requests out of the ones due -------------------------------------------------

  /** The requests `due` stop being due, and no others do. */
  ghost predicate Discharges(r: Requests, q: Requests, due: set<nat>) {
    && Moves(r.ledger, q.ledger)
    && (forall o :: o in due ==> Due(r.pending, r.ledger, o))
    && forall o :: o in r.ledger ==> (Due(q.pending, q.ledger, o) <==> Due(r.pending, r.ledger, o) && o !in due)
  }

  /** `ws` names each of these requests once. */
  ghost predicate Names(ws: seq<Waiting>, orders: set<nat>, ledger: Ledger) {
    && Distinct(ws)
    && (forall w :: w in ws ==> w.order in orders && w.order in ledger && ledger[w.order].request == w)
    && (forall o :: o in orders && o in ledger ==> ledger[o].request in ws)
  }

  lemma DistinctJoin(a: seq<Waiting>, b: seq<Waiting>)
    requires Distinct(a) && Distinct(b) && forall v, w :: v in a && w in b ==> v.order != w.order
    ensures Distinct(a + b)
  {
    var c := a + b;
    forall i, j | 0 <= i < j < |c| ensures c[i].order != c[j].order {
      if i < |a| <= j {
        assert c[i] in a && c[j] in b;
      }
    }
  }

  lemma MendedFates(r: Requests, q: Requests, due: set<nat>, fates: map<nat, Fate>, fate: Fate)
    requires FatesOk(r.pending, r.ledger, fates) && Discharges(r, q, due) && fate != Awaiting
    ensures FatesOk(q.pending, q.ledger, Mend(fates, due, fate))
  {
    hide Due;
  }

  lemma MendedOwes(
    owes: seq<Waiting>, more: seq<Waiting>, r: Requests, q: Requests, due: set<nat>, fates: map<nat, Fate>, fate: Fate)
    requires FatesOk(r.pending, r.ledger, fates) && Discharges(r, q, due) && OwesOk(owes, fates, r.ledger)
    requires if fate == Owed then Names(more, due, r.ledger) else more == []
    ensures OwesOk(owes + more, Mend(fates, due, fate), q.ledger)
    ensures OwesOk(more + owes, Mend(fates, due, fate), q.ledger)
  {
    hide FatesOk, Discharges, Names, Distinct, Mend, OwesOk;
    MendedDistinct(owes, more, r, q, due, fates, fate);
    MendedMembers(owes, more, r, q, due, fates, fate, owes + more);
    MendedMembers(owes, more, r, q, due, fates, fate, more + owes);
    OwesWhole(owes + more, Mend(fates, due, fate), q.ledger);
    OwesWhole(more + owes, Mend(fates, due, fate), q.ledger);
  }

  lemma OwesWhole(ws: seq<Waiting>, fates: map<nat, Fate>, ledger: Ledger)
    requires Distinct(ws)
    requires forall w :: w in ws ==>
               w.order in fates && fates[w.order] == Owed && w.order in ledger && ledger[w.order].request == w
    requires forall o :: o in fates && o in ledger && fates[o] == Owed ==> ledger[o].request in ws
    ensures OwesOk(ws, fates, ledger)
  {
    hide Distinct;
  }

  lemma MendedDistinct(
    owes: seq<Waiting>, more: seq<Waiting>, r: Requests, q: Requests, due: set<nat>, fates: map<nat, Fate>, fate: Fate)
    requires FatesOk(r.pending, r.ledger, fates) && Discharges(r, q, due) && OwesOk(owes, fates, r.ledger)
    requires if fate == Owed then Names(more, due, r.ledger) else more == []
    ensures Distinct(owes + more) && Distinct(more + owes)
  {
    hide Due;
    forall v, w | v in more && w in owes ensures v.order != w.order {
      assert fates[v.order] == Awaiting && fates[w.order] == Owed;
    }
    DistinctJoin(owes, more);
    DistinctJoin(more, owes);
  }

  lemma MendedMembers(
    owes: seq<Waiting>, more: seq<Waiting>, r: Requests, q: Requests, due: set<nat>, fates: map<nat, Fate>, fate: Fate,
    all: seq<Waiting>)
    requires FatesOk(r.pending, r.ledger, fates) && Discharges(r, q, due) && OwesOk(owes, fates, r.ledger)
    requires if fate == Owed then Names(more, due, r.ledger) else more == []
    requires forall w :: w in all <==> w in owes || w in more
    ensures var fates' := Mend(fates, due, fate);
            && (forall w :: w in all ==>
                  w.order in fates' && fates'[w.order] == Owed && w.order in q.ledger && q.ledger[w.order].request == w)
            && (forall o :: o in fates' && o in q.ledger && fates'[o] == Owed ==> q.ledger[o].request in all)
  {
    hide Due, Distinct;
  }

  lemma MendedBoxes(r: Requests, q: Requests, due: set<nat>, fates: map<nat, Fate>, fate: Fate, boxes: map<int, Box>)
    requires FatesOk(r.pending, r.ledger, fates) && Discharges(r, q, due) && BoxesOk(boxes, fates, r.ledger)
             && !fate.Given?
    ensures BoxesOk(boxes, Mend(fates, due, fate), q.ledger)
  {
    hide Due;
    var fates' := Mend(fates, due, fate);
    forall n, i: nat | i < |BoxOf(boxes, n).sent| && BoxOf(boxes, n).sent[i].Answer?
      ensures IsGiven(BoxOf(boxes, n).sent[i], n, i, fates', q.ledger)
    {
      assert IsGiven(BoxOf(boxes, n).sent[i], n, i, fates, r.ledger);
    }
  }

  lemma MendedLost(s: Core, t: Core, due: set<nat>, fate: Fate)
    requires LostOk(s.answers.fates, s.requests.ledger, s.answers.boxes, s.links, s.server, s.stayed)
    requires Moves(s.requests.ledger, t.requests.ledger) && t.stayed == s.stayed && Progress(s, t)
    requires t.answers.fates == Mend(s.answers.fates, due, fate) && t.answers.boxes == s.answers.boxes
    requires fate == Lost ==> forall o :: o in due && o in s.requests.ledger ==>
               Ended(t.links, t.server, s.requests.ledger[o].request.connection)
               && s.requests.ledger[o].request.connection !in t.stayed
    ensures LostOk(t.answers.fates, t.requests.ledger, t.answers.boxes, t.links, t.server, t.stayed)
  {
    hide Ended, Served;
  }

  lemma SameBoxesFlush(s: Core, t: Core)
    requires FlushOk(s.answers.boxes, s.links, s.server) && t.answers.boxes == s.answers.boxes && Progress(s, t)
    ensures FlushOk(t.answers.boxes, t.links, t.server)
  {
    hide Ended, Served;
  }

  lemma AcceptedProgress(s: Core, t: Core)
    requires AcceptedOn(s.requests.ledger, s.links, s.doing) && Moves(s.requests.ledger, t.requests.ledger)
             && Progress(s, t)
    ensures AcceptedOn(t.requests.ledger, t.links, t.doing)
  {
    hide Ended, Served;
  }

  /** A transition that settles the requests `due` with this fate, and posts nothing. */
  ghost predicate Mends(s: Core, t: Core, due: set<nat>, fate: Fate, more: seq<Waiting>) {
    && Discharges(s.requests, t.requests, due)
    && t.answers == Answers(Mend(s.answers.fates, due, fate), s.answers.boxes)
    && Progress(s, t)
    && (if fate == Owed then Names(more, due, s.requests.ledger) else more == [])
    && (Owes(t.doing, t.errands) == Owes(s.doing, s.errands) + more
        || Owes(t.doing, t.errands) == more + Owes(s.doing, s.errands))
    && (fate == Lost ==> forall o :: o in due && o in s.requests.ledger ==>
          Ended(t.links, t.server, s.requests.ledger[o].request.connection)
          && s.requests.ledger[o].request.connection !in t.stayed)
    && t.stayed == s.stayed && (Last(t.life) <==> Last(s.life)) && (Last(s.life) ==> due == {})
  }

  lemma NoneNamed(more: seq<Waiting>, ledger: Ledger)
    requires Names(more, {}, ledger)
    ensures more == []
  {
    if more != [] {
      SomeMember(more);
    }
  }

  lemma MendsKeeps(s: Core, t: Core, due: set<nat>, fate: Fate, more: seq<Waiting>)
    requires AnswersOk(s) && Mends(s, t, due, fate, more) && (fate == Owed || fate == Cancelled || fate == Lost)
    ensures AnswersOk(t)
  {
    MendedFates(s.requests, t.requests, due, s.answers.fates, fate);
    MendedOwes(Owes(s.doing, s.errands), more, s.requests, t.requests, due, s.answers.fates, fate);
    MendedBoxes(s.requests, t.requests, due, s.answers.fates, fate, s.answers.boxes);
    MendedLost(s, t, due, fate);
    SameBoxesFlush(s, t);
    AcceptedProgress(s, t);
    if Last(s.life) && fate == Owed { NoneNamed(more, s.requests.ledger); }
    hide FatesOk, OwesOk, BoxesOk, LostOk, AcceptedOn, FlushOk, Progress, Discharges, Names;
  }

  // -- what posts an answer --------------------------------------------------------------------

  /** A request without an answer gets it, posted to the outbox of its own open connection. */
  lemma PostedBoxes(a: Answers, ledger: Ledger, state: ConnectionState, w: Waiting, generation: nat,
                    result: Option<int>)
    requires BoxesOk(a.boxes, a.fates, ledger) && w.order in ledger && ledger[w.order].request == w
    requires w.order in a.fates && !a.fates[w.order].Given?
    ensures var a' := AnswerRequest(a, state, w, generation, result); BoxesOk(a'.boxes, a'.fates, ledger)
  {
    var a' := AnswerRequest(a, state, w, generation, result);
    var at := |BoxOf(a.boxes, w.connection).sent|;
    forall n, i: nat | i < |BoxOf(a'.boxes, n).sent| && BoxOf(a'.boxes, n).sent[i].Answer?
      ensures IsGiven(BoxOf(a'.boxes, n).sent[i], n, i, a'.fates, ledger)
    {
      if n != w.connection || i < at {
        assert BoxOf(a'.boxes, n).sent[i] == BoxOf(a.boxes, n).sent[i];
        assert IsGiven(BoxOf(a.boxes, n).sent[i], n, i, a.fates, ledger);
      }
    }
    forall o | o in a'.fates && o in ledger && a'.fates[o].Given?
      ensures var sent := BoxOf(a'.boxes, ledger[o].request.connection).sent;
              a'.fates[o].index < |sent| && sent[a'.fates[o].index].Answer? && sent[a'.fates[o].index].order == o
    {
      if o != w.order {
        var n := ledger[o].request.connection;
        assert BoxOf(a.boxes, n).sent[a.fates[o].index] == BoxOf(a'.boxes, n).sent[a.fates[o].index];
      }
    }
  }

  lemma PostedLost(
    a: Answers, ledger: Ledger, state: ConnectionState, w: Waiting, generation: nat, result: Option<int>,
    l: Links, server: ServerState, stayed: set<int>)
    requires LostOk(a.fates, ledger, a.boxes, l, server, stayed) && w.order in ledger && ledger[w.order].request == w
    requires state == Shut ==> Ended(l, server, w.connection) && w.connection !in stayed
    ensures var a' := AnswerRequest(a, state, w, generation, result);
            LostOk(a'.fates, ledger, a'.boxes, l, server, stayed)
  {
    hide Ended;
    var a' := AnswerRequest(a, state, w, generation, result);
    assert forall n :: BoxOf(a.boxes, n).broken ==> BoxOf(a'.boxes, n).broken;
  }

  lemma PostedFlush(
    a: Answers, state: ConnectionState, w: Waiting, generation: nat, result: Option<int>, l: Links, server: ServerState)
    requires FlushOk(a.boxes, l, server) && (state != Shut ==> !Ended(l, server, w.connection))
    ensures FlushOk(AnswerRequest(a, state, w, generation, result).boxes, l, server)
  {
    hide Ended;
    var boxes' := AnswerRequest(a, state, w, generation, result).boxes;
    forall n, i | 0 <= i < |BoxOf(boxes', n).sent| && BoxOf(boxes', n).sent[i] == Flush
      ensures Ended(l, server, n) && forall j :: i < j < |BoxOf(boxes', n).sent| ==> !BoxOf(boxes', n).sent[j].Answer?
    {
      assert BoxOf(a.boxes, n).sent[i] == Flush;
    }
  }

  /** A transition that answers request `w`, which was due or owed, and nothing else. */
  ghost predicate AnswersOne(s: Core, t: Core, w: Waiting, state: ConnectionState, generation: nat,
                             result: Option<int>) {
    && t.answers == AnswerRequest(s.answers, state, w, generation, result)
    && Moves(s.requests.ledger, t.requests.ledger)
    && w.order in s.requests.ledger && s.requests.ledger[w.order].request == w
    && Progress(s, t) && t.links == s.links && t.server == s.server && t.stayed == s.stayed
    && (state == Shut ==> Ended(s.links, s.server, w.connection) && w.connection !in s.stayed)
    && (state != Shut ==> !Ended(s.links, s.server, w.connection))
  }

  lemma AnswersOneKeeps(s: Core, t: Core, w: Waiting, state: ConnectionState, generation: nat, result: Option<int>)
    requires AnswersOk(s) && AnswersOne(s, t, w, state, generation, result)
    requires w.order in s.answers.fates && (s.answers.fates[w.order] == Awaiting || s.answers.fates[w.order] == Owed)
    requires FatesOk(t.requests.pending, t.requests.ledger, t.answers.fates)
    requires OwesOk(Owes(t.doing, t.errands), t.answers.fates, t.requests.ledger)
    requires LastOk(t.life, t.stayed, Owes(t.doing, t.errands))
    ensures AnswersOk(t)
  {
    PostedBoxes(s.answers, s.requests.ledger, state, w, generation, result);
    MovedBoxes(t.answers.boxes, t.answers.fates, s.requests.ledger, t.requests.ledger);
    PostedLost(s.answers, s.requests.ledger, state, w, generation, result, s.links, s.server, s.stayed);
    PostedFlush(s.answers, state, w, generation, result, s.links, s.server);
    AcceptedProgress(s, t);
    MovedLost(t.answers, s.requests.ledger, t.requests.ledger, s.links, s.server, s.stayed);
    hide FatesOk, OwesOk, BoxesOk, LostOk, AcceptedOn, FlushOk, Progress, AnswerRequest, Ended;
  }

  lemma MovedLost(a: Answers, ledger: Ledger, ledger': Ledger, l: Links, server: ServerState, stayed: set<int>)
    requires LostOk(a.fates, ledger, a.boxes, l, server, stayed) && Moves(ledger, ledger')
    ensures LostOk(a.fates, ledger', a.boxes, l, server, stayed)
  {
    hide Ended;
  }

  /** The first of what is owed gets its fate. */
  lemma PaidOwes(owes: seq<Waiting>, fates: map<nat, Fate>, ledger: Ledger, nextOrder: nat, fate: Fate)
    requires Named(ledger, nextOrder) && owes != [] && OwesOk(owes, fates, ledger) && fate != Owed
    ensures OwesOk(owes[1..], fates[owes[0].order := fate], ledger)
  {
    var rest, fates' := owes[1..], fates[owes[0].order := fate];
    assert owes == [owes[0]] + rest;
    forall w | w in rest ensures w in owes && w.order != owes[0].order {
      var i :| 0 <= i < |rest| && rest[i] == w;
      assert owes[i + 1] == w;
    }
    forall o | o in fates' && o in ledger && fates'[o] == Owed ensures ledger[o].request in rest {
      assert ledger[o].request in owes;
    }
  }

  lemma PaidFates(r: Requests, fates: map<nat, Fate>, o: nat, fate: Fate)
    requires FatesOk(r.pending, r.ledger, fates) && o in fates && fates[o] == Owed && fate != Awaiting
    ensures FatesOk(r.pending, r.ledger, fates[o := fate])
  {
  }

  // -- the reader threads ----------------------------------------------------------------------

  lemma SameOwes(d: Doing, e: Doing, errands: seq<Errand>)
    requires (d.Dropped? ==> d.owed == []) && (e.Dropped? ==> e.owed == [])
    ensures Owes(d, errands) == Owes(e, errands)
  {
  }

  /** A post or a close of one session's outbox, and changes of its connection. */
  lemma OneGrows(boxes: map<int, Box>, boxes': map<int, Box>, n: int, l: Links, server: ServerState)
    requires forall k :: k != n ==> BoxOf(boxes', k) == BoxOf(boxes, k)
    requires Adds(BoxOf(boxes, n), BoxOf(boxes', n), Ended(l, server, n))
    ensures Grows(boxes, boxes', l, server)
  {
    hide Ended;
  }

  lemma PostAdds(boxes: map<int, Box>, state: ConnectionState, n: int, m: Message, ended: bool)
    requires !m.Answer? && m != Flush
    ensures Adds(BoxOf(boxes, n), BoxOf(Post(boxes, state, n, m), n), ended)
    ensures forall k :: k != n ==> BoxOf(Post(boxes, state, n, m), k) == BoxOf(boxes, k)
  {
  }

  lemma FlushAdds(boxes: map<int, Box>, n: int)
    ensures Adds(BoxOf(boxes, n), BoxOf(Flushed(boxes, n), n), true)
    ensures forall k :: k != n ==> BoxOf(Flushed(boxes, n), k) == BoxOf(boxes, k)
  {
  }

  lemma PostThenFlushAdds(boxes: map<int, Box>, state: ConnectionState, n: int, m: Message)
    requires !m.Answer? && m != Flush
    ensures var boxes' := Flushed(Post(boxes, state, n, m), n);
            && Adds(BoxOf(boxes, n), BoxOf(boxes', n), true)
            && forall k :: k != n ==> BoxOf(boxes', k) == BoxOf(boxes, k)
  {
    PostAdds(boxes, state, n, m, true);
    FlushAdds(Post(boxes, state, n, m), n);
  }

  /** Moves of one connection `n`, and nothing that concerns the others. */
  lemma OneProgress(s: Core, t: Core, n: int)
    requires forall k :: k != n && k in s.links.connections ==>
               k in t.links.connections && t.links.connections[k] == s.links.connections[k]
    requires s.server != Serving ==> t.server != Serving
    requires Ended(s.links, s.server, n) ==> Ended(t.links, t.server, n)
    requires Served(s.links, s.doing, n) ==> Served(t.links, t.doing, n)
    requires Going(s.doing) <= Going(t.doing) + {n}
    ensures Progress(s, t)
  {
  }

  /** A change of one connection, and of its outbox, that answers nobody. */
  lemma OneAnswers(s: Core, t: Core, n: int)
    requires AnswersOk(s) && t.requests == s.requests && t.answers.fates == s.answers.fates && t.stayed == s.stayed
    requires Owes(t.doing, t.errands) == Owes(s.doing, s.errands) && (Last(t.life) <==> Last(s.life))
    requires forall k :: k != n ==> BoxOf(t.answers.boxes, k) == BoxOf(s.answers.boxes, k)
    requires Adds(BoxOf(s.answers.boxes, n), BoxOf(t.answers.boxes, n), Ended(t.links, t.server, n))
    requires Progress(s, t)
    ensures AnswersOk(t)
  {
    hide AnswersOk, Progress, Due, Ended, Adds, Owes;
    OneGrows(s.answers.boxes, t.answers.boxes, n, t.links, t.server);
    QuietKeeps(s, t);
  }

  lemma AcceptAnswers(s: Core)
    requires LinksOk(s) && AnswersOk(s)
    ensures AnswersOk(AcceptLink(s))
  {
    NextIsNew(s);
    hide LinksOk, AnswersOk;
    OneProgress(s, AcceptLink(s), s.links.next);
    OneAnswers(s, AcceptLink(s), s.links.next);
  }

  lemma NextIsNew(s: Core)
    requires LinksOk(s)
    ensures s.links.next !in s.links.connections
  {
  }

  lemma GreetingState(s: Core, n: int)
    requires LinksOk(s) && n in s.links.connections && s.links.connections[n].reader == Greeting
    ensures s.links.connections[n].state != Open && s.links.connections[n].state != Opening
    ensures s.server == Serving ==> s.links.connections[n].state == Connecting
  {
  }

  lemma GreetBoxes(s: Core, n: int, hello: Hello)
    requires n in s.links.connections && s.links.connections[n].state != Open && s.links.connections[n].state != Opening
    ensures var t := Greet(s, n, hello);
            && (forall k :: k != n ==> BoxOf(t.answers.boxes, k) == BoxOf(s.answers.boxes, k))
            && Adds(BoxOf(s.answers.boxes, n), BoxOf(t.answers.boxes, n), Ended(t.links, t.server, n))
  {
    hide Adds, Post, Flushed, Greet, BoxOf;
    GreetBox(s, n, hello);
    var t := Greet(s, n, hello);
    PostAdds(s.answers.boxes, StateOf(s, n), n, Refused, Ended(t.links, s.server, n));
    FlushAdds(s.answers.boxes, n);
    SameAdds(BoxOf(s.answers.boxes, n), Ended(t.links, t.server, n));
  }

  lemma SameAdds(b: Box, ended: bool)
    ensures Adds(b, b, ended)
  {
  }

  lemma GreetBox(s: Core, n: int, hello: Hello)
    requires n in s.links.connections && s.links.connections[n].state != Open && s.links.connections[n].state != Opening
    ensures var t := Greet(s, n, hello);
            && t.server == s.server
            && (t.answers.boxes == s.answers.boxes || t.answers.boxes ==
              Post(s.answers.boxes, StateOf(s, n), n, Refused)
                || (t.answers.boxes == Flushed(s.answers.boxes, n) && Ended(t.links, t.server, n)))
  {
    hide Post, Flushed;
  }

  lemma GreetProgress(s: Core, n: int, hello: Hello)
    requires n in s.links.connections && s.links.connections[n].state != Open
    requires s.server == Serving ==> s.links.connections[n].state == Connecting
    ensures Progress(s, Greet(s, n, hello))
  {
    hide Post, Flushed;
    OneProgress(s, Greet(s, n, hello), n);
  }

  lemma GreetAnswers(s: Core, n: int, hello: Hello)
    requires LinksOk(s) && AnswersOk(s) && n in s.links.connections && s.links.connections[n].reader == Greeting
    ensures AnswersOk(Greet(s, n, hello))
  {
    hide LinksOk, AnswersOk, Adds, Ended, Progress, Post, Flushed;
    GreetingState(s, n);
    GreetProgress(s, n, hello);
    GreetBoxes(s, n, hello);
    OneAnswers(s, Greet(s, n, hello), n);
  }

  lemma EndAnswers(s: Core, n: int)
    requires AnswersOk(s) && n in s.links.connections
    ensures AnswersOk(ReaderEnds(s, n))
  {
    hide AnswersOk;
    OneProgress(s, ReaderEnds(s, n), n);
    OneAnswers(s, ReaderEnds(s, n), n);
  }

  /** A change of one outbox that answers nobody, and of nothing else. */
  lemma BoxAnswers(s: Core, t: Core, n: int)
    requires AnswersOk(s) && t.requests == s.requests && t.links == s.links && t.server == s.server
             && t.doing == s.doing
    requires t.errands == s.errands && t.life == s.life && t.stayed == s.stayed && t.answers.fates == s.answers.fates
    requires forall k :: k != n ==> BoxOf(t.answers.boxes, k) == BoxOf(s.answers.boxes, k)
    requires Adds(BoxOf(s.answers.boxes, n), BoxOf(t.answers.boxes, n), Ended(s.links, s.server, n))
    ensures AnswersOk(t)
  {
    hide AnswersOk;
    OneProgress(s, t, n);
    OneAnswers(s, t, n);
  }

  lemma PostAnswers(s: Core, n: int, m: Message)
    requires AnswersOk(s) && !m.Answer? && m != Flush
    ensures AnswersOk(PostTo(s, n, m))
  {
    hide AnswersOk;
    PostAdds(s.answers.boxes, StateOf(s, n), n, m, Ended(s.links, s.server, n));
    BoxAnswers(s, PostTo(s, n, m), n);
  }

  lemma WriteAnswers(s: Core, n: int)
    requires AnswersOk(s)
    ensures AnswersOk(WriteNext(s, n)) && AnswersOk(Break(s, n))
  {
    hide AnswersOk;
    BoxAnswers(s, WriteNext(s, n), n);
    BoxAnswers(s, Break(s, n), n);
  }

  // -- an accepted step, and a cancel ------------------------------------------------------------

  lemma AcceptedFates(r: Requests, w: Waiting, fates: map<nat, Fate>, owes: seq<Waiting>)
    requires Named(r.ledger, r.policy.nextOrder) && FatesOk(r.pending, r.ledger, fates) && OwesOk(owes, fates, r.ledger)
    requires Accepts(r.policy, w)
    ensures var o, q := r.policy.nextOrder, Accept(r, w);
            && o !in r.ledger && o !in fates
            && FatesOk(q.pending, q.ledger, fates[o := Awaiting]) && OwesOk(owes, fates[o := Awaiting], q.ledger)
  {
    var o, q := r.policy.nextOrder, Accept(r, w);
    assert forall p :: p in r.ledger ==> (Due(q.pending, q.ledger, p) <==> Due(r.pending, r.ledger, p));
    assert Due(q.pending, q.ledger, o);
    hide Due;
  }

  lemma AcceptedBoxes(boxes: map<int, Box>, fates: map<nat, Fate>, ledger: Ledger, o: nat, e: Entry)
    requires BoxesOk(boxes, fates, ledger) && o !in ledger && o !in fates
    ensures BoxesOk(boxes, fates[o := Awaiting], ledger[o := e])
  {
    forall n, i: nat | i < |BoxOf(boxes, n).sent| && BoxOf(boxes, n).sent[i].Answer?
      ensures IsGiven(BoxOf(boxes, n).sent[i], n, i, fates[o := Awaiting], ledger[o := e])
    {
      assert IsGiven(BoxOf(boxes, n).sent[i], n, i, fates, ledger);
    }
  }

  lemma StepAnswers(s: Core, w: Waiting)
    requires RequestsOk(s) && AnswersOk(s)
    ensures AnswersOk(TakeStep(s, w))
  {
    if TakeStep(s, w).requests.policy == s.requests.policy {
      hide AnswersOk, RequestsOk;
      PostAnswers(s, w.connection, Failed(w.requestId));
    } else {
      AcceptedFates(s.requests, w, s.answers.fates, Owes(s.doing, s.errands));
      StepAccepted(s, w);
    }
  }

  lemma StepAccepted(s: Core, w: Waiting)
    requires AnswersOk(s) && TakeStep(s, w).requests.policy != s.requests.policy
    requires var o, q := s.requests.policy.nextOrder, Accept(s.requests, w);
             && o !in s.requests.ledger && o !in s.answers.fates
             && FatesOk(q.pending, q.ledger, s.answers.fates[o := Awaiting])
             && OwesOk(Owes(s.doing, s.errands), s.answers.fates[o := Awaiting], q.ledger)
    ensures AnswersOk(TakeStep(s, w))
  {
    var o := s.requests.policy.nextOrder;
    AcceptedBoxes(s.answers.boxes, s.answers.fates, s.requests.ledger, o, TakeStep(s, w).requests.ledger[o]);
    hide FatesOk, OwesOk, BoxesOk, FlushOk, Ended, Owes;
  }
}
