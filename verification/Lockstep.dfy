/** A runner that drives N ranks in lockstep: each call is broadcast to every rank's queue, and the
    runner collects one answer per rank from the one queue they all answer on, in any order.

    Each request and each answer carries the number of its call, which the source's messages do not:
    it is bookkeeping, and no transition reads it. */
module Lockstep {
  import opened Slots
  import opened Payloads

  type Payload = Object<int>

  /** A header names the block it was packed into by its generation. */
  datatype Request = Generate(call: nat, block: nat, header: Header<int>) | Reset(call: nat)

  /** An answer without an error; rank 0's to a `generate()` carries its result's header. */
  datatype Answer = Answer(rank: nat, call: nat, header: Option<(nat, Header<int>)>, error: Option<int>)

  /** What a rank does: wait for a request, hold one, or hold one whose input it has copied out. */
  datatype Work = Waiting | Holding(request: Request) | Working(request: Request)

  datatype Calling = Calling(request: Request, messages: seq<Answer>)

  datatype Outcome = Returned(result: Option<Payload>) | Raised(error: int) | Desync

  datatype Group = Group(
    world: nat,
    healthy: bool,
    calling: Option<Calling>,
    inboxes: seq<seq<Request>>,
    work: seq<Work>,
    outbox: seq<Answer>,
    // the runner's input block and rank 0's result block: generation and contents
    input: (nat, Bytes),
    result: (nat, Bytes),
    // bookkeeping: the calls so far and their inputs, and, while the group is healthy, what each rank's
    // worker was given, what rank 0's worker returned, and what each call returned
    calls: nat,
    inputs: map<nat, Payload>,
    seen: map<(nat, nat), Option<Payload>>,
    results: map<nat, Payload>,
    outcomes: map<nat, Outcome>)

  datatype Event =
    | Generates(o: Payload, grows: bool)
    | Resets
    | Takes(rank: nat)
    | Reads(rank: nat)
    | Answers(rank: nat, result: Payload, grows: bool)
    | Fails(rank: nat, error: int, left: (nat, Bytes))
    | PackFails(left: (nat, Bytes))
    | Collects
    | Decides
    | Interrupts

  function HeaderOf(o: Payload, block: nat): Header<int> {
    Header(o.inline, [], Some(("", block)), Laid(o.buffers))
  }

  /** One call packed into a block: over what it held, or into the larger block that replaces it. */
  function Packed(block: (nat, Bytes), o: Payload, grows: bool): (nat, Bytes) {
    var call := Flat(o.buffers);
    if grows || |call| > |block.1| then (block.0 + 1, call) else (block.0, call + block.1[|call|..])
  }

  /** What a header gives its reader, who finds the block only under the name it has now. */
  function ReadFrom(block: (nat, Bytes), name: nat, header: Header<int>): Option<Payload> {
    if header.spans == [] || name == block.0 then Unpacked(header, block.1) else None
  }

  predicate Possible(g: Group, e: Event) {
    match e
    case Generates(_, _) => g.healthy && g.calling.None?
    case Resets => g.healthy && g.calling.None?
    case Takes(r) => r < |g.work| && r < |g.inboxes| && g.work[r] == Waiting && g.inboxes[r] != []
    case Reads(r) => r < |g.work| && g.work[r].Holding?
    case Answers(r, _, _) => r < |g.work| && g.work[r].Working?
    case Fails(r, _, _) => r < |g.work| && g.work[r] != Waiting
    case PackFails(_) => g.healthy && g.calling.None?
    case Collects => g.calling.Some? && |g.calling.value.messages| < g.world && g.outbox != []
    case Decides => g.calling.Some? && |g.calling.value.messages| >= g.world
    case Interrupts => g.calling.Some?
  }

  function Broadcast(inboxes: seq<seq<Request>>, request: Request): seq<seq<Request>> {
    seq(|inboxes|, r requires 0 <= r < |inboxes| => inboxes[r] + [request])
  }

  function Begin(g: Group, request: Request): Group {
    g.(inboxes := Broadcast(g.inboxes, request), calling := Some(Calling(request, [])), calls := g.calls + 1)
  }

  /** A rank's answer to the request it works on: only rank 0's result crosses back. */
  function Answered(g: Group, r: nat, result: Payload, grows: bool): Group
    requires r < |g.work| && g.work[r].Working?
  {
    var request := g.work[r].request;
    var h := g.(work := g.work[r := Waiting]);
    if request.Reset? || r != 0 then h.(outbox := g.outbox + [Answer(r, request.call, None, None)])
    else
      var block := Packed(g.result, result, grows);
      h.(result := block, results := if g.healthy then g.results[request.call := result] else g.results,
         outbox := g.outbox + [Answer(r, request.call, Some((block.0, HeaderOf(result, block.0))), None)])
  }

  function AnswerOf(messages: seq<Answer>, rank: nat): Answer {
    if messages == [] then Answer(rank, 0, None, None)
    else if messages[0].rank == rank then messages[0] else AnswerOf(messages[1..], rank)
  }

  /** The answers by rank. */
  function Sorted(messages: seq<Answer>): seq<Answer> {
    seq(|messages|, r requires 0 <= r < |messages| => AnswerOf(messages, r))
  }

  function Failed(answers: seq<Answer>): seq<Answer> {
    if answers == [] then []
    else (if answers[0].error.Some? then [answers[0]] else []) + Failed(answers[1..])
  }

  function ErrorTypes(answers: seq<Answer>): set<int> {
    set a | a in answers && a.error.Some? :: a.error.value
  }

  /** The outcome policy of one call, and rank 0's result, read back. */
  function Decide(answers: seq<Answer>, result: (nat, Bytes)): Outcome {
    var failed := Failed(answers);
    if failed == [] then
      Returned(if answers != [] && answers[0].header.Some?
               then ReadFrom(result, answers[0].header.value.0, answers[0].header.value.1) else None)
    else if |failed| == |answers| && |ErrorTypes(failed)| == 1 && failed[0].error.Some?
      then Raised(failed[0].error.value)
    else Desync
  }

  function Next(g: Group, e: Event): Group
    requires Possible(g, e)
  {
    match e
    case Generates(o, grows) =>
      var block := Packed(g.input, o, grows);
      Begin(g.(input := block, inputs := g.inputs[g.calls := o]), Generate(g.calls, block.0, HeaderOf(o, block.0)))
    case Resets => Begin(g, Reset(g.calls))
    case Takes(r) => g.(work := g.work[r := Holding(g.inboxes[r][0])], inboxes := g.inboxes[r := g.inboxes[r][1..]])
    case Reads(r) =>
      var request := g.work[r].request;
      var h := g.(work := g.work[r := Working(request)]);
      if request.Reset? || !g.healthy then h
      else h.(seen := g.seen[(r, request.call) := ReadFrom(g.input, request.block, request.header)])
    case Answers(r, result, grows) => Answered(g, r, result, grows)
    case Fails(r, error, left) =>
      g.(work := g.work[r := Waiting], result := if r == 0 then left else g.result,
         outbox := g.outbox + [Answer(r, g.work[r].request.call, None, Some(error))])
    case PackFails(left) => g.(input := left)
    case Collects =>
      g.(calling := Some(g.calling.value.(messages := g.calling.value.messages + [g.outbox[0]])),
         outbox := g.outbox[1..])
    case Decides =>
      var outcome := Decide(Sorted(g.calling.value.messages), g.result);
      g.(calling := None, healthy := g.healthy && outcome != Desync,
         outcomes := g.outcomes[g.calling.value.request.call := outcome])
    case Interrupts => g.(calling := None, healthy := false)
  }

  function Started(world: nat): Group {
    Group(world, true, None, seq(world, r => []), seq(world, r => Waiting), [], (0, []), (0, []), 0,
          map[], map[], map[], map[])
  }

  // -- the invariant -------------------------------------------------------------------------------

  /** The answers to the call so far: collected, and still on the queue. */
  function AllAnswers(g: Group): seq<Answer> {
    if g.calling.Some? then g.calling.value.messages + g.outbox else g.outbox
  }

  ghost predicate HasAnswer(answers: seq<Answer>, r: nat) {
    exists i :: 0 <= i < |answers| && answers[i].rank == r
  }

  ghost predicate OnePerRank(answers: seq<Answer>, world: nat, call: nat) {
    && (forall i :: 0 <= i < |answers| ==> answers[i].rank < world && answers[i].call == call)
    && (forall i, j :: 0 <= i < j < |answers| ==> answers[i].rank != answers[j].rank)
  }

  /** Where a call's request is for this rank: queued, held or answered, and nowhere else. */
  ghost predicate RankOk(inbox: seq<Request>, work: Work, answered: bool, request: Request) {
    if inbox != [] then inbox == [request] && work == Waiting && !answered
    else if work != Waiting then work.request == request && !answered
    else answered
  }

  ghost predicate QueuesOk(g: Group) {
    && |g.inboxes| == |g.work| == g.world
    && (g.calling.Some? ==> g.healthy)
    && (g.healthy ==>
          if g.calling.None? then
            && g.outbox == []
            && forall r :: 0 <= r < g.world ==> g.inboxes[r] == [] && g.work[r] == Waiting
          else
            && OnePerRank(AllAnswers(g), g.world, g.calling.value.request.call)
            && forall r: nat :: r < g.world ==>
                 RankOk(g.inboxes[r], g.work[r], HasAnswer(AllAnswers(g), r), g.calling.value.request))
  }

  ghost predicate IsRequest(g: Group, request: Request) {
    && request.call == g.calls - 1
    && (request.Reset? ==> request.call !in g.inputs)
    && (request.Generate? ==>
          && request.call in g.inputs && request.block == g.input.0
          && request.header == HeaderOf(g.inputs[request.call], request.block)
          && Flat(g.inputs[request.call].buffers) <= g.input.1)
  }

  /** Rank 0's answer to the call in progress names bytes that are still in its block. */
  ghost predicate ResultOk(g: Group, a: Answer) {
    a.header.Some? ==>
      && a.rank == 0 && a.call in g.results && a.header.value == (g.result.0, HeaderOf(g.results[a.call], g.result.0))
      && Flat(g.results[a.call].buffers) <= g.result.1
  }

  ghost predicate BlocksOk(g: Group) {
    && (g.healthy && g.calling.Some? ==>
          && IsRequest(g, g.calling.value.request)
          && (forall i :: 0 <= i < |AllAnswers(g)| ==> ResultOk(g, AllAnswers(g)[i]))
          && (forall i :: 0 <= i < |AllAnswers(g)| && AllAnswers(g)[i].rank == 0 && AllAnswers(g)[i].error.None? ==>
                (AllAnswers(g)[i].header.Some? <==> g.calling.value.request.Generate?)))
    && (forall k :: k in g.inputs ==> k < g.calls)
    && (forall k :: k in g.outcomes ==> k < g.calls && (g.healthy && g.calling.Some? ==> k < g.calls - 1))
  }

  /** Every worker was given the input of its own call, and every call returned rank 0's result of it. */
  ghost predicate HistoryOk(g: Group) {
    && (forall r, k :: (r, k) in g.seen ==> k in g.inputs && g.seen[(r, k)] == Some(g.inputs[k]))
    && (forall k :: k in g.outcomes && g.outcomes[k].Returned? && k in g.inputs ==>
          k in g.results && g.outcomes[k].result == Some(g.results[k]))
  }

  ghost predicate GroupOk(g: Group) {
    g.world >= 1 && QueuesOk(g) && BlocksOk(g) && HistoryOk(g)
  }

  // -- one answer per rank -------------------------------------------------------------------------

  lemma {:induction false} DistinctRanks(answers: seq<Answer>, world: nat, call: nat)
    requires OnePerRank(answers, world, call)
    ensures |set a | a in answers :: a.rank| == |answers|
  {
    if answers != [] {
      var init, last := answers[..|answers| - 1], answers[|answers| - 1];
      DistinctRanks(init, world, call);
      assert answers == init + [last];
      assert (set a | a in answers :: a.rank) == (set a | a in init :: a.rank) + {last.rank};
      assert last.rank !in (set a | a in init :: a.rank);
    }
  }

  function Ranks(world: nat): set<nat> {
    if world == 0 then {} else Ranks(world - 1) + {world - 1}
  }

  lemma {:induction false} RanksBelow(world: nat)
    ensures |Ranks(world)| == world && forall r: nat :: r in Ranks(world) <==> r < world
  {
    if world > 0 {
      RanksBelow(world - 1);
    }
  }

  lemma SubsetSize<T>(a: set<T>, b: set<T>)
    requires a <= b
    ensures |a| <= |b| && (|a| == |b| ==> a == b)
  {
    assert b == a + (b - a);
  }

  /** As many answers as ranks, one per rank, are the answers of every rank. */
  lemma AllRanksAnswered(answers: seq<Answer>, world: nat, call: nat)
    requires OnePerRank(answers, world, call)
    ensures |answers| <= world
    ensures |answers| == world ==> forall r: nat :: r < world ==> HasAnswer(answers, r)
  {
    DistinctRanks(answers, world, call);
    RanksBelow(world);
    var ranks, all := set a | a in answers :: a.rank, Ranks(world);
    SubsetSize(ranks, all);
    forall r: nat | r < world && |answers| == world ensures HasAnswer(answers, r) {
      assert r in ranks;
      var a :| a in answers && a.rank == r;
      var i :| 0 <= i < |answers| && answers[i] == a;
    }
  }

  lemma {:induction false} AnswerOfRank(messages: seq<Answer>, r: nat)
    requires HasAnswer(messages, r)
    ensures AnswerOf(messages, r) in messages && AnswerOf(messages, r).rank == r
  {
    var i :| 0 <= i < |messages| && messages[i].rank == r;
    if messages[0].rank != r {
      assert messages[1..][i - 1] == messages[i];
      AnswerOfRank(messages[1..], r);
    }
  }

  /** Sorted, one call's answers are in the order of their ranks, each rank's own. */
  lemma SortedByRank(messages: seq<Answer>, world: nat, call: nat)
    requires OnePerRank(messages, world, call) && |messages| == world
    ensures forall r: nat :: r < world ==> Sorted(messages)[r] in messages && Sorted(messages)[r].rank == r
    ensures forall a :: a in messages ==> a in Sorted(messages)
  {
    AllRanksAnswered(messages, world, call);
    forall r: nat | r < world ensures Sorted(messages)[r] in messages && Sorted(messages)[r].rank == r {
      AnswerOfRank(messages, r);
    }
    forall a | a in messages ensures a in Sorted(messages) {
      var i :| 0 <= i < |messages| && messages[i] == a;
      var b := Sorted(messages)[a.rank];
      var j :| 0 <= j < |messages| && messages[j] == b;
      assert i == j;
    }
  }

  lemma {:induction false} FailedMembers(answers: seq<Answer>)
    ensures forall a :: a in Failed(answers) <==> a in answers && a.error.Some?
    ensures |Failed(answers)| <= |answers|
    ensures |Failed(answers)| == |answers| <==> forall a :: a in answers ==> a.error.Some?
    ensures Failed(answers) == [] <==> forall a :: a in answers ==> a.error.None?
  {
    if answers != [] {
      FailedMembers(answers[1..]);
      assert answers == [answers[0]] + answers[1..];
    }
  }

  lemma OneType(answers: seq<Answer>, e: int)
    requires answers != [] && forall a :: a in answers ==> a.error == Some(e)
    ensures ErrorTypes(answers) == {e}
  {
    assert answers[0] in answers;
  }

  lemma Single<T>(s: set<T>, a: T, b: T)
    requires |s| == 1 && a in s && b in s
    ensures a == b
  {
    if a != b {
      SubsetSize({a, b}, s);
    }
  }

  lemma OnlyType(answers: seq<Answer>)
    requires answers != [] && |ErrorTypes(answers)| == 1 && forall a :: a in answers ==> a.error.Some?
    ensures forall a :: a in answers ==> a.error == answers[0].error
  {
    assert answers[0] in answers;
    forall a | a in answers ensures a.error == answers[0].error {
      Single(ErrorTypes(answers), a.error.value, answers[0].error.value);
    }
  }

  /** One call's outcome: a result exactly when no rank failed, the ranks' own error exactly when all
      of them failed with it, and otherwise the group is out of step. */
  lemma DecidesByPolicy(messages: seq<Answer>, world: nat, call: nat, result: (nat, Bytes))
    requires OnePerRank(messages, world, call) && |messages| == world >= 1
    ensures var outcome := Decide(Sorted(messages), result);
            && (outcome.Returned? <==> forall a :: a in messages ==> a.error.None?)
            && (forall e :: outcome == Raised(e) <==> forall a :: a in messages ==> a.error == Some(e))
            && (outcome == Desync <==>
                  && (exists a :: a in messages && a.error.Some?)
                  && (forall e :: exists a :: a in messages && a.error != Some(e)))
  {
    SortedByRank(messages, world, call);
    var answers := Sorted(messages);
    assert forall a :: a in answers <==> a in messages;
    FailedMembers(answers);
    var failed := Failed(answers);
    assert messages[0] in messages && answers[0] in answers;
    if |failed| == |answers| {
      assert failed[0] in failed;
      if |ErrorTypes(failed)| == 1 {
        OnlyType(failed);
      }
      forall e | forall a :: a in messages ==> a.error == Some(e)
        ensures |ErrorTypes(failed)| == 1 && failed[0].error == Some(e) {
        OneType(failed, e);
      }
    }
  }

  // -- every event keeps the invariant ---------------------------------------------------------------

  /** A call starts from an idle group: each rank has its request, and nobody has answered. */
  lemma BeginKeeps(g: Group, request: Request, input: (nat, Bytes), inputs: map<nat, Payload>)
    requires GroupOk(g) && g.healthy && g.calling.None? && request.call == g.calls
    requires forall k :: k in g.inputs ==> k in inputs && inputs[k] == g.inputs[k]
    requires forall k :: k in inputs ==> k <= g.calls
    requires forall k :: k in g.outcomes && k in inputs ==> k in g.inputs
    requires request.Reset? ==> request.call !in inputs
    requires request.Generate? ==>
               && g.calls in inputs && request.block == input.0
               && request.header == HeaderOf(inputs[g.calls], input.0) && Flat(inputs[g.calls].buffers) <= input.1
    ensures GroupOk(Begin(g.(input := input, inputs := inputs), request))
  {
    hide Flat, Laid;
    var h := Begin(g.(input := input, inputs := inputs), request);
    assert AllAnswers(h) == [];
    forall r: nat | r < h.world ensures RankOk(h.inboxes[r], h.work[r], HasAnswer(AllAnswers(h), r), request) {
      assert g.inboxes[r] == [] && g.work[r] == Waiting;
    }
  }

  lemma PackedStarts(block: (nat, Bytes), o: Payload, grows: bool)
    ensures Flat(o.buffers) <= Packed(block, o, grows).1
  {
  }

  lemma StartsKeep(g: Group, e: Event)
    requires GroupOk(g) && Possible(g, e) && (e.Generates? || e.Resets?)
    ensures GroupOk(Next(g, e))
  {
    hide GroupOk, Flat, Laid;
    IdleFacts(g);
    if e.Generates? {
      PackedStarts(g.input, e.o, e.grows);
      var block := Packed(g.input, e.o, e.grows);
      BeginKeeps(g, Generate(g.calls, block.0, HeaderOf(e.o, block.0)), block, g.inputs[g.calls := e.o]);
    } else {
      BeginKeeps(g, Reset(g.calls), g.input, g.inputs);
    }
  }

  lemma IdleFacts(g: Group)
    requires GroupOk(g)
    ensures forall k :: k in g.inputs ==> k < g.calls
    ensures forall k :: k in g.outcomes ==> k < g.calls
  {
  }

  lemma TakesKeeps(g: Group, r: nat)
    requires GroupOk(g) && Possible(g, Takes(r))
    ensures GroupOk(Next(g, Takes(r)))
  {
    hide BlocksOk, HistoryOk, Flat, Laid;
    var h := Next(g, Takes(r));
    assert AllAnswers(h) == AllAnswers(g);
    SameBlocks(g, h);
    SameHistory(g, h);
  }

  /** Nothing changed that a block, an input or a result depends on. */
  lemma SameBlocks(g: Group, h: Group)
    requires BlocksOk(g) && AllAnswers(h) == AllAnswers(g) && h.healthy == g.healthy && h.calls == g.calls
    requires h.calling.Some? == g.calling.Some?
             && (g.calling.Some? ==> h.calling.value.request == g.calling.value.request)
    requires h.input == g.input && h.result == g.result && h.inputs == g.inputs && h.results == g.results
             && h.outcomes == g.outcomes
    ensures BlocksOk(h)
  {
    hide Flat, Laid, AllAnswers;
  }

  lemma SameHistory(g: Group, h: Group)
    requires HistoryOk(g) && h.seen == g.seen && h.inputs == g.inputs && h.results == g.results
             && h.outcomes == g.outcomes
    ensures HistoryOk(h)
  {
  }

  lemma ReadInput(g: Group, r: nat)
    requires GroupOk(g) && Possible(g, Reads(r)) && g.healthy && g.work[r].request.Generate?
    ensures var request := g.work[r].request;
            && request.call in g.inputs
            && ReadFrom(g.input, request.block, request.header) == Some(g.inputs[request.call])
  {
    hide HistoryOk, Flat, Laid, Unpacked;
    var request := g.work[r].request;
    assert g.calling.Some? && request == g.calling.value.request;
    UnpacksWhatWasPacked(g.inputs[request.call], request.header, g.input.1);
  }

  lemma ReadsQueues(g: Group, r: nat)
    requires QueuesOk(g) && Possible(g, Reads(r))
    ensures QueuesOk(Next(g, Reads(r))) && AllAnswers(Next(g, Reads(r))) == AllAnswers(g)
  {
    hide ReadFrom;
    assert AllAnswers(Next(g, Reads(r))) == AllAnswers(g);
  }

  lemma ReadsHistory(g: Group, r: nat)
    requires HistoryOk(g) && Possible(g, Reads(r))
    requires g.healthy && g.work[r].request.Generate? ==>
               var request := g.work[r].request;
               request.call in g.inputs && ReadFrom(g.input, request.block, request.header) ==
                 Some(g.inputs[request.call])
    ensures HistoryOk(Next(g, Reads(r)))
  {
    hide ReadFrom;
  }

  lemma ReadsKeeps(g: Group, r: nat)
    requires GroupOk(g) && Possible(g, Reads(r))
    ensures GroupOk(Next(g, Reads(r)))
  {
    if g.healthy && g.work[r].request.Generate? {
      ReadInput(g, r);
    }
    ReadsQueues(g, r);
    ReadsHistory(g, r);
    hide BlocksOk, QueuesOk, HistoryOk, Flat, Laid, ReadFrom;
    SameBlocks(g, Next(g, Reads(r)));
  }

  lemma AddedAnswer(answers: seq<Answer>, a: Answer, world: nat)
    requires OnePerRank(answers, world, a.call) && a.rank < world && !HasAnswer(answers, a.rank)
    ensures OnePerRank(answers + [a], world, a.call)
    ensures forall r: nat :: HasAnswer(answers + [a], r) <==> HasAnswer(answers, r) || r == a.rank
  {
    forall r: nat | HasAnswer(answers, r) ensures HasAnswer(answers + [a], r) {
      var i :| 0 <= i < |answers| && answers[i].rank == r;
      assert (answers + [a])[i] == answers[i];
    }
    assert (answers + [a])[|answers|] == a;
  }

  /** A rank that works on the call answers it. */
  lemma AnswerQueues(g: Group, h: Group, r: nat, a: Answer)
    requires QueuesOk(g) && r < |g.work| && g.work[r] != Waiting && a.rank == r && a.call == g.work[r].request.call
    requires h.world == g.world && h.healthy == g.healthy && h.calling == g.calling && h.inboxes == g.inboxes
    requires h.work == g.work[r := Waiting] && h.outbox == g.outbox + [a]
    ensures QueuesOk(h)
    ensures g.healthy ==>
              g.calling.Some? && AllAnswers(h) == AllAnswers(g) + [a] && g.work[r].request == g.calling.value.request
    ensures g.healthy ==> !HasAnswer(AllAnswers(g), r)
  {
    if g.healthy {
      assert g.calling.Some?;
      assert RankOk(g.inboxes[r], g.work[r], HasAnswer(AllAnswers(g), r), g.calling.value.request);
      assert AllAnswers(h) == AllAnswers(g) + [a];
      AddedAnswer(AllAnswers(g), a, g.world);
      hide HasAnswer, OnePerRank, AllAnswers;
      forall q: nat | q < h.world ensures RankOk(h.inboxes[q], h.work[q], HasAnswer(AllAnswers(h), q),
                                                 h.calling.value.request) {
        assert RankOk(g.inboxes[q], g.work[q], HasAnswer(AllAnswers(g), q), g.calling.value.request);
      }
    }
  }

  lemma AnswerBlocks(g: Group, h: Group, a: Answer)
    requires BlocksOk(g) && h.calling == g.calling && h.healthy == g.healthy && h.calls == g.calls
    requires g.healthy ==> g.calling.Some? && AllAnswers(h) == AllAnswers(g) + [a] && !HasAnswer(AllAnswers(g), a.rank)
    requires h.input == g.input && h.inputs == g.inputs && h.outcomes == g.outcomes
    requires a.rank != 0 ==> h.result == g.result && h.results == g.results
    requires g.healthy ==> ResultOk(h, a)
    requires g.healthy && a.rank == 0 && a.error.None? ==> (a.header.Some? <==> g.calling.value.request.Generate?)
    ensures BlocksOk(h)
  {
    hide Flat, Laid, AllAnswers;
    if g.healthy {
      forall i: nat | i < |AllAnswers(h)| ensures ResultOk(h, AllAnswers(h)[i]) {
        if i < |AllAnswers(g)| {
          assert AllAnswers(h)[i] == AllAnswers(g)[i];
          assert ResultOk(g, AllAnswers(g)[i]);
        }
      }
    }
  }

  lemma AnswersKeeps(g: Group, r: nat, result: Payload, grows: bool)
    requires GroupOk(g) && Possible(g, Answers(r, result, grows))
    ensures GroupOk(Next(g, Answers(r, result, grows)))
  {
    hide Flat, Laid, QueuesOk, BlocksOk, Packed, GroupOk, HistoryOk, AllAnswers, HasAnswer, ResultOk, Next, Answered;
    GroupParts(g);
    AnswersIsAnswered(g, r, result, grows);
    AnsweredShape(g, r, result, grows);
    AnsweredRest(g, r, result, grows);
    var h := Next(g, Answers(r, result, grows));
    var a := h.outbox[|g.outbox|];
    AnswerQueues(g, h, r, a);
    if g.healthy { AnswerResult(g, r, result, grows); }
    AnswerBlocks(g, h, a);
    AnswerHistory(g, h, result);
    GroupWhole(h);
  }

  lemma AnswersIsAnswered(g: Group, r: nat, result: Payload, grows: bool)
    requires Possible(g, Answers(r, result, grows))
    ensures Next(g, Answers(r, result, grows)) == Answered(g, r, result, grows)
  {
    hide Answered;
  }

  /** What an answer changes of the group. */
  lemma AnsweredShape(g: Group, r: nat, result: Payload, grows: bool)
    requires r < |g.work| && g.work[r].Working?
    ensures var h := Answered(g, r, result, grows); var request := g.work[r].request;
            && |h.outbox| == |g.outbox| + 1
            && var a := h.outbox[|g.outbox|];
            && h.outbox == g.outbox + [a] && a.rank == r && a.call == request.call && a.error.None?
            && (a.header.Some? <==> request.Generate? && r == 0)
            && (r != 0 ==> h.result == g.result)
            && h.results == (if request.Generate? && r == 0 && g.healthy then g.results[request.call := result]
              else g.results)
  {
    hide Packed, HeaderOf;
  }

  lemma AnsweredRest(g: Group, r: nat, result: Payload, grows: bool)
    requires r < |g.work| && g.work[r].Working?
    ensures var h := Answered(g, r, result, grows);
            && h.world == g.world && h.healthy == g.healthy && h.calling == g.calling && h.inboxes == g.inboxes
            && h.work == g.work[r := Waiting] && h.input == g.input && h.calls == g.calls
            && h.seen == g.seen && h.inputs == g.inputs && h.outcomes == g.outcomes
  {
    hide Packed, HeaderOf;
  }

  lemma GroupParts(g: Group)
    requires GroupOk(g)
    ensures g.world >= 1 && QueuesOk(g) && BlocksOk(g) && HistoryOk(g)
  {
    hide QueuesOk, BlocksOk, HistoryOk;
  }

  lemma GroupWhole(g: Group)
    requires g.world >= 1 && QueuesOk(g) && BlocksOk(g) && HistoryOk(g)
    ensures GroupOk(g)
  {
    hide QueuesOk, BlocksOk, HistoryOk;
  }

  lemma AnswerResult(g: Group, r: nat, result: Payload, grows: bool)
    requires Possible(g, Answers(r, result, grows)) && g.healthy
    ensures var h := Next(g, Answers(r, result, grows)); ResultOk(h, h.outbox[|g.outbox|])
  {
    hide Flat, Laid, Packed;
    PackedStarts(g.result, result, grows);
  }

  lemma AnswerHistory(g: Group, h: Group, result: Payload)
    requires HistoryOk(g) && BlocksOk(g) && h.seen == g.seen && h.inputs == g.inputs && h.outcomes == g.outcomes
    requires h.results == g.results
          || (g.healthy && g.calling.Some? && h.results == g.results[g.calling.value.request.call := result])
    ensures HistoryOk(h)
  {
    hide Flat, Laid;
  }

  lemma FailsKeeps(g: Group, r: nat, error: int, left: (nat, Bytes))
    requires GroupOk(g) && Possible(g, Fails(r, error, left))
    ensures GroupOk(Next(g, Fails(r, error, left)))
  {
    hide Flat, Laid, QueuesOk, BlocksOk;
    var h := Next(g, Fails(r, error, left));
    var a := h.outbox[|g.outbox|];
    AnswerQueues(g, h, r, a);
    AnswerBlocks(g, h, a);
    AnswerHistory(g, h, Object(0, []));
  }

  lemma PackFailsKeeps(g: Group, left: (nat, Bytes))
    requires GroupOk(g) && Possible(g, PackFails(left))
    ensures GroupOk(Next(g, PackFails(left)))
  {
    hide Flat, Laid;
  }

  lemma CollectsKeeps(g: Group)
    requires GroupOk(g) && Possible(g, Collects)
    ensures GroupOk(Next(g, Collects))
  {
    hide BlocksOk, HistoryOk, Flat, Laid;
    var h := Next(g, Collects);
    assert AllAnswers(h) == AllAnswers(g);
    SameBlocks(g, h);
    SameHistory(g, h);
  }

  /** The messages a call collects are all there is of it: every rank answered once, for this call,
      and no queue holds anything. */
  lemma CollectedAll(g: Group)
    requires GroupOk(g) && g.healthy && Possible(g, Decides)
    ensures var c := g.calling.value;
            && OnePerRank(c.messages, g.world, c.request.call) && |c.messages| == g.world
            && g.outbox == [] && AllAnswers(g) == c.messages
            && forall r :: 0 <= r < g.world ==> g.inboxes[r] == [] && g.work[r] == Waiting
  {
    hide BlocksOk, HistoryOk;
    var c := g.calling.value;
    AllRanksAnswered(AllAnswers(g), g.world, c.request.call);
    assert |AllAnswers(g)| == |c.messages| + |g.outbox|;
    assert g.outbox == [];
    assert AllAnswers(g) == c.messages;
    forall r: nat | r < g.world ensures g.inboxes[r] == [] && g.work[r] == Waiting {
      assert RankOk(g.inboxes[r], g.work[r], HasAnswer(AllAnswers(g), r), c.request);
    }
  }

  lemma DecidedResult(g: Group)
    requires GroupOk(g) && g.healthy && Possible(g, Decides)
    ensures var c := g.calling.value; var outcome := Decide(Sorted(c.messages), g.result);
            outcome.Returned? && c.request.Generate? ==>
              c.request.call in g.results && outcome.result == Some(g.results[c.request.call])
  {
    hide QueuesOk, HistoryOk, Flat, Laid, Failed, Unpacked;
    CollectedAll(g);
    var c := g.calling.value;
    DecidesByPolicy(c.messages, g.world, c.request.call, g.result);
    SortedByRank(c.messages, g.world, c.request.call);
    var a := Sorted(c.messages)[0];
    var i :| 0 <= i < |c.messages| && c.messages[i] == a;
    assert ResultOk(g, AllAnswers(g)[i]);
    if a.header.Some? {
      UnpacksWhatWasPacked(g.results[a.call], a.header.value.1, g.result.1);
    }
  }

  lemma DecidesKeeps(g: Group)
    requires GroupOk(g) && Possible(g, Decides)
    ensures GroupOk(Next(g, Decides))
  {
    hide Flat, Laid, Sorted, Decide;
    CollectedAll(g);
    DecidedResult(g);
    DecidedHistory(g, Next(g, Decides), Decide(Sorted(g.calling.value.messages), g.result));
    hide HistoryOk;
  }

  lemma DecidedHistory(g: Group, h: Group, outcome: Outcome)
    requires HistoryOk(g) && g.calling.Some? && h.seen == g.seen && h.inputs == g.inputs && h.results == g.results
    requires h.outcomes == g.outcomes[g.calling.value.request.call := outcome]
    requires outcome.Returned? && g.calling.value.request.call in g.inputs ==>
               var k := g.calling.value.request.call; k in g.results && outcome.result == Some(g.results[k])
    ensures HistoryOk(h)
  {
  }

  lemma InterruptsKeeps(g: Group)
    requires GroupOk(g) && Possible(g, Interrupts)
    ensures GroupOk(Next(g, Interrupts))
  {
    hide Flat, Laid;
  }

  lemma NextKeeps(g: Group, e: Event)
    requires GroupOk(g) && Possible(g, e)
    ensures GroupOk(Next(g, e))
  {
    hide GroupOk;
    match e
    case Generates(_, _) => StartsKeep(g, e);
    case Resets => StartsKeep(g, e);
    case Takes(r) => TakesKeeps(g, r);
    case Reads(r) => ReadsKeeps(g, r);
    case Answers(r, result, grows) => AnswersKeeps(g, r, result, grows);
    case Fails(r, error, left) => FailsKeeps(g, r, error, left);
    case PackFails(left) => PackFailsKeeps(g, left);
    case Collects => CollectsKeeps(g);
    case Decides => DecidesKeeps(g);
    case Interrupts => InterruptsKeeps(g);
  }

  // -- every rank reads the call's input ---------------------------------------------------------------

  /** Of the call in progress, every rank that works on it, or answered it without an error, was given its
      input; and so was every rank, of a call that returned. */
  ghost predicate ReadOk(g: Group) {
    && (g.healthy && g.calling.Some? && g.calling.value.request.Generate? ==>
          && (forall r: nat :: r < |g.work| && g.work[r].Working? ==> (r, g.calling.value.request.call) in g.seen)
          && (forall a :: a in AllAnswers(g) && a.error.None? ==> (a.rank, g.calling.value.request.call) in g.seen))
    && AllRead(g)
  }

  ghost predicate AllRead(g: Group) {
    forall k, r: nat :: k in g.outcomes && g.outcomes[k].Returned? && k in g.inputs && r < g.world ==> (r, k) in g.seen
  }

  lemma BeginReads(g: Group, e: Event)
    requires GroupOk(g) && ReadOk(g) && Possible(g, e) && (e.Generates? || e.Resets?)
    ensures ReadOk(Next(g, e))
  {
    hide Flat, Laid, Packed, IsRequest, HeaderOf;
    assert AllAnswers(Next(g, e)) == [];
  }

  /** A rank that holds a request holds the one of the call in progress. */
  lemma WorksOnCall(g: Group, r: nat)
    requires GroupOk(g) && g.healthy && r < |g.work| && g.work[r] != Waiting
    ensures g.calling.Some? && g.work[r].request == g.calling.value.request
  {
    hide BlocksOk, HistoryOk;
    if g.calling.Some? {
      assert RankOk(g.inboxes[r], g.work[r], HasAnswer(AllAnswers(g), r), g.calling.value.request);
    }
  }

  lemma RankReads(g: Group, r: nat)
    requires GroupOk(g) && ReadOk(g)
    ensures Possible(g, Takes(r)) ==> ReadOk(Next(g, Takes(r)))
    ensures Possible(g, Reads(r)) ==> ReadOk(Next(g, Reads(r)))
  {
    hide GroupOk, ReadFrom;
    if Possible(g, Takes(r)) {
      assert AllAnswers(Next(g, Takes(r))) == AllAnswers(g);
    }
    if Possible(g, Reads(r)) {
      if g.healthy { WorksOnCall(g, r); }
      assert AllAnswers(Next(g, Reads(r))) == AllAnswers(g);
    }
  }

  lemma MoreAnswers(g: Group, h: Group, r: nat, a: Answer)
    requires GroupOk(g) && ReadOk(g) && r < |g.work| && g.work[r] != Waiting && a.rank == r
    requires h.healthy == g.healthy && h.calling == g.calling && h.world == g.world && h.work == g.work[r := Waiting]
    requires h.outbox == g.outbox + [a] && h.seen == g.seen && h.inputs == g.inputs && h.outcomes == g.outcomes
    requires a.error.None? ==> g.work[r].Working?
    ensures ReadOk(h)
  {
    hide GroupOk;
    if g.healthy {
      WorksOnCall(g, r);
      assert AllAnswers(h) == AllAnswers(g) + [a];
    }
  }

  lemma AnswerReads(g: Group, e: Event)
    requires GroupOk(g) && ReadOk(g) && Possible(g, e) && (e.Answers? || e.Fails?)
    ensures ReadOk(Next(g, e))
  {
    hide GroupOk, ReadOk, Answered, Packed;
    var h := Next(g, e);
    if e.Answers? {
      AnswersIsAnswered(g, e.rank, e.result, e.grows);
      AnsweredShape(g, e.rank, e.result, e.grows);
      AnsweredRest(g, e.rank, e.result, e.grows);
    }
    MoreAnswers(g, h, e.rank, h.outbox[|g.outbox|]);
  }

  lemma DecideReads(g: Group)
    requires GroupOk(g) && ReadOk(g) && Possible(g, Decides)
    ensures ReadOk(Next(g, Decides))
  {
    hide BlocksOk, HistoryOk, Sorted, Decide, QueuesOk;
    IsHealthy(g);
    CollectedAll(g);
    var c := g.calling.value;
    DecidesByPolicy(c.messages, g.world, c.request.call, g.result);
    AllRanksAnswered(c.messages, g.world, c.request.call);
    if c.request.Reset? { ResetHasNoInput(g); }
    forall r: nat | r < g.world && c.request.Generate? && Decide(Sorted(c.messages), g.result).Returned?
      ensures (r, c.request.call) in g.seen
    {
      assert HasAnswer(c.messages, r);
      var i :| 0 <= i < |c.messages| && c.messages[i].rank == r;
      assert c.messages[i] in AllAnswers(g);
    }
  }

  lemma IsHealthy(g: Group)
    requires GroupOk(g) && g.calling.Some?
    ensures g.healthy
  {
    hide BlocksOk, HistoryOk;
  }

  lemma ResetHasNoInput(g: Group)
    requires GroupOk(g) && g.calling.Some? && g.calling.value.request.Reset?
    ensures g.calling.value.request.call !in g.inputs
  {
    hide HistoryOk, Flat;
  }

  lemma NextReads(g: Group, e: Event)
    requires GroupOk(g) && ReadOk(g) && Possible(g, e)
    ensures ReadOk(Next(g, e))
  {
    hide GroupOk;
    match e
    case Generates(_, _) => BeginReads(g, e);
    case Resets => BeginReads(g, e);
    case Takes(r) => RankReads(g, r);
    case Reads(r) => RankReads(g, r);
    case Answers(_, _, _) => AnswerReads(g, e);
    case Fails(_, _, _) => AnswerReads(g, e);
    case Collects => assert AllAnswers(Next(g, e)) == AllAnswers(g);
    case Decides => DecideReads(g);
    case _ =>
  }

  // -- every run -------------------------------------------------------------------------------------

  ghost predicate IsRun(groups: seq<Group>, events: seq<Event>) {
    && |groups| == |events| + 1
    && forall i :: 0 <= i < |events| ==> Possible(groups[i], events[i]) && groups[i + 1] == Next(groups[i], events[i])
  }

  /** Some interleaving of the runner and its ranks reaches this state. */
  ghost predicate Reached(g: Group) {
    exists groups, events, world: nat ::
      world >= 1 && IsRun(groups, events) && groups[0] == Started(world) && groups[|events|] == g
  }

  lemma {:induction false} RunKeeps(groups: seq<Group>, events: seq<Event>, i: nat)
    requires IsRun(groups, events) && GroupOk(groups[0]) && ReadOk(groups[0]) && i <= |events|
    ensures GroupOk(groups[i]) && ReadOk(groups[i])
    decreases i
  {
    hide GroupOk, ReadOk;
    if i > 0 {
      RunKeeps(groups, events, i - 1);
      NextKeeps(groups[i - 1], events[i - 1]);
      NextReads(groups[i - 1], events[i - 1]);
    }
  }

  lemma ReachedOk(g: Group)
    requires Reached(g)
    ensures GroupOk(g) && ReadOk(g)
  {
    hide GroupOk, ReadOk;
    var groups, events, world: nat :|
      world >= 1 && IsRun(groups, events) && groups[0] == Started(world) && groups[|events|] == g;
    StartedOk(world);
    RunKeeps(groups, events, |events|);
  }

  lemma StartedOk(world: nat)
    requires world >= 1
    ensures GroupOk(Started(world)) && ReadOk(Started(world))
  {
  }

  /** Whenever the runner is healthy and idle, every queue is empty and every rank waits. */
  lemma IdleMeansEmpty(g: Group)
    requires Reached(g) && g.healthy && g.calling.None?
    ensures |g.inboxes| == |g.work| == g.world && g.outbox == []
    ensures forall r :: 0 <= r < g.world ==> g.inboxes[r] == [] && g.work[r] == Waiting
  {
    hide Reached, BlocksOk, HistoryOk;
    ReachedOk(g);
  }

  /** The messages one call collects are one per rank, all for that call, and its outcome follows from
      them by the policy. */
  lemma CallCollectsItsOwn(g: Group)
    requires Reached(g) && Possible(g, Decides)
    ensures var c := g.calling.value;
            && OnePerRank(c.messages, g.world, c.request.call) && |c.messages| == g.world
            && forall r: nat :: r < g.world ==> HasAnswer(c.messages, r)
  {
    hide Reached, BlocksOk, HistoryOk;
    ReachedOk(g);
    CollectedAll(g);
    AllRanksAnswered(g.calling.value.messages, g.world, g.calling.value.request.call);
  }

  /** No rank failed, or all of them failed with one same error. */
  ghost predicate AllAgree(messages: seq<Answer>) {
    || (forall a :: a in messages ==> a.error.None?)
    || (exists e :: forall a :: a in messages ==> a.error == Some(e))
  }

  /** When a call is decided, the group stays usable if and only if no rank failed, or all of them failed
      with one same error; and the call's outcome is kept under its own number. */
  lemma HealthyAfterCall(g: Group)
    requires Reached(g) && Possible(g, Decides)
    ensures var h, messages, call := Next(g, Decides), g.calling.value.messages, g.calling.value.request.call;
            && (h.healthy <==> AllAgree(messages))
            && h.calling.None? && call in h.outcomes && call !in g.outcomes
            && (h.outcomes[call].Returned? <==> forall a :: a in messages ==> a.error.None?)
            && (forall e :: h.outcomes[call] == Raised(e) <==> forall a :: a in messages ==> a.error == Some(e))
            && (forall k :: k in g.outcomes ==> k in h.outcomes && h.outcomes[k] == g.outcomes[k])
  {
    hide Reached, Sorted, Decide, QueuesOk, HistoryOk, ReadOk;
    ReachedOk(g);
    hide BlocksOk;
    IsHealthy(g);
    CollectedAll(g);
    var c := g.calling.value;
    DecidesByPolicy(c.messages, g.world, c.request.call, g.result);
    CallIsNew(g);
  }

  lemma CallIsNew(g: Group)
    requires GroupOk(g) && g.calling.Some?
    ensures g.calling.value.request.call !in g.outcomes
  {
    IsHealthy(g);
    hide QueuesOk, HistoryOk, Flat, AllAnswers;
  }

  // -- where an answer comes from --------------------------------------------------------------------

  /** At this event the rank gives this answer, to the request it holds: its own error, or none. */
  predicate GivesAnswer(g: Group, e: Event, a: Answer) {
    && (e.Answers? || e.Fails?) && e.rank == a.rank && e.rank < |g.work|
    && (match g.work[e.rank]
        case Waiting => false
        case Holding(request) => request.call == a.call
        case Working(request) => request.call == a.call)
    && a.error == if e.Fails? then Some(e.error) else None
  }

  lemma NewAnswers(g: Group, e: Event, a: Answer)
    requires Possible(g, e) && a in AllAnswers(Next(g, e)) && a !in AllAnswers(g)
    ensures GivesAnswer(g, e, a)
  {
    hide Flat, Packed, Broadcast, Decide, Sorted, ReadFrom;
    if e.Collects? {
      CollectingMoves(g);
    }
  }

  lemma CollectingMoves(g: Group)
    requires Possible(g, Collects)
    ensures AllAnswers(Next(g, Collects)) == AllAnswers(g)
  {
  }

  /** Over every run, every answer in the group was given by the rank it names, while that rank held the
      request of the call it names. */
  lemma {:induction false} AnswersAreTheRanks(groups: seq<Group>, events: seq<Event>, j: nat, a: Answer)
    requires IsRun(groups, events) && AllAnswers(groups[0]) == [] && j <= |events| && a in AllAnswers(groups[j])
    ensures exists i :: 0 <= i < j && GivesAnswer(groups[i], events[i], a)
    decreases j
  {
    hide Possible, Next, AllAnswers, GivesAnswer;
    assert j > 0;
    if a in AllAnswers(groups[j - 1]) {
      AnswersAreTheRanks(groups, events, j - 1, a);
    } else {
      NewAnswers(groups[j - 1], events[j - 1], a);
    }
  }

  /** Rank `r` answered the request of this call before event `j`, with this error or none. */
  ghost predicate RankGave(groups: seq<Group>, events: seq<Event>, j: nat, r: nat, call: nat, error: Option<int>) {
    exists i, a :: 0 <= i < j && i < |groups| && i < |events| && GivesAnswer(groups[i], events[i], a)
                   && a.rank == r && a.call == call && a.error == error
  }

  /** Over every run, a call that is decided raises an error only if every rank failed its request with that
      one, and returns only if every rank answered its request. */
  lemma DecidesWhatRanksGave(groups: seq<Group>, events: seq<Event>, j: nat, r: nat)
    requires IsRun(groups, events) && AllAnswers(groups[0]) == [] && j < |events|
    requires Reached(groups[j]) && events[j].Decides? && r < groups[j].world
    ensures var call, outcomes := groups[j].calling.value.request.call, groups[j + 1].outcomes;
            && call in outcomes
            && (outcomes[call].Raised? ==> RankGave(groups, events, j, r, call, Some(outcomes[call].error)))
            && (outcomes[call].Returned? ==> RankGave(groups, events, j, r, call, None))
  {
    var g := groups[j];
    hide Reached, Next, GivesAnswer, AllAgree;
    HealthyAfterCall(g);
    CallCollectsItsOwn(g);
    var messages := g.calling.value.messages;
    assert HasAnswer(messages, r);
    var m :| 0 <= m < |messages| && messages[m].rank == r;
    var a := messages[m];
    assert a in messages && a in AllAnswers(g);
    AnswersAreTheRanks(groups, events, j, a);
  }

  /** A call that is interrupted, or whose ranks disagree, is the last one: a group that is not usable
      starts no call, records no outcome, and never becomes usable again. */
  lemma {:induction false} UnhealthyForGood(groups: seq<Group>, events: seq<Event>, i: nat, j: nat)
    requires IsRun(groups, events) && Reached(groups[0]) && i <= j <= |events| && !groups[i].healthy
    ensures !groups[j].healthy && groups[j].calls == groups[i].calls && groups[j].outcomes == groups[i].outcomes
    ensures j < |events| ==> !events[j].Generates? && !events[j].Resets? && !events[j].Decides?
    decreases j
  {
    hide Reached, GroupOk, ReadOk, Next;
    GroupOkAt(groups, events, j);
    if i < j {
      UnhealthyForGood(groups, events, i, j - 1);
      GroupOkAt(groups, events, j - 1);
      StaysUnhealthy(groups[j - 1], events[j - 1]);
    }
    NoCallUnhealthy(groups[j]);
  }

  lemma GroupOkAt(groups: seq<Group>, events: seq<Event>, i: nat)
    requires IsRun(groups, events) && Reached(groups[0]) && i <= |events|
    ensures GroupOk(groups[i])
  {
    hide Reached, GroupOk, ReadOk, Next, Possible;
    ReachedOk(groups[0]);
    RunKeeps(groups, events, i);
  }

  lemma NoCallUnhealthy(g: Group)
    requires GroupOk(g) && !g.healthy
    ensures g.calling.None?
  {
    hide BlocksOk, HistoryOk;
  }

  lemma StaysUnhealthy(g: Group, e: Event)
    requires GroupOk(g) && !g.healthy && Possible(g, e)
    ensures !Next(g, e).healthy && Next(g, e).calls == g.calls && Next(g, e).outcomes == g.outcomes
  {
    NoCallUnhealthy(g);
    hide GroupOk, Packed, ReadFrom;
  }

  /** A call that runs out of time, or whose rank died, leaves the group unusable. */
  lemma InterruptedIsUnusable(g: Group)
    requires Possible(g, Interrupts)
    ensures !Next(g, Interrupts).healthy && Next(g, Interrupts).calling.None?
  {
  }

  /** A group that is usable and idle can always be called. */
  lemma HealthyCanCall(g: Group, o: Payload, grows: bool)
    requires g.healthy && g.calling.None?
    ensures Possible(g, Generates(o, grows)) && Possible(g, Resets)
    ensures var h := Next(g, Generates(o, grows));
            && h.calls == g.calls + 1 && g.calls in h.inputs && h.inputs[g.calls] == o
            && h.calling.Some? && h.calling.value.messages == [] && h.calling.value.request.Generate?
            && h.calling.value.request.call == g.calls && |h.inboxes| == |g.inboxes|
            && forall r :: 0 <= r < |g.inboxes| ==> h.inboxes[r] == g.inboxes[r] + [h.calling.value.request]
  {
    hide Packed, HeaderOf;
  }

  /** Through blocks used again by every call, what a rank reads in the k-th call is the k-th input; and
      for a call that returns, every rank read it, and what is given back is what rank 0 computed for
      that same input. */
  lemma CallsKeepTheirData(g: Group, k: nat)
    requires Reached(g)
    ensures forall r: nat :: (r, k) in g.seen ==> k in g.inputs && g.seen[(r, k)] == Some(g.inputs[k])
    ensures k in g.outcomes && g.outcomes[k].Returned? && k in g.inputs ==>
              && k in g.results && g.outcomes[k].result == Some(g.results[k])
              && forall r: nat :: r < g.world ==> (r, k) in g.seen
  {
    hide Reached, QueuesOk, BlocksOk, AllAnswers;
    ReachedOk(g);
  }

  // -- a call that returns ---------------------------------------------------------------------------

  lemma OneEvent(g: Group, e: Event)
    requires Reached(g) && Possible(g, e)
    ensures Reached(Next(g, e))
  {
    hide Next, Possible;
    var groups, events, world: nat :|
      world >= 1 && IsRun(groups, events) && groups[0] == Started(world) && groups[|events|] == g;
    var longer, more := groups + [Next(g, e)], events + [e];
    assert IsRun(longer, more) && longer[0] == Started(world) && longer[|more|] == Next(g, e);
  }

  lemma StartReached(world: nat)
    requires world >= 1
    ensures Reached(Started(world))
  {
    hide Next, Possible;
    var groups, events: seq<Event> := [Started(world)], [];
    assert IsRun(groups, events) && groups[0] == Started(world) && groups[|events|] == Started(world);
  }

  /** The whole group is one rank, and its first call is under way: it has read its input. */
  lemma FirstIsRead(o: Payload)
    ensures exists g :: Reached(g) && g.world == 1 && g.healthy && |g.work| == 1 && g.work[0].Working?
                        && g.work[0].request.Generate? && g.work[0].request.call == 0
                        && g.calling == Some(Calling(g.work[0].request, [])) && g.outbox == []
                        && 0 in g.inputs && g.inputs[0] == o && 0 !in g.outcomes
  {
    hide Reached, Packed, HeaderOf, ReadFrom;
    StartReached(1);
    var s := Started(1);
    OneEvent(s, Generates(o, false));
    var a := Next(s, Generates(o, false));
    OneEvent(a, Takes(0));
    var b := Next(a, Takes(0));
    OneEvent(b, Reads(0));
    var c := Next(b, Reads(0));
    assert c.work[0] == Working(a.calling.value.request);
  }

  /** For any input, and any result of rank 0's worker, some run has a call with the one return the other. */
  lemma CallCanReturn(o: Payload, result: Payload)
    ensures exists g :: Reached(g) && g.healthy && 0 in g.inputs && g.inputs[0] == o
                        && 0 in g.outcomes && g.outcomes[0] == Returned(Some(result))
  {
    hide Reached, Packed, Decide, Sorted, GroupOk, ReadOk;
    FirstIsRead(o);
    var g :| Reached(g) && g.world == 1 && g.healthy && |g.work| == 1 && g.work[0].Working?
             && g.work[0].request.Generate? && g.work[0].request.call == 0
             && g.calling == Some(Calling(g.work[0].request, [])) && g.outbox == []
             && 0 in g.inputs && g.inputs[0] == o && 0 !in g.outcomes;
    OneEvent(g, Answers(0, result, false));
    var a := Next(g, Answers(0, result, false));
    OneEvent(a, Collects);
    var b := Next(a, Collects);
    assert b.calling.value.messages == [a.outbox[0]];
    OneEvent(b, Decides);
    HealthyAfterCall(b);
    var c := Next(b, Decides);
    CallsKeepTheirData(c, 0);
  }
}
