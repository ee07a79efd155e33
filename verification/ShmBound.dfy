/** Whether a slot's files fit the volume `shm_slot_bytes` sizes for it: exactly when they do in one
    state, and exactly when they go on doing so. */
module ShmBound {
  import opened Slots
  import opened ShmDirectory

  // -- one state -------------------------------------------------------------------------------------

  predicate AreSizes(input: int, output: int, nonce: int) {
    1 <= input && 1 <= output && 1 <= nonce <= PAGE
  }

  predicate Fits(d: Directory, input: int, output: int, nonce: int) {
    BytesUsed(d, input, output, nonce) <= SlotBytes(input, output)
  }

  ghost predicate FitsAllSizes(d: Directory) {
    forall input, output, nonce :: AreSizes(input, output, nonce) ==> Fits(d, input, output, nonce)
  }

  /** At most one output block, and at most three files in all. */
  predicate Few(d: Directory) {
    |d.outputs| <= 1 && |d.requests| + |d.outputs| + |d.probes| <= 3
  }

  /** The files fit whatever the sizes exactly when there are few of them. */
  lemma FitsByCounts(d: Directory)
    requires DirectoryOk(d)
    ensures |d.requests| <= 2
    ensures FitsAllSizes(d) <==> Few(d)
  {
    RequestsAtMostTwo(d);
    hide DirectoryOk;
    if Few(d) {
      forall input, output, nonce | AreSizes(input, output, nonce) ensures Fits(d, input, output, nonce) {
        FewFit(d, input, output, nonce);
      }
    } else {
      ManyOverfill(d);
    }
  }

  lemma FewFit(d: Directory, input: int, output: int, nonce: int)
    requires |d.requests| <= 2 && Few(d) && AreSizes(input, output, nonce)
    ensures Fits(d, input, output, nonce)
  {
    OnePageAtLeast(nonce, input);
    OnePageAtLeast(nonce, output);
    var i, o, n := WholePages(input), WholePages(output), WholePages(nonce);
    Sums(|d.requests|, |d.outputs|, |d.probes|, i, o, n);
  }

  lemma OnePageAtLeast(nonce: int, size: int)
    requires 1 <= nonce <= PAGE && size >= 1
    ensures 0 < WholePages(nonce) <= WholePages(size)
  {
    WholePagesIsLeast(nonce);
    WholePagesIsLeast(size);
  }

  lemma Sums(r: nat, o: nat, p: nat, input: int, output: int, probe: int)
    requires r <= 2 && o <= 1 && r + o + p <= 3 && 0 < probe <= input && probe <= output
    ensures r * input + o * output + p * probe <= 2 * input + output
  {
    assert p == 0 || p == 1 || p == 2 || p == 3;
  }

  lemma ManyOverfill(d: Directory)
    requires !Few(d)
    ensures !FitsAllSizes(d)
    ensures |d.requests| + |d.outputs| + |d.probes| > 3 ==> BytesUsed(d, PAGE, PAGE, 8) > SlotBytes(PAGE, PAGE)
    ensures |d.outputs| > 1 ==> BytesUsed(d, PAGE, 3 * PAGE, 8) > SlotBytes(PAGE, 3 * PAGE)
  {
    assert WholePages(8) == PAGE && WholePages(PAGE) == PAGE && WholePages(3 * PAGE) == 3 * PAGE;
    assert AreSizes(PAGE, PAGE, 8) && AreSizes(PAGE, 3 * PAGE, 8);
    if |d.outputs| > 1 {
      assert !Fits(d, PAGE, 3 * PAGE, 8);
    } else {
      assert !Fits(d, PAGE, PAGE, 8);
    }
  }

  /** With one output block at most, and a probe only with it, the files fit whatever the sizes, or
      whatever the sizes they do not: exactly a probe beside two request blocks is too much. */
  lemma FitsUnlessProbed(d: Directory, input: int, output: int, nonce: int)
    requires |d.requests| <= 2 && |d.outputs| <= 1 && |d.probes| <= |d.outputs| && AreSizes(input, output, nonce)
    ensures Fits(d, input, output, nonce) <==> !(|d.probes| == 1 && |d.requests| == 2)
  {
    OnePageAtLeast(nonce, input);
    OnePageAtLeast(nonce, output);
    var i, o, n := WholePages(input), WholePages(output), WholePages(nonce);
    if |d.probes| == 1 && |d.requests| == 2 {
      assert BytesUsed(d, input, output, nonce) == 2 * i + o + n;
    } else {
      FewFit(d, input, output, nonce);
    }
  }

  // -- what is left behind ---------------------------------------------------------------------------

  /** The link that took the slot last, unless it was released since. */
  function Holder(moves: seq<Move>): Option<int> {
    if moves == [] then None
    else
      var before := Holder(moves[..|moves| - 1]);
      match moves[|moves| - 1]
      case Claims(k) => Some(k)
      case Releases(k) => if before == Some(k) then None else before
      case _ => before
  }

  /** The links that created their output block after they were released, and were not released since:
      they were closed while they were set up. */
  function Abandoned(moves: seq<Move>): set<int> {
    if moves == [] then {}
    else
      var before := Abandoned(moves[..|moves| - 1]);
      match moves[|moves| - 1]
      case CreatesOutput(k) => if Holder(moves[..|moves| - 1]) == Some(k) then before else before + {k}
      case Releases(k) => before - {k}
      case Fails(k) => before - {k}
      case _ => before
  }

  /** The links that have created their probe and not recorded it. */
  function Unrecorded(moves: seq<Move>): set<int> {
    if moves == [] then {}
    else
      var before := Unrecorded(moves[..|moves| - 1]);
      match moves[|moves| - 1]
      case CreatesProbe(k) => before + {k}
      case Records(k) => before - {k}
      case _ => before
  }

  /** The links that no longer held the slot when they created their probe, or lost it before they
      recorded it: until they drop the probe themselves, it stays. */
  function Orphaned(moves: seq<Move>): set<int> {
    if moves == [] then {}
    else
      var init := moves[..|moves| - 1];
      var before := Orphaned(init);
      match moves[|moves| - 1]
      case CreatesProbe(k) => if Holder(init) == Some(k) then before else before + {k}
      case Claims(_) =>
        if Holder(init).Some? && Holder(init).value in Unrecorded(init) then before + {Holder(init).value} else before
      case Releases(k) =>
        if k in Unrecorded(init) then before + {k} else before - {k}
      case DropsProbe(k) => before - {k}
      case _ => before
  }

  function Unheld(links: set<int>, held: Option<int>): set<int> {
    if held.Some? then links - {held.value} else links
  }

  lemma HistoryStep(d: Directory, m: Move, before: seq<Move>)
    requires DirectoryOk(d) && Possible(d, m)
    requires d.held == Holder(before) && d.unrecorded == Unrecorded(before)
    requires Unheld(d.writers, d.held) == Abandoned(before)
    requires Unheld(d.unrecorded + d.recorded, d.held) == Orphaned(before)
    ensures var e, moves := Next(d, m), before + [m];
            && e.held == Holder(moves) && e.unrecorded == Unrecorded(moves)
            && Unheld(e.writers, e.held) == Abandoned(moves)
            && Unheld(e.unrecorded + e.recorded, e.held) == Orphaned(moves)
  {
    hide SessionOk, Of, Rotate;
    assert (before + [m])[..|before|] == before;
    if m.Cancels? { RotateFiles(d, m.room); }
  }

  lemma RotateFiles(d: Directory, room: bool)
    requires d.session.Open?
    ensures var e := Rotate(d, room); e.(session := d.session, requests := d.requests) == d && e.session.Open?
  {
  }

  /** Over every run: the links that have an output block to release without holding the slot are exactly
      those closed while they were set up; those that have a probe to drop without holding it are
      exactly those released, or replaced, before they recorded it. */
  lemma {:induction false} LeftByHistory(states: seq<Directory>, moves: seq<Move>, i: nat)
    requires IsRun(states, moves) && i <= |moves|
    ensures var d := states[i];
            && d.held == Holder(moves[..i]) && d.unrecorded == Unrecorded(moves[..i])
            && Unheld(d.writers, d.held) == Abandoned(moves[..i])
            && Unheld(d.unrecorded + d.recorded, d.held) == Orphaned(moves[..i])
    decreases i
  {
    if i > 0 {
      LeftByHistory(states, moves, i - 1);
      RunKeeps(states, moves, i - 1);
      hide DirectoryOk, Next, Possible, Unheld, Holder, Unrecorded, Abandoned, Orphaned;
      HistoryStep(states[i - 1], moves[i - 1], moves[..i - 1]);
      assert moves[..i] == moves[..i - 1] + [moves[i - 1]];
    }
  }

  /** The files that a link that holds the slot neither still has to release, nor to drop: left behind by
      a link that lost it, or taken by a release that has not unlinked them. */
  function LeftOutputs(d: Directory): set<int> {
    set k | k in d.outputs && !(d.held == Some(k) && k in d.writers)
  }

  function LeftProbes(d: Directory): set<int> {
    set k | k in d.probes && !(d.held == Some(k) && (k in d.unrecorded || k in d.recorded))
  }

  /** Over every run there are never more than two request blocks, and a file left behind is the output
      block of a link closed while it was set up, the probe of one that lost the slot before it recorded
      it, or one that a release took and has not unlinked. The files fit, whatever the sizes, exactly
      when no output block left behind is beside another and there are three files at most; with nothing
      left behind, exactly unless the holder's probe and output block are beside two request blocks. */
  lemma FitsExactlyWhen(states: seq<Directory>, moves: seq<Move>, i: nat)
    requires IsRun(states, moves) && i <= |moves|
    ensures var d, before := states[i], moves[..i];
            && |d.requests| <= 2
            && LeftOutputs(d) == d.outputs * Abandoned(before) + (d.outputs - d.writers)
            && LeftProbes(d) == d.probes * Orphaned(before) + (d.probes - d.unrecorded - d.recorded)
            && (FitsAllSizes(d) <==>
                  && (forall j, k :: j in LeftOutputs(d) && k in d.outputs ==> j == k)
                  && |d.requests| + |d.outputs| + |d.probes| <= 3)
            && (LeftOutputs(d) == LeftProbes(d) == {} ==>
                  (FitsAllSizes(d) <==> !(d.outputs != {} && d.probes != {} && |d.requests| == 2)))
  {
    var d := states[i];
    RunKeeps(states, moves, i);
    LeftByHistory(states, moves, i);
    hide IsRun, SessionOk, Abandoned, Orphaned, Holder, Unrecorded;
    FitsByCounts(d);
    LeftMeans(d, Abandoned(moves[..i]), Orphaned(moves[..i]));
    BesideAnother(d);
    hide DirectoryOk, FitsAllSizes;
    if LeftOutputs(d) == LeftProbes(d) == {} {
      NothingLeft(d);
    }
  }

  lemma LeftMeans(d: Directory, abandoned: set<int>, orphaned: set<int>)
    requires FilesOk(d) && Unheld(d.writers, d.held) == abandoned
    requires Unheld(d.unrecorded + d.recorded, d.held) == orphaned
    ensures LeftOutputs(d) == d.outputs * abandoned + (d.outputs - d.writers)
    ensures LeftProbes(d) == d.probes * orphaned + (d.probes - d.unrecorded - d.recorded)
  {
  }

  lemma NothingLeft(d: Directory)
    requires LeftOutputs(d) == {} && LeftProbes(d) == {}
    ensures |d.outputs| <= 1 && |d.probes| <= 1
    ensures (d.outputs != {} <==> |d.outputs| == 1) && (d.probes != {} <==> |d.probes| == 1)
  {
    assert d.outputs == {} || d.outputs == if d.held.Some? then {d.held.value} else {} by {
      forall k | k in d.outputs ensures d.held == Some(k) {
        assert k !in LeftOutputs(d);
      }
    }
    assert d.probes == {} || d.probes == if d.held.Some? then {d.held.value} else {} by {
      forall k | k in d.probes ensures d.held == Some(k) {
        assert k !in LeftProbes(d);
      }
    }
  }

  lemma SomeMember(s: set<int>)
    ensures s == {} || exists k :: k in s
  {
    if forall k :: k !in s {
      assert s == {};
    }
  }

  lemma OneMember(s: set<int>)
    ensures (forall j, k :: j in s && k in s ==> j == k) <==> |s| <= 1
  {
    SomeMember(s);
    if k :| k in s {
      assert s == (s - {k}) + {k};
      SomeMember(s - {k});
      if j :| j in s - {k} {
        AtMost({j, k}, s);
      }
    }
  }

  lemma BesideAnother(d: Directory)
    ensures |d.outputs| <= 1 <==> forall j, k :: j in LeftOutputs(d) && k in d.outputs ==> j == k
  {
    OneMember(d.outputs);
    forall j, k | j in d.outputs && k in d.outputs && j != k ensures j in LeftOutputs(d) || k in LeftOutputs(d) {
    }
  }

  // -- from here on ----------------------------------------------------------------------------------

  /** Set-ups in order, one after another, none disturbed: a link takes the slot after every older one,
      once the probe of the last one is recorded and every release under way has unlinked what it took;
      and no link is released while it is set up. */
  predicate InOrder(d: Directory, m: Move) {
    match m
    case Claims(k) =>
      (forall j :: j in d.claimed ==> j < k) && d.unrecorded == {} && d.outputs <= d.writers && d.probes <= d.recorded
    case Releases(k) => k !in d.unrecorded && k !in Pending(d)
    case _ => true
  }

  ghost predicate IsOrderly(states: seq<Directory>, moves: seq<Move>) {
    && |states| == |moves| + 1
    && forall i :: 0 <= i < |moves| ==>
         Possible(states[i], moves[i]) && InOrder(states[i], moves[i]) && states[i + 1] == Next(states[i], moves[i])
  }

  /** Whether the files fit, whatever the sizes, in every state that orderly set-ups from this one on
      lead to. */
  ghost predicate FitsFromHereOn(d: Directory) {
    forall states, moves :: IsOrderly(states, moves) && states[0] == d ==> FitsAllSizes(states[|moves|])
  }

  /** No link but the holder has an output block to release or a probe to drop, or will. */
  predicate NoneLeft(d: Directory) {
    && (forall k :: k in d.writers ==> d.held == Some(k))
    && (forall k :: k in d.probes && (k in d.unrecorded || k in d.recorded) ==> d.held == Some(k))
    && (d.claiming != NoClaim ==> d.held == Some(d.claiming.link))
  }

  /** The output blocks there are once the set-up under way is done. */
  function OutputsDue(d: Directory): set<int> {
    if d.claiming.Creating? then d.outputs + {d.claiming.link} else d.outputs
  }

  function ProbesDue(d: Directory): set<int> {
    d.probes + Pending(d)
  }

  /** Whether the session writes, or can without another set-up. */
  predicate MayWrite(d: Directory) {
    d.session.Ready? || d.session.Open? || (d.session.Connecting? && d.session.link in ProbesDue(d))
  }

  function RequestsDue(d: Directory): nat {
    if MayWrite(d) then 2 else |d.requests|
  }

  /** The probes that stay once the session removed its own. */
  function OtherProbes(d: Directory): set<int> {
    if d.session.Connecting? then ProbesDue(d) - {d.session.link} else ProbesDue(d)
  }

  predicate HasRoom(d: Directory) {
    |OutputsDue(d)| <= 1 && RequestsDue(d) + |OutputsDue(d)| + |OtherProbes(d)| <= 3
  }

  /** Nothing is left behind for good, and what the set-up under way and the session still create fits
      beside what is there. */
  predicate Safe(d: Directory) {
    NoneLeft(d) && HasRoom(d)
  }

  lemma RoomStays(d: Directory, e: Directory)
    requires HasRoom(d) && OutputsDue(e) <= OutputsDue(d) && OtherProbes(e) <= OtherProbes(d)
    requires RequestsDue(e) <= RequestsDue(d)
    ensures HasRoom(e)
  {
    AtMost(OutputsDue(e), OutputsDue(d));
    AtMost(OtherProbes(e), OtherProbes(d));
  }

  lemma RequestsLeft(d: Directory)
    requires DirectoryOk(d)
    ensures |d.requests| <= 2 && (d.session.Connecting? || d.session.Ready? ==> d.requests == {})
  {
    RequestsAtMostTwo(d);
  }

  lemma ServerRoom(d: Directory, m: Move)
    requires DirectoryOk(d) && HasRoom(d) && Possible(d, m) && !OfSession(m) && !m.Claims?
    ensures HasRoom(Next(d, m))
  {
    var e := Next(d, m);
    RequestsLeft(d);
    AtMost(e.requests, d.requests);
    hide SessionOk, HasRoom, Of;
    FewerDue(d, m);
    RoomStays(d, e);
  }

  lemma FewerDue(d: Directory, m: Move)
    requires FilesOk(d) && Possible(d, m) && !OfSession(m) && !m.Claims?
    ensures var e := Next(d, m);
            && OutputsDue(e) <= OutputsDue(d) && ProbesDue(e) <= ProbesDue(d) && OtherProbes(e) <= OtherProbes(d)
            && e.session == d.session && e.requests <= d.requests
  {
    hide Of;
  }

  lemma SessionRoom(d: Directory, m: Move)
    requires DirectoryOk(d) && HasRoom(d) && Possible(d, m) && OfSession(m)
    ensures HasRoom(Next(d, m))
  {
    var e := Next(d, m);
    RequestsLeft(d);
    if m.Quits? || m.Dies? {
      EndRoom(d, e);
    } else {
      GoOnRoom(d, m);
    }
  }

  lemma GoOnRoom(d: Directory, m: Move)
    requires DirectoryOk(d) && HasRoom(d) && Possible(d, m) && OfSession(m) && !m.Quits? && !m.Dies?
    ensures HasRoom(Next(d, m))
  {
    hide SessionOk, HasRoom, Rotate;
    var e := Next(d, m);
    if m.Cancels? { RotateFiles(d, m.room); }
    assert OutputsDue(e) == OutputsDue(d) && OtherProbes(e) <= OtherProbes(d);
    RoomStays(d, e);
  }

  lemma EndRoom(d: Directory, e: Directory)
    requires DirectoryOk(d) && HasRoom(d) && d.session != NoSession
    requires e.requests <= d.requests && e == d.(session := NoSession, requests := e.requests)
    ensures HasRoom(e)
  {
    hide DirectoryOk, HasRoom;
    RequestsLeft(d);
    AtMost(e.requests, d.requests);
    assert OutputsDue(e) == OutputsDue(d) && ProbesDue(e) == ProbesDue(d) == OtherProbes(e);
    if d.session.Connecting? && MayWrite(d) {
      OneMoreProbe(d, e);
    } else {
      assert OtherProbes(e) == OtherProbes(d);
      RoomStays(d, e);
    }
  }

  /** A session that ends before it read its probe leaves it, and writes nothing. */
  lemma OneMoreProbe(d: Directory, e: Directory)
    requires HasRoom(d) && d.session.Connecting? && MayWrite(d) && e.session == NoSession && e.requests == {}
    requires OutputsDue(e) == OutputsDue(d) && OtherProbes(e) == ProbesDue(d)
    ensures HasRoom(e)
  {
    assert ProbesDue(d) == OtherProbes(d) + {d.session.link};
  }

  lemma ClaimRoom(d: Directory, k: int)
    requires DirectoryOk(d) && NoneLeft(d) && Possible(d, Claims(k)) && InOrder(d, Claims(k))
    ensures HasRoom(Claim(d, k))
  {
    hide SessionOk, Of;
    var e := Claim(d, k);
    ClaimFrees(d, k);
    assert OutputsDue(e) == {k} && ProbesDue(e) == {k};
    NoRequests(d, k);
    assert e.requests == {};
    assert OtherProbes(e) == if d.session.Connecting? && d.session.link == k then {} else {k};
  }

  lemma ClaimFrees(d: Directory, k: int)
    requires NoneLeft(d) && d.outputs <= d.writers && d.probes <= d.recorded
    ensures Claim(d, k).outputs == {} && Claim(d, k).probes == {}
  {
    hide Of;
    var e := Claim(d, k);
    forall j ensures j !in e.outputs {
      assert j in d.outputs ==> d.held == Some(j);
    }
    forall j ensures j !in e.probes {
      assert j in d.probes ==> d.held == Some(j);
    }
  }

  lemma NoRequests(d: Directory, k: int)
    requires DirectoryOk(d) && 1 <= k <= d.links && forall j :: j in d.claimed ==> j < k
    ensures d.requests == {} && !d.session.Open? && !d.session.Ready?
  {
    assert d.links !in d.claimed;
  }

  lemma OrderlyLeavesNone(d: Directory, m: Move)
    requires DirectoryOk(d) && NoneLeft(d) && Possible(d, m) && InOrder(d, m)
    ensures NoneLeft(Next(d, m))
  {
    hide SessionOk, Of, Rotate;
    if m.Cancels? { RotateFiles(d, m.room); }
  }

  lemma OrderlyKeeps(d: Directory, m: Move)
    requires DirectoryOk(d) && Safe(d) && Possible(d, m) && InOrder(d, m)
    ensures Safe(Next(d, m))
  {
    hide DirectoryOk, HasRoom, NoneLeft, InOrder;
    OrderlyLeavesNone(d, m);
    if m.Claims? {
      ClaimRoom(d, m.link);
    } else if OfSession(m) {
      SessionRoom(d, m);
    } else {
      ServerRoom(d, m);
    }
  }

  lemma {:induction false} OrderlyRunKeeps(states: seq<Directory>, moves: seq<Move>, i: nat)
    requires IsOrderly(states, moves) && DirectoryOk(states[0]) && Safe(states[0]) && i <= |moves|
    ensures DirectoryOk(states[i]) && Safe(states[i])
    decreases i
  {
    if i > 0 {
      OrderlyRunKeeps(states, moves, i - 1);
      hide DirectoryOk, Safe, Next, Possible, InOrder;
      NextKeeps(states[i - 1], moves[i - 1]);
      OrderlyKeeps(states[i - 1], moves[i - 1]);
    }
  }

  lemma SafeFits(d: Directory)
    requires DirectoryOk(d) && Safe(d)
    ensures FitsAllSizes(d)
  {
    FitsByCounts(d);
    RequestsLeft(d);
    hide DirectoryOk, FitsAllSizes;
    AtMost(d.outputs, OutputsDue(d));
    AtMost(d.probes, if MayWrite(d) && d.session.Connecting? then OtherProbes(d) + {d.session.link}
      else OtherProbes(d));
  }

  // -- what is not safe overfills --------------------------------------------------------------------

  lemma FitsNow(d: Directory)
    requires FitsFromHereOn(d)
    ensures FitsAllSizes(d)
  {
    hide FitsAllSizes, Next, Possible, InOrder;
    var states, moves: seq<Move> := [d], [];
    assert IsOrderly(states, moves);
    assert FitsAllSizes(states[|moves|]);
  }

  lemma FitsNext(d: Directory, m: Move)
    requires FitsFromHereOn(d) && Possible(d, m) && InOrder(d, m)
    ensures FitsFromHereOn(Next(d, m))
  {
    hide FitsAllSizes, Next, Possible, InOrder;
    forall states, moves | IsOrderly(states, moves) && states[0] == Next(d, m) ensures FitsAllSizes(states[|moves|]) {
      var longer, more := [d] + states, [m] + moves;
      assert IsOrderly(longer, more);
      assert longer[0] == d && longer[|more|] == states[|moves|];
      assert FitsAllSizes(longer[|more|]);
    }
  }

  lemma TwoWritten(d: Directory)
    requires DirectoryOk(d) && d.session.Open?
    ensures |Rotate(Rotate(d, true), true).requests| == 2
  {
    var f := Rotate(Rotate(d, true), true);
    var k, r := d.session.link, d.session.rotations;
    assert f.requests >= {(k, r + 1), (k, r + 2)};
    AtMost({(k, r + 1), (k, r + 2)}, f.requests);
    RotateKeeps(d, true);
    RotateKeeps(Rotate(d, true), true);
    RequestsAtMostTwo(f);
  }

  /** An open session cancels twice: two request blocks. */
  lemma CancelsTwice(d: Directory)
    requires DirectoryOk(d) && d.session.Open? && FitsFromHereOn(d)
    ensures |d.outputs| <= 1 && 2 + |d.outputs| + |d.probes| <= 3
  {
    hide FitsFromHereOn, FitsAllSizes;
    FitsNext(d, Cancels(true));
    NextKeeps(d, Cancels(true));
    var e := Next(d, Cancels(true));
    FitsNext(e, Cancels(true));
    NextKeeps(e, Cancels(true));
    FitsNow(Next(e, Cancels(true)));
    TwoWritten(d);
    RotateFiles(d, true);
    RotateFiles(e, true);
    FitsByCounts(Next(e, Cancels(true)));
  }

  /** With no set-up under way, what the session can write is written. */
  lemma WritesAll(d: Directory)
    requires DirectoryOk(d) && d.claiming == NoClaim && FitsFromHereOn(d)
    ensures HasRoom(d)
  {
    hide FitsFromHereOn, FitsAllSizes, FilesOk;
    RequestsLeft(d);
    FitsNow(d);
    FitsByCounts(d);
    if d.session.Open? {
      CancelsTwice(d);
    } else if d.session.Ready? {
      AllocatesAll(d);
    } else if MayWrite(d) {
      ReadsProbe(d);
    } else if d.session.Connecting? {
      assert OtherProbes(d) == d.probes;
    }
  }

  lemma AllocatesAll(d: Directory)
    requires DirectoryOk(d) && d.session.Ready? && FitsFromHereOn(d)
    ensures |d.outputs| <= 1 && 2 + |d.outputs| + |d.probes| <= 3
  {
    hide FitsFromHereOn, FitsAllSizes;
    FitsNext(d, Allocates);
    NextKeeps(d, Allocates);
    CancelsTwice(Next(d, Allocates));
  }

  lemma ReadsProbe(d: Directory)
    requires DirectoryOk(d) && d.claiming == NoClaim && FitsFromHereOn(d)
    requires d.session.Connecting? && d.session.link in d.probes
    ensures |d.outputs| <= 1 && 2 + |d.outputs| + |d.probes - {d.session.link}| <= 3
  {
    hide FitsFromHereOn, FitsAllSizes, SessionOk;
    var k := d.session.link;
    if k in d.unrecorded { FitsNext(d, Records(k)); NextKeeps(d, Records(k)); }
    var e := if k in d.unrecorded then Next(d, Records(k)) else d;
    FitsNext(e, Probes);
    NextKeeps(e, Probes);
    AllocatesAll(Next(e, Probes));
  }

  /** The set-up under way is finished, and then the session writes. */
  lemma RoomOverfills(d: Directory)
    requires DirectoryOk(d) && FitsFromHereOn(d)
    ensures HasRoom(d)
    decreases if d.claiming.Creating? then 2 else if d.claiming.Probing? then 1 else 0
  {
    hide FitsFromHereOn, FitsAllSizes, SessionOk, HasRoom;
    if d.claiming.Creating? {
      var k := d.claiming.link;
      FitsNext(d, CreatesOutput(k));
      NextKeeps(d, CreatesOutput(k));
      RoomOverfills(Next(d, CreatesOutput(k)));
      SameRoom(d, Next(d, CreatesOutput(k)));
    } else if d.claiming.Probing? {
      var k := d.claiming.link;
      FitsNext(d, CreatesProbe(k));
      NextKeeps(d, CreatesProbe(k));
      RoomOverfills(Next(d, CreatesProbe(k)));
      SameRoom(d, Next(d, CreatesProbe(k)));
    } else {
      WritesAll(d);
    }
  }

  lemma SameRoom(d: Directory, e: Directory)
    requires OutputsDue(e) == OutputsDue(d) && ProbesDue(e) == ProbesDue(d)
    requires e.session == d.session && e.requests == d.requests && HasRoom(e)
    ensures HasRoom(d)
  {
  }

  predicate IsLeft(d: Directory, k: int) {
    && d.held != Some(k)
    && (k in d.writers || (k in d.probes && (k in d.unrecorded || k in d.recorded)))
  }

  /** What is still to be recorded, or unlinked, before the next link can take the slot in order. */
  function Unsettled(d: Directory): set<int> {
    d.unrecorded + (d.outputs - d.writers) + (d.probes - d.unrecorded - d.recorded)
  }

  function Loose(d: Directory): nat {
    |d.unrecorded| + |d.outputs - d.writers| + |d.probes - d.unrecorded - d.recorded|
  }

  /** The next link takes the slot in order, and what is left behind stays beside its blocks. */
  lemma LeftOverfills(d: Directory, k: int)
    requires DirectoryOk(d) && d.claiming == NoClaim && IsLeft(d, k)
    ensures !FitsFromHereOn(d)
    decreases Loose(d)
  {
    hide FitsFromHereOn, FitsAllSizes, SessionOk, Of, HasRoom;
    if FitsFromHereOn(d) {
      if Unsettled(d) == {} {
        NextTakesSlot(d, k);
      } else {
        SomeMember(Unsettled(d));
        var j :| j in Unsettled(d);
        var m := if j in d.unrecorded then Records(j) else if j in d.outputs && j !in d.writers then UnlinksOutput(j)
                 else UnlinksProbe(j);
        FitsNext(d, m);
        NextKeeps(d, m);
        SettlesOne(d, m, j);
        LeftOverfills(Next(d, m), k);
      }
    }
  }

  lemma SettlesOne(d: Directory, m: Move, j: int)
    requires FilesOk(d) && Possible(d, m)
    requires m == Records(j) || m == UnlinksOutput(j) || m == UnlinksProbe(j)
    ensures Loose(Next(d, m)) < Loose(d)
  {
    hide FilesOk;
    var e := Next(d, m);
    if m.Records? {
      OneLess(d.unrecorded, j);
      RecordsOne(d, j);
    } else if m.UnlinksOutput? {
      OneLess(d.outputs - d.writers, j);
      assert e.outputs - e.writers == d.outputs - d.writers - {j};
    } else {
      OneLess(d.probes - d.unrecorded - d.recorded, j);
      assert e.probes - e.unrecorded - e.recorded == d.probes - d.unrecorded - d.recorded - {j};
    }
  }

  lemma OneLess(s: set<int>, j: int)
    requires j in s
    ensures |s - {j}| == |s| - 1
  {
  }

  lemma RecordsOne(d: Directory, j: int)
    requires j in d.unrecorded
    ensures var e := Next(d, Records(j));
            e.probes - e.unrecorded - e.recorded == d.probes - d.unrecorded - d.recorded
  {
  }

  lemma NextTakesSlot(d: Directory, k: int)
    requires DirectoryOk(d) && d.claiming == NoClaim && IsLeft(d, k) && Unsettled(d) == {}
    ensures !FitsFromHereOn(d)
  {
    hide FitsFromHereOn, FitsAllSizes, SessionOk, Of, HasRoom;
    if FitsFromHereOn(d) {
      if d.session != NoSession { FitsNext(d, Dies); NextKeeps(d, Dies); }
      var e := if d.session != NoSession then Next(d, Dies) else d;
      FitsNext(e, Connects);
      NextKeeps(e, Connects);
      var f := Next(e, Connects);
      SettledMeans(d);
      FitsNext(f, Claims(f.links));
      NextKeeps(f, Claims(f.links));
      var g := Next(f, Claims(f.links));
      RoomOverfills(g);
      NoRoomBeside(g, k);
    }
  }

  lemma SettledMeans(d: Directory)
    requires Unsettled(d) == {}
    ensures d.unrecorded == {} && d.outputs <= d.writers && d.probes <= d.recorded
  {
    forall k | k in d.outputs ensures k in d.writers {
      assert k !in Unsettled(d);
    }
    forall k | k in d.probes ensures k in d.recorded {
      assert k !in Unsettled(d);
    }
    forall k ensures k !in d.unrecorded {
      assert k !in Unsettled(d);
    }
  }

  lemma NoRoomBeside(g: Directory, k: int)
    requires g.claiming == Creating(g.links) && g.session == Connecting(g.links) && k != g.links
    requires k in g.outputs || k in g.probes
    ensures !HasRoom(g)
  {
    assert g.links in OutputsDue(g) && g.links in ProbesDue(g);
    if k in g.outputs {
      AtMost({k, g.links}, OutputsDue(g));
    } else {
      AtMost({k}, OtherProbes(g));
      AtMost({g.links}, OutputsDue(g));
    }
  }

  /** A set-up under way whose link lost the slot leaves what it creates behind. */
  lemma LostOverfills(d: Directory)
    requires DirectoryOk(d) && d.claiming != NoClaim && d.held != Some(d.claiming.link)
    ensures !FitsFromHereOn(d)
    decreases if d.claiming.Creating? then 1 else 0
  {
    hide FitsFromHereOn, FitsAllSizes, SessionOk;
    if FitsFromHereOn(d) {
      var k := d.claiming.link;
      var m := if d.claiming.Creating? then CreatesOutput(k) else CreatesProbe(k);
      FitsNext(d, m);
      NextKeeps(d, m);
      if d.claiming.Creating? {
        LostOverfills(Next(d, m));
      } else {
        LeftOverfills(Next(d, m), k);
      }
    }
  }

  /** What is left behind stays while the set-up under way is finished. */
  lemma LeftThenOverfills(d: Directory, k: int)
    requires DirectoryOk(d) && IsLeft(d, k)
    ensures !FitsFromHereOn(d)
    decreases if d.claiming.Creating? then 2 else if d.claiming.Probing? then 1 else 0
  {
    hide FitsFromHereOn, FitsAllSizes, SessionOk;
    if FitsFromHereOn(d) {
      if d.claiming == NoClaim {
        LeftOverfills(d, k);
      } else {
        var m := if d.claiming.Creating? then CreatesOutput(d.claiming.link) else CreatesProbe(d.claiming.link);
        FitsNext(d, m);
        NextKeeps(d, m);
        LeftThenOverfills(Next(d, m), k);
      }
    }
  }

  lemma UnsafeOverfills(d: Directory)
    requires DirectoryOk(d) && !Safe(d)
    ensures !FitsFromHereOn(d)
  {
    hide FitsFromHereOn, HasRoom, DirectoryOk;
    if FitsFromHereOn(d) {
      RoomOverfills(d);
      if k :| IsLeft(d, k) {
        LeftThenOverfills(d, k);
      }
      assert forall k :: k in d.writers && !IsLeft(d, k) ==> d.held == Some(k);
      LostOverfills(d);
    }
  }

  /** From any reachable state, whatever came before, the files fit for good as long as set-ups are
      orderly exactly when the state is safe. */
  lemma FitsForGoodExactlyWhen(d: Directory)
    requires Reached(d)
    ensures FitsFromHereOn(d) <==> Safe(d)
  {
    ReachedOk(d);
    hide Reached, DirectoryOk, Safe, FitsAllSizes;
    if Safe(d) {
      forall states, moves | IsOrderly(states, moves) && states[0] == d ensures FitsAllSizes(states[|moves|]) {
        OrderlyRunKeeps(states, moves, |moves|);
        SafeFits(states[|moves|]);
      }
    } else {
      UnsafeOverfills(d);
    }
  }

  // -- whole runs ------------------------------------------------------------------------------------

  /** One probe at most, and none once a request block is there or can be written. */
  ghost predicate ProbeFirst(d: Directory) {
    && (forall j, k :: j in ProbesDue(d) && k in ProbesDue(d) ==> j == k)
    && (d.requests != {} || d.session.Ready? || d.session.Open? ==> ProbesDue(d) == {})
  }

  lemma ProbeStaysFirst(d: Directory, m: Move)
    requires DirectoryOk(d) && NoneLeft(d) && ProbeFirst(d) && Possible(d, m) && InOrder(d, m)
    ensures ProbeFirst(Next(d, m))
  {
    hide ProbeFirst;
    if m.Claims? {
      ClaimFrees(d, m.link);
      NoRequests(d, m.link);
      OnlyProbe(Claim(d, m.link), m.link);
    } else if OfSession(m) {
      SessionProbes(d, m);
    } else {
      FewerDue(d, m);
      FewerProbes(d, Next(d, m));
    }
  }

  lemma OnlyProbe(e: Directory, k: int)
    requires e.probes == {} && e.claiming == Creating(k) && e.requests == {} && !e.session.Ready? && !e.session.Open?
    ensures ProbeFirst(e)
  {
    assert ProbesDue(e) == {k};
  }

  lemma FewerProbes(d: Directory, e: Directory)
    requires ProbeFirst(d) && ProbesDue(e) <= ProbesDue(d) && e.requests <= d.requests && e.session == d.session
    ensures ProbeFirst(e)
  {
  }

  lemma SessionProbes(d: Directory, m: Move)
    requires DirectoryOk(d) && ProbeFirst(d) && Possible(d, m) && OfSession(m)
    ensures ProbeFirst(Next(d, m))
  {
    hide FilesOk, Rotate;
    var e := Next(d, m);
    RequestsLeft(d);
    if m.Cancels? { RotateFiles(d, m.room); }
    if m.Probes? {
      assert d.session.link in ProbesDue(d);
      RemovedOwn(d, e);
    } else {
      assert ProbesDue(e) == ProbesDue(d);
    }
  }

  lemma RemovedOwn(d: Directory, e: Directory)
    requires ProbeFirst(d) && DirectoryOk(d) && Possible(d, Probes) && e == Next(d, Probes)
    ensures ProbesDue(e) == {}
  {
    var k := d.session.link;
    assert k in ProbesDue(d);
    forall j ensures j !in ProbesDue(e) {
      assert j in ProbesDue(e) ==> j in ProbesDue(d);
    }
  }

  lemma {:induction false} ProbeRunFirst(states: seq<Directory>, moves: seq<Move>, i: nat)
    requires IsOrderly(states, moves) && DirectoryOk(states[0]) && Safe(states[0]) && ProbeFirst(states[0])
             && i <= |moves|
    ensures ProbeFirst(states[i])
    decreases i
  {
    if i > 0 {
      ProbeRunFirst(states, moves, i - 1);
      OrderlyRunKeeps(states, moves, i - 1);
      hide DirectoryOk, Next, Possible, InOrder, ProbeFirst, HasRoom, NoneLeft;
      ProbeStaysFirst(states[i - 1], moves[i - 1]);
    }
  }

  /** When the set-ups of a slot are orderly from the start, its files always fit: two request blocks and
      one output block, or the probe beside the output block. */
  lemma FitsInOrder(states: seq<Directory>, moves: seq<Move>, i: nat)
    requires IsOrderly(states, moves) && states[0] == EMPTY && i <= |moves|
    ensures FitsAllSizes(states[i])
    ensures states[i].probes != {} ==> states[i].requests == {} && |states[i].probes| == 1
  {
    hide FitsAllSizes, Next, Possible, InOrder;
    assert Safe(EMPTY) && DirectoryOk(EMPTY) && ProbeFirst(EMPTY);
    OrderlyRunKeeps(states, moves, i);
    SafeFits(states[i]);
    ProbeRunFirst(states, moves, i);
    OneMember(states[i].probes);
    assert states[i].probes <= ProbesDue(states[i]);
  }

  /** The ways out of order: a link is set up while a newer one is open, or about to be; or while another
      link's probe is not recorded yet; or before what a release took is unlinked; or a link is released
      while it is set up. */
  predicate Races(d: Directory, m: Move) {
    match m
    case Claims(k) =>
      || d.session.Open? || d.session.Ready? || d.unrecorded != {} || !(d.outputs <= d.writers)
      || (d.session == Connecting(k) && !(d.probes <= d.recorded))
    case Releases(k) => k in Pending(d) || k in d.unrecorded
    case _ => false
  }

  /** Each of them, from any reachable state, leaves one from which the bound is passed, though every
      later set-up is orderly. */
  lemma RacesOverfill(d: Directory, m: Move)
    requires Reached(d) && Possible(d, m) && Races(d, m)
    ensures !FitsFromHereOn(Next(d, m))
  {
    ReachedOk(d);
    NextKeeps(d, m);
    hide Reached, FitsFromHereOn, HasRoom, NoneLeft;
    var e := Next(d, m);
    if m.Releases? {
      if m.link in d.unrecorded {
        LeftThenOverfills(e, m.link);
      } else {
        LostOverfills(e);
      }
    } else {
      ClaimRaces(d, m.link);
    }
  }

  lemma ClaimRaces(d: Directory, k: int)
    requires DirectoryOk(d) && Possible(d, Claims(k)) && Races(d, Claims(k)) && DirectoryOk(Claim(d, k))
    ensures !FitsFromHereOn(Claim(d, k))
  {
    hide FitsFromHereOn, SessionOk, Of;
    var e := Claim(d, k);
    SomeMember(d.unrecorded);
    if j :| j in d.unrecorded {
      LeftThenOverfills(e, j);
    } else {
      NoRoomAfter(d, k);
      UnsafeOverfills(e);
    }
  }

  lemma NoRoomAfter(d: Directory, k: int)
    requires DirectoryOk(d) && Possible(d, Claims(k)) && Races(d, Claims(k)) && d.unrecorded == {}
    ensures !HasRoom(Claim(d, k))
  {
    hide Of;
    var e := Claim(d, k);
    assert k in OutputsDue(e) && k in ProbesDue(e) && k !in d.outputs && k !in d.probes;
    AtMost({k}, OutputsDue(e));
    SomeMember(d.outputs - d.writers);
    SomeMember(d.probes - d.recorded);
    if d.session.Open? || d.session.Ready? {
      AtMost({k}, OtherProbes(e));
    } else if j :| j in d.outputs - d.writers {
      AtMost({j, k}, OutputsDue(e));
    } else {
      var j :| j in d.probes - d.recorded;
      AtMost({j}, OtherProbes(e));
    }
  }

  /** A session whose link has yet to be set up gets to write two request blocks. */
  lemma OpensNext(d: Directory)
    requires Reached(d) && d.session == Connecting(d.links) && d.links !in d.claimed && d.claiming == NoClaim
    ensures exists e ::
              && Reached(e) && e.session.Open? && |e.requests| == 2 && e.claiming == NoClaim && e.links == d.links
              && e.outputs == Claim(d, d.links).outputs + {d.links} && e.probes == Claim(d, d.links).probes
              && e.claimed == d.claimed + {d.links}
  {
    ReachedOk(d);
    hide Reached, SessionOk, Of, Rotate;
    var k := d.links;
    assert k >= 1;
    OneMove(d, Claims(k));
    var a := Claim(d, k);
    OneMove(a, CreatesOutput(k));
    var b := Next(a, CreatesOutput(k));
    OneMove(b, CreatesProbe(k));
    var c := Next(b, CreatesProbe(k));
    OneMove(c, Records(k));
    var f := Next(c, Records(k));
    OneMove(f, Probes);
    var g := Next(f, Probes);
    assert g.probes == a.probes;
    WritesTwo(g);
  }

  lemma WritesTwo(g: Directory)
    requires Reached(g) && g.session.Ready?
    ensures exists e ::
              && Reached(e) && e.session.Open? && |e.requests| == 2
              && e.(session := g.session, requests := g.requests) == g
  {
    hide Reached, DirectoryOk;
    OneMove(g, Allocates);
    var h := Next(g, Allocates);
    CancelsBoth(h);
  }

  lemma CancelsBoth(h: Directory)
    requires Reached(h) && h.session.Open?
    ensures exists e ::
              && Reached(e) && e.session.Open? && |e.requests| == 2
              && e.(session := h.session, requests := h.requests) == h
  {
    hide Reached, DirectoryOk;
    ReachedOk(h);
    OneMove(h, Cancels(true));
    var i := Next(h, Cancels(true));
    OneMove(i, Cancels(true));
    TwoWritten(h);
    RotateFiles(h, true);
    RotateFiles(i, true);
  }

  /** A link set up late, after the link that replaced it: its probe joins two request blocks of the
      newer link's session. */
  lemma LateSetUpOverfills()
    ensures exists d, k ::
              && Reached(d) && d.session.Open? && k in d.probes && k < d.session.link && |d.requests| == 2
              && BytesUsed(d, PAGE, PAGE, 8) > SlotBytes(PAGE, PAGE)
  {
    hide Reached;
    EmptyReached();
    OneMove(EMPTY, Connects);
    var a := Next(EMPTY, Connects);
    OneMove(a, Quits);
    OneMove(Next(a, Quits), Connects);
    var b := Next(Next(a, Quits), Connects);
    OpensNext(b);
    var d :| && Reached(d) && d.session.Open? && |d.requests| == 2 && d.claiming == NoClaim && d.links == b.links
             && d.outputs == Claim(b, b.links).outputs + {b.links} && d.probes == Claim(b, b.links).probes
             && d.claimed == b.claimed + {b.links};
    LateJoins(d, 1);
  }

  /** From any reachable state: an older link set up beside an open session. */
  lemma LateJoins(d: Directory, k: int)
    requires Reached(d) && d.session.Open? && Possible(d, Claims(k))
    ensures exists e ::
              && Reached(e) && e.session.Open? && k in e.probes && k < e.session.link && |e.requests| == 2
              && BytesUsed(e, PAGE, PAGE, 8) > SlotBytes(PAGE, PAGE)
  {
    ReachedOk(d);
    assert k < d.session.link;
    hide Reached, SessionOk, Of, Rotate, BytesUsed;
    OneMove(d, Claims(k));
    var a := Next(d, Claims(k));
    OneMove(a, CreatesOutput(k));
    var b := Next(a, CreatesOutput(k));
    OneMove(b, CreatesProbe(k));
    var c := Next(b, CreatesProbe(k));
    CancelsBoth(c);
    var e :| && Reached(e) && e.session.Open? && |e.requests| == 2
             && e.(session := c.session, requests := c.requests) == c;
    ReachedOk(e);
    assert k in e.outputs && k in e.probes;
    AtMost({k}, e.outputs);
    AtMost({k}, e.probes);
    ManyOverfill(e);
    assert e.session.link == c.session.link by { SameLink(c, e); }
  }

  lemma SameLink(c: Directory, e: Directory)
    requires DirectoryOk(e) && c.session.Open? && e.session.Open? && e.links == c.links && c.session.link == c.links
    ensures e.session.link == c.session.link
  {
  }

  /** What the next link's session adds to what is left behind. */
  lemma NextSessionOverfills(d: Directory)
    requires Reached(d) && d.session == Connecting(d.links) && d.links !in d.claimed && d.claiming == NoClaim
    requires Claim(d, d.links).outputs != {} || Claim(d, d.links).probes != {}
    ensures exists e ::
              && Reached(e) && e.session.Open? && |e.requests| == 2
              && e.outputs == Claim(d, d.links).outputs + {d.links} && e.probes == Claim(d, d.links).probes
              && BytesUsed(e, PAGE, PAGE, 8) > SlotBytes(PAGE, PAGE)
  {
    ReachedOk(d);
    var k, a := d.links, Claim(d, d.links);
    hide Reached, SessionOk, Of, BytesUsed, SlotBytes;
    OpensNext(d);
    var e :| && Reached(e) && e.session.Open? && |e.requests| == 2 && e.claiming == NoClaim && e.links == d.links
             && e.outputs == a.outputs + {k} && e.probes == a.probes && e.claimed == d.claimed + {k};
    assert k !in a.outputs;
    SomeMember(a.outputs);
    if j :| j in a.outputs {
      AtMost({j, k}, e.outputs);
    } else {
      SomeMember(a.probes);
      var j :| j in a.probes;
      AtMost({j}, e.probes);
      AtMost({k}, e.outputs);
    }
    ManyOverfill(e);
  }

  /** The first link, about to create its output block. */
  const FIRST := EMPTY.(links := 1, session := Connecting(1), held := Some(1), claimed := {1}, claiming := Creating(1))

  lemma FirstReached()
    ensures Reached(FIRST)
  {
    hide Reached;
    EmptyReached();
    OneMove(EMPTY, Connects);
    OneMove(Next(EMPTY, Connects), Claims(1));
    assert Next(Next(EMPTY, Connects), Claims(1)) == FIRST;
  }

  /** The first link with its blocks created, and released meanwhile if it was closed. */
  function SetUp(held: Option<int>, recorded: bool): Directory {
    FIRST.(outputs := {1}, probes := {1}, held := held, claiming := NoClaim, writers := {1},
           unrecorded := if recorded then {} else {1}, recorded := if recorded then {1} else {},
           released := if held.None? then {1} else {})
  }

  lemma SetUpReached(closed: bool, recorded: bool)
    ensures Reached(SetUp(if closed then None else Some(1), recorded))
  {
    hide Reached;
    FirstReached();
    if closed { OneMove(FIRST, Releases(1)); }
    var a := if closed then FIRST.(held := None, released := {1}) else FIRST;
    assert closed ==> Next(FIRST, Releases(1)) == a;
    OneMove(a, CreatesOutput(1));
    var b := Next(a, CreatesOutput(1));
    OneMove(b, CreatesProbe(1));
    var c := Next(b, CreatesProbe(1));
    assert c == SetUp(a.held, false);
    if recorded {
      OneMove(c, Records(1));
      assert Next(c, Records(1)) == SetUp(a.held, true);
    }
  }

  /** The session ends and opens its next link. */
  lemma Reconnects(d: Directory)
    requires Reached(d) && d.session == Connecting(1) && d.links == 1
    ensures Reached(d.(links := 2, session := Connecting(2), requests := {}))
  {
    hide Reached;
    OneMove(d, Dies);
    OneMove(Next(d, Dies), Connects);
  }

  /** A link closed while it is set up keeps the output block it creates: beside the blocks of the next
      link's session, it passes the bound. */
  lemma ClosedSetUpOverfills()
    ensures exists e ::
              && Reached(e) && e.session.Open? && |e.requests| == 2 && e.outputs == {1, 2} && e.probes == {}
              && BytesUsed(e, PAGE, PAGE, 8) > SlotBytes(PAGE, PAGE)
  {
    hide Reached, BytesUsed;
    SetUpReached(true, true);
    var a := SetUp(None, true);
    OneMove(a, DropsProbe(1));
    var b := Next(a, DropsProbe(1));
    OneMove(b, UnlinksProbe(1));
    var c := Next(b, UnlinksProbe(1));
    assert c.probes == {};
    Reconnects(c);
    var d := c.(links := 2, session := Connecting(2), requests := {});
    assert Claim(d, 2).outputs == {1} && Claim(d, 2).probes == {};
    NextSessionOverfills(d);
  }

  /** Every link takes the slot in order, and none is closed: a link replaced before it recorded its probe
      leaves the probe beside the next one's blocks. */
  lemma EarlyReleaseOverfills()
    ensures exists e ::
              && Reached(e) && e.session.Open? && |e.requests| == 2 && e.outputs == {2} && e.probes == {1}
              && BytesUsed(e, PAGE, PAGE, 8) > SlotBytes(PAGE, PAGE)
  {
    hide Reached, BytesUsed;
    SetUpReached(false, false);
    var c := SetUp(Some(1), false);
    Reconnects(c);
    var d := c.(links := 2, session := Connecting(2), requests := {});
    assert Claim(d, 2).outputs == {} && Claim(d, 2).probes == {1};
    NextSessionOverfills(d);
  }

  /** A link released once it is set up, whose output block and probe are taken and not unlinked yet when
      the next link is set up. */
  lemma SlowReleaseOverfills()
    ensures exists e ::
              && Reached(e) && e.session.Open? && |e.requests| == 2 && e.outputs == {1, 2} && e.probes == {1}
              && BytesUsed(e, PAGE, PAGE, 8) > SlotBytes(PAGE, PAGE)
  {
    hide Reached, BytesUsed;
    SetUpReached(false, true);
    var a := SetUp(Some(1), true);
    OneMove(a, Releases(1));
    var c := Next(a, Releases(1));
    Reconnects(c);
    var d := c.(links := 2, session := Connecting(2), requests := {});
    assert Claim(d, 2).outputs == {1} && Claim(d, 2).probes == {1};
    NextSessionOverfills(d);
  }
}
