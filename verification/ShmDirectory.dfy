/** The block files of one slot's directory, through set-up, cancel rotation, release and the
    replacement of one link by the next. What fits the volume a deployment gives the slot is in
    `ShmBound`.

    Links are numbered in the order their session opens them. Each is set up by a thread of its own on
    the model server: it takes the slot, releases what the link that held it still has, creates its
    output block and its probe, and last records the probe. Any thread may release a link at any
    moment: it takes what the link has, and unlinks it as late as it likes. */
module ShmDirectory {
  import opened Slots

  const PAGE: int := 65536

  function WholePages(size: int): int {
    -((-size) / PAGE) * PAGE
  }

  function SlotBytes(input: int, output: int): int {
    2 * WholePages(input) + WholePages(output)
  }

  /** A size in whole pages is the least multiple of the page that holds it. */
  lemma WholePagesIsLeast(size: int)
    ensures WholePages(size) % PAGE == 0 && size <= WholePages(size) < size + PAGE
  {
    var q := (-size) / PAGE;
    assert -size == q * PAGE + (-size) % PAGE;
    MultipleOfPage(-q);
  }

  lemma MultipleOfPage(k: int)
    ensures (k * PAGE) % PAGE == 0
  {
  }

  // -- the directory -------------------------------------------------------------------------------

  /** The session's end: waiting for the set-up of its link, about to allocate, or open with the
      block it writes and the one its last cancel retired. */
  datatype Session =
    | NoSession
    | Connecting(link: int)
    | Ready(link: int)
    | Open(link: int, writer: nat, retired: Option<nat>, rotations: nat)

  /** The set-up that has the slot's lock: it took the slot, or created its output block too. */
  datatype Claiming = NoClaim | Creating(link: int) | Probing(link: int)

  /** `requests`, `outputs` and `probes` are files. A link is in `writers` while it has an output block to
      release, in `unrecorded` while its probe is created but not recorded, and in `recorded` while it has a
      recorded probe to drop. */
  datatype Directory = Directory(
    links: int,
    session: Session,
    requests: set<(int, nat)>,
    outputs: set<int>,
    probes: set<int>,
    held: Option<int>,
    claimed: set<int>,
    claiming: Claiming,
    writers: set<int>,
    unrecorded: set<int>,
    recorded: set<int>,
    released: set<int>)

  datatype Move =
    | Connects
    | Probes
    | Allocates
    | Cancels(room: bool)
    | Quits
    | Dies
    | Claims(link: int)
    | CreatesOutput(link: int)
    | CreatesProbe(link: int)
    | Fails(link: int)
    | Records(link: int)
    | Releases(link: int)
    | DropsProbe(link: int)
    | UnlinksOutput(link: int)
    | UnlinksProbe(link: int)
    | Sweeps(link: int)

  predicate Possible(d: Directory, m: Move) {
    match m
    case Connects => d.session == NoSession
    case Probes => d.session.Connecting? && d.session.link in d.probes && d.session.link !in d.unrecorded
    case Allocates => d.session.Ready?
    case Cancels(_) => d.session.Open?
    case Quits => d.session != NoSession
    case Dies => d.session != NoSession
    case Claims(k) => d.claiming == NoClaim && 1 <= k <= d.links && k !in d.claimed
    case CreatesOutput(k) => d.claiming == Creating(k)
    case CreatesProbe(k) => d.claiming == Probing(k)
    case Fails(k) => d.claiming == Creating(k) || d.claiming == Probing(k)
    case Records(k) => k in d.unrecorded
    case Releases(k) => 1 <= k <= d.links
    case DropsProbe(k) => k in d.recorded
    case UnlinksOutput(k) => k in d.outputs && k !in d.writers
    case UnlinksProbe(k) => k in d.probes && k !in d.recorded && k !in d.unrecorded
    case Sweeps(k) => k in d.released
  }

  function Of(requests: set<(int, nat)>, link: int): set<(int, nat)> {
    set r | r in requests && r.0 == link
  }

  /** What a link still has goes: its output block, its recorded probe, and the request blocks under its
      prefix. A probe it has not recorded yet stays. */
  function Free(d: Directory, link: int): Directory {
    d.(outputs := if link in d.writers then d.outputs - {link} else d.outputs,
       probes := if link in d.recorded then d.probes - {link} else d.probes,
       writers := d.writers - {link}, recorded := d.recorded - {link},
       requests := d.requests - Of(d.requests, link), released := d.released + {link})
  }

  /** Taking the slot: the link that held it is released first. */
  function Claim(d: Directory, link: int): Directory {
    var freed := if d.held.Some? then Free(d, d.held.value) else d;
    freed.(held := Some(link), claimed := d.claimed + {link}, claiming := Creating(link))
  }

  function Rotate(d: Directory, room: bool): Directory
    requires d.session.Open?
  {
    var s := d.session;
    var freed := if s.retired.Some? then d.requests - {(s.link, s.retired.value)} else d.requests;
    if room then
      d.(requests := freed + {(s.link, s.rotations + 1)},
         session := Open(s.link, s.rotations + 1, Some(s.writer), s.rotations + 1))
    else
      d.(requests := freed, session := Open(s.link, s.writer, None, s.rotations + 1))
  }

  function Next(d: Directory, m: Move): Directory
    requires Possible(d, m)
  {
    match m
    case Connects => d.(links := d.links + 1, session := Connecting(d.links + 1), requests := {})
    case Probes => d.(probes := d.probes - {d.session.link}, session := Ready(d.session.link))
    case Allocates => d.(requests := d.requests + {(d.session.link, 0)}, session := Open(d.session.link, 0, None, 0))
    case Cancels(room) => Rotate(d, room)
    case Quits => d.(requests := d.requests - Of(d.requests, d.session.link), session := NoSession)
    case Dies => d.(session := NoSession)
    case Claims(k) => Claim(d, k)
    case CreatesOutput(k) => d.(outputs := d.outputs + {k}, writers := d.writers + {k}, claiming := Probing(k))
    case CreatesProbe(k) => d.(probes := d.probes + {k}, unrecorded := d.unrecorded + {k}, claiming := NoClaim)
    case Fails(k) =>
      d.(outputs := if k in d.writers then d.outputs - {k} else d.outputs,
         writers := d.writers - {k}, claiming := NoClaim)
    case Records(k) => d.(unrecorded := d.unrecorded - {k}, recorded := d.recorded + {k})
    case Releases(k) =>
      d.(writers := d.writers - {k}, recorded := d.recorded - {k}, held := if d.held == Some(k) then None else d.held,
         released := d.released + {k})
    case DropsProbe(k) => d.(recorded := d.recorded - {k})
    case UnlinksOutput(k) => d.(outputs := d.outputs - {k})
    case UnlinksProbe(k) => d.(probes := d.probes - {k})
    case Sweeps(k) => d.(requests := d.requests - Of(d.requests, k))
  }

  /** A session that quits takes its own request blocks with it; one that dies leaves every file. */
  lemma SessionEnds(d: Directory)
    requires d.session != NoSession
    ensures var quit, died := Next(d, Quits), Next(d, Dies);
            && died == d.(session := NoSession)
            && quit.session == NoSession && quit.outputs == d.outputs && quit.probes == d.probes
            && forall r :: r in quit.requests <==> r in d.requests && r.0 != d.session.link
  {
  }

  const EMPTY := Directory(0, NoSession, {}, {}, {}, None, {}, NoClaim, {}, {}, {}, {})

  /** What the files take, in whole pages: `nonce` is the size of a probe. */
  function BytesUsed(d: Directory, input: int, output: int, nonce: int): int {
    |d.requests| * WholePages(input) + |d.outputs| * WholePages(output) + |d.probes| * WholePages(nonce)
  }

  /** The link whose set-up has the lock, and has files still to create. */
  function Pending(d: Directory): set<int> {
    if d.claiming == NoClaim then {} else {d.claiming.link}
  }

  // -- what every move keeps -------------------------------------------------------------------------

  ghost predicate SessionOk(d: Directory) {
    match d.session
    case NoSession => |d.requests| <= 2
    case Connecting(k) => k == d.links >= 1 && d.requests == {}
    case Ready(k) => k == d.links && d.requests == {} && k in d.claimed
    case Open(k, writer, retired, rotations) =>
      && k == d.links && k in d.claimed && writer <= rotations
      && (retired.Some? ==> retired.value <= rotations)
      && d.requests <= {(k, writer)} + (if retired.Some? then {(k, retired.value)} else {})
  }

  /** What the links of the slot have, and what is in the directory for them. */
  ghost predicate FilesOk(d: Directory) {
    && d.outputs <= d.claimed && d.probes <= d.claimed && d.recorded <= d.claimed
    && d.writers <= d.outputs && d.unrecorded <= d.probes && d.unrecorded !! d.recorded
    && Pending(d) <= d.claimed && Pending(d) !! d.probes && Pending(d) !! d.recorded
    && (d.claiming.Creating? ==> d.claiming.link !in d.outputs)
  }

  ghost predicate DirectoryOk(d: Directory) {
    && SessionOk(d) && FilesOk(d) && d.links >= 0
    && (forall k :: k in d.claimed ==> 1 <= k <= d.links)
    && (forall r :: r in d.requests ==> r.0 == d.links && r.0 in d.claimed)
  }

  lemma AtMost<T>(s: set<T>, t: set<T>)
    requires s <= t
    ensures |s| <= |t|
  {
    assert t == s + (t - s);
  }

  lemma TwoAtMost(s: set<(int, nat)>, a: (int, nat), b: (int, nat))
    requires s <= {a} + {b}
    ensures |s| <= 2
  {
    AtMost(s, {a} + {b});
  }

  lemma RequestsAtMostTwo(d: Directory)
    requires SessionOk(d)
    ensures |d.requests| <= 2
  {
    if d.session.Open? {
      var a := (d.session.link, d.session.writer);
      TwoAtMost(d.requests, a, if d.session.retired.Some? then (d.session.link, d.session.retired.value) else a);
    }
  }

  /** Outside its session's own moves, a directory only loses request blocks. */
  lemma FewerRequests(d: Directory, e: Directory)
    requires SessionOk(d) && e.session == d.session && e.links == d.links && e.requests <= d.requests
    requires d.claimed <= e.claimed
    ensures SessionOk(e)
  {
    AtMost(e.requests, d.requests);
  }

  predicate OfSession(m: Move) {
    m.Connects? || m.Probes? || m.Allocates? || m.Cancels? || m.Quits? || m.Dies?
  }

  lemma ServerFiles(d: Directory, m: Move)
    requires FilesOk(d) && Possible(d, m) && !OfSession(m)
    ensures FilesOk(Next(d, m))
  {
    hide Of;
  }

  lemma ServerKeeps(d: Directory, m: Move)
    requires DirectoryOk(d) && Possible(d, m) && !OfSession(m)
    ensures DirectoryOk(Next(d, m))
  {
    hide SessionOk, FilesOk, Next;
    ServerFiles(d, m);
    ServerSession(d, m);
    FewerRequests(d, Next(d, m));
  }

  lemma ServerSession(d: Directory, m: Move)
    requires Possible(d, m) && !OfSession(m)
    ensures var e := Next(d, m);
            && e.session == d.session && e.links == d.links && e.requests <= d.requests && d.claimed <= e.claimed
            && forall k :: k in e.claimed ==> k in d.claimed || 1 <= k <= d.links
  {
    hide Of;
  }

  lemma RotateKeeps(d: Directory, room: bool)
    requires DirectoryOk(d) && d.session.Open?
    ensures DirectoryOk(Rotate(d, room))
  {
  }

  lemma EndKeeps(d: Directory, m: Move)
    requires DirectoryOk(d) && Possible(d, m) && (m.Quits? || m.Dies?)
    ensures DirectoryOk(Next(d, m))
  {
    RequestsAtMostTwo(d);
    AtMost(Next(d, m).requests, d.requests);
    hide SessionOk;
    assert SessionOk(Next(d, m)) by { Ended(Next(d, m)); }
  }

  lemma Ended(d: Directory)
    requires d.session == NoSession && |d.requests| <= 2
    ensures SessionOk(d)
  {
  }

  lemma OpeningKeeps(d: Directory, m: Move)
    requires DirectoryOk(d) && Possible(d, m) && (m.Connects? || m.Probes? || m.Allocates?)
    ensures DirectoryOk(Next(d, m))
  {
  }

  lemma NextKeeps(d: Directory, m: Move)
    requires DirectoryOk(d) && Possible(d, m)
    ensures DirectoryOk(Next(d, m))
  {
    hide DirectoryOk, Claim, Rotate;
    match m
    case Cancels(room) => RotateKeeps(d, room);
    case Quits => EndKeeps(d, m);
    case Dies => EndKeeps(d, m);
    case _ => if OfSession(m) { OpeningKeeps(d, m); } else { ServerKeeps(d, m); }
  }

  // -- every run -------------------------------------------------------------------------------------

  ghost predicate IsRun(states: seq<Directory>, moves: seq<Move>) {
    && |states| == |moves| + 1 && states[0] == EMPTY
    && forall i :: 0 <= i < |moves| ==> Possible(states[i], moves[i]) && states[i + 1] == Next(states[i], moves[i])
  }

  /** Whether some run of set-ups, cancels and ends reaches this state. */
  ghost predicate Reached(d: Directory) {
    exists states, moves :: IsRun(states, moves) && states[|moves|] == d
  }

  lemma {:induction false} RunKeeps(states: seq<Directory>, moves: seq<Move>, i: nat)
    requires IsRun(states, moves) && i <= |moves|
    ensures DirectoryOk(states[i])
    decreases i
  {
    if i > 0 {
      RunKeeps(states, moves, i - 1);
      hide DirectoryOk, Next, Possible;
      NextKeeps(states[i - 1], moves[i - 1]);
    }
  }

  lemma ReachedOk(d: Directory)
    requires Reached(d)
    ensures DirectoryOk(d)
  {
    hide DirectoryOk;
    var states, moves :| IsRun(states, moves) && states[|moves|] == d;
    RunKeeps(states, moves, |moves|);
  }

  lemma EmptyReached()
    ensures Reached(EMPTY)
  {
    var states: seq<Directory>, moves: seq<Move> := [EMPTY], [];
    assert IsRun(states, moves) && states[|moves|] == EMPTY;
  }

  lemma OneMove(d: Directory, m: Move)
    requires Reached(d) && Possible(d, m)
    ensures Reached(Next(d, m))
  {
    hide Next, Possible;
    var states, moves :| IsRun(states, moves) && states[|moves|] == d;
    Appended(states, moves, m);
    assert (states + [Next(d, m)])[|moves + [m]|] == Next(d, m);
  }

  lemma Appended(states: seq<Directory>, moves: seq<Move>, m: Move)
    requires IsRun(states, moves) && Possible(states[|moves|], m)
    ensures IsRun(states + [Next(states[|moves|], m)], moves + [m])
  {
    hide Next, Possible;
  }
}
