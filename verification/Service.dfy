/** The service's components: the order their dependencies give, and what `run()` starts, drains and
    stops. */
module Services {
  datatype Option<+T> = None | Some(value: T)

  datatype Failure = UnknownDependency(name: Name) | DependencyCycle(name: Name)

  /** A component's name: names are only compared. */
  type Name = int

  /** Each component's dependencies, by its name. */
  type Graph = map<Name, seq<Name>>

  // -- what the order is for -------------------------------------------------------------------------

  /** A walk along dependencies. */
  ghost predicate IsPath(deps: Graph, path: seq<Name>) {
    && (forall i :: 0 <= i < |path| ==> path[i] in deps)
    && (forall i :: 0 <= i < |path| - 1 ==> path[i + 1] in deps[path[i]])
  }

  /** These are the components of a walk. */
  ghost predicate Holds(names: set<Name>, path: seq<Name>) {
    forall n :: n in names <==> n in path
  }

  ghost predicate IsCycle(deps: Graph, path: seq<Name>) {
    path != [] && IsPath(deps, path) && path[0] in deps[path[|path| - 1]]
  }

  ghost predicate HasCycle(deps: Graph) {
    exists path :: IsCycle(deps, path)
  }

  ghost predicate HasUnknown(deps: Graph) {
    exists n, i :: n in deps && 0 <= i < |deps[n]| && deps[n][i] !in deps
  }

  ghost predicate Distinct(names: seq<Name>) {
    forall i, j :: 0 <= i < j < |names| ==> names[i] != names[j]
  }

  /** Every component is known, comes once, and comes after everything it depends on. */
  ghost predicate DependenciesFirst(deps: Graph, order: seq<Name>) {
    && Distinct(order)
    && (forall i :: 0 <= i < |order| ==> order[i] in deps)
    && (forall i, d :: 0 <= i < |order| && d in deps[order[i]] ==> d in order[..i])
  }

  lemma IndexBelow(deps: Graph, order: seq<Name>, i: nat, d: Name) returns (j: nat)
    requires DependenciesFirst(deps, order) && i < |order| && d in deps[order[i]]
    ensures j < i && order[j] == d
  {
    assert d in order[..i];
    j :| 0 <= j < i && order[..i][j] == d;
  }

  /** Along a walk, each component comes before the one that depends on it. */
  lemma {:induction false} WalkGoesDown(deps: Graph, order: seq<Name>, path: seq<Name>, i: nat) returns (j: nat)
    requires DependenciesFirst(deps, order) && path != [] && IsPath(deps, path) && i < |order| && order[i] == path[0]
    ensures j <= i && order[j] == path[|path| - 1]
    decreases |path|
  {
    if |path| == 1 {
      j := i;
    } else {
      var k := IndexBelow(deps, order, i, path[1]);
      j := WalkGoesDown(deps, order, path[1..], k);
    }
  }

  /** Components that have such an order have no cycle among them, and depend on nothing unknown. */
  lemma OrderMeansAcyclic(deps: Graph, order: seq<Name>)
    requires DependenciesFirst(deps, order) && forall n :: n in deps ==> n in order
    ensures !HasCycle(deps) && !HasUnknown(deps)
  {
    if HasCycle(deps) {
      var path :| IsCycle(deps, path);
      assert path[0] in deps;
      var i :| 0 <= i < |order| && order[i] == path[0];
      var j := WalkGoesDown(deps, order, path, i);
    }
    if HasUnknown(deps) {
      var n, m :| n in deps && 0 <= m < |deps[n]| && deps[n][m] !in deps;
      assert n in order;
      var i :| 0 <= i < |order| && order[i] == n;
      var j := IndexBelow(deps, order, i, deps[n][m]);
    }
  }

  // -- the depth-first visit ---------------------------------------------------------------------------

  class Sorter {
    const deps: Graph
    var ordered: seq<Name>
    var visiting: set<Name>
    var done: set<Name>

    ghost predicate Valid()
      reads this
    {
      && DependenciesFirst(deps, ordered)
      && (forall n :: n in done <==> n in ordered)
      && visiting <= deps.Keys && done !! visiting
    }

    constructor (deps: Graph)
      ensures Valid() && this.deps == deps && ordered == [] && visiting == {}
    {
      this.deps, ordered, visiting, done := deps, [], {}, {};
    }

    /** Order a component after everything it depends on. `path` is how the visit came to it. */
    method Visit(name: Name, ghost path: seq<Name>) returns (failure: Option<Failure>)
      requires Valid() && IsPath(deps, path) && Holds(visiting, path)
      requires if path == [] then name in deps else name in deps[path[|path| - 1]]
      modifies this
      ensures failure.None? ==> Valid() && name in done && visiting == old(visiting) && old(done) <= done
      ensures failure.Some? ==> HasUnknown(deps) || HasCycle(deps)
      decreases |deps.Keys - visiting|, 0
    {
      hide DependenciesFirst, HasCycle, HasUnknown, IsPath, Holds;
      if name in done {
        return None;
      }
      if name in visiting {
        OnPath(visiting, path, name);
        CycleFound(deps, path, name);
        return Some(DependencyCycle(name));
      }
      if name !in deps {
        UnknownFound(deps, path, name);
        return Some(UnknownDependency(name));
      }
      ghost var before := visiting;
      visiting := visiting + {name};
      assert visiting - {name} == before;
      LongerPath(deps, path, name);
      FewerLeft(deps.Keys, before, name);
      Joins(before, path, name);
      failure := VisitEach(deps[name], path + [name]);
      if failure.Some? {
        return;
      }
      Place(name);
    }

    /** A component whose dependencies are all in the order joins it. */
    method Place(name: Name)
      requires Valid() && name in visiting && forall j :: 0 <= j < |deps[name]| ==> deps[name][j] in done
      modifies this
      ensures Valid() && done == old(done) + {name} && visiting == old(visiting) - {name}
    {
      hide DependenciesFirst;
      Appended(deps, ordered, done, name);
      visiting := visiting - {name};
      done := done + {name};
      ordered := ordered + [name];
    }

    /** Order everything the last component of `path` depends on. */
    method VisitEach(dependencies: seq<Name>, ghost path: seq<Name>) returns (failure: Option<Failure>)
      requires Valid() && IsPath(deps, path) && Holds(visiting, path)
      requires path != [] && dependencies == deps[path[|path| - 1]]
      modifies this
      ensures failure.None? ==> Valid() && visiting == old(visiting) && old(done) <= done
      ensures failure.None? ==> forall j :: 0 <= j < |dependencies| ==> dependencies[j] in done
      ensures failure.Some? ==> HasUnknown(deps) || HasCycle(deps)
      decreases |deps.Keys - visiting|, 1
    {
      hide DependenciesFirst, HasCycle, HasUnknown, IsPath, Holds;
      for i := 0 to |dependencies|
        invariant Valid() && visiting == old(visiting) && old(done) <= done
        invariant forall j :: 0 <= j < i ==> dependencies[j] in done
      {
        failure := Visit(dependencies[i], path);
        if failure.Some? {
          return;
        }
      }
      failure := None;
    }
  }

  lemma OnPath(visiting: set<Name>, path: seq<Name>, name: Name)
    requires Holds(visiting, path) && name in visiting
    ensures name in path
  {
  }

  lemma Joins(visiting: set<Name>, path: seq<Name>, name: Name)
    requires Holds(visiting, path)
    ensures Holds(visiting + {name}, path + [name])
  {
  }

  /** A component joins the order once everything it depends on is in it. */
  lemma Appended(deps: Graph, ordered: seq<Name>, done: set<Name>, name: Name)
    requires DependenciesFirst(deps, ordered) && name in deps && name !in done
    requires forall n :: n in done <==> n in ordered
    requires forall j :: 0 <= j < |deps[name]| ==> deps[name][j] in done
    ensures DependenciesFirst(deps, ordered + [name])
  {
    var longer := ordered + [name];
    forall i, d | 0 <= i < |longer| && d in deps[longer[i]] ensures d in longer[..i] {
      if i < |ordered| {
        assert longer[..i] == ordered[..i];
      } else {
        assert longer[..i] == ordered;
      }
    }
  }

  lemma LongerPath(deps: Graph, path: seq<Name>, name: Name)
    requires IsPath(deps, path) && name in deps && (path != [] ==> name in deps[path[|path| - 1]])
    ensures IsPath(deps, path + [name])
  {
  }

  lemma FewerLeft(all: set<Name>, visiting: set<Name>, name: Name)
    requires name in all && name !in visiting
    ensures |all - (visiting + {name})| < |all - visiting|
  {
    assert name in all - visiting;
    Smaller(all - (visiting + {name}), all - visiting);
  }

  lemma Smaller(a: set<Name>, b: set<Name>)
    requires a < b
    ensures |a| < |b|
  {
    assert b == a + (b - a);
    assert b - a != {};
  }

  lemma CycleFound(deps: Graph, path: seq<Name>, name: Name)
    requires IsPath(deps, path) && name in path && name in deps[path[|path| - 1]]
    ensures HasCycle(deps)
  {
    var i :| 0 <= i < |path| && path[i] == name;
    assert IsCycle(deps, path[i..]);
  }

  lemma UnknownFound(deps: Graph, path: seq<Name>, name: Name)
    requires IsPath(deps, path) && path != [] && name in deps[path[|path| - 1]] && name !in deps
    ensures HasUnknown(deps)
  {
    var n := path[|path| - 1];
    var i :| 0 <= i < |deps[n]| && deps[n][i] == name;
  }

  /** The components in dependency order, or why there is none: each comes once, after all it depends
      on; it fails exactly when a dependency is unknown or there is a cycle. `names` are the
      components as they were added. */
  method TopologicalOrder(deps: Graph, names: seq<Name>) returns (order: seq<Name>, failure: Option<Failure>)
    requires Distinct(names) && (set n | n in names) == deps.Keys
    ensures failure.Some? <==> HasUnknown(deps) || HasCycle(deps)
    ensures failure.None? ==> DependenciesFirst(deps, order) && (set n | n in order) == deps.Keys
  {
    var sorter := new Sorter(deps);
    order := [];
    for i := 0 to |names|
      invariant sorter.Valid() && sorter.deps == deps && sorter.visiting == {} && fresh(sorter)
      invariant forall j :: 0 <= j < i ==> names[j] in sorter.done
    {
      assert names[i] in (set n | n in names);
      ghost var nowhere: seq<Name> := [];
      failure := sorter.Visit(names[i], nowhere);
      if failure.Some? {
        return;
      }
    }
    order := sorter.ordered;
    forall n | n in deps ensures n in order {
      assert n in (set m | m in names);
    }
    OrderMeansAcyclic(deps, order);
    failure := None;
  }

  // -- the run -------------------------------------------------------------------------------------------

  datatype Call = Start(name: Name) | Drain(name: Name) | Stop(name: Name)

  /** How a component's drain or stop ends: it returns, raises an `Exception`, which is logged and goes
      no further, or raises past it: a cancellation, or another `BaseException`. */
  datatype Outcome = Returns | Raises | Escapes

  /** How many components come up: until a start fails, or one ends after a shutdown was requested. */
  function Started(order: seq<Name>, fails: nat -> bool, requested: nat -> bool, from: nat): nat
    requires from <= |order|
    ensures from <= Started(order, fails, requested, from) <= |order|
    decreases |order| - from
  {
    if from == |order| || fails(from) then from
    else if requested(from) then from + 1
    else Started(order, fails, requested, from + 1)
  }

  /** Whether the start after the `n` that came up is one that fails. */
  predicate FailsAt(order: seq<Name>, fails: nat -> bool, requested: nat -> bool, n: nat) {
    n < |order| && fails(n) && (n == 0 || !requested(n - 1))
  }

  /** Everything before the last component that comes up came up with no shutdown requested; the next one, if
      any, does not come up because its start fails, or because a shutdown was requested by then. */
  lemma {:induction false} StartedMeans(order: seq<Name>, fails: nat -> bool, requested: nat -> bool, from: nat)
    requires from <= |order|
    ensures var n := Started(order, fails, requested, from);
            && (forall i :: from <= i < n ==> !fails(i))
            && (forall i :: from <= i < n - 1 ==> !requested(i))
            && (n < |order| ==> (n > from && requested(n - 1)) || fails(n))
    decreases |order| - from
  {
    if from < |order| && !fails(from) && !requested(from) {
      StartedMeans(order, fails, requested, from + 1);
    }
  }

  function Starts(order: seq<Name>): seq<Call> {
    seq(|order|, i requires 0 <= i < |order| => Start(order[i]))
  }

  function Drains(order: seq<Name>): seq<Call> {
    seq(|order|, i requires 0 <= i < |order| => Drain(order[i]))
  }

  function Stops(order: seq<Name>): seq<Call> {
    seq(|order|, i requires 0 <= i < |order| => Stop(order[i]))
  }

  function Reversed(names: seq<Name>): seq<Name> {
    seq(|names|, i requires 0 <= i < |names| => names[|names| - 1 - i])
  }

  /** How many of `n` drains, or of `n` stops, are called: all, or up to the first that raises past
      `Exception`. */
  function Called(outcomes: nat -> Outcome, n: nat): (r: nat)
    ensures r <= n
  {
    if n == 0 then 0
    else if Escaped(outcomes, n - 1) then Called(outcomes, n - 1)
    else n
  }

  predicate Escaped(outcomes: nat -> Outcome, n: nat) {
    exists i :: 0 <= i < n && outcomes(i) == Escapes
  }

  /** Calls go on exactly up to the first one that raises past `Exception`. */
  lemma {:induction false} CalledUpToEscape(outcomes: nat -> Outcome, n: nat)
    ensures forall i: nat :: i + 1 < Called(outcomes, n) ==> outcomes(i) != Escapes
    ensures Called(outcomes, n) < n ==> Called(outcomes, n) > 0 && outcomes(Called(outcomes, n) - 1) == Escapes
    ensures Called(outcomes, n) == n <==> forall i: nat :: i + 1 < n ==> outcomes(i) != Escapes
  {
    if n > 0 {
      CalledUpToEscape(outcomes, n - 1);
    }
  }

  /** The calls of the wind-down of these components, if nothing raises past `Exception`. */
  function WindDown(started: seq<Name>): seq<Call> {
    Drains(started) + Stops(started)
  }

  /** How many of them are made. */
  function Made(n: nat, drains: nat -> Outcome, stops: nat -> Outcome): (r: nat)
    ensures r <= 2 * n
  {
    if Escaped(drains, n) then Called(drains, n) else n + Called(stops, n)
  }

  /** What `run()` calls when `n` of the components in `order` come up, and `made` calls of their
      wind-down are made. */
  function RunCalls(order: seq<Name>, n: nat, failing: bool, made: nat): seq<Call>
    requires n <= |order| && (failing ==> n < |order|) && made <= 2 * n
  {
    Starts(order[..n]) + (if failing then [Start(order[n])] else []) + WindDown(order[..n])[..made]
  }

  method StartAll(order: seq<Name>, fails: nat -> bool, requested: nat -> bool)
    returns (started: seq<Name>, calls: seq<Call>)
    ensures var n := Started(order, fails, requested, 0);
            && started == order[..n]
            && calls == Starts(order[..n]) + (if FailsAt(order, fails, requested, n) then [Start(order[n])] else [])
  {
    started, calls := [], [];
    var i := 0;
    while i < |order|
      invariant 0 <= i <= |order| && started == order[..i] && calls == Starts(order[..i])
      invariant Started(order, fails, requested, i) == Started(order, fails, requested, 0)
      invariant i == 0 || !requested(i - 1)
    {
      calls := calls + [Start(order[i])];
      if fails(i) {
        return;
      }
      started := started + [order[i]];
      if requested(i) {
        StopsAt(order, fails, requested, i);
        return;
      }
      i := i + 1;
    }
  }

  lemma StopsAt(order: seq<Name>, fails: nat -> bool, requested: nat -> bool, i: nat)
    requires i < |order| && !fails(i) && requested(i)
    ensures Started(order, fails, requested, i) == i + 1
  {
  }

  lemma NextCall(started: seq<Name>, outcomes: nat -> Outcome, j: nat)
    requires j < |started| && !Escaped(outcomes, j)
    ensures Called(outcomes, j + 1) == j + 1
    ensures Drains(started[..j + 1]) == Drains(started[..j]) + [Drain(started[j])]
    ensures Stops(started[..j + 1]) == Stops(started[..j]) + [Stop(started[j])]
    ensures Escaped(outcomes, j + 1) <==> outcomes(j) == Escapes
  {
    CalledUpToEscape(outcomes, j + 1);
    assert outcomes(j) == Escapes ==> Escaped(outcomes, j + 1);
  }

  lemma {:induction false} NoneAfter(outcomes: nat -> Outcome, j: nat, n: nat)
    requires j < n && outcomes(j) == Escapes && Called(outcomes, j + 1) == j + 1
    ensures Called(outcomes, n) == j + 1
    decreases n
  {
    if j + 1 < n {
      NoneAfter(outcomes, j, n - 1);
    }
  }

  /** Drain every component in turn; one that raises past `Exception` ends it all. */
  method DrainAll(started: seq<Name>, outcomes: nat -> Outcome) returns (calls: seq<Call>, escaped: bool)
    ensures calls == Drains(started[..Called(outcomes, |started|)]) && escaped == Escaped(outcomes, |started|)
  {
    calls := [];
    for j := 0 to |started|
      invariant !Escaped(outcomes, j) && Called(outcomes, j) == j && calls == Drains(started[..j])
    {
      NextCall(started, outcomes, j);
      calls := calls + [Drain(started[j])];
      if outcomes(j) == Escapes {
        NoneAfter(outcomes, j, |started|);
        return calls, true;
      }
    }
    return calls, false;
  }

  /** Stop every component in turn. */
  method StopAll(started: seq<Name>, outcomes: nat -> Outcome) returns (calls: seq<Call>, escaped: bool)
    ensures calls == Stops(started[..Called(outcomes, |started|)]) && escaped == Escaped(outcomes, |started|)
  {
    calls := [];
    for j := 0 to |started|
      invariant !Escaped(outcomes, j) && Called(outcomes, j) == j && calls == Stops(started[..j])
    {
      NextCall(started, outcomes, j);
      calls := calls + [Stop(started[j])];
      if outcomes(j) == Escapes {
        NoneAfter(outcomes, j, |started|);
        return calls, true;
      }
    }
    return calls, false;
  }

  /** What `run()` calls: the components start edge-first, and whatever started is drained, then
      stopped, each in that same order, up to a call that raises past `Exception`. The last start may
      be one that fails. */
  method Run(topological: seq<Name>, fails: nat -> bool, requested: nat -> bool,
             drains: nat -> Outcome, stops: nat -> Outcome) returns (calls: seq<Call>)
    ensures var order := Reversed(topological); var n := Started(order, fails, requested, 0);
            calls == RunCalls(order, n, FailsAt(order, fails, requested, n), Made(n, drains, stops))
  {
    var started, ups := StartAll(Reversed(topological), fails, requested);
    var downs, escaped := DrainAll(started, drains);
    FirstDrains(started, Called(drains, |started|));
    if escaped {
      return ups + downs;
    }
    NotEscaped(drains, |started|);
    var ends, _ := StopAll(started, stops);
    ThenStops(started, Called(stops, |started|));
    return ups + downs + ends;
  }

  lemma NotEscaped(outcomes: nat -> Outcome, n: nat)
    requires !Escaped(outcomes, n)
    ensures Called(outcomes, n) == n
  {
    CalledUpToEscape(outcomes, n);
  }

  lemma FirstDrains(started: seq<Name>, k: nat)
    requires k <= |started|
    ensures Drains(started[..k]) == WindDown(started)[..k]
  {
  }

  lemma ThenStops(started: seq<Name>, k: nat)
    requires k <= |started|
    ensures Drains(started[..|started|]) + Stops(started[..k]) == WindDown(started)[..|started| + k]
  {
    assert started[..|started|] == started;
  }

  // -- each one drained once, then stopped once --------------------------------------------------------

  predicate Once(calls: seq<Call>, call: Call) {
    multiset(calls)[call] == 1
  }

  predicate CalledFor(calls: seq<Call>, name: Name) {
    Once(calls, Drain(name)) && Once(calls, Stop(name))
  }

  lemma {:induction false} CountUnique(calls: seq<Call>, i: nat)
    requires i < |calls| && forall k :: 0 <= k < |calls| && calls[k] == calls[i] ==> k == i
    ensures Once(calls, calls[i])
  {
    assert calls == calls[..i] + [calls[i]] + calls[i + 1..];
  }

  lemma NeverCounts(calls: seq<Call>, call: Call)
    requires call !in calls
    ensures !Once(calls, call)
  {
  }

  /** The wind-down, however far it goes, calls each drain and each stop at most once, the drains in
      start order and then the stops in start order. */
  lemma WindDownAt(order: seq<Name>, n: nat, i: nat)
    requires Distinct(order) && n <= |order| && i < n
    ensures var w := WindDown(order[..n]);
            && |w| == 2 * n && w[i] == Drain(order[i]) && w[n + i] == Stop(order[i])
            && (forall k :: 0 <= k < |w| && w[k] == Drain(order[i]) ==> k == i)
            && (forall k :: 0 <= k < |w| && w[k] == Stop(order[i]) ==> k == n + i)
  {
    var w := WindDown(order[..n]);
    assert forall k :: 0 <= k < n ==> w[k] == Drain(order[k]);
    assert forall k :: n <= k < 2 * n ==> w[k] == Stop(order[k - n]);
  }

  /** Each component that started is drained and stopped just when the wind-down gets that far: once. */
  lemma CalledOnce(order: seq<Name>, n: nat, failing: bool, made: nat, i: nat)
    requires Distinct(order) && n <= |order| && (failing ==> n < |order|) && i < n && made <= 2 * n
    ensures var calls := RunCalls(order, n, failing, made);
            && (Once(calls, Drain(order[i])) <==> i < made)
            && (Once(calls, Stop(order[i])) <==> n + i < made)
  {
    hide RunCalls, WindDown, Once, Distinct;
    var base := n + (if failing then 1 else 0);
    var calls := RunCalls(order, n, failing, made);
    CallsAre(order, n, failing, made);
    WindDownAt(order, n, i);
    OnceWhen(calls, WindDown(order[..n]), base, made, Drain(order[i]), i);
    OnceWhen(calls, WindDown(order[..n]), base, made, Stop(order[i]), n + i);
  }

  lemma OnceWhen(calls: seq<Call>, w: seq<Call>, base: nat, made: nat, call: Call, at: nat)
    requires made <= |w| && |calls| == base + made && !call.Start? && at < |w| && w[at] == call
    requires forall k :: 0 <= k < base ==> calls[k].Start?
    requires forall k :: base <= k < base + made ==> calls[k] == w[k - base]
    requires forall k :: 0 <= k < |w| && w[k] == call ==> k == at
    ensures Once(calls, call) <==> at < made
  {
    if at < made {
      assert calls[base + at] == call;
      CountUnique(calls, base + at);
    } else {
      NeverCounts(calls, call);
    }
  }

  lemma CallsAre(order: seq<Name>, n: nat, failing: bool, made: nat)
    requires n <= |order| && (failing ==> n < |order|) && made <= 2 * n
    ensures var calls := RunCalls(order, n, failing, made); var base := n + (if failing then 1 else 0);
            && |calls| == base + made && |WindDown(order[..n])| == 2 * n
            && (forall k :: 0 <= k < base ==> calls[k].Start?)
            && (forall k :: base <= k < base + made ==> calls[k] == WindDown(order[..n])[k - base])
  {
  }

  /** Every component that started is drained once and stopped once, if and only if no drain raises
      past `Exception`, and no stop but the last one does. What fails with an `Exception` makes no
      difference. */
  lemma EachDrainedThenStopped(order: seq<Name>, n: nat, failing: bool, drains: nat -> Outcome, stops: nat -> Outcome)
    requires Distinct(order) && n <= |order| && (failing ==> n < |order|)
    ensures (forall i :: 0 <= i < n ==> CalledFor(RunCalls(order, n, failing, Made(n, drains, stops)), order[i]))
       <==> (forall i: nat :: i < n ==> drains(i) != Escapes) && (forall i: nat :: i + 1 < n ==> stops(i) != Escapes)
  {
    var made := Made(n, drains, stops);
    var calls := RunCalls(order, n, failing, made);
    hide CalledFor, RunCalls;
    forall i | 0 <= i < n ensures CalledFor(calls, order[i]) <==> n + i < made {
      CalledForWhen(order, n, failing, made, i);
    }
    assert n > 0 ==> (CalledFor(calls, order[n - 1]) <==> made == 2 * n);
    WholeWindDown(n, drains, stops);
  }

  lemma CalledForWhen(order: seq<Name>, n: nat, failing: bool, made: nat, i: nat)
    requires Distinct(order) && n <= |order| && (failing ==> n < |order|) && i < n && made <= 2 * n
    ensures CalledFor(RunCalls(order, n, failing, made), order[i]) <==> n + i < made
  {
    CalledOnce(order, n, failing, made, i);
  }

  lemma WholeWindDown(n: nat, drains: nat -> Outcome, stops: nat -> Outcome)
    ensures Made(n, drains, stops) == 2 * n
       <==> (forall i: nat :: i < n ==> drains(i) != Escapes) && (forall i: nat :: i + 1 < n ==> stops(i) != Escapes)
  {
    CalledUpToEscape(stops, n);
  }

  /** And otherwise: everything in order up to the first call that raises past `Exception`, and
      nothing after it. */
  lemma CutAtEscape(n: nat, drains: nat -> Outcome, stops: nat -> Outcome)
    ensures var made := Made(n, drains, stops);
            && (forall i: nat :: i + 1 < made && i < n ==> drains(i) != Escapes)
            && (forall i: nat :: n + i + 1 < made ==> stops(i) != Escapes)
            && (made < 2 * n ==> made > 0 && (if made <= n then drains(made - 1) == Escapes
              else stops(made - 1 - n) == Escapes))
  {
    CalledUpToEscape(drains, n);
    CalledUpToEscape(stops, n);
  }
}
