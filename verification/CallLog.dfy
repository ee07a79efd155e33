/** The calls the step thread makes into the model, in order, and what makes them well bracketed:
    per slot, every opening is followed by its closing before the next one, generations only grow,
    and a step only reaches slots whose generation is open at that moment. */
module CallLog {

  /** One request of a step, as the model receives it. */
  datatype Reach = Reach(slot: int, generation: nat, payload: int)

  /** One call that took effect: a `session_opened()` that raised is not one. */
  datatype Call =
    | Opened(slot: int, generation: nat)
    | Closed(slot: int, generation: nat)
    | Stepped(requests: seq<Reach>)

  function OpenAfter(open: map<int, nat>, call: Call): map<int, nat> {
    match call
    case Opened(slot, g) => open[slot := g]
    case Closed(slot, _) => open - {slot}
    case Stepped(_) => open
  }

  /** The generation open in each slot after these calls. */
  function OpenNow(log: seq<Call>): map<int, nat> {
    if log == [] then map[] else OpenAfter(OpenNow(log[..|log| - 1]), log[|log| - 1])
  }

  function LastAfter(last: map<int, nat>, call: Call): map<int, nat> {
    if call.Opened? then last[call.slot := call.generation] else last
  }

  /** The last generation each slot was opened with. */
  function LastOpened(log: seq<Call>): map<int, nat> {
    if log == [] then map[] else LastAfter(LastOpened(log[..|log| - 1]), log[|log| - 1])
  }

  /** Whether `call` may follow `log`. */
  ghost predicate Allowed(log: seq<Call>, call: Call, maxBatch: nat) {
    match call
    case Opened(slot, g) =>
      slot !in OpenNow(log) && (slot in LastOpened(log) ==> LastOpened(log)[slot] < g)
    case Closed(slot, g) =>
      slot in OpenNow(log) && OpenNow(log)[slot] == g
    case Stepped(requests) =>
      && 1 <= |requests| <= maxBatch
      && (forall i :: 0 <= i < |requests| ==>
            requests[i].slot in OpenNow(log) && OpenNow(log)[requests[i].slot] == requests[i].generation)
      && (forall i, j :: 0 <= i < j < |requests| ==> requests[i].slot != requests[j].slot)
  }

  ghost predicate WellBracketed(log: seq<Call>, maxBatch: nat) {
    forall k :: 0 <= k < |log| ==> Allowed(log[..k], log[k], maxBatch)
  }

  lemma Extended(log: seq<Call>, call: Call, maxBatch: nat)
    requires WellBracketed(log, maxBatch) && Allowed(log, call, maxBatch)
    ensures WellBracketed(log + [call], maxBatch)
    ensures OpenNow(log + [call]) == OpenAfter(OpenNow(log), call)
    ensures LastOpened(log + [call]) == LastAfter(LastOpened(log), call)
  {
    var longer := log + [call];
    assert longer[..|log|] == log;
    forall k | 0 <= k < |longer| ensures Allowed(longer[..k], longer[k], maxBatch) {
      if k < |log| {
        assert longer[..k] == log[..k];
      }
    }
  }

  // -- what well bracketed means for a whole log ---------------------------------------------

  /** Whether slot `s` has a closing of generation `g` between the calls `i` and `j`. */
  ghost predicate ClosedBetween(log: seq<Call>, i: nat, j: nat, s: int, g: nat) {
    exists k :: i < k < j && k < |log| && log[k] == Closed(s, g)
  }

  lemma OpenNowStep(log: seq<Call>, k: nat)
    requires k < |log|
    ensures OpenNow(log[..k + 1]) == OpenAfter(OpenNow(log[..k]), log[k])
    ensures LastOpened(log[..k + 1]) == LastAfter(LastOpened(log[..k]), log[k])
  {
    assert log[..k + 1][..k] == log[..k];
  }

  lemma AllowedAt(log: seq<Call>, maxBatch: nat, k: nat)
    requires WellBracketed(log, maxBatch) && k < |log|
    ensures log[k].Opened? ==> log[k].slot !in OpenNow(log[..k])
    ensures log[k].Closed? ==> log[k].slot in OpenNow(log[..k]) && OpenNow(log[..k])[log[k].slot] == log[k].generation
  {
    assert Allowed(log[..k], log[k], maxBatch);
  }

  /** While it is not closed, an opened generation stays the open one. */
  lemma {:induction false} StaysOpen(log: seq<Call>, maxBatch: nat, i: nat, j: nat)
    requires WellBracketed(log, maxBatch) && i < j <= |log| && log[i].Opened?
    requires !ClosedBetween(log, i, j, log[i].slot, log[i].generation)
    ensures log[i].slot in OpenNow(log[..j]) && OpenNow(log[..j])[log[i].slot] == log[i].generation
    decreases j
  {
    hide WellBracketed;
    OpenNowStep(log, j - 1);
    if j > i + 1 {
      StaysOpen(log, maxBatch, i, j - 1);
      AllowedAt(log, maxBatch, j - 1);
    }
  }

  /** Between two openings of a slot there is a closing of the first one's generation, and the
      second one's generation is larger. */
  lemma ClosedBeforeReopened(log: seq<Call>, maxBatch: nat, i: nat, j: nat)
    requires WellBracketed(log, maxBatch) && i < j < |log|
    requires log[i].Opened? && log[j].Opened? && log[i].slot == log[j].slot
    ensures ClosedBetween(log, i, j, log[i].slot, log[i].generation)
    ensures log[i].generation < log[j].generation
  {
    assert Allowed(log[..j], log[j], maxBatch);
    GenerationsGrow(log, maxBatch, i, j);
    if !ClosedBetween(log, i, j, log[i].slot, log[i].generation) {
      StaysOpen(log, maxBatch, i, j);
    }
  }

  lemma {:induction false} GenerationsGrow(log: seq<Call>, maxBatch: nat, i: nat, j: nat)
    requires WellBracketed(log, maxBatch) && i < j <= |log| && log[i].Opened?
    ensures log[i].slot in LastOpened(log[..j]) && LastOpened(log[..j])[log[i].slot] >= log[i].generation
    decreases j
  {
    hide WellBracketed, OpenNow, LastOpened;
    OpenNowStep(log, j - 1);
    if j > i + 1 {
      GenerationsGrow(log, maxBatch, i, j - 1);
      OpensHigher(log, maxBatch, j - 1);
    }
  }

  lemma OpensHigher(log: seq<Call>, maxBatch: nat, k: nat)
    requires WellBracketed(log, maxBatch) && k < |log|
    ensures log[k].Opened? && log[k].slot in LastOpened(log[..k]) ==>
            LastOpened(log[..k])[log[k].slot] < log[k].generation
  {
    hide OpenNow, LastOpened;
    assert Allowed(log[..k], log[k], maxBatch);
  }

  /** An opened generation is closed at most once, and exactly once when nothing is left open. */
  lemma ClosedOnce(log: seq<Call>, maxBatch: nat, i: nat)
    requires WellBracketed(log, maxBatch) && i < |log| && log[i].Opened?
    ensures OpenNow(log) == map[] ==> ClosedBetween(log, i, |log|, log[i].slot, log[i].generation)
    ensures forall k, m :: 0 <= k < m < |log| && log[k] == Closed(log[i].slot, log[i].generation) ==> log[m] != log[k]
  {
    assert log[..|log|] == log;
    if !ClosedBetween(log, i, |log|, log[i].slot, log[i].generation) {
      StaysOpen(log, maxBatch, i, |log|);
    }
    forall k, m | 0 <= k < m < |log| && log[k] == Closed(log[i].slot, log[i].generation)
      ensures log[m] != log[k]
    {
      if log[m] == log[k] {
        assert Allowed(log[..k], log[k], maxBatch) && Allowed(log[..m], log[m], maxBatch);
        StaysClosed(log, maxBatch, k, m);
      }
    }
  }

  /** A closed generation is never open again. */
  lemma {:induction false} StaysClosed(log: seq<Call>, maxBatch: nat, k: nat, m: nat)
    requires WellBracketed(log, maxBatch) && k < m <= |log| && log[k].Closed?
    ensures log[k].slot in LastOpened(log[..m]) && LastOpened(log[..m])[log[k].slot] >= log[k].generation
    ensures log[k].slot in OpenNow(log[..m]) ==> OpenNow(log[..m])[log[k].slot] > log[k].generation
    decreases m
  {
    OpenNowStep(log, m - 1);
    assert Allowed(log[..m - 1], log[m - 1], maxBatch);
    if m > k + 1 {
      StaysClosed(log, maxBatch, k, m - 1);
    } else {
      OpenWasOpened(log, maxBatch, k, log[k].slot);
    }
  }

  lemma {:induction false} OpenWasOpened(log: seq<Call>, maxBatch: nat, k: nat, s: int)
    requires WellBracketed(log, maxBatch) && k <= |log| && s in OpenNow(log[..k])
    ensures s in LastOpened(log[..k]) && LastOpened(log[..k])[s] == OpenNow(log[..k])[s]
    decreases k
  {
    if k > 0 {
      OpenNowStep(log, k - 1);
      if log[k - 1] != Opened(s, OpenNow(log[..k])[s]) {
        OpenWasOpened(log, maxBatch, k - 1, s);
      }
    }
  }
}
