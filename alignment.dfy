/** Event alignment (`LoadEvent`, identical in both maker variants): a cursor into
    the truth chain, kept across calls, is walked forward with wraparound until the
    loaded truth entry carries the reconstructed event's (eventId, runId). */
module Alignment {
  import opened Inputs

  /** One step of the cursor: `current_++`, then back to 0 at the end of the chain. */
  function Advance(c: nat, n: nat): (r: nat)
    requires n > 0
    ensures r < n
    ensures c < n ==> r == (c + 1) % n
  {
    if c + 1 >= n then
      assert c < n ==> c + 1 == n && (c + 1) % n == 0;
      0
    else c + 1
  }

  datatype SearchResult = SearchResult(found: bool, cursor: nat)

  /** The search loop entered with `nTries == tries`: advance, load, compare;
      stop on a match, or once `nTries` has dropped below zero. */
  function Search(chain: seq<MiniMcEvent>, c: nat, target: EventId, tries: int): SearchResult
    requires |chain| > 0
    decreases tries + 1
  {
    if tries < 0 then SearchResult(false, c)
    else
      var next := Advance(c, |chain|);
      if TruthIdentity(chain[next]) == target then SearchResult(true, next)
      else Search(chain, next, target, tries - 1)
  }

  /** The whole of `LoadEvent`: the entry already loaded is tried first, then
      the search runs with `nTries` starting at the chain length. */
  function Align(chain: seq<MiniMcEvent>, current: nat, loaded: MiniMcEvent, target: EventId): SearchResult
    requires |chain| > 0
  {
    if TruthIdentity(loaded) == target then SearchResult(true, current)
    else Search(chain, current, target, |chain|)
  }

  /** The cursor after k advances from c. */
  function Step(c: nat, n: nat, k: nat): (r: nat)
    requires n > 0
    ensures c < n ==> r < n
    decreases k
  {
    if k == 0 then c else Step(Advance(c, n), n, k - 1)
  }

  /** Within one turn of the chain, k advances from c reach c + k, wrapped once. */
  lemma {:induction false} StepValue(c: nat, n: nat, k: nat)
    requires n > 0 && c < n && k <= n
    decreases k
    ensures Step(c, n, k) == if c + k < n then c + k else c + k - n
  {
    if k > 0 {
      StepValue(Advance(c, n), n, k - 1);
    }
  }

  /** The number of advances the search makes before it stops. */
  function Advances(chain: seq<MiniMcEvent>, c: nat, target: EventId, tries: int): nat
    requires |chain| > 0
    decreases tries + 1
  {
    if tries < 0 then 0
    else
      var next := Advance(c, |chain|);
      if TruthIdentity(chain[next]) == target then 1
      else 1 + Advances(chain, next, target, tries - 1)
  }

  /** A successful search stops on an entry with the target identity, reached
      after k advances (1 <= k <= tries + 1), with no match at any earlier advance. */
  lemma {:induction false} SearchFindsFirstMatch(chain: seq<MiniMcEvent>, c: nat, target: EventId, tries: int)
    requires |chain| > 0 && c < |chain|
    requires Search(chain, c, target, tries).found
    decreases tries + 1
    ensures Search(chain, c, target, tries).cursor < |chain|
    ensures TruthIdentity(chain[Search(chain, c, target, tries).cursor]) == target
    ensures 1 <= Advances(chain, c, target, tries) <= tries + 1
    ensures Search(chain, c, target, tries).cursor == Step(c, |chain|, Advances(chain, c, target, tries))
    ensures forall j :: 1 <= j < Advances(chain, c, target, tries) ==>
      TruthIdentity(chain[Step(c, |chain|, j)]) != target
  {
    var n := |chain|;
    var next := Advance(c, n);
    assert Step(c, n, 1) == next;
    if TruthIdentity(chain[next]) != target {
      SearchFindsFirstMatch(chain, next, target, tries - 1);
      var k := Advances(chain, next, target, tries - 1);
      assert Step(c, n, k + 1) == Step(next, n, k);
      forall j | 1 <= j < k + 1
        ensures TruthIdentity(chain[Step(c, n, j)]) != target
      {
        assert Step(c, n, j) == Step(next, n, j - 1);
      }
    }
  }

  /** A search that runs out of tries leaves the cursor tries + 1 advances on. */
  lemma {:induction false} SearchFailureCursor(chain: seq<MiniMcEvent>, c: nat, target: EventId, tries: int)
    requires |chain| > 0 && c < |chain| && tries >= -1
    requires !Search(chain, c, target, tries).found
    decreases tries + 1
    ensures Search(chain, c, target, tries).cursor == Step(c, |chain|, tries + 1)
  {
    if tries >= 0 {
      var next := Advance(c, |chain|);
      SearchFailureCursor(chain, next, target, tries - 1);
    }
  }

  /** Every entry reached within tries + 1 advances is found if it matches. */
  lemma {:induction false} SearchReaches(chain: seq<MiniMcEvent>, c: nat, target: EventId, tries: int, k: nat)
    requires |chain| > 0 && c < |chain|
    requires 1 <= k <= tries + 1
    requires TruthIdentity(chain[Step(c, |chain|, k)]) == target
    decreases k
    ensures Search(chain, c, target, tries).found
  {
    var n := |chain|;
    var next := Advance(c, n);
    if TruthIdentity(chain[next]) != target {
      assert k != 1;
      SearchReaches(chain, next, target, tries - 1, k - 1);
    }
  }

  /** Success means a match: a true result always leaves, at the cursor, an
      entry whose identity is the target (the loaded entry on the fast path). */
  lemma AlignSound(chain: seq<MiniMcEvent>, current: nat, loaded: MiniMcEvent, target: EventId)
    requires |chain| > 0 && current < |chain|
    requires Align(chain, current, loaded, target).found
    ensures var r := Align(chain, current, loaded, target);
      r.cursor < |chain| &&
      (TruthIdentity(loaded) == target || TruthIdentity(chain[r.cursor]) == target)
  {
    if TruthIdentity(loaded) != target {
      SearchFindsFirstMatch(chain, current, target, |chain|);
    }
  }

  /** Bounded, complete search: a target present anywhere in the chain is found,
      whatever the starting cursor. */
  lemma AlignComplete(chain: seq<MiniMcEvent>, current: nat, loaded: MiniMcEvent, target: EventId, i: nat)
    requires |chain| > 0 && current < |chain| && i < |chain|
    requires TruthIdentity(chain[i]) == target
    ensures Align(chain, current, loaded, target).found
  {
    var n := |chain|;
    if TruthIdentity(loaded) != target {
      var k := if i > current then i - current else i + n - current;
      StepValue(current, n, k);
      SearchReaches(chain, current, target, n, k);
    }
  }

  /** Failure means no entry matches, and after N+1 advances the cursor rests
      one step past where it started. */
  lemma AlignFailure(chain: seq<MiniMcEvent>, current: nat, loaded: MiniMcEvent, target: EventId)
    requires |chain| > 0 && current < |chain|
    requires !Align(chain, current, loaded, target).found
    ensures TruthIdentity(loaded) != target
    ensures forall i :: 0 <= i < |chain| ==> TruthIdentity(chain[i]) != target
    ensures Align(chain, current, loaded, target).cursor == (current + 1) % |chain|
  {
    var n := |chain|;
    forall i | 0 <= i < n
      ensures TruthIdentity(chain[i]) != target
    {
      if TruthIdentity(chain[i]) == target {
        AlignComplete(chain, current, loaded, target, i);
      }
    }
    SearchFailureCursor(chain, current, target, n);
    var next := Advance(current, n);
    assert Step(current, n, n + 1) == Step(next, n, n);
    StepValue(next, n, n);
  }

  /** The cursor never leaves [0, N). */
  lemma AlignCursorInRange(chain: seq<MiniMcEvent>, current: nat, loaded: MiniMcEvent, target: EventId)
    requires |chain| > 0 && current < |chain|
    ensures Align(chain, current, loaded, target).cursor < |chain|
  {
    if !Align(chain, current, loaded, target).found {
      AlignFailure(chain, current, loaded, target);
    } else {
      AlignSound(chain, current, loaded, target);
    }
  }

  /** The truth-chain cursor (`current_`) and the entry currently loaded into the
      event buffer (`event_`). */
  class EventAligner {
    const chain: seq<MiniMcEvent>
    var current: nat
    var loaded: MiniMcEvent

    ghost predicate Valid()
      reads this
    {
      |chain| > 0 && current < |chain| && loaded == chain[current]
    }

    /** Loading the chain reads entry 0; the constructor then sets the cursor to 0. */
    constructor (entries: seq<MiniMcEvent>)
      requires |entries| > 0
      ensures Valid()
      ensures chain == entries && current == 0 && loaded == entries[0]
    {
      chain := entries;
      current := 0;
      loaded := entries[0];
    }

    /** `LoadEvent`: true iff the truth entry with the target identity is now loaded. */
    method LoadEvent(target: EventId) returns (found: bool)
      requires Valid()
      modifies this
      ensures Valid()
      ensures var r := Align(chain, old(current), old(loaded), target);
        found == r.found && current == r.cursor
      ensures found ==> TruthIdentity(loaded) == target
      ensures TruthIdentity(old(loaded)) == target ==> loaded == old(loaded)
      ensures TruthIdentity(old(loaded)) != target ==> loaded == chain[current]
      ensures found <==> exists i :: 0 <= i < |chain| && TruthIdentity(chain[i]) == target
    {
      var nTries := |chain|;
      if TruthIdentity(loaded) == target {
        return true;
      }
      ghost var start, first := current, loaded;
      while nTries >= 0
        invariant -1 <= nTries <= |chain|
        invariant current < |chain|
        invariant nTries < |chain| ==> loaded == chain[current]
        invariant TruthIdentity(loaded) != target
        invariant Search(chain, current, target, nTries) == Search(chain, start, target, |chain|)
        decreases nTries + 1
      {
        current := Advance(current, |chain|);
        nTries := nTries - 1;
        loaded := chain[current];
        if TruthIdentity(loaded) == target {
          return true;
        }
      }
      AlignFailure(chain, start, first, target);
      return false;
    }
  }
}
