/** `StEventCuts`: the event-level selection. A masked run rejects an event before
    anything else is looked at; otherwise every enabled check runs (none
    short-circuits another), each keeps its own failure counter, and the event is
    accepted iff all enabled checks pass. */
module EventSelection {
  import opened Inputs
  import opened RunMaskText

  /** The check flags and bounds of the evaluator (the trigger list and the run
      mask are kept beside them). */
  datatype CutConfig = CutConfig(
    checkVx: bool, checkVy: bool, checkVz: bool, checkVr: bool,
    checkRefMult: bool, useGrefMult: bool,
    minVx: real, maxVx: real, minVy: real, maxVy: real,
    minVz: real, maxVz: real, minVr: real, maxVr: real,
    minRef: uint32, maxRef: uint32)

  /** The statistics part: events seen (after the run mask) and failure counters. */
  datatype CutStats = CutStats(
    nEvents: nat, failed: nat,
    failedVx: nat, failedVy: nat, failedVz: nat, failedVr: nat, failedRef: nat,
    failedTrigger: seq<nat>, failedTriggerTotal: nat)

  /** A freshly constructed evaluator: every check off, all bounds 0. */
  const DefaultConfig := CutConfig(false, false, false, false, false, false,
    0.0, 0.0, 0.0, 0.0, 0.0, 0.0, 0.0, 0.0, 0, 0)

  const ZeroStats := CutStats(0, 0, 0, 0, 0, 0, 0, [], 0)

  /** The run id is looked up after conversion to `UInt_t`. */
  predicate RunMasked(runs: set<uint32>, e: MuEvent)
  {
    ToUInt32(e.runId) in runs
  }

  /** The range test of every `Accept*`: it fails iff v > max or v < min. */
  predicate InClosedRange(v: real, min: real, max: real)
  {
    !(v > max || v < min)
  }

  /** The multiplicity the RefMult check reads. */
  function RefMultOf(c: CutConfig, e: MuEvent): nat
  {
    if c.useGrefMult then e.grefMult else e.refMult
  }

  predicate RefMultPasses(c: CutConfig, e: MuEvent)
  {
    !(RefMultOf(c, e) > c.maxRef || RefMultOf(c, e) < c.minRef)
  }

  /** The trigger check passes iff the event carries some configured trigger. */
  predicate TriggerPasses(triggers: seq<uint32>, ids: set<uint32>)
  {
    exists i :: 0 <= i < |triggers| && triggers[i] in ids
  }

  predicate VxPasses(c: CutConfig, e: MuEvent) { InClosedRange(e.vx, c.minVx, c.maxVx) }
  predicate VyPasses(c: CutConfig, e: MuEvent) { InClosedRange(e.vy, c.minVy, c.maxVy) }
  predicate VzPasses(c: CutConfig, e: MuEvent) { InClosedRange(e.vz, c.minVz, c.maxVz) }
  predicate VrPasses(c: CutConfig, e: MuEvent) { InClosedRange(e.vr, c.minVr, c.maxVr) }

  /** Every enabled check passes. */
  predicate EnabledChecksPass(c: CutConfig, triggers: seq<uint32>, e: MuEvent)
  {
    (c.checkVx ==> VxPasses(c, e)) &&
    (c.checkVy ==> VyPasses(c, e)) &&
    (c.checkVz ==> VzPasses(c, e)) &&
    (c.checkVr ==> VrPasses(c, e)) &&
    (c.checkRefMult ==> RefMultPasses(c, e)) &&
    (|triggers| > 0 ==> TriggerPasses(triggers, e.triggerIds))
  }

  /** The verdict of `AcceptEvent`. */
  predicate Accepts(c: CutConfig, triggers: seq<uint32>, runs: set<uint32>, e: MuEvent)
  {
    !RunMasked(runs, e) && EnabledChecksPass(c, triggers, e)
  }

  /** 1 when a check ran and failed, else 0. */
  function Miss(failedHere: bool): nat
  {
    if failedHere then 1 else 0
  }

  /** Counter i grows by one exactly when trigger i is absent. */
  function BumpAbsent(counts: seq<nat>, triggers: seq<uint32>, ids: set<uint32>): (r: seq<nat>)
    requires |counts| == |triggers|
    ensures |r| == |counts|
    ensures forall i :: 0 <= i < |r| ==> r[i] == counts[i] + Miss(triggers[i] !in ids)
  {
    seq(|counts|, i requires 0 <= i < |counts| => counts[i] + Miss(triggers[i] !in ids))
  }

  /** The statistics after `AcceptEvent` has seen one event. */
  function StatsAfter(c: CutConfig, ts: seq<uint32>, runs: set<uint32>, s: CutStats, e: MuEvent): CutStats
    requires |s.failedTrigger| == |ts|
  {
    if RunMasked(runs, e) then s
    else CutStats(
      s.nEvents + 1,
      s.failed + Miss(!EnabledChecksPass(c, ts, e)),
      s.failedVx + Miss(c.checkVx && !VxPasses(c, e)),
      s.failedVy + Miss(c.checkVy && !VyPasses(c, e)),
      s.failedVz + Miss(c.checkVz && !VzPasses(c, e)),
      s.failedVr + Miss(c.checkVr && !VrPasses(c, e)),
      s.failedRef + Miss(c.checkRefMult && !RefMultPasses(c, e)),
      if |ts| > 0 then BumpAbsent(s.failedTrigger, ts, e.triggerIds) else s.failedTrigger,
      s.failedTriggerTotal + Miss(|ts| > 0 && !TriggerPasses(ts, e.triggerIds)))
  }

  /** For an event whose run is not masked, the counters field by field. */
  lemma StatsAfterUnmasked(c: CutConfig, ts: seq<uint32>, runs: set<uint32>, s: CutStats, e: MuEvent)
    requires |s.failedTrigger| == |ts|
    requires !RunMasked(runs, e)
    ensures StatsAfter(c, ts, runs, s, e).nEvents == s.nEvents + 1
    ensures StatsAfter(c, ts, runs, s, e).failed == s.failed + Miss(!EnabledChecksPass(c, ts, e))
    ensures StatsAfter(c, ts, runs, s, e).failedVx == s.failedVx + Miss(c.checkVx && !VxPasses(c, e))
    ensures StatsAfter(c, ts, runs, s, e).failedVy == s.failedVy + Miss(c.checkVy && !VyPasses(c, e))
    ensures StatsAfter(c, ts, runs, s, e).failedVz == s.failedVz + Miss(c.checkVz && !VzPasses(c, e))
    ensures StatsAfter(c, ts, runs, s, e).failedVr == s.failedVr + Miss(c.checkVr && !VrPasses(c, e))
    ensures StatsAfter(c, ts, runs, s, e).failedRef == s.failedRef + Miss(c.checkRefMult && !RefMultPasses(c, e))
    ensures StatsAfter(c, ts, runs, s, e).failedTrigger ==
      if |ts| > 0 then BumpAbsent(s.failedTrigger, ts, e.triggerIds) else s.failedTrigger
    ensures StatsAfter(c, ts, runs, s, e).failedTriggerTotal ==
      s.failedTriggerTotal + Miss(|ts| > 0 && !TriggerPasses(ts, e.triggerIds))
  {
  }

  /** What the counters always satisfy: no check fails more events than fail
      overall, no more events fail than were seen, and each failed event failed
      at least one check. */
  predicate StatsConsistent(s: CutStats)
  {
    s.failed <= s.nEvents &&
    s.failedVx <= s.failed && s.failedVy <= s.failed && s.failedVz <= s.failed &&
    s.failedVr <= s.failed && s.failedRef <= s.failed && s.failedTriggerTotal <= s.failed &&
    (forall i :: 0 <= i < |s.failedTrigger| ==> s.failedTrigger[i] <= s.nEvents) &&
    s.failed <= s.failedVx + s.failedVy + s.failedVz + s.failedVr + s.failedRef + s.failedTriggerTotal
  }

  /** `AcceptEvent` keeps the counters consistent. */
  lemma StatsAfterConsistent(c: CutConfig, ts: seq<uint32>, runs: set<uint32>, s: CutStats, e: MuEvent)
    requires |s.failedTrigger| == |ts|
    requires StatsConsistent(s)
    ensures |StatsAfter(c, ts, runs, s, e).failedTrigger| == |ts|
    ensures StatsConsistent(StatsAfter(c, ts, runs, s, e))
  {
    var r := StatsAfter(c, ts, runs, s, e);
    if !RunMasked(runs, e) && |ts| > 0 {
      assert forall i :: 0 <= i < |r.failedTrigger| ==>
        r.failedTrigger[i] == s.failedTrigger[i] + Miss(ts[i] !in e.triggerIds);
    }
  }

  /** A masked run leaves every counter as it was; an unmasked event is counted
      once, and counts as failed iff it is rejected. */
  lemma StatsAfterCounts(c: CutConfig, ts: seq<uint32>, runs: set<uint32>, s: CutStats, e: MuEvent)
    requires |s.failedTrigger| == |ts|
    ensures RunMasked(runs, e) ==> StatsAfter(c, ts, runs, s, e) == s && !Accepts(c, ts, runs, e)
    ensures !RunMasked(runs, e) ==> StatsAfter(c, ts, runs, s, e).nEvents == s.nEvents + 1
    ensures !RunMasked(runs, e) ==>
      (StatsAfter(c, ts, runs, s, e).failed == s.failed + 1 <==> !Accepts(c, ts, runs, e)) &&
      (StatsAfter(c, ts, runs, s, e).failed == s.failed <==> Accepts(c, ts, runs, e))
  {
  }

  /** No short-circuit: each enabled check that fails bumps its own counter,
      whatever the other checks did; a disabled check never touches its counter. */
  lemma NoShortCircuit(c: CutConfig, ts: seq<uint32>, runs: set<uint32>, s: CutStats, e: MuEvent)
    requires |s.failedTrigger| == |ts|
    requires !RunMasked(runs, e)
    ensures StatsAfter(c, ts, runs, s, e).failedVx == s.failedVx + 1 <==> c.checkVx && !VxPasses(c, e)
    ensures StatsAfter(c, ts, runs, s, e).failedVy == s.failedVy + 1 <==> c.checkVy && !VyPasses(c, e)
    ensures StatsAfter(c, ts, runs, s, e).failedVz == s.failedVz + 1 <==> c.checkVz && !VzPasses(c, e)
    ensures StatsAfter(c, ts, runs, s, e).failedVr == s.failedVr + 1 <==> c.checkVr && !VrPasses(c, e)
    ensures StatsAfter(c, ts, runs, s, e).failedRef == s.failedRef + 1 <==> c.checkRefMult && !RefMultPasses(c, e)
    ensures StatsAfter(c, ts, runs, s, e).failedTriggerTotal == s.failedTriggerTotal + 1 <==>
      |ts| > 0 && !TriggerPasses(ts, e.triggerIds)
    ensures |ts| == 0 ==> StatsAfter(c, ts, runs, s, e).failedTrigger == s.failedTrigger
  {
  }

  /** When no configured trigger is present, every per-trigger counter moves. */
  lemma NoTriggerBumpsAll(c: CutConfig, ts: seq<uint32>, runs: set<uint32>, s: CutStats, e: MuEvent)
    requires |s.failedTrigger| == |ts|
    requires !RunMasked(runs, e) && |ts| > 0 && !TriggerPasses(ts, e.triggerIds)
    ensures forall i :: 0 <= i < |ts| ==>
      StatsAfter(c, ts, runs, s, e).failedTrigger[i] == s.failedTrigger[i] + 1
  {
    forall i | 0 <= i < |ts|
      ensures StatsAfter(c, ts, runs, s, e).failedTrigger[i] == s.failedTrigger[i] + 1
    {
      assert ts[i] !in e.triggerIds;
    }
  }

  /** A fresh evaluator accepts every event, and with an empty trigger list the
      trigger stage never rejects. */
  lemma FreshAcceptsAll(e: MuEvent)
    ensures Accepts(DefaultConfig, [], {}, e)
  {
  }

  /** Once a trigger list is in force, only an event carrying a listed trigger
      can be accepted. */
  lemma AcceptedCarriesTrigger(c: CutConfig, ts: seq<uint32>, runs: set<uint32>, e: MuEvent)
    requires |ts| > 0
    requires Accepts(c, ts, runs, e)
    ensures exists t :: t in e.triggerIds && t in ts
  {
    var i :| 0 <= i < |ts| && ts[i] in e.triggerIds;
    assert ts[i] in ts;
  }

  /** A range check passes iff min <= v <= max. */
  lemma InClosedRangeIff(v: real, min: real, max: real)
    ensures InClosedRange(v, min, max) <==> min <= v <= max
  {
  }

  /** `AddTrigger(t)`: the list gains t at the end unless it holds t already. */
  function AddNew(ts: seq<uint32>, t: uint32): seq<uint32>
  {
    if t in ts then ts else ts + [t]
  }

  /** The vector overload: each id in order, as `AddTrigger` does it. */
  function AddAll(ts: seq<uint32>, ids: seq<uint32>): (r: seq<uint32>)
    decreases |ids|
  {
    if |ids| == 0 then ts else AddNew(AddAll(ts, ids[..|ids| - 1]), ids[|ids| - 1])
  }

  /** n zero counters. */
  function Zeros(n: nat): (r: seq<nat>)
    ensures |r| == n
    ensures forall k :: 0 <= k < n ==> r[k] == 0
  {
    if n == 0 then [] else Zeros(n - 1) + [0]
  }

  lemma AddAllSnoc(ts: seq<uint32>, ids: seq<uint32>, i: nat)
    requires i < |ids|
    ensures AddAll(ts, ids[..i + 1]) == AddNew(AddAll(ts, ids[..i]), ids[i])
  {
    assert ids[..i + 1][..i] == ids[..i];
  }

  lemma ZerosSnoc(base: seq<nat>, k: nat)
    ensures base + Zeros(k) + [0] == base + Zeros(k + 1)
  {
  }

  predicate NoDuplicates(ts: seq<uint32>)
  {
    forall i, j :: 0 <= i < j < |ts| ==> ts[i] != ts[j]
  }

  /** Adding keeps the list duplicate-free and keeps the old list as its prefix. */
  lemma AddNewKeeps(ts: seq<uint32>, t: uint32)
    requires NoDuplicates(ts)
    ensures NoDuplicates(AddNew(ts, t))
    ensures forall x :: x in AddNew(ts, t) <==> x in ts || x == t
    ensures AddNew(ts, t)[..|ts|] == ts
    ensures |AddNew(ts, t)| == |ts| + (if t in ts then 0 else 1)
  {
  }

  /** The vector overload adds exactly the given ids, keeps the list free of
      repeats and keeps the old list as its prefix. */
  lemma {:induction false} AddAllKeeps(ts: seq<uint32>, ids: seq<uint32>)
    requires NoDuplicates(ts)
    decreases |ids|
    ensures NoDuplicates(AddAll(ts, ids))
    ensures |AddAll(ts, ids)| >= |ts| && AddAll(ts, ids)[..|ts|] == ts
    ensures forall x :: x in AddAll(ts, ids) <==> x in ts || x in ids
  {
    if |ids| > 0 {
      var init := ids[..|ids| - 1];
      var last := ids[|ids| - 1];
      var prev := AddAll(ts, init);
      AddAllKeeps(ts, init);
      AddNewKeeps(prev, last);
      assert ids == init + [last];
      assert AddAll(ts, ids)[..|prev|] == prev;
      assert AddAll(ts, ids)[..|ts|] == prev[..|ts|];
    }
  }

  /** The evaluator. The header's check flags and bounds are held in `config`,
      its trigger list in `triggers`, its run mask in `runs` and its counters
      in `stats`. */
  class EventCuts {
    var config: CutConfig
    var checkTrigger: bool
    var triggers: seq<uint32>
    var runs: set<uint32>
    var stats: CutStats

    ghost predicate Valid()
      reads this
    {
      |stats.failedTrigger| == |triggers| &&
      StatsConsistent(stats) &&
      (checkTrigger <==> |triggers| > 0) &&
      NoDuplicates(triggers)
    }

    /** Every check off, every bound and counter 0, no trigger, no masked run. */
    constructor ()
      ensures Valid()
      ensures config == DefaultConfig && !checkTrigger && triggers == [] && runs == {} && stats == ZeroStats
    {
      config := DefaultConfig;
      checkTrigger := false;
      triggers := [];
      runs := {};
      stats := ZeroStats;
    }

    /** `AcceptEvent`: the verdict and the counters after it. */
    method AcceptEvent(e: MuEvent) returns (accept: bool)
      requires Valid()
      modifies this`stats
      ensures Valid()
      ensures accept == Accepts(config, triggers, runs, e)
      ensures stats == StatsAfter(config, triggers, runs, old(stats), e)
    {
      StatsAfterConsistent(config, triggers, runs, stats, e);
      var runOk := AcceptRunId(e);
      if !runOk {
        return false;
      }
      accept := ApplyChecks(e);
    }

    /** The part of `AcceptEvent` after the run mask: the event is counted, every
        enabled check runs, and a rejected event is counted as failed. */
    method ApplyChecks(e: MuEvent) returns (accept: bool)
      requires |stats.failedTrigger| == |triggers|
      requires checkTrigger <==> |triggers| > 0
      requires !RunMasked(runs, e)
      modifies this`stats
      ensures accept == EnabledChecksPass(config, triggers, e)
      ensures stats == StatsAfter(config, triggers, runs, old(stats), e)
    {
      ghost var before := stats;
      stats := stats.(nEvents := stats.nEvents + 1);
      var okVertex := StageVertex(e);
      var okRef := StageRefMult(e);
      var okTrigger := StageTrigger(e);
      accept := okVertex && okRef && okTrigger;
      if !accept {
        stats := stats.(failed := stats.failed + 1);
      }
      StatsAfterUnmasked(config, triggers, runs, before, e);
    }

    /** The four vertex lines, in order. */
    method StageVertex(e: MuEvent) returns (ok: bool)
      modifies this`stats
      ensures ok == ((config.checkVx ==> VxPasses(config, e)) && (config.checkVy ==> VyPasses(config, e)) &&
                     (config.checkVz ==> VzPasses(config, e)) && (config.checkVr ==> VrPasses(config, e)))
      ensures stats == old(stats).(
        failedVx := old(stats).failedVx + Miss(config.checkVx && !VxPasses(config, e)),
        failedVy := old(stats).failedVy + Miss(config.checkVy && !VyPasses(config, e)),
        failedVz := old(stats).failedVz + Miss(config.checkVz && !VzPasses(config, e)),
        failedVr := old(stats).failedVr + Miss(config.checkVr && !VrPasses(config, e)))
    {
      var okVx := StageVx(e);
      var okVy := StageVy(e);
      var okVz := StageVz(e);
      var okVr := StageVr(e);
      ok := okVx && okVy && okVz && okVr;
    }

    /** `if (mCheckVx && !AcceptVx(event))`: true when the event survives the line. */
    method StageVx(e: MuEvent) returns (ok: bool)
      modifies this`stats
      ensures ok == (config.checkVx ==> VxPasses(config, e))
      ensures stats == old(stats).(failedVx := old(stats).failedVx + Miss(config.checkVx && !VxPasses(config, e)))
    {
      ok := true;
      if config.checkVx {
        ok := AcceptVx(e);
      }
    }

    /** `if (mCheckVy && !AcceptVy(event))`. */
    method StageVy(e: MuEvent) returns (ok: bool)
      modifies this`stats
      ensures ok == (config.checkVy ==> VyPasses(config, e))
      ensures stats == old(stats).(failedVy := old(stats).failedVy + Miss(config.checkVy && !VyPasses(config, e)))
    {
      ok := true;
      if config.checkVy {
        ok := AcceptVy(e);
      }
    }

    /** `if (mCheckVz && !AcceptVz(event))`. */
    method StageVz(e: MuEvent) returns (ok: bool)
      modifies this`stats
      ensures ok == (config.checkVz ==> VzPasses(config, e))
      ensures stats == old(stats).(failedVz := old(stats).failedVz + Miss(config.checkVz && !VzPasses(config, e)))
    {
      ok := true;
      if config.checkVz {
        ok := AcceptVz(e);
      }
    }

    /** `if (mCheckVr && !AcceptVr(event))`. */
    method StageVr(e: MuEvent) returns (ok: bool)
      modifies this`stats
      ensures ok == (config.checkVr ==> VrPasses(config, e))
      ensures stats == old(stats).(failedVr := old(stats).failedVr + Miss(config.checkVr && !VrPasses(config, e)))
    {
      ok := true;
      if config.checkVr {
        ok := AcceptVr(e);
      }
    }

    /** `if (mCheckRefMult && !AcceptRefMult(event))`. */
    method StageRefMult(e: MuEvent) returns (ok: bool)
      modifies this`stats
      ensures ok == (config.checkRefMult ==> RefMultPasses(config, e))
      ensures stats == old(stats).(failedRef := old(stats).failedRef + Miss(config.checkRefMult && !RefMultPasses(config, e)))
    {
      ok := true;
      if config.checkRefMult {
        ok := AcceptRefMult(e);
      }
    }

    /** `if (mCheckTrigger && !AcceptTrigger(event))`. */
    method StageTrigger(e: MuEvent) returns (ok: bool)
      requires |stats.failedTrigger| == |triggers|
      modifies this`stats
      requires checkTrigger <==> |triggers| > 0
      ensures ok == (checkTrigger ==> TriggerPasses(triggers, e.triggerIds))
      ensures stats == old(stats).(
        failedTrigger := if checkTrigger
          then BumpAbsent(old(stats).failedTrigger, triggers, e.triggerIds)
          else old(stats).failedTrigger,
        failedTriggerTotal := old(stats).failedTriggerTotal +
          Miss(checkTrigger && !TriggerPasses(triggers, e.triggerIds)))
    {
      ok := true;
      if checkTrigger {
        ok := AcceptTrigger(e);
      }
    }

    method AcceptVx(e: MuEvent) returns (pass: bool)
      modifies this`stats
      ensures pass == VxPasses(config, e)
      ensures stats == old(stats).(failedVx := old(stats).failedVx + Miss(!pass))
    {
      if e.vx > config.maxVx || e.vx < config.minVx {
        stats := stats.(failedVx := stats.failedVx + 1);
        return false;
      }
      return true;
    }

    method AcceptVy(e: MuEvent) returns (pass: bool)
      modifies this`stats
      ensures pass == VyPasses(config, e)
      ensures stats == old(stats).(failedVy := old(stats).failedVy + Miss(!pass))
    {
      if e.vy > config.maxVy || e.vy < config.minVy {
        stats := stats.(failedVy := stats.failedVy + 1);
        return false;
      }
      return true;
    }

    method AcceptVz(e: MuEvent) returns (pass: bool)
      modifies this`stats
      ensures pass == VzPasses(config, e)
      ensures stats == old(stats).(failedVz := old(stats).failedVz + Miss(!pass))
    {
      if e.vz > config.maxVz || e.vz < config.minVz {
        stats := stats.(failedVz := stats.failedVz + 1);
        return false;
      }
      return true;
    }

    /** The transverse radius is taken from the event record. */
    method AcceptVr(e: MuEvent) returns (pass: bool)
      modifies this`stats
      ensures pass == VrPasses(config, e)
      ensures stats == old(stats).(failedVr := old(stats).failedVr + Miss(!pass))
    {
      if e.vr > config.maxVr || e.vr < config.minVr {
        stats := stats.(failedVr := stats.failedVr + 1);
        return false;
      }
      return true;
    }

    method AcceptRefMult(e: MuEvent) returns (pass: bool)
      modifies this`stats
      ensures pass == RefMultPasses(config, e)
      ensures stats == old(stats).(failedRef := old(stats).failedRef + Miss(!pass))
    {
      var refmult := if config.useGrefMult then e.grefMult else e.refMult;
      if refmult > config.maxRef || refmult < config.minRef {
        stats := stats.(failedRef := stats.failedRef + 1);
        return false;
      }
      return true;
    }

    /** Every trigger in the list is looked up; each absent one bumps its own
        counter, and the total counter moves when none is present. */
    method AcceptTrigger(e: MuEvent) returns (accept: bool)
      requires |stats.failedTrigger| == |triggers|
      modifies this`stats
      ensures accept == TriggerPasses(triggers, e.triggerIds)
      ensures stats == old(stats).(
        failedTrigger := BumpAbsent(old(stats).failedTrigger, triggers, e.triggerIds),
        failedTriggerTotal := old(stats).failedTriggerTotal + Miss(!accept))
    {
      accept := false;
      var i := 0;
      while i < |triggers|
        invariant 0 <= i <= |triggers|
        invariant |stats.failedTrigger| == |triggers|
        invariant stats == old(stats).(failedTrigger := stats.failedTrigger)
        invariant accept <==> exists k :: 0 <= k < i && triggers[k] in e.triggerIds
        invariant forall k :: 0 <= k < i ==>
          stats.failedTrigger[k] == old(stats).failedTrigger[k] + Miss(triggers[k] !in e.triggerIds)
        invariant forall k :: i <= k < |triggers| ==> stats.failedTrigger[k] == old(stats).failedTrigger[k]
      {
        if triggers[i] in e.triggerIds {
          accept := true;
        } else {
          stats := stats.(failedTrigger := stats.failedTrigger[i := stats.failedTrigger[i] + 1]);
        }
        i := i + 1;
      }
      if !accept {
        stats := stats.(failedTriggerTotal := stats.failedTriggerTotal + 1);
      }
    }

    /** `AcceptRunId`: false iff the run is masked. */
    method AcceptRunId(e: MuEvent) returns (pass: bool)
      ensures pass <==> !RunMasked(runs, e)
    {
      var runid := ToUInt32(e.runId);
      return runid !in runs;
    }

    method SetVxRange(min: real, max: real)
      requires Valid()
      modifies this`config
      ensures Valid()
      ensures config == old(config).(checkVx := true, minVx := min, maxVx := max)
      ensures MinVx() == min && MaxVx() == max
    {
      config := config.(checkVx := true, minVx := min, maxVx := max);
    }

    method SetVyRange(min: real, max: real)
      requires Valid()
      modifies this`config
      ensures Valid()
      ensures config == old(config).(checkVy := true, minVy := min, maxVy := max)
      ensures MinVy() == min && MaxVy() == max
    {
      config := config.(checkVy := true, minVy := min, maxVy := max);
    }

    method SetVzRange(min: real, max: real)
      requires Valid()
      modifies this`config
      ensures Valid()
      ensures config == old(config).(checkVz := true, minVz := min, maxVz := max)
      ensures MinVz() == min && MaxVz() == max
    {
      config := config.(checkVz := true, minVz := min, maxVz := max);
    }

    method SetVrRange(min: real, max: real)
      requires Valid()
      modifies this`config
      ensures Valid()
      ensures config == old(config).(checkVr := true, minVr := min, maxVr := max)
      ensures MinVr() == min && MaxVr() == max
    {
      config := config.(checkVr := true, minVr := min, maxVr := max);
    }

    method SetRefMultRange(min: uint32, max: uint32)
      requires Valid()
      modifies this`config
      ensures Valid()
      ensures config == old(config).(checkRefMult := true, minRef := min, maxRef := max)
      ensures MinRef() == min && MaxRef() == max
    {
      config := config.(checkRefMult := true, minRef := min, maxRef := max);
    }

    /** `UsegRefMult`: chooses the multiplicity; does not enable the check. */
    method UsegRefMult(useGref: bool)
      requires Valid()
      modifies this`config
      ensures Valid()
      ensures config == old(config).(useGrefMult := useGref)
    {
      config := config.(useGrefMult := useGref);
    }

    /** `AddTrigger(trigger)`: a new trigger is appended with a zero counter and
        turns the trigger check on; a known one changes nothing. */
    method AddTrigger(trigger: uint32)
      requires Valid()
      modifies this`checkTrigger, this`triggers, this`stats
      ensures Valid()
      ensures triggers == AddNew(old(triggers), trigger)
      ensures checkTrigger == (old(checkTrigger) || trigger !in old(triggers))
      ensures stats == old(stats).(failedTrigger := old(stats).failedTrigger +
        (if trigger in old(triggers) then [] else [0]))
    {
      AddNewKeeps(triggers, trigger);
      if trigger !in triggers {
        checkTrigger := true;
        triggers := triggers + [trigger];
        stats := stats.(failedTrigger := stats.failedTrigger + [0]);
      }
    }

    /** `AddTrigger(vector)`: each id in order, with the same test. */
    method AddTriggers(ids: seq<uint32>)
      requires Valid()
      modifies this`checkTrigger, this`triggers, this`stats
      ensures Valid()
      ensures triggers == AddAll(old(triggers), ids)
      ensures checkTrigger == (old(checkTrigger) || |triggers| > |old(triggers)|)
      ensures |triggers| >= |old(triggers)|
      ensures stats == old(stats).(failedTrigger :=
        old(stats).failedTrigger + Zeros(|triggers| - |old(triggers)|))
    {
      ghost var t0 := triggers;
      ghost var s0 := stats;
      ghost var c0 := checkTrigger;
      var id := 0;
      while id < |ids|
        invariant 0 <= id <= |ids|
        invariant Valid()
        invariant triggers == AddAll(t0, ids[..id])
        invariant checkTrigger == (c0 || |triggers| > |t0|)
        invariant |triggers| >= |t0|
        invariant stats == s0.(failedTrigger := s0.failedTrigger + Zeros(|triggers| - |t0|))
      {
        AddAllSnoc(t0, ids, id);
        ghost var k := |triggers| - |t0|;
        AddTrigger(ids[id]);
        ZerosSnoc(s0.failedTrigger, k);
        id := id + 1;
      }
      assert ids[..|ids|] == ids;
    }

    /** `MaskRuns(run)`: one more masked run id. */
    method MaskRun(run: uint32)
      requires Valid()
      modifies this`runs
      ensures Valid()
      ensures runs == old(runs) + {run}
    {
      runs := runs + {run};
    }

    /** `MaskRuns(filename)`, given the file's contents (None when it cannot be
        read): false without a change when unreadable; otherwise every id the
        text lists is masked and the result is true. */
    method MaskRunsFile(contents: Option<string>) returns (ok: bool)
      requires Valid()
      modifies this`runs
      ensures Valid()
      ensures ok <==> contents.Some?
      ensures contents.None? ==> runs == old(runs)
      ensures contents.Some? ==> runs == old(runs) + MaskedIds(contents.value)
    {
      if contents.None? {
        return false;
      }
      var lines := Split(contents.value, '\n');
      var i := 0;
      while i < |lines|
        invariant 0 <= i <= |lines|
        invariant runs == old(runs) + LinesIds(lines[..i])
      {
        assert lines[..i + 1][..i] == lines[..i];
        MaskLine(lines[i]);
        i := i + 1;
      }
      assert lines[..|lines|] == lines;
      return true;
    }

    /** The body of the line loop of `MaskRuns(filename)`: an empty line or a
        comment is skipped; otherwise every comma-separated field is read with
        `atoi` and a nonzero value is masked. */
    method MaskLine(line: string)
      modifies this`runs
      ensures runs == old(runs) + LineIds(line)
    {
      if |line| == 0 || line[0] == '#' {
        return;
      }
      var fields := Split(line, ',');
      var j := 0;
      while j < |fields|
        invariant 0 <= j <= |fields|
        invariant runs == old(runs) + FieldIds(fields[..j])
      {
        var id := Atoi(fields[j]);
        if id != 0 {
          runs := runs + {ToUInt32(id)};
        }
        assert fields[..j + 1][..j] == fields[..j];
        j := j + 1;
      }
      assert fields[..|fields|] == fields;
    }

    /** `MaskRuns()`: the current mask. */
    function MaskedRuns(): set<uint32>
      reads this
    {
      runs
    }

    /** `Triggers()`: the current trigger list. */
    function Triggers(): seq<uint32>
      reads this
    {
      triggers
    }

    function MinVx(): real reads this { config.minVx }
    function MaxVx(): real reads this { config.maxVx }
    function MinVy(): real reads this { config.minVy }
    function MaxVy(): real reads this { config.maxVy }
    function MinVz(): real reads this { config.minVz }
    function MaxVz(): real reads this { config.maxVz }
    function MinVr(): real reads this { config.minVr }
    function MaxVr(): real reads this { config.maxVr }
    function MinRef(): uint32 reads this { config.minRef }
    function MaxRef(): uint32 reads this { config.maxRef }
  }
}
