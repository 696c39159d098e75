/**
 The engine of src/cache_policies/policy_engine.py: snapshot, decide, apply, record. A cycle never yields to other
 tasks, so it is one step; `free` stands for the placeholder of the free GPU memory.
 */
module PolicyEngine {
  import opened Sequences
  import opened Numbers
  import opened Sorting
  import opened Selection
  import opened Schema
  import opened Effects
  import opened Policies
  import opened TrackerModel
  import opened BlockTracker
  import opened PolicyObjects
  import opened TelemetryModel
  import opened Collector
  import opened EngineTelemetry

  /** Changing the tier and then the score of one block, or removing it, is carrying out its decision. */
  lemma {:induction false} DecisionByTrackerCalls(s: State, d: PolicyDecision)
    requires Distinct(s, BlockId)
    ensures d.decision == Evict ==> Without(s, d.block) == ApplyOne(s, d)
    ensures d.decision != Evict ==>
      AtBlock(AtBlock(s, d.block, Retiered(TierFor(d.decision))), d.block, Rescored(d.score)) == ApplyOne(s, d)
  {
    if d.decision == Evict {
      EvictionIsSettle(s, d);
    } else {
      RelabelIsSettle(s, d);
    }
  }

  lemma {:induction false} EvictionIsSettle(s: State, d: PolicyDecision)
    requires d.decision == Evict
    ensures Without(s, d.block) == Settle(s, map[d.block := d])
  {
    if s != [] {
      EvictionIsSettle(s[1..], d);
    }
  }

  lemma {:induction false} RelabelIsSettle(s: State, d: PolicyDecision)
    requires d.decision != Evict
    ensures AtBlock(AtBlock(s, d.block, Retiered(TierFor(d.decision))), d.block, Rescored(d.score))
         == Settle(s, map[d.block := d])
  {
    if s != [] {
      RelabelIsSettle(s[1..], d);
      var t := AtBlock(s, d.block, Retiered(TierFor(d.decision)));
      assert t[1..] == AtBlock(s[1..], d.block, Retiered(TierFor(d.decision)));
      assert t[0].id == s[0].id;
    }
  }

  class Engine {
    var policy: Policy
    const tracker: Tracker
    const collector: TelemetryCollector?
    const historySize: nat
    var history: seq<Stats>
    var cycleCount: nat

    ghost predicate Valid()
      reads this, tracker, tracker.blocks.Values
    {
      tracker.Valid() && |history| <= historySize
    }

    constructor (policy: Policy, tracker: Tracker, collector: TelemetryCollector?, historySize: nat)
      requires tracker.Valid()
      ensures Valid() && this.policy == policy && this.tracker == tracker && this.collector == collector
      ensures this.historySize == historySize && history == [] && cycleCount == 0
    {
      this.policy, this.tracker, this.collector, this.historySize := policy, tracker, collector, historySize;
      history, cycleCount := [], 0;
    }

    /** Decision after decision: evict, or move to the mapped tier and store the score. */
    method ApplyDecisions(decisions: seq<PolicyDecision>)
      requires Valid()
      modifies tracker, tracker.blocks.Values
      ensures Valid() && tracker.blocks.Values <= old(tracker.blocks.Values)
      ensures tracker.contents == ApplyAll(old(tracker.contents), decisions)
    {
      for i := 0 to |decisions|
        invariant tracker.Valid() && tracker.blocks.Values <= old(tracker.blocks.Values)
        invariant tracker.contents == ApplyAll(old(tracker.contents), decisions[..i])
      {
        var d := decisions[i];
        assert Init(decisions[..i + 1]) == decisions[..i];
        tracker.ContentsAreDistinct();
        DecisionByTrackerCalls(tracker.contents, d);
        if d.decision == Evict {
          var _ := tracker.EvictBlock(d.block);
        } else {
          tracker.UpdateTier(d.block, TierFor(d.decision));
          tracker.SetImportanceScore(d.block, d.score);
        }
      }
      assert decisions[..|decisions|] == decisions;
    }

    /** One row per decision whose block is still there; a flush that fails inside a record call stops nothing. */
    method RecordDecisions(target: TelemetryCollector, decisions: seq<PolicyDecision>)
      requires Valid()
      modifies target, target.storage
      ensures Valid() && tracker.contents == old(tracker.contents)
      ensures AllRows(target.State()) ==
        AllRows(old(target.State())) + if target.setup.enabled then Records(tracker.contents, decisions) else []
    {
      for i := 0 to |decisions|
        invariant Valid() && tracker.contents == old(tracker.contents)
        invariant AllRows(target.State()) ==
          AllRows(old(target.State())) + if target.setup.enabled then Records(tracker.contents, decisions[..i]) else []
      {
        assert Init(decisions[..i + 1]) == decisions[..i];
        RecordDecision(target, decisions[i]);
      }
      assert decisions[..|decisions|] == decisions;
    }

    method RecordDecision(target: TelemetryCollector, d: PolicyDecision)
      requires Valid()
      modifies target, target.storage
      ensures Valid() && tracker.contents == old(tracker.contents)
      ensures AllRows(target.State()) ==
        AllRows(old(target.State())) + if target.setup.enabled then RecordFor(tracker.contents, d) else []
    {
      var block := tracker.GetBlock(d.block);
      FoundByGetBlock(d.block);
      if block != null {
        ghost var before := target.State();
        var view := block.View();
        var failed := target.RecordBlockEvent(view, d.decision);
        StepConserves(target.setup, before, RecordEvent(FromBlockState(view, d.decision), failed));
      }
    }

    lemma {:induction false} FoundByGetBlock(id: int)
      requires tracker.Valid()
      ensures Find(tracker.contents, id) == if id in tracker.blocks then Some(tracker.blocks[id].View()) else None
    {
      tracker.TrackedIds(id);
      tracker.ContentsAreDistinct();
      FindNothing(tracker.contents, id);
      if id in tracker.blocks {
        var b := Find(tracker.contents, id).value;
        tracker.ViewOf(b);
      }
    }

    /** The system metrics of a snapshot and the decisions of the active policy on it. */
    method TakeDecisions(free: real, prediction: Prediction) returns (decisions: seq<PolicyDecision>)
      requires Valid() && tracker.contents != []
      modifies policy
      ensures decisions == CycleDecisions(tracker.sizes, tracker.contents, policy.kind, policy.config, free, prediction)
      ensures policy.lastStats == if policy.Delegates() then old(policy.lastStats)
        else Some(StatsOf(policy.kind, decisions, EnginePressure(tracker.sizes, tracker.contents, free)))
      ensures policy.pressureHistory ==
        policy.HistoryAfter(old(policy.pressureHistory), EnginePressure(tracker.sizes, tracker.contents, free))
    {
      var live := tracker.GetAllBlocks();
      var blocks := Views(live);
      var _, gpuMb, _ := tracker.GetMemoryStats();
      var m := Metrics(gpuMb, free, Some(MaxStep(blocks)), Some(MaxPeak(blocks)), Unknown);
      decisions := policy.Decide(blocks, m, prediction);
    }

    method DecideAndApply(free: real, prediction: Prediction) returns (decisions: seq<PolicyDecision>)
      requires Valid() && tracker.contents != []
      modifies policy, tracker, tracker.blocks.Values
      ensures Valid() && tracker.blocks.Values <= old(tracker.blocks.Values)
      ensures decisions ==
        CycleDecisions(tracker.sizes, old(tracker.contents), policy.kind, policy.config, free, prediction)
      ensures tracker.contents ==
        Cycle(tracker.sizes, old(tracker.contents), policy.kind, policy.config, free, prediction)
      ensures policy.lastStats == if policy.Delegates() then old(policy.lastStats)
        else Some(StatsOf(policy.kind, decisions, EnginePressure(tracker.sizes, old(tracker.contents), free)))
      ensures policy.pressureHistory ==
        policy.HistoryAfter(old(policy.pressureHistory), EnginePressure(tracker.sizes, old(tracker.contents), free))
    {
      decisions := TakeDecisions(free, prediction);
      ApplyDecisions(decisions);
    }

    /** The ring buffer of the last statistics. */
    method Remember(stats: Option<Stats>)
      requires |history| <= historySize
      modifies this`history
      ensures history == if stats == None then old(history) else TakeLast(old(history) + [stats.value], historySize)
      ensures |history| <= historySize
    {
      if stats.Some? {
        history := TakeLast(history + [stats.value], historySize);
      }
    }

    /**
     Snapshot, decide, apply, record; nothing at all happens on an empty tracker. `decisions` are those of the
     active policy, named for the specification only.
     */
    method RunPolicyCycle(free: real, prediction: Prediction)
      returns (stats: Option<Stats>, ghost decisions: seq<PolicyDecision>)
      requires Valid()
      modifies this`history, this`cycleCount, policy, tracker, tracker.blocks.Values
      modifies if collector != null then {collector, collector.storage} else {}
      ensures Valid() && policy == old(policy)
      ensures decisions ==
        CycleDecisions(tracker.sizes, old(tracker.contents), policy.kind, policy.config, MaxReal(0.0, free), prediction)
      ensures tracker.contents ==
        Cycle(tracker.sizes, old(tracker.contents), policy.kind, policy.config, MaxReal(0.0, free), prediction)
      ensures collector == null
        || AllRows(collector.State()) == AllRows(old(if collector != null then collector.State() else EMPTY))
           + if collector.setup.enabled then Records(tracker.contents, decisions) else []
      ensures old(tracker.contents) == [] ==>
        && stats == None && history == old(history) && cycleCount == old(cycleCount)
        && policy.lastStats == old(policy.lastStats) && policy.pressureHistory == old(policy.pressureHistory)
      ensures old(tracker.contents) != [] ==>
        && stats == policy.lastStats
        && (stats == if policy.Delegates() then old(policy.lastStats)
             else Some(StatsOf(policy.kind, decisions,
                               EnginePressure(tracker.sizes, old(tracker.contents), MaxReal(0.0, free)))))
        && policy.pressureHistory ==
           policy.HistoryAfter(old(policy.pressureHistory),
                               EnginePressure(tracker.sizes, old(tracker.contents), MaxReal(0.0, free)))
        && cycleCount == old(cycleCount) + 1
        && history == if stats == None then old(history) else TakeLast(old(history) + [stats.value], historySize)
    {
      var live := tracker.GetAllBlocks();
      if live == [] {
        return None, [];
      }
      var taken := DecideAndApply(MaxReal(0.0, free), prediction);
      decisions := taken;
      if collector != null {
        RecordDecisions(collector, taken);
      }
      stats := Conclude();
    }

    /** The statistics of the policy go into the history, and the cycle counts. */
    method Conclude() returns (stats: Option<Stats>)
      requires |history| <= historySize
      modifies this`history, this`cycleCount
      ensures stats == policy.lastStats && cycleCount == old(cycleCount) + 1
      ensures history == if stats == None then old(history) else TakeLast(old(history) + [stats.value], historySize)
      ensures |history| <= historySize
    {
      stats := policy.lastStats;
      Remember(stats);
      cycleCount := cycleCount + 1;
    }

    method OverridePolicy(newPolicy: Policy)
      requires Valid()
      modifies this`policy
      ensures Valid() && policy == newPolicy
    {
      policy := newPolicy;
    }
  }

  /** Everything a collector has taken in: what is stored, then what is buffered. */
  function AllRows(t: Telemetry): seq<Record> {
    t.stored + t.buffer
  }
}
