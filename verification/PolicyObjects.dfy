/**
 The policy objects of src/cache_policies/: decide() as the loops of the source, with the statistics it leaves behind.
 One class stands for the policy classes; `kind` says which one an object is.
 */
module PolicyObjects {
  import opened Sequences
  import opened Sorting
  import opened Selection
  import opened Schema
  import opened Policies
  import opened Promises

  /** PolicyStats without the clock readings. */
  datatype Stats = Stats(kind: Kind, evaluated: nat, decisions: map<Decision, nat>, pressure: real)

  /** Only decisions that occur have an entry. */
  function Counts(ds: seq<PolicyDecision>): map<Decision, nat> {
    map d: Decision | d in {KeepGpu, Quantize, OffloadCpu, Evict} && CountOf(ds, d) > 0 :: CountOf(ds, d)
  }

  lemma {:induction false} CountsOneMore(ds: seq<PolicyDecision>, i: nat)
    requires i < |ds|
    ensures
      var before, d := Counts(ds[..i]), ds[i].decision;
      Counts(ds[..i + 1]) == before[d := (if d in before then before[d] else 0) + 1]
  {
    assert Init(ds[..i + 1]) == ds[..i] && Last(ds[..i + 1]) == ds[i];
    var before, d := Counts(ds[..i]), ds[i].decision;
    var after := before[d := (if d in before then before[d] else 0) + 1];
    forall x: Decision
      ensures x in after <==> x in Counts(ds[..i + 1])
      ensures x in after ==> after[x] == Counts(ds[..i + 1])[x]
    {
      assert CountOf(ds[..i + 1], x) == CountOf(ds[..i], x) + if d == x then 1 else 0;
    }
  }

  function StatsOf(kind: Kind, ds: seq<PolicyDecision>, pressure: real): Stats {
    Stats(kind, |ds|, Counts(ds), pressure)
  }

  // ---------- the loops ----------

  /** Decisions appended one by one, for blocks or for blocks with their scores. */
  method DecideEach<T>(items: seq<T>, verdict: T -> PolicyDecision) returns (ds: seq<PolicyDecision>)
    ensures ds == Map(verdict, items)
  {
    ds := [];
    for i := 0 to |items|
      invariant |ds| == i && forall k :: 0 <= k < i ==> ds[k] == verdict(items[k])
    {
      ds := ds + [verdict(items[i])];
    }
  }

  /** keep_ids filled by adding the id of each block in turn. */
  method AddIds(ids: set<int>, blocks: seq<Block>) returns (all: set<int>)
    ensures all == ids + Ids(blocks, BlockId)
  {
    all := ids;
    for i := 0 to |blocks|
      invariant all == ids + Ids(blocks[..i], BlockId)
    {
      assert blocks[..i + 1] == blocks[..i] + [blocks[i]];
      IdsAppend(blocks[..i], [blocks[i]], BlockId);
      assert Ids([blocks[i]], BlockId) == {blocks[i].id};
      all := all + {blocks[i].id};
    }
    assert blocks[..|blocks|] == blocks;
  }

  /** The first and the last blocks by id stay. */
  method SlidingWindowPolicy(cfg: Config, blocks: seq<Block>, pressure: real) returns (ds: seq<PolicyDecision>)
    ensures Distinct(blocks, BlockId) ==> KeepsWindow(cfg, blocks, pressure, ds)
    ensures ds == SlidingWindowDecisions(cfg, blocks, pressure)
  {
    if Distinct(blocks, BlockId) {
      WindowPromise(cfg, blocks, pressure, SlidingWindowDecisions(cfg, blocks, pressure));
    }
    if pressure < cfg.pressureLow {
      ds := KeepAll(blocks);
    } else {
      var sortedById := SortBy(blocks, IdKey);
      var keepIds := AddIds({}, Take(sortedById, cfg.sinks));
      keepIds := AddIds(keepIds, TakeLast(sortedById, cfg.window));
      assert keepIds == WindowIds(cfg, blocks);
      ds := DecideEach(blocks, WindowVerdict(keepIds));
    }
  }

  /** Sinks stay, and of the others the strongest. */
  method H2OPolicy(cfg: Config, blocks: seq<Block>, pressure: real) returns (ds: seq<PolicyDecision>)
    ensures Distinct(blocks, BlockId) ==> KeepsStrongest(cfg, blocks, pressure, ds)
    ensures ds == H2ODecisions(cfg, blocks, pressure)
  {
    if Distinct(blocks, BlockId) {
      H2OPromise(cfg, blocks, pressure, H2ODecisions(cfg, blocks, pressure));
    }
    if pressure < cfg.pressureLow {
      ds := KeepAll(blocks);
    } else {
      ds := DecideEach(blocks, H2OVerdict(SinkIds(blocks, cfg.sinks) + HeavyIds(cfg, blocks)));
    }
  }

  /** Nothing goes, and of what may be quantised the weakest is. */
  method QuantizeOnlyPolicy(cfg: Config, blocks: seq<Block>, pressure: real) returns (ds: seq<PolicyDecision>)
    ensures QuantizesWeakest(cfg, blocks, pressure, ds)
    ensures ds == QuantizeOnlyDecisions(cfg, blocks, pressure)
  {
    QuantizePromise(cfg, blocks, pressure, QuantizeOnlyDecisions(cfg, blocks, pressure));
    if !cfg.quantizationEnabled || pressure < cfg.pressureLow {
      ds := KeepAll(blocks);
    } else {
      ds := DecideEach(blocks, QuantizeVerdict(cfg, SinkIds(blocks, cfg.sinks), MaxAttention(blocks)));
    }
  }

  /** The greedy pass with its set and its separate counter. */
  method ChooseOffloads(cfg: Config, scored: seq<Scored>, sinks: set<int>, budget: int) returns (offload: set<int>)
    ensures offload == set id | id in Offloaded(cfg, scored, sinks, budget)
  {
    offload := {};
    var offloadCount := 0;
    for i := 0 to |scored|
      invariant offload == set id | id in Offloaded(cfg, scored[..i], sinks, budget)
      invariant offloadCount == |Offloaded(cfg, scored[..i], sinks, budget)|
    {
      assert Init(scored[..i + 1]) == scored[..i] && Last(scored[..i + 1]) == scored[i];
      var p := scored[i];
      if p.block.id in sinks {
        continue;
      }
      if p.score <= cfg.offloadThreshold && offloadCount < budget {
        offload := offload + {p.block.id};
        offloadCount := offloadCount + 1;
      }
    }
    assert scored[..|scored|] == scored;
  }

  /** Nothing goes, and of what may be offloaded the lowest-scoring is, within the budget. */
  method OffloadOnlyPolicy(cfg: Config, blocks: seq<Block>, pressure: real) returns (ds: seq<PolicyDecision>)
    ensures Distinct(blocks, BlockId) ==> OffloadsLowest(cfg, blocks, pressure, ds)
    ensures ds == OffloadOnlyDecisions(cfg, blocks, pressure)
  {
    if Distinct(blocks, BlockId) {
      OffloadPromise(cfg, blocks, pressure, OffloadOnlyDecisions(cfg, blocks, pressure));
    }
    if !cfg.offloadEnabled || pressure < cfg.pressureLow {
      ds := KeepAll(blocks);
    } else {
      var scored := ByAttention(blocks);
      var offload := ChooseOffloads(cfg, scored, SinkIds(blocks, cfg.sinks), OffloadBudget(cfg, |blocks|));
      ds := DecideEach(scored, OffloadVerdict(offload));
    }
  }

  /** At high pressure a tenth of the blocks is evicted, at least one, and none used later than a block that is kept. */
  method FullCachePolicy(cfg: Config, blocks: seq<Block>, pressure: real) returns (ds: seq<PolicyDecision>)
    ensures Distinct(blocks, BlockId) ==> EvictsLeastRecent(cfg, blocks, pressure, ds)
    ensures ds == FullCacheDecisions(cfg, blocks, pressure)
  {
    if pressure < cfg.pressureHigh {
      ds := KeepAll(blocks);
      RestingEvictsNone(cfg, blocks, pressure, ds);
    } else {
      var sortedBlocks := SortBy(blocks, LastAccessKey);
      var evictCount := Portion(|blocks|, 0.10);
      var evictSet := Ids(Take(sortedBlocks, evictCount), BlockId);
      ds := Map(FullCacheVerdict(evictSet), blocks);
      if Distinct(blocks, BlockId) {
        BaselinePromise(cfg, blocks, pressure, ds);
      }
    }
  }

  /** Sinks stay, and of the others none with a higher score fares worse. */
  method HybridPolicy(cfg: Config, blocks: seq<Block>, scores: seq<real>, pressure: real)
    returns (ds: seq<PolicyDecision>)
    ensures Distinct(blocks, BlockId) ==> FollowsScores(cfg, blocks, scores, pressure, ds)
    ensures ds == Regime(cfg, blocks, scores, pressure)
  {
    if Distinct(blocks, BlockId) {
      HybridPromise(cfg, blocks, scores, pressure, Regime(cfg, blocks, scores, pressure));
    }
    if pressure < cfg.pressureLow {
      ds := KeepAll(blocks);
    } else if pressure < cfg.pressureHigh {
      ds := DecideEach(Zip(blocks, scores), GradedVerdict(cfg, SinkIds(blocks, cfg.sinks)));
    } else {
      var pairs := Zip(blocks, scores);
      ds := DecideEach(pairs, HardVerdict(cfg, SinkIds(blocks, cfg.sinks) + TopIds(cfg, |blocks|, pairs)));
    }
  }

  /** Sinks stay, and every other block goes where the score of its prediction puts it. */
  method LearnedPolicy(cfg: Config, blocks: seq<Block>, scores: seq<real>, pressure: real)
    returns (ds: seq<PolicyDecision>)
    ensures if pressure < cfg.pressureLow then AllStay(blocks, ds) else GradedByScore(cfg, blocks, scores, ds)
    ensures ds == if pressure < cfg.pressureLow then KeepAll(blocks)
                  else Map(GradedVerdict(cfg, SinkIds(blocks, cfg.sinks)), Zip(blocks, scores))
  {
    if pressure < cfg.pressureLow {
      ds := KeepAll(blocks);
    } else {
      ds := DecideEach(Zip(blocks, scores), GradedVerdict(cfg, SinkIds(blocks, cfg.sinks)));
      GradedPromise(cfg, blocks, scores, ds);
    }
  }

  // ---------- the objects ----------

  class Policy {
    const kind: Kind
    const config: Config
    var evalCount: nat
    var lastStats: Option<Stats>
    var pressureHistory: seq<real>

    constructor (kind: Kind, config: Config)
      ensures this.kind == kind && this.config == config
      ensures evalCount == 0 && lastStats == None && pressureHistory == []
    {
      this.kind, this.config := kind, config;
      evalCount, lastStats, pressureHistory := 0, None, [];
    }

    /** A learned policy without a model passes the call on, statistics included, to an object of its own. */
    predicate Delegates() {
      kind.Learned? && !kind.modelLoaded
    }

    method MakeStats(ds: seq<PolicyDecision>, pressure: real)
      modifies this`evalCount, this`lastStats
      ensures lastStats == Some(StatsOf(kind, ds, pressure))
      ensures evalCount == old(evalCount) + 1
    {
      var counts: map<Decision, nat> := map[];
      for i := 0 to |ds|
        invariant counts == Counts(ds[..i])
        invariant evalCount == old(evalCount)
      {
        var d := ds[i].decision;
        CountsOneMore(ds, i);
        counts := counts[d := (if d in counts then counts[d] else 0) + 1];
      }
      assert ds[..|ds|] == ds;
      lastStats := Some(Stats(kind, |ds|, counts, pressure));
      evalCount := evalCount + 1;
    }

    /** The last thousand pressures seen by the hybrid controller. */
    method RememberPressure(pressure: real)
      modifies this`pressureHistory
      ensures pressureHistory == TakeLast(old(pressureHistory) + [pressure], 1000)
    {
      pressureHistory := pressureHistory + [pressure];
      if |pressureHistory| > 1000 {
        pressureHistory := pressureHistory[|pressureHistory| - 1000..];
      }
    }

    /** Only the hybrid controller remembers. */
    function HistoryAfter(before: seq<real>, pressure: real): seq<real> {
      if kind.Hybrid? then TakeLast(before + [pressure], 1000) else before
    }

    method Decide(blocks: seq<Block>, m: Metrics, prediction: Prediction) returns (ds: seq<PolicyDecision>)
      modifies this
      ensures ds == Policies.Decide(kind, config, blocks, m, prediction)
      ensures lastStats == if Delegates() then old(lastStats) else Some(StatsOf(kind, ds, Pressure(m.used, m.free)))
      ensures evalCount == if Delegates() then old(evalCount) else old(evalCount) + 1
      ensures pressureHistory == HistoryAfter(old(pressureHistory), Pressure(m.used, m.free))
    {
      var pressure := Pressure(m.used, m.free);
      match kind {
        case FullCache => ds := FullCachePolicy(config, blocks, pressure);
        case SlidingWindow => ds := SlidingWindowPolicy(config, blocks, pressure);
        case H2O => ds := H2OPolicy(config, blocks, pressure);
        case QuantizeOnly => ds := QuantizeOnlyPolicy(config, blocks, pressure);
        case OffloadOnly => ds := OffloadOnlyPolicy(config, blocks, pressure);
        case Hybrid(learnedReady) =>
          RememberPressure(pressure);
          ds := HybridPolicy(config, blocks, HybridScores(config, learnedReady, blocks, m, prediction), pressure);
        case Learned(modelLoaded) =>
          if !modelLoaded {
            ds := H2OPolicy(config, blocks, pressure);
            return;
          }
          ds := LearnedPolicy(config, blocks, LearnedScores(blocks, prediction), pressure);
      }
      MakeStats(ds, pressure);
    }
  }
}
