/**
 What each policy of src/cache_policies/ decides for a snapshot of the tracker, as functions.
 The methods of PolicyObjects.dfy compute the same decisions step by step.
 */
module Policies {
  import opened Sequences
  import opened Numbers
  import opened Sorting
  import opened Selection
  import opened Schema

  datatype Config = Config(
    pressureLow: real, pressureHigh: real,
    window: nat, heavyFraction: real, sinks: nat,
    recencyWeight: real, attentionWeight: real, reuseWeight: real,
    quantizationEnabled: bool, quantizationMin: real,
    offloadEnabled: bool, offloadMaxFraction: real, offloadThreshold: real
  )

  /** system_metrics: the two optional entries have per-block defaults. */
  datatype Metrics = Metrics(used: real, free: real, globalStep: Option<int>, attnMax: Option<real>, workload: Workload)

  /** What the loaded model answers for a snapshot: it raises, or returns an arbitrary array. */
  datatype Prediction = Raises | Raw(values: seq<real>)

  datatype Kind =
    | FullCache
    | SlidingWindow
    | H2O
    | QuantizeOnly
    | OffloadOnly
    | Hybrid(learnedReady: bool)
    | Learned(modelLoaded: bool)

  datatype Scored = Scored(block: Block, score: real)

  function ScoredId(p: Scored): int { p.block.id }

  function ScoreOf(p: Scored): real { p.score }

  function ScoreDescending(p: Scored): real { -p.score }

  // ---------- shared helpers ----------

  function Pressure(used: real, free: real): real {
    if used + free > 0.0 then used / (used + free) else 0.0
  }

  /** int(x) rounds toward zero. */
  function Truncate(x: real): int {
    if x >= 0.0 then x.Floor else -((-x).Floor)
  }

  /** max(1, int(n * fraction)) */
  function Portion(n: nat, fraction: real): nat {
    Max(1, Truncate(n as real * fraction))
  }

  function Keep(b: Block): PolicyDecision {
    PolicyDecision(b.id, KeepGpu, 1.0)
  }

  function KeepAll(blocks: seq<Block>): seq<PolicyDecision> {
    Map(Keep, blocks)
  }

  /** The ids of the first `k` blocks by id. */
  function SinkIds(blocks: seq<Block>, k: nat): set<int> {
    Ids(Take(SortBy(blocks, IdKey), k), BlockId)
  }

  /** max(..., default=1.0) over the average attention of the blocks. */
  function MaxAttention(blocks: seq<Block>): real {
    if blocks == [] then 1.0
    else if |blocks| == 1 then blocks[0].avgAttention
    else MaxReal(MaxAttention(Init(blocks)), Last(blocks).avgAttention)
  }

  function Zip(blocks: seq<Block>, scores: seq<real>): (pairs: seq<Scored>)
    ensures |pairs| == Min(|blocks|, |scores|)
    ensures forall i :: 0 <= i < |pairs| ==> pairs[i] == Scored(blocks[i], scores[i])
  {
    if blocks == [] || scores == [] then []
    else [Scored(blocks[0], scores[0])] + Zip(blocks[1..], scores[1..])
  }

  // ---------- full cache ----------

  function LruIds(blocks: seq<Block>): set<int> {
    Ids(Take(SortBy(blocks, LastAccessKey), Portion(|blocks|, 0.10)), BlockId)
  }

  function FullCacheVerdict(evict: set<int>): Block -> PolicyDecision {
    (b: Block) => if b.id in evict then PolicyDecision(b.id, Evict, 0.0) else PolicyDecision(b.id, KeepGpu, 1.0)
  }

  function FullCacheDecisions(cfg: Config, blocks: seq<Block>, pressure: real): seq<PolicyDecision> {
    if pressure < cfg.pressureHigh then KeepAll(blocks)
    else Map(FullCacheVerdict(LruIds(blocks)), blocks)
  }

  // ---------- sliding window ----------

  function WindowIds(cfg: Config, blocks: seq<Block>): set<int> {
    SinkIds(blocks, cfg.sinks) + Ids(TakeLast(SortBy(blocks, IdKey), cfg.window), BlockId)
  }

  function WindowVerdict(keep: set<int>): Block -> PolicyDecision {
    (b: Block) => if b.id in keep then PolicyDecision(b.id, KeepGpu, 1.0) else PolicyDecision(b.id, Evict, 0.0)
  }

  function SlidingWindowDecisions(cfg: Config, blocks: seq<Block>, pressure: real): seq<PolicyDecision> {
    if pressure < cfg.pressureLow then KeepAll(blocks)
    else Map(WindowVerdict(WindowIds(cfg, blocks)), blocks)
  }

  // ---------- heavy-hitter oracle ----------

  function HeavyIds(cfg: Config, blocks: seq<Block>): set<int> {
    Ids(Take(SortBy(blocks, AttentionDescending), Portion(|blocks|, cfg.heavyFraction)), BlockId)
  }

  function H2OVerdict(keep: set<int>): Block -> PolicyDecision {
    (b: Block) => PolicyDecision(b.id, if b.id in keep then KeepGpu else Evict, b.avgAttention)
  }

  function H2ODecisions(cfg: Config, blocks: seq<Block>, pressure: real): seq<PolicyDecision> {
    if pressure < cfg.pressureLow then KeepAll(blocks)
    else Map(H2OVerdict(SinkIds(blocks, cfg.sinks) + HeavyIds(cfg, blocks)), blocks)
  }

  // ---------- quantise only ----------

  function NormalizedAttention(b: Block, maxAttention: real): real {
    if maxAttention > 0.0 then b.avgAttention / maxAttention else 0.0
  }

  function QuantizeVerdict(cfg: Config, sinks: set<int>, maxAttention: real): Block -> PolicyDecision {
    (b: Block) =>
      if b.id in sinks || b.tier == GpuQuantized then PolicyDecision(b.id, KeepGpu, 1.0)
      else
        var score := NormalizedAttention(b, maxAttention);
        PolicyDecision(b.id, if score < cfg.quantizationMin then Quantize else KeepGpu, score)
  }

  function QuantizeOnlyDecisions(cfg: Config, blocks: seq<Block>, pressure: real): seq<PolicyDecision> {
    if !cfg.quantizationEnabled || pressure < cfg.pressureLow then KeepAll(blocks)
    else Map(QuantizeVerdict(cfg, SinkIds(blocks, cfg.sinks), MaxAttention(blocks)), blocks)
  }

  // ---------- offload only ----------

  function WithNormalizedAttention(maxAttention: real): Block -> Scored {
    (b: Block) => Scored(b, NormalizedAttention(b, maxAttention))
  }

  /** All blocks with their scores, lowest attention first. */
  function ByAttention(blocks: seq<Block>): seq<Scored> {
    SortBy(Map(WithNormalizedAttention(MaxAttention(blocks)), blocks), ScoreOf)
  }

  /** int(n * max_fraction) for a snapshot of n blocks. */
  function OffloadBudget(cfg: Config, n: nat): int {
    Truncate(n as real * cfg.offloadMaxFraction)
  }

  /** The greedy pass: ids taken so far after looking at `scored` in order. */
  function Offloaded(cfg: Config, scored: seq<Scored>, sinks: set<int>, budget: int): seq<int> {
    if scored == [] then []
    else
      var sofar, p := Offloaded(cfg, Init(scored), sinks, budget), Last(scored);
      if p.block.id !in sinks && p.score <= cfg.offloadThreshold && |sofar| < budget then sofar + [p.block.id]
      else sofar
  }

  function OffloadIds(cfg: Config, blocks: seq<Block>): set<int> {
    var chosen := Offloaded(cfg, ByAttention(blocks), SinkIds(blocks, cfg.sinks), OffloadBudget(cfg, |blocks|));
    set id | id in chosen
  }

  function OffloadVerdict(offload: set<int>): Scored -> PolicyDecision {
    (p: Scored) => PolicyDecision(p.block.id, if p.block.id in offload then OffloadCpu else KeepGpu, p.score)
  }

  /** In score order, not in the order of `blocks`. */
  function OffloadOnlyDecisions(cfg: Config, blocks: seq<Block>, pressure: real): seq<PolicyDecision> {
    if !cfg.offloadEnabled || pressure < cfg.pressureLow then KeepAll(blocks)
    else Map(OffloadVerdict(OffloadIds(cfg, blocks)), ByAttention(blocks))
  }

  // ---------- learned ----------

  function Rescale(lo: real, hi: real): real -> real {
    x => if hi > lo then (x - lo) / (hi - lo) else 0.5
  }

  function Half(b: Block): real { 0.5 }

  function AttentionShare(maxAttention: real): Block -> real {
    (b: Block) => if maxAttention > 0.0 then b.avgAttention / maxAttention else 0.5
  }

  /** Min-max normalised model output; the attention share when the model fails or answers nothing. */
  function LearnedScores(blocks: seq<Block>, prediction: Prediction): seq<real> {
    if prediction.Raises? || prediction.values == [] then Map(AttentionShare(MaxAttention(blocks)), blocks)
    else
      var lo, hi := MinOf(prediction.values), MaxOf(prediction.values);
      if hi > lo then Map(Rescale(lo, hi), prediction.values) else Map(Half, blocks)
  }

  /** The thresholds of the learned policy and of the hybrid at medium pressure. */
  function Graded(cfg: Config, score: real): Decision {
    if score >= cfg.quantizationMin then KeepGpu
    else if score >= cfg.offloadThreshold && cfg.quantizationEnabled then Quantize
    else if score >= cfg.offloadThreshold * 0.5 && cfg.offloadEnabled then OffloadCpu
    else Evict
  }

  function GradedVerdict(cfg: Config, sinks: set<int>): Scored -> PolicyDecision {
    (p: Scored) =>
      if p.block.id in sinks then PolicyDecision(p.block.id, KeepGpu, 1.0)
      else PolicyDecision(p.block.id, Graded(cfg, p.score), p.score)
  }

  function LearnedDecisions(cfg: Config, modelLoaded: bool, blocks: seq<Block>, pressure: real,
                            prediction: Prediction): seq<PolicyDecision> {
    if !modelLoaded then H2ODecisions(cfg, blocks, pressure)
    else if pressure < cfg.pressureLow then KeepAll(blocks)
    else Map(GradedVerdict(cfg, SinkIds(blocks, cfg.sinks)), Zip(blocks, LearnedScores(blocks, prediction)))
  }

  // ---------- hybrid ----------

  datatype Weights = Weights(recency: real, attention: real, reuse: real)

  function Deltas(w: Workload): Weights {
    match w
    case SingleDocQa => Weights(0.0, 0.10, 0.0)
    case MultiDocQa => Weights(0.0, 0.10, 0.05)
    case Summarization => Weights(0.10, 0.0, 0.0)
    case Dialogue => Weights(0.05, 0.0, 0.05)
    case Code => Weights(-0.05, 0.05, 0.15)
    case StructuredData => Weights(0.0, 0.05, 0.05)
    case Unknown => Weights(0.0, 0.0, 0.0)
  }

  /** The configured weights shifted for the workload, cut off at zero and rescaled to sum to one. */
  function AdaptedWeights(cfg: Config, workload: Workload): Weights {
    var d := Deltas(workload);
    var r := MaxReal(0.0, cfg.recencyWeight + d.recency);
    var a := MaxReal(0.0, cfg.attentionWeight + d.attention);
    var u := MaxReal(0.0, cfg.reuseWeight + d.reuse);
    var total := r + a + u;
    if total > 0.0 then Weights(r / total, a / total, u / total) else Weights(r, a, u)
  }

  /** The step that recency is measured against. */
  function LatestStep(b: Block, m: Metrics): int {
    if m.globalStep.Some? then m.globalStep.value else Max(b.lastAccess, 1)
  }

  /** The recency term before its cut-off at zero. */
  function RawRecency(b: Block, m: Metrics): real {
    var maxStep := LatestStep(b, m);
    1.0 - (maxStep - b.lastAccess) as real / Max(maxStep, 1) as real
  }

  /** The attention term before its cut-off at one. */
  function RawAttention(b: Block, m: Metrics): real {
    var attnMax := if m.attnMax.Some? then m.attnMax.value else MaxReal(b.maxAttention, 0.000000001);
    if attnMax > 0.0 then b.avgAttention / attnMax else 0.0
  }

  function CompositeScore(cfg: Config, b: Block, m: Metrics): real {
    var w := AdaptedWeights(cfg, m.workload);
    Blend(w, MaxReal(0.0, RawRecency(b, m)), MinReal(1.0, RawAttention(b, m)), if b.prefixReuse then 1.0 else 0.0)
  }

  function Blend(w: Weights, recency: real, attention: real, reuse: real): real {
    w.recency * recency + w.attention * attention + w.reuse * reuse
  }

  function CompositeScoreIn(cfg: Config, m: Metrics): Block -> real {
    (b: Block) => CompositeScore(cfg, b, m)
  }

  function HybridScores(cfg: Config, learnedReady: bool, blocks: seq<Block>, m: Metrics,
                        prediction: Prediction): seq<real> {
    if learnedReady then LearnedScores(blocks, prediction) else Map(CompositeScoreIn(cfg, m), blocks)
  }

  /** The ids of the best-scored blocks at high pressure. */
  function TopIds(cfg: Config, n: nat, pairs: seq<Scored>): set<int> {
    Ids(Take(SortBy(pairs, ScoreDescending), Portion(n, cfg.heavyFraction)), ScoredId)
  }

  /** The thresholds at high pressure for a block that is neither sink nor heavy hitter. */
  function GradedHard(cfg: Config, score: real): Decision {
    if score >= cfg.quantizationMin && cfg.quantizationEnabled then Quantize
    else if score >= cfg.offloadThreshold && cfg.offloadEnabled then OffloadCpu
    else Evict
  }

  function HardVerdict(cfg: Config, keep: set<int>): Scored -> PolicyDecision {
    (p: Scored) => PolicyDecision(p.block.id, if p.block.id in keep then KeepGpu else GradedHard(cfg, p.score), p.score)
  }

  function MediumPressure(cfg: Config, blocks: seq<Block>, pairs: seq<Scored>): seq<PolicyDecision> {
    Map(GradedVerdict(cfg, SinkIds(blocks, cfg.sinks)), pairs)
  }

  function HighPressure(cfg: Config, blocks: seq<Block>, pairs: seq<Scored>): seq<PolicyDecision> {
    Map(HardVerdict(cfg, SinkIds(blocks, cfg.sinks) + TopIds(cfg, |blocks|, pairs)), pairs)
  }

  /** The three pressure regimes, for given scores. */
  function Regime(cfg: Config, blocks: seq<Block>, scores: seq<real>, pressure: real): seq<PolicyDecision> {
    if pressure < cfg.pressureLow then KeepAll(blocks)
    else if pressure < cfg.pressureHigh then MediumPressure(cfg, blocks, Zip(blocks, scores))
    else HighPressure(cfg, blocks, Zip(blocks, scores))
  }

  function HybridDecisions(cfg: Config, learnedReady: bool, blocks: seq<Block>, m: Metrics,
                           prediction: Prediction): seq<PolicyDecision> {
    Regime(cfg, blocks, HybridScores(cfg, learnedReady, blocks, m, prediction), Pressure(m.used, m.free))
  }

  // ---------- the policy interface ----------

  function Decide(kind: Kind, cfg: Config, blocks: seq<Block>, m: Metrics,
                  prediction: Prediction): seq<PolicyDecision> {
    var pressure := Pressure(m.used, m.free);
    match kind
    case FullCache => FullCacheDecisions(cfg, blocks, pressure)
    case SlidingWindow => SlidingWindowDecisions(cfg, blocks, pressure)
    case H2O => H2ODecisions(cfg, blocks, pressure)
    case QuantizeOnly => QuantizeOnlyDecisions(cfg, blocks, pressure)
    case OffloadOnly => OffloadOnlyDecisions(cfg, blocks, pressure)
    case Hybrid(learnedReady) => HybridDecisions(cfg, learnedReady, blocks, m, prediction)
    case Learned(modelLoaded) => LearnedDecisions(cfg, modelLoaded, blocks, pressure, prediction)
  }
}
