/**
 The two pressure regimes of the hybrid controller: who is kept, how scores order tiers, how much memory is left in
 use.
 */
module HybridFacts {
  import opened Sequences
  import opened Sorting
  import opened Selection
  import opened Schema
  import opened Effects
  import opened Policies
  import opened DecisionLists
  import opened TrackerModel
  import opened TrackerInvariants
  import opened Sinks
  import opened ScoreRange

  /** From gone to full precision. */
  function Rank(d: Decision): nat {
    match d
    case Evict => 0
    case OffloadCpu => 1
    case Quantize => 2
    case KeepGpu => 3
  }

  // ---------- scores order tiers ----------

  lemma {:induction false} MediumVerdict(cfg: Config, s: State, scores: seq<real>, p: Scored)
    requires Distinct(s, BlockId) && p in Zip(s, scores) && p.block.id !in SinkIds(s, cfg.sinks)
    ensures
      var v := VerdictsOf(MediumPressure(cfg, s, Zip(s, scores)));
      p.block.id in v && v[p.block.id].decision == Graded(cfg, p.score)
  {
    ZipDistinct(s, scores);
    VerdictOfElement(Zip(s, scores), ScoredId, GradedVerdict(cfg, SinkIds(s, cfg.sinks)), p);
  }

  /** What high pressure decides for one pair. */
  function HighTier(cfg: Config, s: State, scores: seq<real>, p: Scored): Decision {
    if p.block.id in SinkIds(s, cfg.sinks) + TopIds(cfg, |s|, Zip(s, scores)) then KeepGpu else GradedHard(cfg, p.score)
  }

  lemma {:induction false} HighVerdict(cfg: Config, s: State, scores: seq<real>, p: Scored)
    requires Distinct(s, BlockId) && p in Zip(s, scores)
    ensures
      var v := VerdictsOf(HighPressure(cfg, s, Zip(s, scores)));
      p.block.id in v && v[p.block.id].decision == HighTier(cfg, s, scores, p)
  {
    var pairs := Zip(s, scores);
    ZipDistinct(s, scores);
    VerdictOfElement(pairs, ScoredId, HardVerdict(cfg, SinkIds(s, cfg.sinks) + TopIds(cfg, |s|, pairs)), p);
  }

  lemma {:induction false} GradedIsMonotone(cfg: Config, x: real, y: real)
    requires x >= y
    ensures Rank(Graded(cfg, x)) >= Rank(Graded(cfg, y))
    ensures Rank(KeepGpu) >= Rank(GradedHard(cfg, x)) >= Rank(GradedHard(cfg, y))
  {
  }

  /** What medium pressure and the learned policy decide on a score, decision by decision. */
  lemma {:induction false} GradedLadder(cfg: Config, x: real)
    ensures Graded(cfg, x) == KeepGpu <==> x >= cfg.quantizationMin
    ensures Graded(cfg, x) == Quantize <==>
      cfg.quantizationEnabled && cfg.offloadThreshold <= x < cfg.quantizationMin
    ensures Graded(cfg, x) == OffloadCpu <==>
      && cfg.offloadEnabled && x < cfg.quantizationMin && 2.0 * x >= cfg.offloadThreshold
      && (cfg.quantizationEnabled ==> x < cfg.offloadThreshold)
  {
  }

  /** What high pressure decides on a score outside sinks and heavy hitters. */
  lemma {:induction false} HardLadder(cfg: Config, x: real)
    ensures GradedHard(cfg, x) != KeepGpu
    ensures GradedHard(cfg, x) == Quantize <==> cfg.quantizationEnabled && x >= cfg.quantizationMin
    ensures GradedHard(cfg, x) == OffloadCpu <==>
      && cfg.offloadEnabled && x >= cfg.offloadThreshold
      && (cfg.quantizationEnabled ==> x < cfg.quantizationMin)
  {
  }

  /** With both tiers in use and thresholds in order, high pressure puts every such block exactly one tier lower. */
  lemma {:induction false} OneTierLower(cfg: Config, x: real)
    requires cfg.quantizationEnabled && cfg.offloadEnabled
    requires 0.0 <= cfg.offloadThreshold <= cfg.quantizationMin
    ensures Rank(GradedHard(cfg, x)) == Max(0, Rank(Graded(cfg, x)) - 1)
  {
  }

  /** At medium pressure a higher-scoring non-sink never gets a worse tier. */
  lemma {:induction false} MediumIsMonotone(cfg: Config, s: State, scores: seq<real>, p: Scored, q: Scored)
    requires Distinct(s, BlockId) && p in Zip(s, scores) && q in Zip(s, scores)
    requires p.block.id !in SinkIds(s, cfg.sinks) && q.block.id !in SinkIds(s, cfg.sinks)
    requires p.score >= q.score
    ensures
      var v := VerdictsOf(MediumPressure(cfg, s, Zip(s, scores)));
      && p.block.id in v && q.block.id in v
      && Rank(v[p.block.id].decision) >= Rank(v[q.block.id].decision)
  {
    GradedIsMonotone(cfg, p.score, q.score);
    MediumVerdict(cfg, s, scores, p);
    MediumVerdict(cfg, s, scores, q);
  }

  /** At high pressure a strictly higher-scoring non-sink never gets a worse tier. */
  lemma {:induction false} HighIsMonotone(cfg: Config, s: State, scores: seq<real>, p: Scored, q: Scored)
    requires Distinct(s, BlockId) && p in Zip(s, scores) && q in Zip(s, scores)
    requires p.block.id !in SinkIds(s, cfg.sinks) && q.block.id !in SinkIds(s, cfg.sinks)
    requires p.score > q.score
    ensures
      var v := VerdictsOf(HighPressure(cfg, s, Zip(s, scores)));
      && p.block.id in v && q.block.id in v
      && Rank(v[p.block.id].decision) >= Rank(v[q.block.id].decision)
  {
    HighTierIsMonotone(cfg, s, scores, p, q);
    HighVerdict(cfg, s, scores, p);
    HighVerdict(cfg, s, scores, q);
  }

  lemma {:induction false} HighTierIsMonotone(cfg: Config, s: State, scores: seq<real>, p: Scored, q: Scored)
    requires Distinct(s, BlockId) && p in Zip(s, scores) && q in Zip(s, scores) && p.score > q.score
    requires q.block.id !in SinkIds(s, cfg.sinks)
    ensures Rank(HighTier(cfg, s, scores, p)) >= Rank(HighTier(cfg, s, scores, q))
  {
    GradedIsMonotone(cfg, p.score, q.score);
    StrongerIsInTop(cfg, s, scores, p, q);
  }

  /** A pair that scores above a heavy hitter is one itself. */
  lemma {:induction false} StrongerIsInTop(cfg: Config, s: State, scores: seq<real>, p: Scored, q: Scored)
    requires Distinct(s, BlockId) && p in Zip(s, scores) && q in Zip(s, scores) && p.score > q.score
    ensures q.block.id in TopIds(cfg, |s|, Zip(s, scores)) ==> p.block.id in TopIds(cfg, |s|, Zip(s, scores))
  {
    ZipDistinct(s, scores);
    if q.block.id in TopIds(cfg, |s|, Zip(s, scores)) && p.block.id !in TopIds(cfg, |s|, Zip(s, scores)) {
      TopSelectionOrder(Zip(s, scores), ScoredId, ScoreDescending, Portion(|s|, cfg.heavyFraction), q, p);
      assert false;
    }
  }

  /**
   The scores to which high pressure is kinder: between the offload threshold and half of it, when that is a range at
   all.
   */
  predicate KinderAt(cfg: Config, score: real) {
    && !cfg.quantizationEnabled && cfg.offloadEnabled
    && cfg.offloadThreshold <= score < cfg.offloadThreshold * 0.5 && score < cfg.quantizationMin
  }

  /** Exactly these scores; none of them is non-negative. */
  lemma {:induction false} KinderIff(cfg: Config, score: real)
    ensures Rank(GradedHard(cfg, score)) > Rank(Graded(cfg, score)) <==> KinderAt(cfg, score)
    ensures KinderAt(cfg, score) ==> score < 0.0 && cfg.offloadThreshold < 0.0
  {
  }

  /** High pressure is never kinder than medium pressure, whatever a block outside the heavy hitters scores. */
  ghost predicate HighNeverKinder(cfg: Config) {
    forall score :: Rank(GradedHard(cfg, score)) <= Rank(Graded(cfg, score))
  }

  /** The offload threshold is not negative, or the case that would tell does not arise. */
  predicate ThresholdsAgree(cfg: Config) {
    || cfg.offloadThreshold >= 0.0
    || cfg.quantizationEnabled
    || !cfg.offloadEnabled
    || cfg.quantizationMin <= cfg.offloadThreshold
  }

  /** Exactly the configurations for which this holds. */
  lemma {:induction false} HighNeverKinderIff(cfg: Config)
    ensures HighNeverKinder(cfg) <==> ThresholdsAgree(cfg)
  {
    if HighNeverKinder(cfg) {
      assert Rank(GradedHard(cfg, cfg.offloadThreshold)) <= Rank(Graded(cfg, cfg.offloadThreshold));
    }
  }

  /**
   A non-sink outside the heavy hitters gets a better tier at high than at medium pressure exactly when its score is
   such a one; so never when its score is not negative, nor when the thresholds agree.
   */
  lemma {:induction false} HighAtMostMedium(cfg: Config, s: State, scores: seq<real>, p: Scored)
    requires Distinct(s, BlockId) && p in Zip(s, scores)
    requires p.block.id !in SinkIds(s, cfg.sinks) && p.block.id !in TopIds(cfg, |s|, Zip(s, scores))
    ensures
      var high := VerdictsOf(HighPressure(cfg, s, Zip(s, scores)));
      var medium := VerdictsOf(MediumPressure(cfg, s, Zip(s, scores)));
      && p.block.id in high && p.block.id in medium
      && (Rank(high[p.block.id].decision) <= Rank(medium[p.block.id].decision) <==> !KinderAt(cfg, p.score))
    ensures p.score >= 0.0 || ThresholdsAgree(cfg) ==> !KinderAt(cfg, p.score)
  {
    HighVerdict(cfg, s, scores, p);
    MediumVerdict(cfg, s, scores, p);
    KinderIff(cfg, p.score);
  }

  /** No sinks, half of the blocks heavy hitters, all weight on attention, no quantisation, offload threshold -1. */
  const NEGATIVE_THRESHOLD := Config(0.5, 0.8, 0, 0.5, 0, 0.0, 1.0, 0.0, false, 0.5, true, 0.5, -1.0)

  /** It does happen: a block with negative attention is offloaded at high pressure and evicted at medium. */
  lemma {:induction false} HighCanBeKinder()
    ensures
      var s := [NewBlock(0, 0, 0, "r").(avgAttention := -0.8, maxAttention := -0.8),
                NewBlock(1, 0, 0, "r").(avgAttention := 1.0, maxAttention := 1.0)];
      var m := Metrics(1.0, 0.0, Some(0), Some(1.0), Unknown);
      var pairs := Zip(s, HybridScores(NEGATIVE_THRESHOLD, false, s, m, Raises));
      var high := VerdictsOf(HighPressure(NEGATIVE_THRESHOLD, s, pairs));
      var medium := VerdictsOf(MediumPressure(NEGATIVE_THRESHOLD, s, pairs));
      && 0 in high && high[0].decision == OffloadCpu
      && 0 in medium && medium[0].decision == Evict
  {
    var weak := NewBlock(0, 0, 0, "r").(avgAttention := -0.8, maxAttention := -0.8);
    var strong := NewBlock(1, 0, 0, "r").(avgAttention := 1.0, maxAttention := 1.0);
    var m := Metrics(1.0, 0.0, Some(0), Some(1.0), Unknown);
    CompositesOf(NEGATIVE_THRESHOLD, m, weak, strong);
    WeakerOfTwo(NEGATIVE_THRESHOLD, Scored(weak, -0.8), Scored(strong, 1.0));
  }

  lemma {:induction false} WeakerOfTwo(cfg: Config, p: Scored, q: Scored)
    requires p.block.id != q.block.id && p.score < q.score && cfg.sinks == 0 && cfg.heavyFraction == 0.5
    ensures
      var s, pairs := [p.block, q.block], Zip([p.block, q.block], [p.score, q.score]);
      var high, medium := VerdictsOf(HighPressure(cfg, s, pairs)), VerdictsOf(MediumPressure(cfg, s, pairs));
      && p.block.id in high && high[p.block.id].decision == GradedHard(cfg, p.score)
      && p.block.id in medium && medium[p.block.id].decision == Graded(cfg, p.score)
  {
    var s, scores := [p.block, q.block], [p.score, q.score];
    assert Zip(s, scores) == [p, q];
    OnlyTheStrongest(cfg, p, q);
    assert SinkIds(s, 0) == {};
    HighVerdict(cfg, s, scores, p);
    MediumVerdict(cfg, s, scores, p);
  }

  lemma {:induction false} CompositesOf(cfg: Config, m: Metrics, b: Block, c: Block)
    requires cfg.recencyWeight == 0.0 && cfg.attentionWeight == 1.0 && cfg.reuseWeight == 0.0
    requires m.attnMax == Some(1.0) && m.workload == Unknown && b.avgAttention <= 1.0 && c.avgAttention <= 1.0
    ensures HybridScores(cfg, false, [b, c], m, Raises) == [b.avgAttention, c.avgAttention]
  {
    CompositeOf(cfg, m, b);
    CompositeOf(cfg, m, c);
  }

  /** With all weight on attention and a maximum of one, the score of a block never accessed is its attention. */
  lemma {:induction false} CompositeOf(cfg: Config, m: Metrics, b: Block)
    requires cfg.recencyWeight == 0.0 && cfg.attentionWeight == 1.0 && cfg.reuseWeight == 0.0
    requires m.attnMax == Some(1.0) && m.workload == Unknown && b.avgAttention <= 1.0
    ensures CompositeScore(cfg, b, m) == b.avgAttention
  {
    assert AdaptedWeights(cfg, m.workload) == Weights(0.0, 1.0, 0.0);
    assert RawAttention(b, m) == b.avgAttention;
  }

  lemma {:induction false} OnlyTheStrongest(cfg: Config, p: Scored, q: Scored)
    requires p.score < q.score && cfg.heavyFraction == 0.5
    ensures TopIds(cfg, 2, [p, q]) == {q.block.id}
  {
    assert [p, q][1..] == [q] && [q][1..] == [];
    assert SortBy([q], ScoreDescending) == [q];
    assert Insert(p, [q], ScoreDescending) == [q] + Insert(p, [q][1..], ScoreDescending);
    assert SortBy([p, q], ScoreDescending) == [q, p];
    assert Portion(2, 0.5) == 1;
    assert Take([q, p], 1) == [q];
    assert Ids([q], ScoredId) == {ScoredId(q)};
  }

  // ---------- learned scores order tiers ----------

  /** The learned policy at or above the low threshold: a non-sink with a higher prediction never gets a worse tier. */
  lemma {:induction false} LearnedIsMonotone(cfg: Config, s: State, pressure: real, values: seq<real>, i: nat, j: nat)
    requires Distinct(s, BlockId) && pressure >= cfg.pressureLow
    requires |values| == |s| && i < |s| && j < |s| && values[i] >= values[j]
    requires s[i].id !in SinkIds(s, cfg.sinks) && s[j].id !in SinkIds(s, cfg.sinks)
    ensures
      var v := VerdictsOf(LearnedDecisions(cfg, true, s, pressure, Raw(values)));
      && s[i].id in v && s[j].id in v
      && Rank(v[s[i].id].decision) >= Rank(v[s[j].id].decision)
  {
    var scores := LearnedScores(s, Raw(values));
    var pairs := Zip(s, scores);
    LearnedScoresFollow(s, values, i, j);
    assert pairs[i] in pairs && pairs[j] in pairs;
    MediumIsMonotone(cfg, s, scores, pairs[i], pairs[j]);
  }

  lemma {:induction false} LearnedScoresFollow(s: State, values: seq<real>, i: nat, j: nat)
    requires |values| == |s| && i < |s| && j < |s| && values[i] >= values[j]
    ensures
      var scores := LearnedScores(s, Raw(values));
      |scores| == |s| && 0.0 <= scores[j] <= scores[i] <= 1.0
  {
    RescaledInUnit(values, j, i);
    RescaledInUnit(values, i, i);
  }

  // ---------- who stays at full precision ----------

  /** The ids of the blocks in a tier. */
  function TierIds(s: State, t: Tier): set<int> {
    if s == [] then {} else TierIds(Init(s), t) + if Last(s).tier == t then {Last(s).id} else {}
  }

  lemma {:induction false} InTierIds(s: State, t: Tier, id: int)
    ensures id in TierIds(s, t) <==> exists b :: b in s && b.id == id && b.tier == t
  {
    if s != [] {
      InTierIds(Init(s), t, id);
      assert s == Init(s) + [Last(s)];
      assert Last(s) in s;
      forall b | b in Init(s)
        ensures b in s
      {
      }
      if exists b :: b in s && b.id == id && b.tier == t {
        var b :| b in s && b.id == id && b.tier == t;
        assert b in Init(s) || b == Last(s);
      }
    }
  }

  lemma {:induction false} CountIsTierIds(s: State, t: Tier)
    requires Distinct(s, BlockId)
    ensures CountTier(s, t) == |TierIds(s, t)|
  {
    if s != [] {
      var rest, last := Init(s), Last(s);
      assert s == rest + [last];
      DistinctParts(rest, [last], BlockId);
      assert Ids([last], BlockId) == {last.id};
      CountIsTierIds(rest, t);
      InTierIds(rest, t, last.id);
      InIds(rest, BlockId, last.id);
      assert last.id !in TierIds(rest, t);
    }
  }

  /** The blocks kept at high pressure: the sinks and the best-scored portion. */
  function KeptIds(cfg: Config, s: State, scores: seq<real>): set<int> {
    SinkIds(s, cfg.sinks) + TopIds(cfg, |s|, Zip(s, scores))
  }

  function HighStep(cfg: Config, s: State, scores: seq<real>): State {
    ApplyAll(s, HighPressure(cfg, s, Zip(s, scores)))
  }

  lemma {:induction false} UnionCount(a: set<int>, b: set<int>)
    ensures |a + b| <= |a| + |b|
  {
    assert a + b == a + (b - a);
    SmallerSet(b - a, b);
  }

  lemma {:induction false} KeptCount(cfg: Config, s: State, scores: seq<real>)
    requires Distinct(s, BlockId) && |scores| == |s|
    ensures |TopIds(cfg, |s|, Zip(s, scores))| == Min(|s|, Portion(|s|, cfg.heavyFraction))
    ensures |KeptIds(cfg, s, scores)| <= Min(|s|, cfg.sinks + Portion(|s|, cfg.heavyFraction))
    ensures KeptIds(cfg, s, scores) <= Ids(s, BlockId)
  {
    var pairs, n := Zip(s, scores), Portion(|s|, cfg.heavyFraction);
    ZipDistinct(s, scores);
    TopSelectionSize(pairs, ScoredId, ScoreDescending, n);
    SinkCount(s, cfg.sinks);
    var sinks, top := SinkIds(s, cfg.sinks), TopIds(cfg, |s|, pairs);
    UnionCount(sinks, top);
    SmallerSet(sinks + top, Ids(s, BlockId));
    CountIds(s, BlockId);
  }

  /** The verdicts of a cycle at high pressure keep exactly the given ids. */
  lemma {:induction false} KeepingVerdicts(cfg: Config, s: State, scores: seq<real>, keep: set<int>)
    requires Distinct(s, BlockId) && |scores| == |s|
    ensures
      var v := VerdictsOf(Map(HardVerdict(cfg, keep), Zip(s, scores)));
      forall b :: b in s ==> b.id in v && (v[b.id].decision == KeepGpu <==> b.id in keep)
  {
    var pairs := Zip(s, scores);
    var f := HardVerdict(cfg, keep);
    ZipDistinct(s, scores);
    forall b | b in s
      ensures b.id in VerdictsOf(Map(f, pairs))
      ensures VerdictsOf(Map(f, pairs))[b.id].decision == KeepGpu <==> b.id in keep
    {
      IdIn(s, BlockId, b);
      VerdictIsOfElement(pairs, ScoredId, f, b.id);
    }
  }

  lemma {:induction false} HighIsSettle(cfg: Config, s: State, scores: seq<real>)
    requires Distinct(s, BlockId)
    ensures
      var v := VerdictsOf(Map(HardVerdict(cfg, KeptIds(cfg, s, scores)), Zip(s, scores)));
      HighStep(cfg, s, scores) == Settle(s, v)
  {
    ZipDistinct(s, scores);
    MappedDistinct(Zip(s, scores), ScoredId, HardVerdict(cfg, KeptIds(cfg, s, scores)));
    ApplyIsSettle(s, Map(HardVerdict(cfg, KeptIds(cfg, s, scores)), Zip(s, scores)));
  }

  /** After a cycle at high pressure exactly the sinks and the best-scored portion are at full precision. */
  lemma {:induction false} HighKeepsExactly(cfg: Config, s: State, scores: seq<real>, t: State)
    requires Distinct(s, BlockId) && |scores| == |s| && t == HighStep(cfg, s, scores)
    ensures Distinct(t, BlockId) && Ids(t, BlockId) <= Ids(s, BlockId)
    ensures TierIds(t, GpuFp16) == KeptIds(cfg, s, scores)
  {
    var keep := KeptIds(cfg, s, scores);
    var v := VerdictsOf(Map(HardVerdict(cfg, keep), Zip(s, scores)));
    HighIsSettle(cfg, s, scores);
    KeptCount(cfg, s, scores);
    KeepingVerdicts(cfg, s, scores, keep);
    SettleKeepsDistinct(s, v);
    SettleIds(s, v);
    KeptAtFullPrecision(s, v, keep);
  }

  lemma {:induction false} KeptAtFullPrecision(s: State, v: Verdicts, keep: set<int>)
    requires forall b :: b in s ==> b.id in v && (v[b.id].decision == KeepGpu <==> b.id in keep)
    requires keep <= Ids(s, BlockId)
    ensures TierIds(Settle(s, v), GpuFp16) == keep
  {
    var t := Settle(s, v);
    forall id
      ensures id in TierIds(t, GpuFp16) <==> id in keep
    {
      InTierIds(t, GpuFp16, id);
      if id in keep {
        InIds(s, BlockId, id);
        var b :| b in s && BlockId(b) == id;
        var c := b.(tier := GpuFp16, importance := v[b.id].score);
        assert c in SettleBlock(v, b);
        SettleMember(s, v, c);
      }
      if id in TierIds(t, GpuFp16) {
        var c :| c in t && c.id == id && c.tier == GpuFp16;
        SettleMember(s, v, c);
        var b :| b in s && c in SettleBlock(v, b);
      }
    }
  }

  /** GPU memory after a cycle at high pressure: K blocks at full precision and at most the others as int8. */
  lemma {:induction false} HighMemoryBound(z: Sizes, cfg: Config, s: State, scores: seq<real>, t: State, keep: set<int>)
    requires Distinct(s, BlockId) && |scores| == |s| && t == HighStep(cfg, s, scores)
    requires keep == KeptIds(cfg, s, scores)
    ensures |keep| <= Min(|s|, cfg.sinks + Portion(|s|, cfg.heavyFraction))
    ensures CountTier(t, GpuFp16) == |keep|
    ensures GpuBytes(z, t) <= z.fp16 * |keep| + z.int8 * (|s| - |keep|)
  {
    HighKeepsExactly(cfg, s, scores, t);
    KeptCount(cfg, s, scores);
    MemoryWithFullPrecision(z, s, t, keep);
  }

  lemma {:induction false} MemoryWithFullPrecision(z: Sizes, s: State, t: State, keep: set<int>)
    requires Distinct(s, BlockId) && Distinct(t, BlockId) && Ids(t, BlockId) <= Ids(s, BlockId)
    requires TierIds(t, GpuFp16) == keep && |keep| <= |s|
    ensures CountTier(t, GpuFp16) == |keep|
    ensures GpuBytes(z, t) <= z.fp16 * |keep| + z.int8 * (|s| - |keep|)
  {
    CountIsTierIds(t, GpuFp16);
    FewerBlocks(s, t);
    GpuTiersFit(t);
    var k, q := CountTier(t, GpuFp16), CountTier(t, GpuQuantized);
    BytesAtMost(z, k, q, |s|);
    assert GpuBytes(z, t) == k * z.fp16 + q * z.int8;
  }

  lemma {:induction false} GpuTiersFit(t: State)
    ensures CountTier(t, GpuFp16) + CountTier(t, GpuQuantized) <= |t|
  {
    TiersPartition(t);
  }

  lemma {:induction false} FewerBlocks(s: State, t: State)
    requires Distinct(s, BlockId) && Distinct(t, BlockId) && Ids(t, BlockId) <= Ids(s, BlockId)
    ensures |t| <= |s|
  {
    CountIds(s, BlockId);
    CountIds(t, BlockId);
    SmallerSet(Ids(t, BlockId), Ids(s, BlockId));
  }

  lemma {:induction false} BytesAtMost(z: Sizes, k: nat, q: nat, n: nat)
    requires k + q <= n
    ensures k * z.fp16 + q * z.int8 <= z.fp16 * k + z.int8 * (n - k)
  {
    assert z.int8 * (n - k) == z.int8 * q + z.int8 * (n - k - q);
  }

  /** On the engine: at or above both thresholds a cycle is this step, with the scores the controller computed. */
  lemma {:induction false} CycleIsHighStep(z: Sizes, s: State, cfg: Config, learnedReady: bool, free: real,
                                           prediction: Prediction, t: State)
    requires s != [] ==> EnginePressure(z, s, free) >= cfg.pressureLow && EnginePressure(z, s, free) >= cfg.pressureHigh
    requires t == Cycle(z, s, Hybrid(learnedReady), cfg, free, prediction)
    ensures t == HighStep(cfg, s, HybridScores(cfg, learnedReady, s, EngineMetrics(z, s, free), prediction))
  {
    var scores := HybridScores(cfg, learnedReady, s, EngineMetrics(z, s, free), prediction);
    if s == [] {
      assert Zip(s, scores) == [];
    } else {
      DecidesByRegime(z, s, cfg, learnedReady, free, prediction);
      HighRegime(cfg, s, scores, EnginePressure(z, s, free));
    }
  }

  lemma {:induction false} HighRegime(cfg: Config, s: State, scores: seq<real>, pressure: real)
    requires cfg.pressureLow <= pressure && cfg.pressureHigh <= pressure
    ensures ApplyAll(s, Regime(cfg, s, scores, pressure)) == HighStep(cfg, s, scores)
  {
  }

  lemma {:induction false} DecidesByRegime(z: Sizes, s: State, cfg: Config, learnedReady: bool, free: real,
                                           prediction: Prediction)
    requires s != []
    ensures
      var scores := HybridScores(cfg, learnedReady, s, EngineMetrics(z, s, free), prediction);
      var ds := CycleDecisions(z, s, Hybrid(learnedReady), cfg, free, prediction);
      ds == Regime(cfg, s, scores, EnginePressure(z, s, free))
  {
  }
}
