/** What the scores of blocks are made of: shares of attention, weighted signals, rescaled predictions. */
module ScoreLaws {
  import opened Sequences
  import opened Numbers
  import opened Fractions
  import opened Schema
  import opened Policies

  // ---------- attention relative to the strongest block ----------

  /** The largest average attention, or one when there is no block. */
  lemma {:induction false} MaxAttentionIsMax(blocks: seq<Block>)
    ensures blocks == [] ==> MaxAttention(blocks) == 1.0
    ensures blocks != [] ==> exists b :: b in blocks && b.avgAttention == MaxAttention(blocks)
    ensures forall b :: b in blocks ==> b.avgAttention <= MaxAttention(blocks)
  {
    if |blocks| == 1 {
      assert blocks[0] in blocks;
    } else if blocks != [] {
      MaxAttentionIsMax(Init(blocks));
      assert blocks == Init(blocks) + [Last(blocks)];
      assert Last(blocks) in blocks && forall b :: b in Init(blocks) ==> b in blocks;
    }
  }

  /** A block is below a share of the strongest exactly when its attention is below that share of the largest. */
  lemma {:induction false} BelowShare(b: Block, top: real, share: real)
    ensures top > 0.0 ==> (NormalizedAttention(b, top) < share <==> b.avgAttention < share * top)
    ensures top <= 0.0 ==> NormalizedAttention(b, top) == 0.0
  {
    if top > 0.0 {
      var q := b.avgAttention / top;
      assert q * top == b.avgAttention;
      ProductOrder(share, q, top);
    }
  }

  // ---------- the weights of the hybrid score ----------

  /** With nothing to add for the workload, and weights that sum to one, the weights are the configured ones. */
  lemma {:induction false} ConfiguredWeights(cfg: Config)
    requires cfg.recencyWeight >= 0.0 && cfg.attentionWeight >= 0.0 && cfg.reuseWeight >= 0.0
    requires cfg.recencyWeight + cfg.attentionWeight + cfg.reuseWeight == 1.0
    ensures AdaptedWeights(cfg, Unknown) == Weights(cfg.recencyWeight, cfg.attentionWeight, cfg.reuseWeight)
  {
  }

  /** With other sums they keep their proportions. */
  lemma {:induction false} ProportionalWeights(cfg: Config, total: real)
    requires cfg.recencyWeight >= 0.0 && cfg.attentionWeight >= 0.0 && cfg.reuseWeight >= 0.0
    requires total == cfg.recencyWeight + cfg.attentionWeight + cfg.reuseWeight && total > 0.0
    ensures
      var w := AdaptedWeights(cfg, Unknown);
      w.recency * total == cfg.recencyWeight && w.attention * total == cfg.attentionWeight
      && w.reuse * total == cfg.reuseWeight
  {
  }

  /** A signal whose configured weight is shifted to nothing or below counts for nothing. */
  lemma {:induction false} DroppedWeights(cfg: Config, workload: Workload)
    ensures
      var d, w := Deltas(workload), AdaptedWeights(cfg, workload);
      && (cfg.recencyWeight + d.recency <= 0.0 ==> w.recency == 0.0)
      && (cfg.attentionWeight + d.attention <= 0.0 ==> w.attention == 0.0)
      && (cfg.reuseWeight + d.reuse <= 0.0 ==> w.reuse == 0.0)
  {
  }

  predicate IsShares(w: Weights, total: real, recency: real, attention: real, reuse: real) {
    w.recency * total == recency && w.attention * total == attention && w.reuse * total == reuse
  }

  /** What the workloads make of the default weights 0.4, 0.4 and 0.2. */
  lemma {:induction false} WorkloadWeights(cfg: Config)
    requires cfg.recencyWeight == 0.4 && cfg.attentionWeight == 0.4 && cfg.reuseWeight == 0.2
    ensures IsShares(AdaptedWeights(cfg, SingleDocQa), 1.1, 0.4, 0.5, 0.2)
    ensures IsShares(AdaptedWeights(cfg, MultiDocQa), 1.15, 0.4, 0.5, 0.25)
    ensures IsShares(AdaptedWeights(cfg, Summarization), 1.1, 0.5, 0.4, 0.2)
    ensures IsShares(AdaptedWeights(cfg, Dialogue), 1.1, 0.45, 0.4, 0.25)
    ensures IsShares(AdaptedWeights(cfg, Code), 1.15, 0.35, 0.45, 0.35)
    ensures IsShares(AdaptedWeights(cfg, StructuredData), 1.1, 0.4, 0.45, 0.25)
    ensures AdaptedWeights(cfg, Unknown) == Weights(0.4, 0.4, 0.2)
  {
  }

  // ---------- what each signal adds to the hybrid score ----------

  /** Prefix reuse adds its weight. */
  lemma {:induction false} ReuseAdds(cfg: Config, b: Block, m: Metrics)
    ensures CompositeScore(cfg, b.(prefixReuse := true), m) ==
            CompositeScore(cfg, b.(prefixReuse := false), m) + AdaptedWeights(cfg, m.workload).reuse
  {
    var w := AdaptedWeights(cfg, m.workload);
    var c, d := b.(prefixReuse := true), b.(prefixReuse := false);
    assert RawRecency(c, m) == RawRecency(d, m) && RawAttention(c, m) == RawAttention(d, m);
    OneSignal(w.reuse);
  }

  lemma {:induction false} OneSignal(w: real)
    ensures w * 1.0 == w && w * 0.0 == 0.0
  {
  }

  /**
   An access at a step adds the share of that step in the latest step, times the weight; at the latest step all of it.
   */
  lemma {:induction false} RecencyAdds(cfg: Config, b: Block, m: Metrics, step: int, latest: int)
    requires m.globalStep == Some(latest) && latest > 0 && 0 <= step <= latest
    ensures CompositeScore(cfg, b.(lastAccess := step), m) ==
            CompositeScore(cfg, b.(lastAccess := 0), m)
            + AdaptedWeights(cfg, m.workload).recency * (step as real / latest as real)
    ensures step == latest ==>
      CompositeScore(cfg, b.(lastAccess := step), m)
      == CompositeScore(cfg, b.(lastAccess := 0), m) + AdaptedWeights(cfg, m.workload).recency
  {
    RecencyOf(b, m, step, latest);
    RecencyOf(b, m, 0, latest);
    var w, c, d := AdaptedWeights(cfg, m.workload), b.(lastAccess := step), b.(lastAccess := 0);
    assert RawAttention(c, m) == RawAttention(d, m);
    OneSignal(w.recency);
  }

  lemma {:induction false} RecencyOf(b: Block, m: Metrics, step: int, latest: int)
    requires m.globalStep == Some(latest) && latest > 0 && 0 <= step <= latest
    ensures MaxReal(0.0, RawRecency(b.(lastAccess := step), m)) == step as real / latest as real
    ensures step == 0 ==> step as real / latest as real == 0.0
    ensures step == latest ==> step as real / latest as real == 1.0
  {
    var x, y := step as real, latest as real;
    QuotientOrder(0.0, x, y);
    RestOfQuotient(x, y);
    assert (latest - step) as real == y - x;
  }

  lemma {:induction false} RestOfQuotient(x: real, y: real)
    requires y > 0.0
    ensures (y - x) / y == 1.0 - x / y
    ensures y / y == 1.0
  {
    var p, q := (y - x) / y, x / y;
    assert p * y == y - x && q * y == x;
    assert (1.0 - q) * y == y - q * y;
    ProductOrder(p, 1.0 - q, y);
  }

  /**
   Attention adds its share in the largest, times the weight; the largest adds all of it, and more than that no more.
   */
  lemma {:induction false} AttentionAdds(cfg: Config, b: Block, m: Metrics, v: real, top: real)
    requires m.attnMax == Some(top) && top > 0.0
    ensures v <= top ==>
      CompositeScore(cfg, b.(avgAttention := v), m)
      == CompositeScore(cfg, b.(avgAttention := 0.0), m) + AdaptedWeights(cfg, m.workload).attention * (v / top)
    ensures v >= top ==>
      CompositeScore(cfg, b.(avgAttention := v), m)
      == CompositeScore(cfg, b.(avgAttention := 0.0), m) + AdaptedWeights(cfg, m.workload).attention
  {
    AttentionOf(b, m, v, top);
    AttentionOf(b, m, 0.0, top);
    var w, c, d := AdaptedWeights(cfg, m.workload), b.(avgAttention := v), b.(avgAttention := 0.0);
    assert RawRecency(c, m) == RawRecency(d, m);
    OneSignal(w.attention);
  }

  lemma {:induction false} AttentionOf(b: Block, m: Metrics, v: real, top: real)
    requires m.attnMax == Some(top) && top > 0.0
    ensures v <= top ==> MinReal(1.0, RawAttention(b.(avgAttention := v), m)) == v / top
    ensures v >= top ==> MinReal(1.0, RawAttention(b.(avgAttention := v), m)) == 1.0
    ensures v == 0.0 ==> v / top == 0.0
    ensures v == top ==> v / top == 1.0
  {
    QuotientOrder(v, top, top);
    assert top / top == 1.0;
  }

  /** Without any of the three signals the score is zero. */
  lemma {:induction false} NoSignalNoScore(cfg: Config, b: Block, m: Metrics, latest: int, top: real)
    requires m.globalStep == Some(latest) && latest > 0 && m.attnMax == Some(top) && top > 0.0
    requires b.lastAccess == 0 && b.avgAttention == 0.0 && !b.prefixReuse
    ensures CompositeScore(cfg, b, m) == 0.0
  {
    RecencyOf(b, m, 0, latest);
    AttentionOf(b, m, 0.0, top);
    assert b.(lastAccess := 0) == b && b.(avgAttention := 0.0) == b;
    var w := AdaptedWeights(cfg, m.workload);
    OneSignal(w.recency);
    OneSignal(w.attention);
    OneSignal(w.reuse);
  }

  /** An access before step zero counts as one at step zero. */
  lemma {:induction false} NegativeStepsCountAsZero(cfg: Config, b: Block, m: Metrics, latest: int)
    requires m.globalStep == Some(latest) && latest > 0 && b.lastAccess <= 0
    ensures CompositeScore(cfg, b, m) == CompositeScore(cfg, b.(lastAccess := 0), m)
  {
    var gap, span := (latest - b.lastAccess) as real, latest as real;
    QuotientOrder(span, gap, span);
    assert span / span == 1.0;
    RecencyOf(b, m, 0, latest);
    assert RawAttention(b, m) == RawAttention(b.(lastAccess := 0), m);
  }

  /** Metrics that leave out the latest step or the peak are filled in with those of the block itself. */
  lemma {:induction false} OwnMaxima(b: Block, m: Metrics)
    ensures m.globalStep == None && b.lastAccess >= 1 ==> RawRecency(b, m) == 1.0
    ensures m.globalStep == None && b.lastAccess <= 1 ==> RawRecency(b, m) == b.lastAccess as real
    ensures m.attnMax == None ==> RawAttention(b, m) * MaxReal(b.maxAttention, 0.000000001) == b.avgAttention
  {
    var step := Max(b.lastAccess, 1) as real;
    assert 0.0 / step == 0.0;
  }

  // ---------- learned scores ----------

  /** The smallest prediction becomes 0 and the largest 1. */
  lemma {:induction false} RescaledEnds(lo: real, hi: real)
    requires lo < hi
    ensures Rescale(lo, hi)(lo) == 0.0 && Rescale(lo, hi)(hi) == 1.0
  {
    RestOfQuotient(0.0, hi - lo);
  }

  /** Predictions between them keep their distances in proportion. */
  lemma {:induction false} RescaledDistance(lo: real, hi: real, x: real, y: real)
    requires lo < hi
    ensures (Rescale(lo, hi)(x) - Rescale(lo, hi)(y)) * (hi - lo) == x - y
  {
    var d := hi - lo;
    var p, q := (x - lo) / d, (y - lo) / d;
    Proportional(p, q, d, x - lo, y - lo);
  }

  lemma {:induction false} Proportional(p: real, q: real, d: real, u: real, v: real)
    requires d > 0.0 && p == u / d && q == v / d
    ensures (p - q) * d == u - v
  {
    assert p * d == u && q * d == v;
    assert (p - q) * d == p * d - q * d;
  }

  /** Predictions that are all the same tell nothing: every block scores one half. */
  lemma {:induction false} SameForAll(blocks: seq<Block>, values: seq<real>)
    requires values != [] && MinOf(values) == MaxOf(values)
    ensures |LearnedScores(blocks, Raw(values))| == |blocks|
    ensures forall i :: 0 <= i < |blocks| ==> LearnedScores(blocks, Raw(values))[i] == 0.5
  {
  }

  /** Without an answer every block scores its share of the largest attention, or one half if none is positive. */
  lemma {:induction false} WithoutAnswer(blocks: seq<Block>, prediction: Prediction)
    requires prediction.Raises? || prediction.values == []
    ensures
      var scores, top := LearnedScores(blocks, prediction), MaxAttention(blocks);
      && |scores| == |blocks|
      && (top <= 0.0 ==> forall i :: 0 <= i < |blocks| ==> scores[i] == 0.5)
      && (top > 0.0 ==> forall i :: 0 <= i < |blocks| ==> scores[i] == blocks[i].avgAttention / top)
  {
  }

  /** The hybrid controller uses these when its model is ready, else the composite score of every block. */
  lemma {:induction false} HybridScoresAre(cfg: Config, learnedReady: bool, blocks: seq<Block>, m: Metrics,
                                           prediction: Prediction, i: nat)
    requires i < |blocks|
    ensures
      var scores := HybridScores(cfg, learnedReady, blocks, m, prediction);
      && (learnedReady ==> scores == LearnedScores(blocks, prediction))
      && (!learnedReady ==> |scores| == |blocks| && scores[i] == CompositeScore(cfg, blocks[i], m))
  {
    var f := CompositeScoreIn(cfg, m);
    assert f(blocks[i]) == CompositeScore(cfg, blocks[i], m);
  }
}
