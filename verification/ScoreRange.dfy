/** The heuristic score of the hybrid controller lies in [0, 1] because of what the tracker keeps. */
module ScoreRange {
  import opened Sequences
  import opened Numbers
  import opened Fractions
  import opened Schema
  import opened Policies
  import opened TrackerModel
  import opened TrackerInvariants

  /** The shared entries of the metrics are at least those of the block. */
  ghost predicate Covers(m: Metrics, b: Block) {
    && (m.globalStep.Some? ==> b.lastAccess <= m.globalStep.value)
    && (m.attnMax.Some? ==> b.maxAttention <= m.attnMax.value)
  }

  /** The attention term never needs its cut-off. */
  lemma {:induction false} AttentionInUnit(b: Block, m: Metrics)
    requires SaneAttention(b) && Covers(m, b)
    ensures 0.0 <= RawAttention(b, m) <= 1.0
    ensures MinReal(1.0, RawAttention(b, m)) == RawAttention(b, m)
  {
    var attnMax := if m.attnMax.Some? then m.attnMax.value else MaxReal(b.maxAttention, 0.000000001);
    if attnMax > 0.0 {
      QuotientInUnit(b.avgAttention, attnMax);
    }
  }

  /**
   The block was accessed at a step that is not negative, or no step is positive and the latest at most one after it.
   */
  predicate RecentEnough(b: Block, latest: int) {
    b.lastAccess >= 0 || (latest <= 0 && b.lastAccess >= latest - 1)
  }

  /** The recency term is at most one; it needs no cut-off exactly under that condition. */
  lemma {:induction false} RecencyInUnit(b: Block, m: Metrics)
    requires Covers(m, b)
    ensures RawRecency(b, m) <= 1.0
    ensures MaxReal(0.0, RawRecency(b, m)) == RawRecency(b, m) <==> RecentEnough(b, LatestStep(b, m))
  {
    var latest := LatestStep(b, m);
    var gap, span := latest - b.lastAccess, Max(latest, 1);
    QuotientOrder(0.0, gap as real, span as real);
    QuotientOrder(gap as real, span as real, span as real);
    assert (gap as real <= span as real) <==> gap <= span;
  }

  /** An access at step -5 that is measured against step 3 needs it. */
  lemma {:induction false} NegativeStepIsCutOff(b: Block, m: Metrics)
    requires b == NewBlock(0, 0, 0, "r").(lastAccess := -5) && m.globalStep == Some(3)
    ensures Covers(m.(attnMax := Some(0.0)), b)
    ensures RawRecency(b, m) < 0.0 && MaxReal(0.0, RawRecency(b, m)) != RawRecency(b, m)
  {
    var gap, span := 8.0, 3.0;
    assert RawRecency(b, m) == 1.0 - gap / span;
  }

  /** The adapted weights are shares of one, or all zero. */
  lemma {:induction false} WeightsAreShares(cfg: Config, workload: Workload)
    ensures
      var w := AdaptedWeights(cfg, workload);
      && 0.0 <= w.recency && 0.0 <= w.attention && 0.0 <= w.reuse
      && (w.recency + w.attention + w.reuse == 1.0 || w == Weights(0.0, 0.0, 0.0))
  {
    var d := Deltas(workload);
    SharesOf(MaxReal(0.0, cfg.recencyWeight + d.recency),
             MaxReal(0.0, cfg.attentionWeight + d.attention),
             MaxReal(0.0, cfg.reuseWeight + d.reuse));
  }

  lemma {:induction false} SharesOf(r: real, a: real, u: real)
    requires 0.0 <= r && 0.0 <= a && 0.0 <= u
    ensures r + a + u > 0.0 ==>
      var t := r + a + u;
      r / t >= 0.0 && a / t >= 0.0 && u / t >= 0.0 && r / t + a / t + u / t == 1.0
  {
    var t := r + a + u;
    if t > 0.0 {
      QuotientInUnit(r, t);
      QuotientInUnit(a, t);
      QuotientInUnit(u, t);
      var x, y, z := r / t, a / t, u / t;
      assert x * t == r && y * t == a && z * t == u;
      assert (x + y + z - 1.0) * t == 0.0;
    }
  }

  lemma {:induction false} BlendInUnit(w: Weights, recency: real, attention: real, reuse: real)
    requires 0.0 <= w.recency && 0.0 <= w.attention && 0.0 <= w.reuse
    requires w.recency + w.attention + w.reuse <= 1.0
    requires 0.0 <= recency <= 1.0 && 0.0 <= attention <= 1.0 && 0.0 <= reuse <= 1.0
    ensures 0.0 <= Blend(w, recency, attention, reuse) <= 1.0
  {
    WeightedInUnit(w.recency, w.attention, w.reuse, recency, attention, reuse);
  }

  lemma {:induction false} WeightedInUnit(a: real, b: real, c: real, x: real, y: real, z: real)
    requires 0.0 <= a && 0.0 <= b && 0.0 <= c && a + b + c <= 1.0
    requires 0.0 <= x <= 1.0 && 0.0 <= y <= 1.0 && 0.0 <= z <= 1.0
    ensures 0.0 <= a * x + b * y + c * z <= 1.0
  {
    var p := ScaledDown(a, x);
    var q := ScaledDown(b, y);
    var r := ScaledDown(c, z);
    assert a * x + b * y + c * z == p + q + r;
  }

  lemma {:induction false} ScaledDown(w: real, x: real) returns (p: real)
    requires w >= 0.0 && 0.0 <= x <= 1.0
    ensures p == w * x && 0.0 <= p <= w
  {
    p := w * x;
    assert w * (1.0 - x) == w - p;
  }

  /** The composite score of a block with sane attention, for any workload and any configured weights. */
  lemma {:induction false} CompositeInUnit(cfg: Config, b: Block, m: Metrics)
    requires SaneAttention(b) && Covers(m, b)
    ensures 0.0 <= CompositeScore(cfg, b, m) <= 1.0
  {
    AttentionInUnit(b, m);
    RecencyInUnit(b, m);
    WeightsAreShares(cfg, m.workload);
    BlendInUnit(AdaptedWeights(cfg, m.workload), MaxReal(0.0, RawRecency(b, m)),
                MinReal(1.0, RawAttention(b, m)), if b.prefixReuse then 1.0 else 0.0);
  }

  /** The latest step and the peak that the engine reports are those of blocks, or 0 and 1 when there is none. */
  lemma {:induction false} MaximaAttained(s: State)
    ensures s == [] ==> MaxStep(s) == 0 && MaxPeak(s) == 1.0
    ensures s != [] ==> exists b :: b in s && b.lastAccess == MaxStep(s)
    ensures s != [] ==> exists b :: b in s && b.maxAttention == MaxPeak(s)
  {
    if s != [] {
      assert Last(s) in s && forall b :: b in Init(s) ==> b in s;
      MaximaAttained(Init(s));
      if |s| > 1 {
        assert Init(s) != [];
        var b :| b in Init(s) && b.lastAccess == MaxStep(Init(s));
        var c :| c in Init(s) && c.maxAttention == MaxPeak(Init(s));
        assert b in s && c in s;
      }
    }
  }

  lemma {:induction false} MaximaCover(s: State, b: Block)
    requires b in s
    ensures b.lastAccess <= MaxStep(s) && b.maxAttention <= MaxPeak(s)
  {
    if |s| > 1 && b != Last(s) {
      assert b in Init(s);
      MaximaCover(Init(s), b);
    } else if |s| > 1 {
      assert MaxStep(s) == Max(MaxStep(Init(s)), Last(s).lastAccess);
    }
  }

  /**
   In every state a tracker can reach with non-negative attention weights, the engine's metrics give every
   tracked block a score in [0, 1], and the cut-off of the attention term changes nothing; that of the recency term
   changes nothing exactly for a block accessed recently enough, which holds of every step that is not negative.
   */
  lemma {:induction false} EveryReachableScoreInUnit(z: Sizes, events: seq<Event>, cfg: Config, free: real, b: Block)
    requires forall e :: e in events ==> WeightsNotNegative(e)
    requires b in Run(z, [], events)
    ensures
      var m := EngineMetrics(z, Run(z, [], events), free);
      && 0.0 <= CompositeScore(cfg, b, m) <= 1.0
      && MinReal(1.0, RawAttention(b, m)) == RawAttention(b, m)
      && (MaxReal(0.0, RawRecency(b, m)) == RawRecency(b, m) <==> RecentEnough(b, MaxStep(Run(z, [], events))))
  {
    var s := Run(z, [], events);
    var m := EngineMetrics(z, s, free);
    RunKeepsSane(z, [], events);
    MaximaCover(s, b);
    ScoredUnderCover(cfg, b, m);
  }

  lemma {:induction false} ScoredUnderCover(cfg: Config, b: Block, m: Metrics)
    requires SaneAttention(b) && Covers(m, b)
    ensures 0.0 <= CompositeScore(cfg, b, m) <= 1.0
    ensures MinReal(1.0, RawAttention(b, m)) == RawAttention(b, m)
    ensures MaxReal(0.0, RawRecency(b, m)) == RawRecency(b, m) <==> RecentEnough(b, LatestStep(b, m))
  {
    CompositeInUnit(cfg, b, m);
    AttentionInUnit(b, m);
    RecencyInUnit(b, m);
  }

  // ---------- learned scores ----------

  /** Min-max normalised predictions lie in [0, 1] and keep their order. */
  lemma {:induction false} RescaledInUnit(values: seq<real>, i: nat, j: nat)
    requires i < |values| && j < |values|
    ensures
      var f := Rescale(MinOf(values), MaxOf(values));
      && 0.0 <= f(values[i]) <= 1.0
      && (values[i] <= values[j] ==> f(values[i]) <= f(values[j]))
  {
    RescaleOrder(MinOf(values), MaxOf(values), values[i], values[j]);
  }

  lemma {:induction false} RescaleOrder(lo: real, hi: real, x: real, y: real)
    requires lo <= x <= hi && lo <= y <= hi
    ensures 0.0 <= Rescale(lo, hi)(x) <= 1.0
    ensures x <= y ==> Rescale(lo, hi)(x) <= Rescale(lo, hi)(y)
  {
    if hi > lo {
      QuotientInUnit(x - lo, hi - lo);
      QuotientOrder(x - lo, y - lo, hi - lo);
    }
  }
}
