/** What a caller of decide() may rely on, policy by policy, said of the list of decisions itself. */
module Promises {
  import opened Sequences
  import opened Fractions
  import opened Sorting
  import opened Selection
  import opened Schema
  import opened Policies
  import opened DecisionLists
  import opened Outcomes
  import opened Sinks
  import opened OffloadFacts
  import opened WindowFacts
  import opened HybridFacts

  // ---------- counting ----------

  function CountOf(ds: seq<PolicyDecision>, d: Decision): nat {
    if ds == [] then 0 else CountOf(Init(ds), d) + if Last(ds).decision == d then 1 else 0
  }

  /** Every decision is counted under exactly one label. */
  lemma {:induction false} CountsAddUp(ds: seq<PolicyDecision>)
    ensures CountOf(ds, KeepGpu) + CountOf(ds, Quantize) + CountOf(ds, OffloadCpu) + CountOf(ds, Evict) == |ds|
  {
    if ds != [] {
      CountsAddUp(Init(ds));
    }
  }

  lemma {:induction false} NoneSuch(ds: seq<PolicyDecision>, d: Decision)
    requires forall i :: 0 <= i < |ds| ==> ds[i].decision != d
    ensures CountOf(ds, d) == 0
  {
    if ds != [] {
      assert Last(ds) == ds[|ds| - 1];
      NoneSuch(Init(ds), d);
    }
  }

  /** Decisions made element by element, counted by the ids they choose. */
  lemma {:induction false} CountById<T(!new)>(items: seq<T>, id: T -> int, f: T -> PolicyDecision, d: Decision,
                                              chosen: set<int>)
    requires Distinct(items, id)
    requires forall x :: x in items ==> (f(x).decision == d <==> id(x) in chosen)
    ensures CountOf(Map(f, items), d) == |Ids(items, id) * chosen|
  {
    if items != [] {
      var rest, last := Init(items), Last(items);
      LastId(items, id);
      PartsOf(items);
      CountById(rest, id, f, d, chosen);
      OneMoreChosen(Ids(rest, id), id(last), chosen);
      LastOfMap(items, f);
    }
  }

  lemma {:induction false} PartsOf<T(!new)>(items: seq<T>)
    requires items != []
    ensures Last(items) in items && forall x :: x in Init(items) ==> x in items
  {
  }

  lemma {:induction false} LastOfMap<T(!new)>(items: seq<T>, f: T -> PolicyDecision)
    requires items != []
    ensures Map(f, items) != []
    ensures Init(Map(f, items)) == Map(f, Init(items)) && Last(Map(f, items)) == f(Last(items))
  {
  }

  lemma {:induction false} LastId<T(!new)>(items: seq<T>, id: T -> int)
    requires Distinct(items, id) && items != []
    ensures Distinct(Init(items), id) && id(Last(items)) !in Ids(Init(items), id)
    ensures Ids(items, id) == Ids(Init(items), id) + {id(Last(items))}
  {
    var rest, last := Init(items), Last(items);
    assert items == rest + [last];
    DistinctParts(rest, [last], id);
    IdsAppend(rest, [last], id);
    assert Ids([last], id) == {id(last)};
  }

  lemma {:induction false} OneMoreChosen(ids: set<int>, x: int, chosen: set<int>)
    requires x !in ids
    ensures |(ids + {x}) * chosen| == |ids * chosen| + if x in chosen then 1 else 0
  {
    if x in chosen {
      assert (ids + {x}) * chosen == ids * chosen + {x};
    } else {
      assert (ids + {x}) * chosen == ids * chosen;
    }
  }

  /** One decision per block, in the order of the blocks. */
  ghost predicate BlockForBlock(blocks: seq<Block>, ds: seq<PolicyDecision>) {
    |ds| == |blocks| && forall i :: 0 <= i < |ds| ==> ds[i].block == blocks[i].id
  }

  ghost predicate SinksKept(cfg: Config, blocks: seq<Block>, ds: seq<PolicyDecision>) {
    forall i :: 0 <= i < |ds| && ds[i].block in SinkIds(blocks, cfg.sinks) ==> ds[i].decision == KeepGpu
  }

  /** Kept with score 1 or evicted with score 0. */
  predicate KeptOrGone(d: PolicyDecision) {
    (d.decision == KeepGpu && d.score == 1.0) || (d.decision == Evict && d.score == 0.0)
  }

  /** `score` is the share of `attention` in `top`, or zero when there is nothing to have a share in. */
  predicate IsShare(score: real, attention: real, top: real) {
    if top > 0.0 then score * top == attention else score == 0.0
  }

  lemma {:induction false} NormalizedIsShare(b: Block, top: real)
    ensures IsShare(NormalizedAttention(b, top), b.avgAttention, top)
  {
  }

  // ---------- sliding window ----------

  /** Nothing goes below the threshold; above it exactly the blocks with enough others on both sides of them. */
  ghost predicate KeepsWindow(cfg: Config, blocks: seq<Block>, pressure: real, ds: seq<PolicyDecision>) {
    && BlockForBlock(blocks, ds) && SinksKept(cfg, blocks, ds)
    && (forall i :: 0 <= i < |ds| ==> KeptOrGone(ds[i]))
    && forall i :: 0 <= i < |ds| ==>
        (ds[i].decision == Evict <==>
          && pressure >= cfg.pressureLow
          && |Below(Ids(blocks, BlockId), blocks[i].id)| >= cfg.sinks
          && |Above(Ids(blocks, BlockId), blocks[i].id)| >= cfg.window)
  }

  lemma {:induction false} WindowPromise(cfg: Config, blocks: seq<Block>, pressure: real, ds: seq<PolicyDecision>)
    requires Distinct(blocks, BlockId) && ds == SlidingWindowDecisions(cfg, blocks, pressure)
    ensures KeepsWindow(cfg, blocks, pressure, ds)
  {
    forall i | 0 <= i < |blocks|
      ensures blocks[i].id in WindowIds(cfg, blocks) <==>
        || |Below(Ids(blocks, BlockId), blocks[i].id)| < cfg.sinks
        || |Above(Ids(blocks, BlockId), blocks[i].id)| < cfg.window
    {
      IdIn(blocks, BlockId, blocks[i]);
      KeptIffNearAnEnd(cfg, blocks, blocks[i].id);
    }
  }

  // ---------- full cache ----------

  /** What the baseline promises of a list of decisions on distinct blocks. */
  ghost predicate EvictsLeastRecent(cfg: Config, blocks: seq<Block>, pressure: real, ds: seq<PolicyDecision>) {
    && BlockForBlock(blocks, ds)
    && (forall i :: 0 <= i < |ds| ==> KeptOrGone(ds[i]))
    && CountOf(ds, Evict) == (if pressure < cfg.pressureHigh then 0 else Min(|blocks|, Max(1, |blocks| / 10)))
    && forall i, j :: 0 <= i < |ds| && 0 <= j < |ds| && ds[i].decision == Evict && ds[j].decision == KeepGpu ==>
        blocks[i].lastAccess <= blocks[j].lastAccess
  }

  lemma {:induction false} RestingEvictsNone(cfg: Config, blocks: seq<Block>, pressure: real, ds: seq<PolicyDecision>)
    requires pressure < cfg.pressureHigh && ds == KeepAll(blocks)
    ensures EvictsLeastRecent(cfg, blocks, pressure, ds)
  {
    NoneSuch(ds, Evict);
  }

  lemma {:induction false} BaselinePromise(cfg: Config, blocks: seq<Block>, pressure: real, ds: seq<PolicyDecision>)
    requires Distinct(blocks, BlockId) && pressure >= cfg.pressureHigh
    requires ds == Map(FullCacheVerdict(LruIds(blocks)), blocks)
    ensures EvictsLeastRecent(cfg, blocks, pressure, ds)
  {
    var n := Portion(|blocks|, 0.10);
    HowManyLru(blocks, ds);
    forall i, j | 0 <= i < |ds| && 0 <= j < |ds| && ds[i].decision == Evict && ds[j].decision == KeepGpu
      ensures blocks[i].lastAccess <= blocks[j].lastAccess
    {
      TopSelectionOrder(blocks, BlockId, LastAccessKey, n, blocks[i], blocks[j]);
      assert LastAccessKey(blocks[i]) <= LastAccessKey(blocks[j]);
    }
  }

  lemma {:induction false} HowManyLru(blocks: seq<Block>, ds: seq<PolicyDecision>)
    requires Distinct(blocks, BlockId) && ds == Map(FullCacheVerdict(LruIds(blocks)), blocks)
    ensures CountOf(ds, Evict) == Min(|blocks|, Max(1, |blocks| / 10))
  {
    TenthPortion(|blocks|);
    TopSelectionSize(blocks, BlockId, LastAccessKey, Portion(|blocks|, 0.10));
    CountById(blocks, BlockId, FullCacheVerdict(LruIds(blocks)), Evict, LruIds(blocks));
    assert Ids(blocks, BlockId) * LruIds(blocks) == LruIds(blocks);
  }

  // ---------- heavy-hitter oracle ----------

  /**
   Sinks stay; no block that is evicted has more attention than another that stays; and how many go is known up to the
   overlap of sinks and heavy hitters.
   */
  ghost predicate KeepsStrongest(cfg: Config, blocks: seq<Block>, pressure: real, ds: seq<PolicyDecision>) {
    && BlockForBlock(blocks, ds) && SinksKept(cfg, blocks, ds)
    && (forall i :: 0 <= i < |ds| ==> ds[i].decision in {KeepGpu, Evict})
    && (forall i :: 0 <= i < |ds| ==>
        ds[i].score == if pressure < cfg.pressureLow then 1.0 else blocks[i].avgAttention)
    && (pressure < cfg.pressureLow ==> CountOf(ds, Evict) == 0)
    && (pressure >= cfg.pressureLow ==> EvictsAllBut(|blocks|, Portion(|blocks|, cfg.heavyFraction), cfg.sinks, ds))
    && forall i, j :: 0 <= i < |ds| && 0 <= j < |ds| && ds[i].decision == Evict && ds[j].decision == KeepGpu ==>
        blocks[j].id in SinkIds(blocks, cfg.sinks) || blocks[i].avgAttention <= blocks[j].avgAttention
  }

  /** Of `n` decisions between min(n, k) and min(n, k + extra) keep their block. */
  predicate EvictsAllBut(n: nat, k: nat, extra: nat, ds: seq<PolicyDecision>) {
    n - Min(n, k + extra) <= CountOf(ds, Evict) <= n - Min(n, k)
  }

  lemma {:induction false} H2OPromise(cfg: Config, blocks: seq<Block>, pressure: real, ds: seq<PolicyDecision>)
    requires Distinct(blocks, BlockId) && ds == H2ODecisions(cfg, blocks, pressure)
    ensures KeepsStrongest(cfg, blocks, pressure, ds)
  {
    if pressure < cfg.pressureLow {
      NoneSuch(ds, Evict);
    } else {
      var k := Portion(|blocks|, cfg.heavyFraction);
      HowManyGo(cfg, blocks, ds);
      forall i, j | 0 <= i < |ds| && 0 <= j < |ds| && ds[i].decision == Evict && ds[j].decision == KeepGpu
        ensures blocks[j].id in SinkIds(blocks, cfg.sinks) || blocks[i].avgAttention <= blocks[j].avgAttention
      {
        if blocks[j].id !in SinkIds(blocks, cfg.sinks) {
          TopSelectionOrder(blocks, BlockId, AttentionDescending, k, blocks[j], blocks[i]);
          assert AttentionDescending(blocks[j]) <= AttentionDescending(blocks[i]);
        }
      }
    }
  }

  lemma {:induction false} HowManyGo(cfg: Config, blocks: seq<Block>, ds: seq<PolicyDecision>)
    requires Distinct(blocks, BlockId)
    requires ds == Map(H2OVerdict(SinkIds(blocks, cfg.sinks) + HeavyIds(cfg, blocks)), blocks)
    ensures EvictsAllBut(|blocks|, Portion(|blocks|, cfg.heavyFraction), cfg.sinks, ds)
  {
    var ids, sinks, heavy := Ids(blocks, BlockId), SinkIds(blocks, cfg.sinks), HeavyIds(cfg, blocks);
    TopSelectionSize(blocks, BlockId, AttentionDescending, Portion(|blocks|, cfg.heavyFraction));
    SinkCount(blocks, cfg.sinks);
    CountIds(blocks, BlockId);
    forall b | b in blocks
      ensures H2OVerdict(sinks + heavy)(b).decision == Evict <==> BlockId(b) in ids - (sinks + heavy)
    {
      IdIn(blocks, BlockId, b);
    }
    CountById(blocks, BlockId, H2OVerdict(sinks + heavy), Evict, ids - (sinks + heavy));
    OutsideBoth(ids, sinks, heavy);
  }

  lemma {:induction false} OutsideBoth(ids: set<int>, a: set<int>, b: set<int>)
    requires a <= ids && b <= ids
    ensures |ids * (ids - (a + b))| == |ids| - |a + b|
    ensures |b| <= |a + b| <= |a| + |b| && |a + b| <= |ids|
  {
    assert ids * (ids - (a + b)) == ids - (a + b);
    assert ids == (ids - (a + b)) + (a + b);
    UnionCount(a, b);
    SmallerSet(b, a + b);
  }

  // ---------- quantise only ----------

  /**
   Nothing is evicted or offloaded; sinks stay, and so does what is quantised already; of the others exactly those are
   quantised whose share of the largest attention is below the threshold, and that share is their score.
   */
  ghost predicate QuantizesWeakest(cfg: Config, blocks: seq<Block>, pressure: real, ds: seq<PolicyDecision>) {
    && BlockForBlock(blocks, ds) && SinksKept(cfg, blocks, ds)
    && (forall i :: 0 <= i < |ds| ==> ds[i].decision in {KeepGpu, Quantize})
    && (forall i :: 0 <= i < |ds| && !Judged(cfg, blocks, pressure, blocks[i]) ==>
        ds[i].decision == KeepGpu && ds[i].score == 1.0)
    && (forall i :: 0 <= i < |ds| && Judged(cfg, blocks, pressure, blocks[i]) ==>
        && IsShare(ds[i].score, blocks[i].avgAttention, MaxAttention(blocks))
        && (ds[i].decision == Quantize <==> ds[i].score < cfg.quantizationMin))
    && forall i, j :: 0 <= i < |ds| && 0 <= j < |ds| && ds[i].decision == Quantize && ds[j].decision == KeepGpu ==>
        Judged(cfg, blocks, pressure, blocks[j]) ==> blocks[i].avgAttention < blocks[j].avgAttention
  }

  /** Quantisation acts, on a block that is neither a sink nor quantised. */
  predicate Judged(cfg: Config, blocks: seq<Block>, pressure: real, b: Block) {
    && cfg.quantizationEnabled && pressure >= cfg.pressureLow
    && b.id !in SinkIds(blocks, cfg.sinks) && b.tier != GpuQuantized
  }

  lemma {:induction false} QuantizePromise(cfg: Config, blocks: seq<Block>, pressure: real, ds: seq<PolicyDecision>)
    requires ds == QuantizeOnlyDecisions(cfg, blocks, pressure)
    ensures QuantizesWeakest(cfg, blocks, pressure, ds)
  {
    if cfg.quantizationEnabled && pressure >= cfg.pressureLow {
      var top := MaxAttention(blocks);
      forall i | 0 <= i < |ds| && Judged(cfg, blocks, pressure, blocks[i])
        ensures IsShare(ds[i].score, blocks[i].avgAttention, top)
      {
        NormalizedIsShare(blocks[i], top);
      }
      forall i, j | 0 <= i < |ds| && 0 <= j < |ds| && ds[i].decision == Quantize && ds[j].decision == KeepGpu
        ensures Judged(cfg, blocks, pressure, blocks[j]) ==> blocks[i].avgAttention < blocks[j].avgAttention
      {
        LowerShare(blocks[i], blocks[j], top);
      }
    }
  }

  lemma {:induction false} LowerShare(b: Block, c: Block, top: real)
    ensures NormalizedAttention(b, top) < NormalizedAttention(c, top) ==> b.avgAttention < c.avgAttention
  {
    if top > 0.0 {
      QuotientOrder(c.avgAttention, b.avgAttention, top);
    }
  }

  // ---------- offload only ----------

  /**
   One decision per block; nothing is evicted or quantised; sinks stay. Under pressure every score is the share of the
   block in the largest attention, and the list ascends in it; no more blocks are offloaded than the configured share
   of all, none of them above the threshold; and when one that might be offloaded is not, one more would be too many,
   and it scores no lower than any that was.
   */
  ghost predicate OffloadsLowest(cfg: Config, blocks: seq<Block>, pressure: real, ds: seq<PolicyDecision>) {
    && DecidesAll(blocks, ds) && SinksKept(cfg, blocks, ds)
    && (forall i :: 0 <= i < |ds| ==> ds[i].decision in {KeepGpu, OffloadCpu})
    && (if cfg.offloadEnabled && pressure >= cfg.pressureLow then OffloadsByScore(cfg, blocks, ds)
        else CountOf(ds, OffloadCpu) == 0 && forall i :: 0 <= i < |ds| ==> ds[i].score == 1.0)
  }

  ghost predicate OffloadsByScore(cfg: Config, blocks: seq<Block>, ds: seq<PolicyDecision>) {
    && WithinShare(CountOf(ds, OffloadCpu), |blocks|, cfg.offloadMaxFraction)
    && (forall i :: 0 <= i < |ds| ==> ScoredAsBlock(blocks, ds[i]))
    && (forall i, j :: 0 <= i < j < |ds| ==> ds[i].score <= ds[j].score)
    && (forall i :: 0 <= i < |ds| && ds[i].decision == OffloadCpu ==> ds[i].score <= cfg.offloadThreshold)
    && forall i :: 0 <= i < |ds| && PassedOver(cfg, blocks, ds[i]) ==>
        && FillsShare(CountOf(ds, OffloadCpu), |blocks|, cfg.offloadMaxFraction)
        && forall j :: 0 <= j < |ds| && ds[j].decision == OffloadCpu ==> ds[j].score <= ds[i].score
  }

  /** The score of the decision is the share of its block in the largest attention. */
  ghost predicate ScoredAsBlock(blocks: seq<Block>, d: PolicyDecision) {
    exists b :: b in blocks && b.id == d.block && IsShare(d.score, b.avgAttention, MaxAttention(blocks))
  }

  /** It might be offloaded and is not. */
  predicate PassedOver(cfg: Config, blocks: seq<Block>, d: PolicyDecision) {
    d.decision == KeepGpu && d.block !in SinkIds(blocks, cfg.sinks) && d.score <= cfg.offloadThreshold
  }

  lemma {:induction false} OffloadPromise(cfg: Config, blocks: seq<Block>, pressure: real, ds: seq<PolicyDecision>)
    requires Distinct(blocks, BlockId) && ds == OffloadOnlyDecisions(cfg, blocks, pressure)
    ensures OffloadsLowest(cfg, blocks, pressure, ds)
  {
    if !cfg.offloadEnabled || pressure < cfg.pressureLow {
      BlockByBlock(blocks, Keep);
      NoneSuch(ds, OffloadCpu);
    } else {
      OffloadOnlyDecidesAll(cfg, blocks);
      OffloadWithinBudget(cfg, blocks);
      OffloadByScorePromise(cfg, blocks, ds);
    }
  }

  lemma {:induction false} OffloadByScorePromise(cfg: Config, blocks: seq<Block>, ds: seq<PolicyDecision>)
    requires Distinct(blocks, BlockId) && ds == Map(OffloadVerdict(OffloadIds(cfg, blocks)), ByAttention(blocks))
    ensures OffloadsByScore(cfg, blocks, ds)
  {
    var t := ByAttention(blocks);
    HowManyAreOffloaded(cfg, blocks, ds);
    BudgetIsShare(cfg, |blocks|, CountOf(ds, OffloadCpu));
    SortIsOrderedRearrangement(Map(WithNormalizedAttention(MaxAttention(blocks)), blocks), ScoreOf);
    forall i | 0 <= i < |ds|
      ensures ScoredAsBlock(blocks, ds[i])
      ensures ds[i].decision == OffloadCpu ==> ds[i].score <= cfg.offloadThreshold
    {
      ScoreIsOfBlock(blocks, t[i]);
      assert t[i].block in blocks;
      if ds[i].decision == OffloadCpu {
        OffloadIdsAreFirstEligible(cfg, blocks);
        TakenIsEligible(cfg, SinkIds(blocks, cfg.sinks), t, Budget(cfg, |blocks|), t[i], blocks);
        FilterIn(t, Eligible(cfg, SinkIds(blocks, cfg.sinks)));
      }
    }
    forall i, j | 0 <= i < j < |ds|
      ensures ds[i].score <= ds[j].score
    {
      assert ScoreOf(t[i]) <= ScoreOf(t[j]);
    }
    forall i | 0 <= i < |ds| && PassedOver(cfg, blocks, ds[i])
      ensures FillsShare(CountOf(ds, OffloadCpu), |blocks|, cfg.offloadMaxFraction)
      ensures forall j :: 0 <= j < |ds| && ds[j].decision == OffloadCpu ==> ds[j].score <= ds[i].score
    {
      NotTaken(cfg, blocks, t[i], CountOf(ds, OffloadCpu));
      forall j | 0 <= j < |ds| && ds[j].decision == OffloadCpu
        ensures ds[j].score <= ds[i].score
      {
        TakenScoresNoMore(cfg, blocks, t[j], t[i]);
      }
    }
  }

  lemma {:induction false} ScoreIsOfBlock(blocks: seq<Block>, p: Scored)
    requires p in ByAttention(blocks)
    ensures p.block in blocks && IsShare(p.score, p.block.avgAttention, MaxAttention(blocks))
  {
    var top := MaxAttention(blocks);
    var scored := Map(WithNormalizedAttention(top), blocks);
    SameElements(scored, ScoreOf);
    var i :| 0 <= i < |scored| && scored[i] == p;
    assert p == Scored(blocks[i], NormalizedAttention(blocks[i], top));
    NormalizedIsShare(blocks[i], top);
  }

  lemma {:induction false} HowManyAreOffloaded(cfg: Config, blocks: seq<Block>, ds: seq<PolicyDecision>)
    requires Distinct(blocks, BlockId) && ds == Map(OffloadVerdict(OffloadIds(cfg, blocks)), ByAttention(blocks))
    ensures CountOf(ds, OffloadCpu) == |OffloadIds(cfg, blocks)| <= Budget(cfg, |blocks|)
  {
    var chosen := OffloadIds(cfg, blocks);
    ByAttentionDistinct(blocks);
    OffloadWithinBudget(cfg, blocks);
    CountById(ByAttention(blocks), ScoredId, OffloadVerdict(chosen), OffloadCpu, chosen);
    assert Ids(ByAttention(blocks), ScoredId) * chosen == chosen;
  }

  lemma {:induction false} NotTaken(cfg: Config, s: seq<Block>, left: Scored, count: nat)
    requires Distinct(s, BlockId) && left in ByAttention(s) && left.block.id !in OffloadIds(cfg, s)
    requires left.block.id !in SinkIds(s, cfg.sinks) && left.score <= cfg.offloadThreshold
    requires count == |OffloadIds(cfg, s)|
    ensures FillsShare(count, |s|, cfg.offloadMaxFraction)
  {
    FilterIn(ByAttention(s), Eligible(cfg, SinkIds(s, cfg.sinks)));
    LeftOutMeansFull(cfg, s, left);
    BudgetIsShare(cfg, |s|, count);
  }

  lemma {:induction false} TakenScoresNoMore(cfg: Config, s: seq<Block>, taken: Scored, left: Scored)
    requires Distinct(s, BlockId) && taken in ByAttention(s) && left in ByAttention(s)
    requires taken.block.id in OffloadIds(cfg, s) && left.block.id !in OffloadIds(cfg, s)
    requires left.block.id !in SinkIds(s, cfg.sinks) && left.score <= cfg.offloadThreshold
    ensures taken.score <= left.score
  {
    var sinks := SinkIds(s, cfg.sinks);
    OffloadIdsAreFirstEligible(cfg, s);
    TakenIsEligible(cfg, sinks, ByAttention(s), Budget(cfg, |s|), taken, s);
    FilterIn(ByAttention(s), Eligible(cfg, sinks));
    LeftOutScoresNoLower(cfg, s, taken, left);
  }

  lemma {:induction false} TakenIsEligible(cfg: Config, sinks: set<int>, scored: seq<Scored>, n: nat, taken: Scored,
                                           s: seq<Block>)
    requires Distinct(s, BlockId) && scored == ByAttention(s) && taken in scored
    requires taken.block.id in Ids(Take(Filter(scored, Eligible(cfg, sinks)), n), ScoredId)
    ensures taken in Filter(scored, Eligible(cfg, sinks))
  {
    var eligible := Filter(scored, Eligible(cfg, sinks));
    ByAttentionDistinct(s);
    FilterIn(scored, Eligible(cfg, sinks));
    InIds(Take(eligible, n), ScoredId, taken.block.id);
    var p :| p in Take(eligible, n) && ScoredId(p) == taken.block.id;
    assert p in eligible;
    SameId(scored, ScoredId, p, taken);
  }

  // ---------- hybrid and learned ----------

  /** Sinks stay with score 1; every other block goes where its own score puts it, which it keeps. */
  ghost predicate GradedByScore(cfg: Config, blocks: seq<Block>, scores: seq<real>, ds: seq<PolicyDecision>) {
    && |ds| == Min(|blocks|, |scores|)
    && (forall i :: 0 <= i < |ds| ==> ds[i].block == blocks[i].id)
    && forall i :: 0 <= i < |ds| ==>
        if blocks[i].id in SinkIds(blocks, cfg.sinks) then ds[i].decision == KeepGpu && ds[i].score == 1.0
        else ds[i].decision == Graded(cfg, scores[i]) && ds[i].score == scores[i]
  }

  /** Sinks and the best-scored stay, every other block goes where its own score puts it, and all keep their scores. */
  ghost predicate GradedHardByScore(cfg: Config, blocks: seq<Block>, scores: seq<real>, ds: seq<PolicyDecision>) {
    && |ds| == Min(|blocks|, |scores|)
    && (forall i :: 0 <= i < |ds| ==> ds[i].block == blocks[i].id && ds[i].score == scores[i])
    && forall i :: 0 <= i < |ds| ==>
        if blocks[i].id in KeptIds(cfg, blocks, scores) then ds[i].decision == KeepGpu
        else ds[i].decision == GradedHard(cfg, scores[i])
  }

  /** All stay, with score 1. */
  ghost predicate AllStay(blocks: seq<Block>, ds: seq<PolicyDecision>) {
    && BlockForBlock(blocks, ds)
    && forall i :: 0 <= i < |ds| ==> ds[i].decision == KeepGpu && ds[i].score == 1.0
  }

  /** The three regimes; and at or above the low threshold no other block than a sink fares worse for a higher score. */
  ghost predicate FollowsScores(cfg: Config, blocks: seq<Block>, scores: seq<real>, pressure: real,
                                ds: seq<PolicyDecision>) {
    if pressure < cfg.pressureLow then AllStay(blocks, ds)
    else
      && (if pressure < cfg.pressureHigh then GradedByScore(cfg, blocks, scores, ds)
          else GradedHardByScore(cfg, blocks, scores, ds))
      && SinksKept(cfg, blocks, ds)
      && forall i, j :: 0 <= i < |ds| && 0 <= j < |ds| && scores[i] > scores[j] ==>
          blocks[j].id in SinkIds(blocks, cfg.sinks) || Rank(ds[i].decision) >= Rank(ds[j].decision)
  }

  lemma {:induction false} HybridPromise(cfg: Config, blocks: seq<Block>, scores: seq<real>, pressure: real,
                                         ds: seq<PolicyDecision>)
    requires Distinct(blocks, BlockId) && ds == Regime(cfg, blocks, scores, pressure)
    ensures FollowsScores(cfg, blocks, scores, pressure, ds)
  {
    if pressure >= cfg.pressureLow {
      forall i, j | 0 <= i < |ds| && 0 <= j < |ds| && scores[i] > scores[j]
        ensures blocks[j].id in SinkIds(blocks, cfg.sinks) || Rank(ds[i].decision) >= Rank(ds[j].decision)
      {
        if pressure < cfg.pressureHigh {
          GradedIsMonotone(cfg, scores[i], scores[j]);
        } else if blocks[j].id !in SinkIds(blocks, cfg.sinks) {
          HighTierIsMonotone(cfg, blocks, scores, Zip(blocks, scores)[i], Zip(blocks, scores)[j]);
        }
      }
    }
  }

  lemma {:induction false} GradedPromise(cfg: Config, blocks: seq<Block>, scores: seq<real>, ds: seq<PolicyDecision>)
    requires ds == Map(GradedVerdict(cfg, SinkIds(blocks, cfg.sinks)), Zip(blocks, scores))
    ensures GradedByScore(cfg, blocks, scores, ds)
  {
  }
}
