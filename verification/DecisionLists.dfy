/**
 What every decide() has in common: at most one decision per block, for tracked blocks only, so that the
 verdict on a block can be read off the list by its id.
 */
module DecisionLists {
  import opened Sorting
  import opened Selection
  import opened Schema
  import opened Effects
  import opened Policies

  /** Decisions made element by element from `items`, each about the element's own id. */
  lemma {:induction false} VerdictOfElement<T(!new)>(items: seq<T>, id: T -> int, f: T -> PolicyDecision, x: T)
    requires Distinct(items, id)
    requires forall y :: y in items ==> f(y).block == id(y)
    requires x in items
    ensures
      var v := VerdictsOf(Map(f, items));
      id(x) in v && v[id(x)] == f(x)
  {
    MappedDistinct(items, id, f);
    var i :| 0 <= i < |items| && items[i] == x;
    assert Map(f, items)[i] == f(x);
    VerdictsFrom(Map(f, items), f(x));
  }

  lemma {:induction false} MappedDistinct<T(!new)>(items: seq<T>, id: T -> int, f: T -> PolicyDecision)
    requires Distinct(items, id)
    requires forall y :: y in items ==> f(y).block == id(y)
    ensures Distinct(Map(f, items), DecisionBlock)
  {
    forall i, j | 0 <= i < j < |items|
      ensures Map(f, items)[i].block != Map(f, items)[j].block
    {
      assert items[i] in items && items[j] in items;
    }
  }

  /** A verdict in such a list is about one of the elements. */
  lemma {:induction false} VerdictIsOfElement<T(!new)>(items: seq<T>, id: T -> int, f: T -> PolicyDecision, k: int)
    requires Distinct(items, id)
    requires forall y :: y in items ==> f(y).block == id(y)
    ensures k in VerdictsOf(Map(f, items)) <==> k in Ids(items, id)
    ensures k in Ids(items, id) ==> exists x :: x in items && id(x) == k && VerdictsOf(Map(f, items))[k] == f(x)
  {
    var ds := Map(f, items);
    MappedDistinct(items, id, f);
    InIds(items, id, k);
    if k in Ids(items, id) {
      var x :| x in items && id(x) == k;
      VerdictOfElement(items, id, f, x);
    }
    if k in VerdictsOf(ds) {
      VerdictBlock(ds, k);
      var d := VerdictsOf(ds)[k];
      VerdictsFrom(ds, d);
      var i :| 0 <= i < |ds| && ds[i] == d;
      assert items[i] in items;
    }
  }

  // ---------- pairs of blocks and scores ----------

  lemma {:induction false} ZipDistinct(blocks: seq<Block>, scores: seq<real>)
    requires Distinct(blocks, BlockId)
    ensures Distinct(Zip(blocks, scores), ScoredId)
    ensures Ids(Zip(blocks, scores), ScoredId) <= Ids(blocks, BlockId)
    ensures |scores| == |blocks| ==> Ids(Zip(blocks, scores), ScoredId) == Ids(blocks, BlockId)
  {
    var pairs := Zip(blocks, scores);
    forall i, j | 0 <= i < j < |pairs|
      ensures ScoredId(pairs[i]) != ScoredId(pairs[j])
    {
      assert BlockId(blocks[i]) != BlockId(blocks[j]);
    }
    forall k | k in Ids(pairs, ScoredId)
      ensures k in Ids(blocks, BlockId)
    {
      InIds(pairs, ScoredId, k);
      var i :| 0 <= i < |pairs| && ScoredId(pairs[i]) == k;
      IdIn(blocks, BlockId, blocks[i]);
    }
    if |scores| == |blocks| {
      forall k | k in Ids(blocks, BlockId)
        ensures k in Ids(pairs, ScoredId)
      {
        InIds(blocks, BlockId, k);
        var i :| 0 <= i < |blocks| && BlockId(blocks[i]) == k;
        IdIn(pairs, ScoredId, pairs[i]);
      }
    }
  }

  lemma {:induction false} ByAttentionDistinct(blocks: seq<Block>)
    requires Distinct(blocks, BlockId)
    ensures Distinct(ByAttention(blocks), ScoredId)
    ensures Ids(ByAttention(blocks), ScoredId) == Ids(blocks, BlockId)
    ensures |ByAttention(blocks)| == |blocks|
    ensures multiset(ByAttention(blocks)) == multiset(Map(WithNormalizedAttention(MaxAttention(blocks)), blocks))
  {
    var f := WithNormalizedAttention(MaxAttention(blocks));
    var pairs := Map(f, blocks);
    MapIds(blocks, f);
    MapDistinct(blocks, f);
    SortKeepsDistinct(pairs, ScoredId, ScoreOf);
    SortIsOrderedRearrangement(pairs, ScoreOf);
  }

  lemma {:induction false} MapIds(blocks: seq<Block>, f: Block -> Scored)
    requires forall b :: b in blocks ==> f(b).block == b
    ensures Ids(Map(f, blocks), ScoredId) == Ids(blocks, BlockId)
  {
    if blocks != [] {
      assert blocks[0] in blocks;
      assert Map(f, blocks)[1..] == Map(f, blocks[1..]);
      MapIds(blocks[1..], f);
    }
  }

  lemma {:induction false} MapDistinct(blocks: seq<Block>, f: Block -> Scored)
    requires Distinct(blocks, BlockId)
    requires forall b :: b in blocks ==> f(b).block == b
    ensures Distinct(Map(f, blocks), ScoredId)
  {
    forall i, j | 0 <= i < j < |blocks|
      ensures ScoredId(Map(f, blocks)[i]) != ScoredId(Map(f, blocks)[j])
    {
      assert blocks[i] in blocks && blocks[j] in blocks;
      assert BlockId(blocks[i]) != BlockId(blocks[j]);
    }
  }

  // ---------- every policy ----------

  /** At most one decision per tracked block and none about anything else. */
  ghost predicate OneVerdictPerBlock(blocks: seq<Block>, ds: seq<PolicyDecision>) {
    && Distinct(ds, DecisionBlock)
    && VerdictsOf(ds).Keys <= Ids(blocks, BlockId)
  }

  lemma {:induction false} MappedVerdicts<T(!new)>(blocks: seq<Block>, items: seq<T>, id: T -> int,
                                            f: T -> PolicyDecision)
    requires Distinct(items, id)
    requires Ids(items, id) <= Ids(blocks, BlockId)
    requires forall y :: y in items ==> f(y).block == id(y)
    ensures OneVerdictPerBlock(blocks, Map(f, items))
    ensures VerdictsOf(Map(f, items)).Keys == Ids(items, id)
  {
    MappedDistinct(items, id, f);
    forall k
      ensures k in VerdictsOf(Map(f, items)) <==> k in Ids(items, id)
    {
      VerdictIsOfElement(items, id, f, k);
    }
  }

  /** The policies that ask a model. */
  predicate AsksModel(kind: Kind) {
    kind == Hybrid(true) || kind == Learned(true)
  }

  /** The model, if there is one to ask, answers once per block, or not at all. */
  ghost predicate AnswersAllBlocks(kind: Kind, blocks: seq<Block>, prediction: Prediction) {
    AsksModel(kind) ==> prediction.Raises? || prediction.values == [] || |prediction.values| >= |blocks|
  }

  /** One decision for every block of the snapshot. */
  ghost predicate DecidesAll(blocks: seq<Block>, ds: seq<PolicyDecision>) {
    && OneVerdictPerBlock(blocks, ds)
    && VerdictsOf(ds).Keys == Ids(blocks, BlockId)
    && |ds| == |blocks|
  }

  lemma {:induction false} BlockByBlock(blocks: seq<Block>, f: Block -> PolicyDecision)
    requires Distinct(blocks, BlockId)
    requires forall b :: b in blocks ==> f(b).block == b.id
    ensures DecidesAll(blocks, Map(f, blocks))
  {
    MappedVerdicts(blocks, blocks, BlockId, f);
  }

  lemma {:induction false} PairByPair(blocks: seq<Block>, scores: seq<real>, f: Scored -> PolicyDecision)
    requires Distinct(blocks, BlockId)
    requires forall p: Scored :: f(p).block == p.block.id
    ensures OneVerdictPerBlock(blocks, Map(f, Zip(blocks, scores)))
    ensures |scores| >= |blocks| ==> DecidesAll(blocks, Map(f, Zip(blocks, scores)))
  {
    var pairs := Zip(blocks, scores);
    ZipDistinct(blocks, scores);
    MappedVerdicts(blocks, pairs, ScoredId, f);
    CountIds(blocks, BlockId);
    CountIds(pairs, ScoredId);
    SmallerSet(Ids(pairs, ScoredId), Ids(blocks, BlockId));
  }

  lemma {:induction false} OffloadOnlyDecidesAll(cfg: Config, blocks: seq<Block>)
    requires Distinct(blocks, BlockId)
    ensures DecidesAll(blocks, Map(OffloadVerdict(OffloadIds(cfg, blocks)), ByAttention(blocks)))
  {
    ByAttentionDistinct(blocks);
    MappedVerdicts(blocks, ByAttention(blocks), ScoredId, OffloadVerdict(OffloadIds(cfg, blocks)));
  }

  lemma {:induction false} H2ODecidesAll(cfg: Config, blocks: seq<Block>, pressure: real)
    requires Distinct(blocks, BlockId)
    ensures DecidesAll(blocks, H2ODecisions(cfg, blocks, pressure))
  {
    BlockByBlock(blocks, Keep);
    BlockByBlock(blocks, H2OVerdict(SinkIds(blocks, cfg.sinks) + HeavyIds(cfg, blocks)));
  }

  lemma {:induction false} LearnedDecides(cfg: Config, modelLoaded: bool, blocks: seq<Block>, pressure: real,
                                          prediction: Prediction)
    requires Distinct(blocks, BlockId)
    ensures OneVerdictPerBlock(blocks, LearnedDecisions(cfg, modelLoaded, blocks, pressure, prediction))
    ensures AnswersAllBlocks(Learned(modelLoaded), blocks, prediction) ==>
      DecidesAll(blocks, LearnedDecisions(cfg, modelLoaded, blocks, pressure, prediction))
  {
    H2ODecidesAll(cfg, blocks, pressure);
    BlockByBlock(blocks, Keep);
    PairByPair(blocks, LearnedScores(blocks, prediction), GradedVerdict(cfg, SinkIds(blocks, cfg.sinks)));
  }

  lemma {:induction false} RegimeDecides(cfg: Config, blocks: seq<Block>, scores: seq<real>, pressure: real)
    requires Distinct(blocks, BlockId)
    ensures OneVerdictPerBlock(blocks, Regime(cfg, blocks, scores, pressure))
    ensures |scores| >= |blocks| ==> DecidesAll(blocks, Regime(cfg, blocks, scores, pressure))
  {
    var sinks := SinkIds(blocks, cfg.sinks);
    if pressure < cfg.pressureLow {
      BlockByBlock(blocks, Keep);
    } else if pressure < cfg.pressureHigh {
      PairByPair(blocks, scores, GradedVerdict(cfg, sinks));
    } else {
      PairByPair(blocks, scores, HardVerdict(cfg, sinks + TopIds(cfg, |blocks|, Zip(blocks, scores))));
    }
  }

  lemma {:induction false} ScoresForAll(cfg: Config, learnedReady: bool, blocks: seq<Block>, m: Metrics,
                                        prediction: Prediction)
    requires AnswersAllBlocks(Hybrid(learnedReady), blocks, prediction)
    ensures |HybridScores(cfg, learnedReady, blocks, m, prediction)| >= |blocks|
  {
    if !learnedReady {
      var f := CompositeScoreIn(cfg, m);
      assert |Map(f, blocks)| == |blocks|;
    }
  }

  lemma {:induction false} HybridDecides(cfg: Config, learnedReady: bool, blocks: seq<Block>, m: Metrics,
                                         prediction: Prediction)
    requires Distinct(blocks, BlockId)
    ensures OneVerdictPerBlock(blocks, HybridDecisions(cfg, learnedReady, blocks, m, prediction))
    ensures AnswersAllBlocks(Hybrid(learnedReady), blocks, prediction) ==>
      DecidesAll(blocks, HybridDecisions(cfg, learnedReady, blocks, m, prediction))
  {
    RegimeDecides(cfg, blocks, HybridScores(cfg, learnedReady, blocks, m, prediction), Pressure(m.used, m.free));
    if AnswersAllBlocks(Hybrid(learnedReady), blocks, prediction) {
      ScoresForAll(cfg, learnedReady, blocks, m, prediction);
    }
  }

  /** The decide() contract: decisions on distinct tracked blocks, and on all of them when the model answers for all. */
  lemma {:induction false} DecideOnTrackedBlocks(kind: Kind, cfg: Config, blocks: seq<Block>, m: Metrics,
                                                 prediction: Prediction)
    requires Distinct(blocks, BlockId)
    ensures OneVerdictPerBlock(blocks, Decide(kind, cfg, blocks, m, prediction))
    ensures AnswersAllBlocks(kind, blocks, prediction) ==> DecidesAll(blocks, Decide(kind, cfg, blocks, m, prediction))
  {
    match kind
    case FullCache =>
      BlockByBlock(blocks, Keep);
      BlockByBlock(blocks, FullCacheVerdict(LruIds(blocks)));
    case SlidingWindow =>
      BlockByBlock(blocks, Keep);
      BlockByBlock(blocks, WindowVerdict(WindowIds(cfg, blocks)));
    case H2O =>
      H2ODecidesAll(cfg, blocks, Pressure(m.used, m.free));
    case QuantizeOnly =>
      BlockByBlock(blocks, Keep);
      BlockByBlock(blocks, QuantizeVerdict(cfg, SinkIds(blocks, cfg.sinks), MaxAttention(blocks)));
    case OffloadOnly =>
      BlockByBlock(blocks, Keep);
      OffloadOnlyDecidesAll(cfg, blocks);
    case Hybrid(learnedReady) =>
      HybridDecides(cfg, learnedReady, blocks, m, prediction);
    case Learned(modelLoaded) =>
      LearnedDecides(cfg, modelLoaded, blocks, Pressure(m.used, m.free), prediction);
  }
}
