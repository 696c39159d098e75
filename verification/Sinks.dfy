/**
 The sinks of a snapshot: which blocks they are, that the policies keep them, and exactly when a policy spares more
 sinks than it was set to protect.
 */
module Sinks {
  import opened Sequences
  import opened Sorting
  import opened Selection
  import opened Schema
  import opened Effects
  import opened Policies
  import opened DecisionLists
  import opened TrackerModel
  import opened PressureFacts

  // ---------- the first k in id order are the ids with fewer than k below them ----------

  function Below(ids: set<int>, id: int): set<int> {
    set j | j in ids && j < id
  }

  lemma {:induction false} SinkIffFewBelow(s: State, k: nat, id: int)
    requires Distinct(s, BlockId)
    ensures id in SinkIds(s, k) <==> id in Ids(s, BlockId) && |Below(Ids(s, BlockId), id)| < k
  {
    var t := SortBy(s, IdKey);
    SortIsOrderedRearrangement(s, IdKey);
    SortKeepsDistinct(s, BlockId, IdKey);
    TopSelectionSize(s, BlockId, IdKey, k);
    if id in Ids(s, BlockId) {
      InIds(t, BlockId, id);
      var i :| 0 <= i < |t| && BlockId(t[i]) == id;
      BelowIsPrefix(t, i);
      PrefixIds(t, k, i);
    }
  }

  /** The ids before a position, and whether the element there is among the first k. */
  lemma {:induction false} PrefixIds(t: State, k: nat, i: nat)
    requires i < |t| && Distinct(t, BlockId)
    ensures |Ids(t[..i], BlockId)| == i
    ensures t[i].id in Ids(Take(t, k), BlockId) <==> i < k
  {
    assert t == t[..i] + t[i..];
    DistinctParts(t[..i], t[i..], BlockId);
    CountIds(t[..i], BlockId);
    var n := Min(k, |t|);
    assert t == t[..n] + t[n..];
    assert Take(t, k) == t[..n];
    DistinctParts(t[..n], t[n..], BlockId);
    assert BlockId(t[i]) == t[i].id;
    if i < n {
      assert t[..n][i] == t[i];
      IdIn(t[..n], BlockId, t[i]);
    } else {
      assert t[n..][i - n] == t[i];
      IdIn(t[n..], BlockId, t[i]);
    }
  }

  /** In id order, what lies below an element is what precedes it. */
  lemma {:induction false} BelowIsPrefix(t: State, i: nat)
    requires i < |t| && Distinct(t, BlockId) && Ordered(t, IdKey)
    ensures Below(Ids(t, BlockId), t[i].id) == Ids(t[..i], BlockId)
  {
    forall id
      ensures id in Below(Ids(t, BlockId), t[i].id) <==> id in Ids(t[..i], BlockId)
    {
      InIds(t, BlockId, id);
      InIds(t[..i], BlockId, id);
      if id in Below(Ids(t, BlockId), t[i].id) {
        var j :| 0 <= j < |t| && BlockId(t[j]) == id;
        assert j < i;
        assert t[j] == t[..i][j];
      }
      if id in Ids(t[..i], BlockId) {
        var j :| 0 <= j < i && BlockId(t[..i][j]) == id;
        assert t[j] == t[..i][j];
        assert IdKey(t[j]) <= IdKey(t[i]) && BlockId(t[j]) != BlockId(t[i]);
        assert t[j] in t;
      }
    }
  }

  lemma {:induction false} SinkCount(s: State, k: nat)
    requires Distinct(s, BlockId)
    ensures |SinkIds(s, k)| == Min(k, |s|)
    ensures SinkIds(s, k) <= Ids(s, BlockId)
  {
    TopSelectionSize(s, BlockId, IdKey, k);
  }

  /** A sink that is still tracked stays a sink as long as nothing new appears below it. */
  lemma {:induction false} SinkStays(s: State, t: State, k: nat, id: int)
    requires Distinct(s, BlockId) && Distinct(t, BlockId)
    requires id in SinkIds(s, k) && id in Ids(t, BlockId)
    requires Below(Ids(t, BlockId), id) <= Ids(s, BlockId)
    ensures id in SinkIds(t, k)
  {
    SinkIffFewBelow(s, k, id);
    SinkIffFewBelow(t, k, id);
    SmallerSet(Below(Ids(t, BlockId), id), Below(Ids(s, BlockId), id));
  }

  /** Fewer sinks are a part of more sinks. */
  lemma {:induction false} FewerSinks(s: State, k: nat, more: nat)
    requires Distinct(s, BlockId) && k <= more
    ensures SinkIds(s, k) <= SinkIds(s, more)
  {
    forall id | id in SinkIds(s, k)
      ensures id in SinkIds(s, more)
    {
      SinkIffFewBelow(s, k, id);
      SinkIffFewBelow(s, more, id);
    }
  }

  /** When blocks only leave, the sinks stay sinks exactly if they stay at all, and then nothing joins them. */
  lemma {:induction false} SinksOfPart(s: State, t: State, k: nat)
    requires Distinct(s, BlockId) && Distinct(t, BlockId) && Ids(t, BlockId) <= Ids(s, BlockId)
    ensures SinkIds(s, k) <= SinkIds(t, k) <==> SinkIds(s, k) <= Ids(t, BlockId)
    ensures SinkIds(s, k) <= Ids(t, BlockId) ==> SinkIds(s, k) == SinkIds(t, k)
  {
    SinkCount(s, k);
    SinkCount(t, k);
    if SinkIds(s, k) <= Ids(t, BlockId) {
      forall id | id in SinkIds(s, k)
        ensures id in SinkIds(t, k)
      {
        SinkStays(s, t, k, id);
      }
      CountIds(s, BlockId);
      CountIds(t, BlockId);
      SmallerSet(Ids(t, BlockId), Ids(s, BlockId));
      SmallerSet(SinkIds(s, k), SinkIds(t, k));
    }
  }

  // ---------- no decision evicts or moves a sink ----------

  ghost predicate KeepsSinks(s: State, k: nat, v: Verdicts) {
    forall id :: id in v && id in SinkIds(s, k) ==> v[id].decision == KeepGpu
  }

  lemma {:induction false} MappedKeepsSinks<T(!new)>(s: State, k: nat, items: seq<T>, id: T -> int,
                                              f: T -> PolicyDecision)
    requires Distinct(items, id)
    requires forall y :: y in items ==> f(y).block == id(y)
    requires forall y :: y in items && id(y) in SinkIds(s, k) ==> f(y).decision == KeepGpu
    ensures KeepsSinks(s, k, VerdictsOf(Map(f, items)))
  {
    forall n | n in VerdictsOf(Map(f, items)) && n in SinkIds(s, k)
      ensures VerdictsOf(Map(f, items))[n].decision == KeepGpu
    {
      VerdictIsOfElement(items, id, f, n);
    }
  }

  /** The greedy pass skips sinks. */
  lemma {:induction false} OffloadSkipsSinks(cfg: Config, scored: seq<Scored>, sinks: set<int>, budget: int, id: int)
    requires id in sinks
    ensures id !in Offloaded(cfg, scored, sinks, budget)
  {
    if scored != [] {
      OffloadSkipsSinks(cfg, Init(scored), sinks, budget, id);
    }
  }

  lemma {:induction false} H2OKeepsSinks(cfg: Config, s: State, pressure: real)
    requires Distinct(s, BlockId)
    ensures KeepsSinks(s, cfg.sinks, VerdictsOf(H2ODecisions(cfg, s, pressure)))
  {
    MappedKeepsSinks(s, cfg.sinks, s, BlockId, Keep);
    MappedKeepsSinks(s, cfg.sinks, s, BlockId, H2OVerdict(SinkIds(s, cfg.sinks) + HeavyIds(cfg, s)));
  }

  lemma {:induction false} OffloadOnlyKeepsSinks(cfg: Config, s: State, pressure: real)
    requires Distinct(s, BlockId)
    ensures KeepsSinks(s, cfg.sinks, VerdictsOf(OffloadOnlyDecisions(cfg, s, pressure)))
  {
    var sinks := SinkIds(s, cfg.sinks);
    MappedKeepsSinks(s, cfg.sinks, s, BlockId, Keep);
    ByAttentionDistinct(s);
    forall id | id in sinks
      ensures id !in OffloadIds(cfg, s)
    {
      OffloadSkipsSinks(cfg, ByAttention(s), sinks, OffloadBudget(cfg, |s|), id);
    }
    MappedKeepsSinks(s, cfg.sinks, ByAttention(s), ScoredId, OffloadVerdict(OffloadIds(cfg, s)));
  }

  lemma {:induction false} PairsKeepSinks(cfg: Config, s: State, scores: seq<real>, keep: set<int>)
    requires Distinct(s, BlockId) && SinkIds(s, cfg.sinks) <= keep
    ensures KeepsSinks(s, cfg.sinks, VerdictsOf(Map(HardVerdict(cfg, keep), Zip(s, scores))))
    ensures KeepsSinks(s, cfg.sinks, VerdictsOf(Map(GradedVerdict(cfg, SinkIds(s, cfg.sinks)), Zip(s, scores))))
  {
    ZipDistinct(s, scores);
    MappedKeepsSinks(s, cfg.sinks, Zip(s, scores), ScoredId, HardVerdict(cfg, keep));
    MappedKeepsSinks(s, cfg.sinks, Zip(s, scores), ScoredId, GradedVerdict(cfg, SinkIds(s, cfg.sinks)));
  }

  lemma {:induction false} RegimeKeepsSinks(cfg: Config, s: State, scores: seq<real>, pressure: real)
    requires Distinct(s, BlockId)
    ensures KeepsSinks(s, cfg.sinks, VerdictsOf(Regime(cfg, s, scores, pressure)))
  {
    MappedKeepsSinks(s, cfg.sinks, s, BlockId, Keep);
    PairsKeepSinks(cfg, s, scores, SinkIds(s, cfg.sinks) + TopIds(cfg, |s|, Zip(s, scores)));
  }

  lemma {:induction false} LearnedKeepsSinks(cfg: Config, modelLoaded: bool, s: State, pressure: real,
                                             prediction: Prediction)
    requires Distinct(s, BlockId)
    ensures KeepsSinks(s, cfg.sinks, VerdictsOf(LearnedDecisions(cfg, modelLoaded, s, pressure, prediction)))
  {
    var scores := LearnedScores(s, prediction);
    H2OKeepsSinks(cfg, s, pressure);
    ZipDistinct(s, scores);
    MappedKeepsSinks(s, cfg.sinks, s, BlockId, Keep);
    MappedKeepsSinks(s, cfg.sinks, Zip(s, scores), ScoredId, GradedVerdict(cfg, SinkIds(s, cfg.sinks)));
  }

  /** Every policy but the full-cache baseline keeps its sinks in place, at every pressure. */
  lemma {:induction false} DecideKeepsSinks(kind: Kind, cfg: Config, s: State, m: Metrics, prediction: Prediction)
    requires Distinct(s, BlockId) && !kind.FullCache?
    ensures KeepsSinks(s, cfg.sinks, VerdictsOf(Decide(kind, cfg, s, m, prediction)))
  {
    match kind
    case SlidingWindow =>
      MappedKeepsSinks(s, cfg.sinks, s, BlockId, Keep);
      MappedKeepsSinks(s, cfg.sinks, s, BlockId, WindowVerdict(WindowIds(cfg, s)));
    case H2O =>
      H2OKeepsSinks(cfg, s, Pressure(m.used, m.free));
    case QuantizeOnly =>
      MappedKeepsSinks(s, cfg.sinks, s, BlockId, Keep);
      MappedKeepsSinks(s, cfg.sinks, s, BlockId, QuantizeVerdict(cfg, SinkIds(s, cfg.sinks), MaxAttention(s)));
    case OffloadOnly =>
      OffloadOnlyKeepsSinks(cfg, s, Pressure(m.used, m.free));
    case Hybrid(learnedReady) =>
      RegimeKeepsSinks(cfg, s, HybridScores(cfg, learnedReady, s, m, prediction), Pressure(m.used, m.free));
    case Learned(modelLoaded) =>
      LearnedKeepsSinks(cfg, modelLoaded, s, Pressure(m.used, m.free), prediction);
  }

  // ---------- which sinks a policy spares ----------

  /** At medium pressure, and for a learned policy: sinks it does not protect score high enough to stay. */
  ghost predicate GradedSpares(cfg: Config, s: State, k: nat, scores: seq<real>) {
    forall p :: p in Zip(s, scores) && p.block.id in SinkIds(s, k) ==>
      p.block.id in SinkIds(s, cfg.sinks) || Graded(cfg, p.score) != Evict
  }

  /** At high pressure: they are among the best-scored, or score high enough to stay. */
  ghost predicate HardSpares(cfg: Config, s: State, k: nat, scores: seq<real>) {
    forall p :: p in Zip(s, scores) && p.block.id in SinkIds(s, k) ==>
      p.block.id in SinkIds(s, cfg.sinks) + TopIds(cfg, |s|, Zip(s, scores)) || GradedHard(cfg, p.score) != Evict
  }

  ghost predicate H2OSpares(cfg: Config, s: State, k: nat) {
    SinkIds(s, k) <= SinkIds(s, cfg.sinks) + HeavyIds(cfg, s)
  }

  /**
   When a policy evicts none of the k smallest ids, whatever number of sinks it was set to protect: always while
   pressure is below its threshold, always if it never evicts, else if they are among the blocks it keeps.
   */
  ghost predicate PolicySpares(k: nat, kind: Kind, cfg: Config, s: State, m: Metrics, prediction: Prediction) {
    || Pressure(m.used, m.free) < Threshold(kind, cfg)
    || match kind
       case FullCache => LruIds(s) !! SinkIds(s, k)
       case SlidingWindow => SinkIds(s, k) <= WindowIds(cfg, s)
       case H2O => H2OSpares(cfg, s, k)
       case QuantizeOnly => true
       case OffloadOnly => true
       case Hybrid(learnedReady) =>
         var scores := HybridScores(cfg, learnedReady, s, m, prediction);
         if Pressure(m.used, m.free) < cfg.pressureHigh then GradedSpares(cfg, s, k, scores)
         else HardSpares(cfg, s, k, scores)
       case Learned(modelLoaded) =>
         if modelLoaded then GradedSpares(cfg, s, k, LearnedScores(s, prediction)) else H2OSpares(cfg, s, k)
  }

  /** None of the k smallest ids is evicted. */
  ghost predicate Spares(s: State, k: nat, v: Verdicts) {
    forall id :: id in v && id in SinkIds(s, k) ==> v[id].decision != Evict
  }

  lemma {:induction false} MappedSparesIff<T(!new)>(s: State, k: nat, items: seq<T>, id: T -> int,
                                                    f: T -> PolicyDecision)
    requires Distinct(items, id)
    requires forall y :: y in items ==> f(y).block == id(y)
    ensures Spares(s, k, VerdictsOf(Map(f, items))) <==>
      forall y :: y in items && id(y) in SinkIds(s, k) ==> f(y).decision != Evict
  {
    var v := VerdictsOf(Map(f, items));
    forall y | y in items
      ensures id(y) in v && v[id(y)] == f(y)
    {
      VerdictOfElement(items, id, f, y);
    }
    forall n | n in v
      ensures exists y :: y in items && id(y) == n && v[n] == f(y)
    {
      VerdictIsOfElement(items, id, f, n);
    }
  }

  /** All sinks are within a set of ids exactly when the block of every sink is. */
  lemma {:induction false} SinksWithin(s: State, k: nat, kept: set<int>)
    requires Distinct(s, BlockId)
    ensures SinkIds(s, k) <= kept <==> forall b :: b in s && b.id in SinkIds(s, k) ==> b.id in kept
  {
    SinkCount(s, k);
    forall id | id in SinkIds(s, k)
      ensures exists b :: b in s && b.id == id
    {
      InIds(s, BlockId, id);
      var b :| b in s && BlockId(b) == id;
    }
  }

  /** The baseline evicts no sink exactly when no sink is among the least recently used. */
  lemma {:induction false} FullCacheSparesIff(s: State, k: nat)
    requires Distinct(s, BlockId)
    ensures Spares(s, k, VerdictsOf(Map(FullCacheVerdict(LruIds(s)), s))) <==> LruIds(s) !! SinkIds(s, k)
  {
    var lru := LruIds(s);
    MappedSparesIff(s, k, s, BlockId, FullCacheVerdict(lru));
    SinksWithin(s, k, SinkIds(s, k) - lru);
    assert lru !! SinkIds(s, k) <==> SinkIds(s, k) <= SinkIds(s, k) - lru;
  }

  lemma {:induction false} WindowSparesIff(cfg: Config, s: State, k: nat)
    requires Distinct(s, BlockId)
    ensures Spares(s, k, VerdictsOf(Map(WindowVerdict(WindowIds(cfg, s)), s))) <==> SinkIds(s, k) <= WindowIds(cfg, s)
  {
    MappedSparesIff(s, k, s, BlockId, WindowVerdict(WindowIds(cfg, s)));
    SinksWithin(s, k, WindowIds(cfg, s));
  }

  lemma {:induction false} H2OSparesIff(cfg: Config, s: State, k: nat)
    requires Distinct(s, BlockId)
    ensures
      var keep := SinkIds(s, cfg.sinks) + HeavyIds(cfg, s);
      Spares(s, k, VerdictsOf(Map(H2OVerdict(keep), s))) <==> H2OSpares(cfg, s, k)
  {
    var keep := SinkIds(s, cfg.sinks) + HeavyIds(cfg, s);
    MappedSparesIff(s, k, s, BlockId, H2OVerdict(keep));
    SinksWithin(s, k, keep);
  }

  lemma {:induction false} GradedSparesIff(cfg: Config, s: State, k: nat, scores: seq<real>)
    requires Distinct(s, BlockId)
    ensures Spares(s, k, VerdictsOf(MediumPressure(cfg, s, Zip(s, scores)))) <==> GradedSpares(cfg, s, k, scores)
  {
    ZipDistinct(s, scores);
    MappedSparesIff(s, k, Zip(s, scores), ScoredId, GradedVerdict(cfg, SinkIds(s, cfg.sinks)));
  }

  lemma {:induction false} HardSparesIff(cfg: Config, s: State, k: nat, scores: seq<real>)
    requires Distinct(s, BlockId)
    ensures Spares(s, k, VerdictsOf(HighPressure(cfg, s, Zip(s, scores)))) <==> HardSpares(cfg, s, k, scores)
  {
    var keep := SinkIds(s, cfg.sinks) + TopIds(cfg, |s|, Zip(s, scores));
    ZipDistinct(s, scores);
    MappedSparesIff(s, k, Zip(s, scores), ScoredId, HardVerdict(cfg, keep));
  }

  lemma {:induction false} RegimeSparesIff(cfg: Config, s: State, k: nat, scores: seq<real>, pressure: real)
    requires Distinct(s, BlockId) && pressure >= cfg.pressureLow
    ensures Spares(s, k, VerdictsOf(Regime(cfg, s, scores, pressure))) <==>
      if pressure < cfg.pressureHigh then GradedSpares(cfg, s, k, scores) else HardSpares(cfg, s, k, scores)
  {
    GradedSparesIff(cfg, s, k, scores);
    HardSparesIff(cfg, s, k, scores);
  }

  lemma {:induction false} LearnedSparesIff(cfg: Config, modelLoaded: bool, s: State, k: nat, pressure: real,
                                            prediction: Prediction, ds: seq<PolicyDecision>)
    requires Distinct(s, BlockId) && pressure >= cfg.pressureLow
    requires ds == LearnedDecisions(cfg, modelLoaded, s, pressure, prediction)
    ensures Spares(s, k, VerdictsOf(ds)) <==>
      if modelLoaded then GradedSpares(cfg, s, k, LearnedScores(s, prediction)) else H2OSpares(cfg, s, k)
  {
    if modelLoaded {
      GradedSparesIff(cfg, s, k, LearnedScores(s, prediction));
    } else {
      H2OSparesIff(cfg, s, k);
    }
  }

  lemma {:induction false} NeverEvicting(cfg: Config, s: State, k: nat)
    requires Distinct(s, BlockId)
    ensures Spares(s, k, VerdictsOf(Map(QuantizeVerdict(cfg, SinkIds(s, cfg.sinks), MaxAttention(s)), s)))
    ensures Spares(s, k, VerdictsOf(Map(OffloadVerdict(OffloadIds(cfg, s)), ByAttention(s))))
    ensures Spares(s, k, VerdictsOf(KeepAll(s))) && KeepsSinks(s, k, VerdictsOf(KeepAll(s)))
  {
    ByAttentionDistinct(s);
    MappedSparesIff(s, k, s, BlockId, QuantizeVerdict(cfg, SinkIds(s, cfg.sinks), MaxAttention(s)));
    MappedSparesIff(s, k, ByAttention(s), ScoredId, OffloadVerdict(OffloadIds(cfg, s)));
    MappedSparesIff(s, k, s, BlockId, Keep);
    MappedKeepsSinks(s, k, s, BlockId, Keep);
  }

  /** A policy evicts none of the k smallest ids exactly under that condition. */
  lemma {:induction false} PolicySparesIff(k: nat, kind: Kind, cfg: Config, s: State, m: Metrics,
                                           prediction: Prediction, ds: seq<PolicyDecision>)
    requires Distinct(s, BlockId) && ds == Decide(kind, cfg, s, m, prediction)
    ensures Spares(s, k, VerdictsOf(ds)) <==> PolicySpares(k, kind, cfg, s, m, prediction)
  {
    if Pressure(m.used, m.free) < Threshold(kind, cfg) {
      LowPressureDecisions(kind, cfg, s, m, prediction);
      NeverEvicting(cfg, s, k);
    } else {
      match kind
      case FullCache => FullCacheSparesIff(s, k);
      case SlidingWindow => WindowSparesIff(cfg, s, k);
      case H2O => H2OSparesIff(cfg, s, k);
      case QuantizeOnly => NeverEvicting(cfg, s, k);
      case OffloadOnly => NeverEvicting(cfg, s, k);
      case Hybrid(learnedReady) =>
        RegimeSparesIff(cfg, s, k, HybridScores(cfg, learnedReady, s, m, prediction), Pressure(m.used, m.free));
      case Learned(modelLoaded) =>
        LearnedSparesIff(cfg, modelLoaded, s, k, Pressure(m.used, m.free), prediction, ds);
    }
  }

  /**
   Which policies keep the sinks they spare in place: those that protect them, the baseline, and all when they rest.
   */
  predicate Protects(k: nat, kind: Kind, cfg: Config, pressure: real) {
    kind.FullCache? || k <= cfg.sinks || pressure < Threshold(kind, cfg)
  }

  /** To protect at least k sinks is to spare k sinks. */
  lemma {:induction false} ProtectingSpares(k: nat, kind: Kind, cfg: Config, s: State, m: Metrics,
                                            prediction: Prediction)
    requires Distinct(s, BlockId) && !kind.FullCache? && k <= cfg.sinks
    ensures PolicySpares(k, kind, cfg, s, m, prediction)
    ensures KeepsSinks(s, k, VerdictsOf(Decide(kind, cfg, s, m, prediction)))
  {
    DecideKeepsSinks(kind, cfg, s, m, prediction);
    FewerSinks(s, k, cfg.sinks);
    PolicySparesIff(k, kind, cfg, s, m, prediction, Decide(kind, cfg, s, m, prediction));
  }

  lemma {:induction false} SparedAreKept(k: nat, kind: Kind, cfg: Config, s: State, m: Metrics, prediction: Prediction)
    requires Distinct(s, BlockId) && PolicySpares(k, kind, cfg, s, m, prediction)
    requires Protects(k, kind, cfg, Pressure(m.used, m.free))
    ensures KeepsSinks(s, k, VerdictsOf(Decide(kind, cfg, s, m, prediction)))
  {
    if Pressure(m.used, m.free) < Threshold(kind, cfg) {
      NeverEvicting(cfg, s, k);
      LowPressureDecisions(kind, cfg, s, m, prediction);
    } else if kind.FullCache? {
      MappedKeepsSinks(s, k, s, BlockId, FullCacheVerdict(LruIds(s)));
    } else {
      ProtectingSpares(k, kind, cfg, s, m, prediction);
    }
  }
}
