/**
 In which order decide() returns its decisions, and what that order matters for: not for the tracker
 (DecisionOrderIsIrrelevant in Effects.dfy), only for the order of the telemetry rows.
 */
module DecisionOrder {
  import opened Sequences
  import opened Sorting
  import opened Selection
  import opened Schema
  import opened Policies
  import opened TrackerModel
  import opened OffloadFacts
  import opened EngineTelemetry

  /** Every policy but offload-only under pressure; and that one on a snapshot which already has its order. */
  ghost predicate DecidesInOrder(kind: Kind, cfg: Config, s: State, pressure: real) {
    || !kind.OffloadOnly?
    || !cfg.offloadEnabled
    || pressure < cfg.pressureLow
    || MaxAttention(s) <= 0.0
    || Ordered(s, AttentionKey)
  }

  lemma {:induction false} BlocksInOrder(s: State, f: Block -> PolicyDecision)
    requires forall b :: b in s ==> f(b).block == b.id
    ensures InOrder(s, Map(f, s))
  {
  }

  lemma {:induction false} PairsInOrder(s: State, scores: seq<real>, f: Scored -> PolicyDecision)
    requires forall p: Scored :: f(p).block == p.block.id
    ensures InOrder(s, Map(f, Zip(s, scores)))
  {
  }

  lemma {:induction false} H2OInOrder(cfg: Config, s: State, pressure: real)
    ensures InOrder(s, H2ODecisions(cfg, s, pressure))
  {
    BlocksInOrder(s, Keep);
    BlocksInOrder(s, H2OVerdict(SinkIds(s, cfg.sinks) + HeavyIds(cfg, s)));
  }

  lemma {:induction false} LearnedInOrder(cfg: Config, modelLoaded: bool, s: State, pressure: real,
                                          prediction: Prediction)
    ensures InOrder(s, LearnedDecisions(cfg, modelLoaded, s, pressure, prediction))
  {
    H2OInOrder(cfg, s, pressure);
    BlocksInOrder(s, Keep);
    PairsInOrder(s, LearnedScores(s, prediction), GradedVerdict(cfg, SinkIds(s, cfg.sinks)));
  }

  lemma {:induction false} RegimeInOrder(cfg: Config, s: State, scores: seq<real>, pressure: real)
    ensures InOrder(s, Regime(cfg, s, scores, pressure))
  {
    BlocksInOrder(s, Keep);
    PairsInOrder(s, scores, GradedVerdict(cfg, SinkIds(s, cfg.sinks)));
    PairsInOrder(s, scores, HardVerdict(cfg, SinkIds(s, cfg.sinks) + TopIds(cfg, |s|, Zip(s, scores))));
  }

  lemma {:induction false} OffloadOnlyInOrderIff(cfg: Config, s: State, pressure: real)
    requires Distinct(s, BlockId)
    ensures InOrder(s, OffloadOnlyDecisions(cfg, s, pressure)) <==> DecidesInOrder(OffloadOnly, cfg, s, pressure)
  {
    BlocksInOrder(s, Keep);
    OffloadKeepsOrderIff(cfg, s, Map(OffloadVerdict(OffloadIds(cfg, s)), ByAttention(s)));
  }

  /** decide() keeps the order of the blocks under exactly that condition. */
  lemma {:induction false} DecidesInOrderIff(kind: Kind, cfg: Config, s: State, m: Metrics, prediction: Prediction)
    requires Distinct(s, BlockId)
    ensures InOrder(s, Decide(kind, cfg, s, m, prediction)) <==> DecidesInOrder(kind, cfg, s, Pressure(m.used, m.free))
  {
    BlocksInOrder(s, Keep);
    match kind
    case FullCache => BlocksInOrder(s, FullCacheVerdict(LruIds(s)));
    case SlidingWindow => BlocksInOrder(s, WindowVerdict(WindowIds(cfg, s)));
    case H2O => H2OInOrder(cfg, s, Pressure(m.used, m.free));
    case QuantizeOnly => BlocksInOrder(s, QuantizeVerdict(cfg, SinkIds(s, cfg.sinks), MaxAttention(s)));
    case OffloadOnly => OffloadOnlyInOrderIff(cfg, s, Pressure(m.used, m.free));
    case Hybrid(learnedReady) =>
      RegimeInOrder(cfg, s, HybridScores(cfg, learnedReady, s, m, prediction), Pressure(m.used, m.free));
    case Learned(modelLoaded) => LearnedInOrder(cfg, modelLoaded, s, Pressure(m.used, m.free), prediction);
  }

  /** Two blocks, the second with less attention: offload-only turns them around. */
  lemma {:induction false} OffloadTurnsAround(cfg: Config)
    ensures
      var s := [NewBlock(0, 0, 0, "r").(avgAttention := 1.0), NewBlock(1, 0, 0, "r").(avgAttention := 0.5)];
      var ds := Map(OffloadVerdict(OffloadIds(cfg, s)), ByAttention(s));
      |ds| == 2 && ds[0].block == 1 && ds[1].block == 0
  {
    var strong, weak := NewBlock(0, 0, 0, "r").(avgAttention := 1.0), NewBlock(1, 0, 0, "r").(avgAttention := 0.5);
    var s := [strong, weak];
    assert Init(s) == [strong] && MaxAttention([strong]) == 1.0 && MaxAttention(s) == 1.0;
    var p, q := Scored(strong, 1.0), Scored(weak, 0.5);
    assert Map(WithNormalizedAttention(1.0), s) == [p, q];
    assert [p, q][1..] == [q] && [q][1..] == [];
    assert SortBy([q], ScoreOf) == [q];
    assert Insert(p, [q], ScoreOf) == [q] + Insert(p, [q][1..], ScoreOf);
    assert ByAttention(s) == [q, p];
  }

  // ---------- telemetry rows ----------

  lemma {:induction false} RecordsOfSum(s: State, ds: seq<PolicyDecision>, es: seq<PolicyDecision>)
    ensures Records(s, ds + es) == Records(s, ds) + Records(s, es)
  {
    if es == [] {
      assert ds + es == ds;
    } else {
      assert Init(ds + es) == ds + Init(es) && Last(ds + es) == Last(es);
      RecordsOfSum(s, ds, Init(es));
      JoinedFirst(Records(s, ds), Records(s, Init(es)), RecordFor(s, Last(es)));
    }
  }

  /** Decisions in another order give the same rows in another order. */
  lemma {:induction false} RowsOfPermutation(s: State, ds: seq<PolicyDecision>, es: seq<PolicyDecision>)
    requires multiset(ds) == multiset(es)
    ensures multiset(Records(s, ds)) == multiset(Records(s, es))
    decreases |ds|
  {
    if ds == [] {
      assert |multiset(es)| == 0;
    } else {
      var d := Last(ds);
      assert d in multiset(es);
      var i :| 0 <= i < |es| && es[i] == d;
      WithoutOne(ds, |ds| - 1);
      WithoutOne(es, i);
      assert ds[..|ds| - 1] + [] == Init(ds);
      RowsOfPermutation(s, Init(ds), es[..i] + es[i + 1..]);
      RecordsWithoutOne(s, es, i);
    }
  }

  lemma {:induction false} WithoutOne(ds: seq<PolicyDecision>, i: nat)
    requires i < |ds|
    ensures multiset(ds[..i] + ds[i + 1..]) == multiset(ds) - multiset{ds[i]}
  {
    assert ds == ds[..i] + [ds[i]] + ds[i + 1..];
  }

  lemma {:induction false} RecordsWithoutOne(s: State, ds: seq<PolicyDecision>, i: nat)
    requires i < |ds|
    ensures multiset(Records(s, ds)) == multiset(Records(s, ds[..i] + ds[i + 1..])) + multiset(RecordFor(s, ds[i]))
  {
    var before, d, after := ds[..i], ds[i], ds[i + 1..];
    assert ds == before + [d] + after;
    RecordsOfSum(s, before + [d], after);
    RecordsOfSum(s, before, [d]);
    RecordsOfSum(s, before, after);
    assert Init([d]) == [] && Records(s, [d]) == RecordFor(s, d);
  }
}
