/**
 When attention sinks are lost and when not. For every event there is an exact condition; in a run that meets
 them a block once among the k smallest ids stays there, and is on the GPU after every policy cycle that protects it.
 */
module SinkSafety {
  import opened Sequences
  import opened Sorting
  import opened Selection
  import opened Schema
  import opened Effects
  import opened Policies
  import opened DecisionLists
  import opened TrackerModel
  import opened TrackerInvariants
  import opened Sinks

  // ---------- one cycle ----------

  ghost predicate SinksOnGpu(s: State, k: nat) {
    forall b :: b in s && b.id in SinkIds(s, k) ==> b.tier == GpuFp16
  }

  /** No tracked block, or a policy that spares the k smallest ids on what the engine shows it. */
  ghost predicate CycleSpares(z: Sizes, s: State, k: nat, kind: Kind, cfg: Config, free: real, prediction: Prediction) {
    s == [] || PolicySpares(k, kind, cfg, s, EngineMetrics(z, s, free), prediction)
  }

  lemma {:induction false} CycleVerdicts(z: Sizes, s: State, k: nat, kind: Kind, cfg: Config, free: real,
                                         prediction: Prediction, v: Verdicts)
    requires Distinct(s, BlockId) && v == VerdictsOf(CycleDecisions(z, s, kind, cfg, free, prediction))
    ensures Spares(s, k, v) <==> CycleSpares(z, s, k, kind, cfg, free, prediction)
    ensures Spares(s, k, v) && Protects(k, kind, cfg, EnginePressure(z, s, free)) ==> KeepsSinks(s, k, v)
  {
    if s != [] {
      var m := EngineMetrics(z, s, free);
      PolicySparesIff(k, kind, cfg, s, m, prediction, Decide(kind, cfg, s, m, prediction));
      if Spares(s, k, v) && Protects(k, kind, cfg, EnginePressure(z, s, free)) {
        SparedAreKept(k, kind, cfg, s, m, prediction);
      }
    }
  }

  /**
   A cycle takes nobody out of the sinks exactly when its policy spares them, and then nobody joins them either; all are
   at full precision afterwards if the policy protects as many.
   */
  lemma {:induction false} CycleKeepsSinks(z: Sizes, s: State, k: nat, kind: Kind, cfg: Config, free: real,
                                           prediction: Prediction, t: State)
    requires Distinct(s, BlockId) && t == Cycle(z, s, kind, cfg, free, prediction)
    ensures Distinct(t, BlockId)
    ensures SinkIds(s, k) <= SinkIds(t, k) <==> CycleSpares(z, s, k, kind, cfg, free, prediction)
    ensures CycleSpares(z, s, k, kind, cfg, free, prediction) ==> SinkIds(s, k) == SinkIds(t, k)
    ensures
      && CycleSpares(z, s, k, kind, cfg, free, prediction)
      && Protects(k, kind, cfg, EnginePressure(z, s, free))
      && AnswersAllBlocks(kind, s, prediction)
      ==> SinksOnGpu(t, k)
  {
    var v := VerdictsOf(CycleDecisions(z, s, kind, cfg, free, prediction));
    CycleOnDistinct(z, s, kind, cfg, free, prediction);
    CycleVerdicts(z, s, k, kind, cfg, free, prediction, v);
    SettledSinks(s, t, k, v);
    if v.Keys == Ids(s, BlockId) && KeepsSinks(s, k, v) && SinkIds(s, k) == SinkIds(t, k) {
      SettledSinksOnGpu(s, t, k, v);
    }
  }

  /** With a policy set to protect at least k sinks that is always so, whatever the pressure and the scores. */
  lemma {:induction false} ProtectingCycleKeepsSinks(z: Sizes, s: State, k: nat, kind: Kind, cfg: Config, free: real,
                                                     prediction: Prediction, t: State)
    requires Distinct(s, BlockId) && t == Cycle(z, s, kind, cfg, free, prediction)
    requires !kind.FullCache? && k <= cfg.sinks
    ensures SinkIds(s, k) == SinkIds(t, k)
    ensures AnswersAllBlocks(kind, s, prediction) ==> SinksOnGpu(t, k)
  {
    if s != [] {
      ProtectingSpares(k, kind, cfg, s, EngineMetrics(z, s, free), prediction);
    }
    CycleKeepsSinks(z, s, k, kind, cfg, free, prediction, t);
  }

  /** Sinks stay sinks exactly when none of them is evicted. */
  lemma {:induction false} SettledSinks(s: State, t: State, k: nat, v: Verdicts)
    requires Distinct(s, BlockId) && t == Settle(s, v)
    ensures Distinct(t, BlockId)
    ensures SinkIds(s, k) <= SinkIds(t, k) <==> Spares(s, k, v)
    ensures Spares(s, k, v) ==> SinkIds(s, k) == SinkIds(t, k)
  {
    SettleIds(s, v);
    SettleKeepsDistinct(s, v);
    SinkCount(s, k);
    SinksOfPart(s, t, k);
    if Spares(s, k, v) {
      forall id | id in SinkIds(s, k)
        ensures id in Ids(t, BlockId)
      {
        assert id in v ==> v[id].decision != Evict;
      }
    } else {
      var id :| id in v && id in SinkIds(s, k) && v[id].decision == Evict;
      assert id !in Ids(t, BlockId);
    }
  }

  /** When every block has its verdict, the sinks that are left carry the tier of KEEP_GPU. */
  lemma {:induction false} SettledSinksOnGpu(s: State, t: State, k: nat, v: Verdicts)
    requires t == Settle(s, v) && SinkIds(t, k) == SinkIds(s, k)
    requires v.Keys == Ids(s, BlockId) && KeepsSinks(s, k, v)
    ensures SinksOnGpu(t, k)
  {
    forall c | c in t && c.id in SinkIds(t, k)
      ensures c.tier == GpuFp16
    {
      SettleMember(s, v, c);
      var b :| b in s && c in SettleBlock(v, b);
      IdIn(s, BlockId, b);
    }
  }

  // ---------- every other event ----------

  lemma {:induction false} SameIdsSameSinks(s: State, t: State, k: nat)
    requires Distinct(s, BlockId) && Distinct(t, BlockId) && Ids(s, BlockId) == Ids(t, BlockId)
    ensures SinkIds(s, k) == SinkIds(t, k)
  {
    forall id
      ensures id in SinkIds(s, k) <==> id in SinkIds(t, k)
    {
      SinkIffFewBelow(s, k, id);
      SinkIffFewBelow(t, k, id);
    }
  }

  /**
   Registering takes no sink's place exactly when the id is tracked already, fewer than k blocks are tracked, or the id
   is above all sinks.
   */
  predicate RegistersAboveSinks(s: State, k: nat, id: int) {
    id in Ids(s, BlockId) || |s| < k || forall j :: j in SinkIds(s, k) ==> j < id
  }

  lemma {:induction false} RegisterKeepsSinksIff(s: State, entry: Block, k: nat, t: State)
    requires Distinct(s, BlockId) && t == Registered(s, entry)
    ensures SinkIds(s, k) <= SinkIds(t, k) <==> RegistersAboveSinks(s, k, entry.id)
  {
    RegisterIds(s, entry);
    if entry.id in Ids(s, BlockId) {
      assert Ids(t, BlockId) == Ids(s, BlockId);
      SameIdsSameSinks(s, t, k);
    } else {
      NewBlockAndSinks(s, t, k, entry.id);
    }
  }

  lemma {:induction false} NewBlockAndSinks(s: State, t: State, k: nat, id: int)
    requires Distinct(s, BlockId) && Distinct(t, BlockId)
    requires id !in Ids(s, BlockId) && Ids(t, BlockId) == Ids(s, BlockId) + {id}
    ensures SinkIds(s, k) <= SinkIds(t, k) <==> RegistersAboveSinks(s, k, id)
  {
    CountIds(s, BlockId);
    CountIds(t, BlockId);
    SinkCount(s, k);
    SinkCount(t, k);
    if |s| < k {
      SmallerSet(SinkIds(t, k), Ids(t, BlockId));
    } else {
      forall sink | sink in SinkIds(s, k)
        ensures id <= sink ==> id in SinkIds(t, k)
        ensures sink < id ==> sink in SinkIds(t, k)
      {
        if id <= sink {
          NewSink(s, t, k, id, sink);
        } else {
          SinkStays(s, t, k, sink);
        }
      }
      NoRoom(SinkIds(s, k), SinkIds(t, k), id);
    }
  }

  /** A set that keeps its size cannot gain a member without losing one. */
  lemma {:induction false} NoRoom(a: set<int>, b: set<int>, x: int)
    requires |a| == |b| && x !in a
    ensures x in b ==> !(a <= b)
  {
    if a <= b {
      SmallerSet(a, b);
    }
  }

  /** An id that appears below a sink becomes one. */
  lemma {:induction false} NewSink(s: State, t: State, k: nat, id: int, sink: int)
    requires Distinct(s, BlockId) && Distinct(t, BlockId)
    requires id !in Ids(s, BlockId) && Ids(t, BlockId) == Ids(s, BlockId) + {id}
    requires sink in SinkIds(s, k) && id <= sink
    ensures id in SinkIds(t, k)
  {
    SinkIffFewBelow(s, k, sink);
    SinkIffFewBelow(t, k, id);
    SmallerSet(Below(Ids(t, BlockId), id), Below(Ids(s, BlockId), sink));
  }

  /** Dropping blocks by a test keeps the sinks exactly when every sink passes it. */
  lemma {:induction false} FilterKeepsSinksIff(s: State, p: Block -> bool, k: nat)
    requires Distinct(s, BlockId)
    ensures Distinct(Filter(s, p), BlockId)
    ensures SinkIds(s, k) <= SinkIds(Filter(s, p), k) <==> forall b :: b in s && b.id in SinkIds(s, k) ==> p(b)
    ensures (forall b :: b in s && b.id in SinkIds(s, k) ==> p(b)) ==> SinkIds(s, k) == SinkIds(Filter(s, p), k)
  {
    var t := Filter(s, p);
    FilterKeepsDistinct(s, BlockId, p);
    FilterIn(s, p);
    SinkCount(s, k);
    SinksOfPart(s, t, k);
    forall b | b in s && b.id in SinkIds(s, k)
      ensures b.id in Ids(t, BlockId) <==> p(b)
    {
      if b.id in Ids(t, BlockId) {
        InIds(t, BlockId, b.id);
        var c :| c in t && BlockId(c) == b.id;
        SameId(s, BlockId, b, c);
      }
      if p(b) {
        IdIn(t, BlockId, b);
      }
    }
    forall id | id in SinkIds(s, k)
      ensures exists b :: b in s && b.id == id
    {
      InIds(s, BlockId, id);
      var b :| b in s && BlockId(b) == id;
    }
  }

  /** What an event must not do to the sinks. */
  ghost predicate Respects(z: Sizes, s: State, k: nat, e: Event) {
    match e
    case RegisterBlock(id, _, _, _) => RegistersAboveSinks(s, k, id)
    case EvictBlock(id) => id !in SinkIds(s, k)
    case ReleaseRequest(request) => forall b :: b in s && b.id in SinkIds(s, k) ==> b.request != request
    case PolicyCycle(kind, cfg, free, prediction) => CycleSpares(z, s, k, kind, cfg, free, prediction)
    case _ => true
  }

  /** An event takes nobody out of the sinks exactly when it respects them; only registering can then bring one in. */
  lemma {:induction false} StepKeepsSinks(z: Sizes, s: State, k: nat, e: Event, t: State)
    requires Distinct(s, BlockId) && t == Step(z, s, e)
    ensures SinkIds(s, k) <= SinkIds(t, k) <==> Respects(z, s, k, e)
    ensures Respects(z, s, k, e) && !e.RegisterBlock? ==> SinkIds(s, k) == SinkIds(t, k)
  {
    StepKeepsDistinct(z, s, e);
    match e
    case RegisterBlock(id, layer, headGroup, request) =>
      RegisterKeepsSinksIff(s, NewBlock(id, layer, headGroup, request), k, t);
    case EvictBlock(id) =>
      FilterKeepsSinksIff(s, OtherThan(id), k);
      SinkIsTracked(s, k, id);
    case ReleaseRequest(request) =>
      FilterKeepsSinksIff(s, NotOf(request), k);
    case PolicyCycle(kind, cfg, free, prediction) =>
      CycleKeepsSinks(z, s, k, kind, cfg, free, prediction, t);
    case _ =>
      StepKeepsIds(z, s, e);
      SameIdsSameSinks(s, t, k);
  }

  lemma {:induction false} SinkIsTracked(s: State, k: nat, id: int)
    requires Distinct(s, BlockId)
    ensures id in SinkIds(s, k) ==> exists b :: b in s && b.id == id
  {
    SinkCount(s, k);
    InIds(s, BlockId, id);
    if id in SinkIds(s, k) {
      var b :| b in s && BlockId(b) == id;
    }
  }

  lemma {:induction false} StepKeepsIds(z: Sizes, s: State, e: Event)
    requires !e.RegisterBlock? && !e.EvictBlock? && !e.ReleaseRequest? && !e.PolicyCycle?
    ensures Ids(Step(z, s, e), BlockId) == Ids(s, BlockId)
  {
    SameIdsInOrder(s, Step(z, s, e));
  }

  // ---------- whole runs ----------

  /** Every event of the run respects the sinks there are at that moment. */
  ghost predicate RunRespects(z: Sizes, s: State, k: nat, events: seq<Event>)
    decreases |events|
  {
    events != [] ==>
      && RunRespects(z, s, k, Init(events))
      && Respects(z, Run(z, s, Init(events)), k, Last(events))
  }

  /** No step of the run takes anybody out of the sinks. */
  ghost predicate SinksOnlyGrow(z: Sizes, s: State, k: nat, events: seq<Event>)
    decreases |events|
  {
    events != [] ==>
      && SinksOnlyGrow(z, s, k, Init(events))
      && SinkIds(Run(z, s, Init(events)), k) <= SinkIds(Run(z, s, events), k)
  }

  /**
   A block once among the k smallest ids is never evicted and stays among them; the sink set only grows,
   and once it has k members it never changes again.
   */
  lemma {:induction false} SinksAreNeverLost(z: Sizes, s: State, k: nat, events: seq<Event>)
    requires Distinct(s, BlockId) && RunRespects(z, s, k, events)
    ensures
      var t := Run(z, s, events);
      && SinkIds(s, k) <= SinkIds(t, k) <= Ids(t, BlockId)
      && |SinkIds(t, k)| == Min(k, |t|)
      && (|s| >= k ==> SinkIds(s, k) == SinkIds(t, k))
    decreases |events|
  {
    var t := Run(z, s, events);
    RunKeepsDistinct(z, s, events);
    SinkCount(t, k);
    if events != [] {
      var u := Run(z, s, Init(events));
      SinksAreNeverLost(z, s, k, Init(events));
      RunKeepsDistinct(z, s, Init(events));
      StepKeepsSinks(z, u, k, Last(events), t);
    }
    SinkCount(s, k);
    SmallerSet(SinkIds(s, k), SinkIds(t, k));
  }

  /** The conditions are exact: sinks only grow throughout a run exactly when every event respects them. */
  lemma {:induction false} SinksOnlyGrowIff(z: Sizes, s: State, k: nat, events: seq<Event>)
    requires Distinct(s, BlockId)
    ensures SinksOnlyGrow(z, s, k, events) <==> RunRespects(z, s, k, events)
    decreases |events|
  {
    if events != [] {
      SinksOnlyGrowIff(z, s, k, Init(events));
      RunKeepsDistinct(z, s, Init(events));
      StepKeepsSinks(z, Run(z, s, Init(events)), k, Last(events), Run(z, s, events));
    }
  }

  /** After every cycle of such a run whose policy protects as many, all sinks are on the GPU at full precision. */
  lemma {:induction false} SinksAreOnGpuAfterCycles(z: Sizes, s: State, k: nat, events: seq<Event>)
    requires Distinct(s, BlockId) && RunRespects(z, s, k, events)
    requires events != [] && Last(events).PolicyCycle?
    requires ProtectsSinks(z, Run(z, s, Init(events)), k, Last(events))
    ensures SinksOnGpu(Run(z, s, events), k)
  {
    RunKeepsDistinct(z, s, Init(events));
    OnGpuAfterCycle(z, Run(z, s, Init(events)), k, Last(events), Run(z, s, events));
  }

  /**
   A cycle of the baseline, of a policy that protects k sinks, or below the threshold; a model, if asked, answers for
   all.
   */
  ghost predicate ProtectsSinks(z: Sizes, s: State, k: nat, e: Event)
    requires e.PolicyCycle?
  {
    Protects(k, e.kind, e.cfg, EnginePressure(z, s, e.free)) && AnswersAllBlocks(e.kind, s, e.prediction)
  }

  lemma {:induction false} OnGpuAfterCycle(z: Sizes, s: State, k: nat, e: Event, t: State)
    requires e.PolicyCycle? && Distinct(s, BlockId) && Respects(z, s, k, e) && t == Step(z, s, e)
    requires ProtectsSinks(z, s, k, e)
    ensures SinksOnGpu(t, k)
  {
    CycleKeepsSinks(z, s, k, e.kind, e.cfg, e.free, e.prediction, t);
  }

  /** The condition on the baseline is not idle: at full pressure it evicts a lone block, sink or not. */
  lemma {:induction false} FullCacheEvictsASink(cfg: Config, pressure: real)
    requires pressure >= cfg.pressureHigh
    ensures
      var s := [NewBlock(0, 0, 0, "r")];
      0 in SinkIds(s, 1) && ApplyAll(s, FullCacheDecisions(cfg, s, pressure)) == []
  {
    var b := NewBlock(0, 0, 0, "r");
    var s := [b];
    assert SortBy(s, IdKey) == [b] && SortBy(s, LastAccessKey) == [b] by {
      assert s[1..] == [];
    }
    assert Portion(1, 0.10) == 1;
    assert Take([b], 1) == [b];
    assert Ids([b], BlockId) == {0};
    var f := FullCacheVerdict(LruIds(s));
    assert Map(f, s) == [PolicyDecision(0, Evict, 0.0)];
    var ds := Map(f, s);
    assert Init(ds) == [] && ApplyAll(s, Init(ds)) == s;
  }

  /** Nor is that on a policy which protects none: a window of no blocks keeps none. */
  lemma {:induction false} WindowEvictsASink(cfg: Config)
    requires cfg.sinks == 0 && cfg.window == 0
    ensures
      var s := [NewBlock(0, 0, 0, "r")];
      0 in SinkIds(s, 1) && ApplyAll(s, Map(WindowVerdict(WindowIds(cfg, s)), s)) == []
  {
    var b := NewBlock(0, 0, 0, "r");
    var s := [b];
    assert s[1..] == [];
    assert SortBy(s, IdKey) == [b] && Take([b], 1) == [b];
    assert Ids([b], BlockId) == {0};
    assert Take([b], 0) == [] && TakeLast([b], 0) == [];
    assert WindowIds(cfg, s) == {};
    var ds := Map(WindowVerdict({}), s);
    assert ds == [PolicyDecision(0, Evict, 0.0)];
    assert Init(ds) == [] && ApplyAll(s, Init(ds)) == s;
  }

  /** Nor is the one on registering: a new id below the only sink takes its place. */
  lemma {:induction false} LowerIdDisplacesASink()
    ensures
      var s := [NewBlock(5, 0, 0, "r")];
      var t := Registered(s, NewBlock(0, 0, 0, "r"));
      5 in SinkIds(s, 1) && 5 !in SinkIds(t, 1)
  {
    var s := [NewBlock(5, 0, 0, "r")];
    var t := Registered(s, NewBlock(0, 0, 0, "r"));
    assert s[1..] == [];
    assert Ids(s, BlockId) == {5};
    assert t == [s[0], NewBlock(0, 0, 0, "r")];
    RegisterIds(s, NewBlock(0, 0, 0, "r"));
    SinkIffFewBelow(s, 1, 5);
    SinkIffFewBelow(t, 1, 5);
    assert Below({5}, 5) == {};
    assert Below({0, 5}, 5) == {0};
  }
}
