/** What every run of the tracker keeps: ids, tiers, attention statistics, memory. */
module TrackerInvariants {
  import opened Sequences
  import opened Numbers
  import opened Sorting
  import opened Fractions
  import opened Selection
  import opened Schema
  import opened Effects
  import opened Policies
  import opened DecisionLists
  import opened TrackerModel

  // ---------- where the blocks after a step come from ----------

  lemma {:induction false} AtBlockKeepsIds(s: State, id: int, f: Block -> Block)
    requires forall b: Block :: b.id == id ==> f(b).id == id
    ensures Ids(AtBlock(s, id, f), BlockId) == Ids(s, BlockId)
    ensures Distinct(s, BlockId) ==> Distinct(AtBlock(s, id, f), BlockId)
  {
    SameIdsInOrder(s, AtBlock(s, id, f));
  }

  /** Sequences with the same ids position by position. */
  lemma {:induction false} SameIdsInOrder(s: State, t: State)
    requires |s| == |t| && forall i :: 0 <= i < |s| ==> s[i].id == t[i].id
    ensures Ids(t, BlockId) == Ids(s, BlockId)
    ensures Distinct(s, BlockId) ==> Distinct(t, BlockId)
  {
    if s != [] {
      assert s[0].id == t[0].id;
      SameIdsInOrder(s[1..], t[1..]);
    }
    if Distinct(s, BlockId) {
      forall i, j | 0 <= i < j < |t|
        ensures BlockId(t[i]) != BlockId(t[j])
      {
        assert BlockId(s[i]) != BlockId(s[j]);
      }
    }
  }

  lemma {:induction false} RegisterIds(s: State, entry: Block)
    ensures Ids(Registered(s, entry), BlockId) == Ids(s, BlockId) + {entry.id}
    ensures Distinct(s, BlockId) ==> Distinct(Registered(s, entry), BlockId)
  {
    if entry.id in Ids(s, BlockId) {
      AtBlockKeepsIds(s, entry.id, Replaced(entry));
    } else {
      IdsAppend(s, [entry], BlockId);
      assert Ids([entry], BlockId) == {entry.id};
      if Distinct(s, BlockId) {
        forall i | 0 <= i < |s|
          ensures s[i].id != entry.id
        {
          IdIn(s, BlockId, s[i]);
        }
      }
    }
  }

  lemma {:induction false} CycleOnDistinct(z: Sizes, s: State, kind: Kind, cfg: Config, free: real,
                                           prediction: Prediction)
    requires Distinct(s, BlockId)
    ensures
      var ds := CycleDecisions(z, s, kind, cfg, free, prediction);
      && OneVerdictPerBlock(s, ds)
      && (AnswersAllBlocks(kind, s, prediction) ==> DecidesAll(s, ds))
      && Cycle(z, s, kind, cfg, free, prediction) == Settle(s, VerdictsOf(ds))
  {
    if s != [] {
      DecideOnTrackedBlocks(kind, cfg, s, EngineMetrics(z, s, free), prediction);
    }
    ApplyIsSettle(s, CycleDecisions(z, s, kind, cfg, free, prediction));
  }

  // ---------- ids stay distinct ----------

  lemma {:induction false} StepKeepsDistinct(z: Sizes, s: State, e: Event)
    requires Distinct(s, BlockId)
    ensures Distinct(Step(z, s, e), BlockId)
  {
    match e
    case RegisterBlock(id, layer, headGroup, request) => RegisterIds(s, NewBlock(id, layer, headGroup, request));
    case EvictBlock(id) => FilterKeepsDistinct(s, BlockId, OtherThan(id));
    case ReleaseRequest(request) => FilterKeepsDistinct(s, BlockId, NotOf(request));
    case PolicyCycle(kind, cfg, free, prediction) => CycleKeepsDistinct(z, s, kind, cfg, free, prediction);
    case _ => SameIdsInOrder(s, Step(z, s, e));
  }

  lemma {:induction false} CycleKeepsDistinct(z: Sizes, s: State, kind: Kind, cfg: Config, free: real,
                                              prediction: Prediction)
    requires Distinct(s, BlockId)
    ensures Distinct(Cycle(z, s, kind, cfg, free, prediction), BlockId)
  {
    CycleOnDistinct(z, s, kind, cfg, free, prediction);
    SettleKeepsDistinct(s, VerdictsOf(CycleDecisions(z, s, kind, cfg, free, prediction)));
  }

  lemma {:induction false} RunKeepsDistinct(z: Sizes, s: State, events: seq<Event>)
    requires Distinct(s, BlockId)
    ensures Distinct(Run(z, s, events), BlockId)
    decreases |events|
  {
    if events != [] {
      RunKeepsDistinct(z, s, Init(events));
      StepKeepsDistinct(z, Run(z, s, Init(events)), Last(events));
    }
  }

  // ---------- what holds of every single block ----------

  /** In one of the three tiers that hold data. */
  predicate Stored(b: Block) {
    b.tier != Evicted
  }

  /** The average never exceeds the peak, and neither is negative. */
  predicate SaneAttention(b: Block) {
    0.0 <= b.avgAttention <= b.maxAttention
  }

  ghost predicate All(s: State, p: Block -> bool) {
    forall b :: b in s ==> p(b)
  }

  lemma {:induction false} AtBlockAll(s: State, id: int, f: Block -> Block, p: Block -> bool)
    requires All(s, p)
    requires forall b :: b in s && p(b) ==> p(f(b))
    ensures All(AtBlock(s, id, f), p)
  {
    var t := AtBlock(s, id, f);
    forall c | c in t
      ensures p(c)
    {
      var i :| 0 <= i < |t| && t[i] == c;
      assert s[i] in s;
    }
  }

  lemma {:induction false} RegisteredAll(s: State, entry: Block, p: Block -> bool)
    requires All(s, p) && p(entry)
    ensures All(Registered(s, entry), p)
  {
    AtBlockAll(s, entry.id, Replaced(entry), p);
  }

  lemma {:induction false} AgedAll(s: State, step: int, p: Block -> bool)
    requires All(s, p)
    requires forall b :: b in s && p(b) ==> p(Aged(step)(b))
    ensures All(Map(Aged(step), s), p)
  {
    var t := Map(Aged(step), s);
    forall c | c in t
      ensures p(c)
    {
      var i :| 0 <= i < |t| && t[i] == c;
      assert s[i] in s;
    }
  }

  lemma {:induction false} FilterKeepsAll(s: State, q: Block -> bool, p: Block -> bool)
    requires All(s, p)
    ensures All(Filter(s, q), p)
  {
    FilterIn(s, q);
  }

  /** The one event that labels a tracked block as evicted: update_tier, with that tier and a tracked id. */
  predicate LabelsTracked(s: State, e: Event) {
    e.UpdateTier? && e.tier == Evicted && e.id in Ids(s, BlockId)
  }

  /** Attention weights are never negative. */
  ghost predicate WeightsNotNegative(e: Event) {
    e.UpdateAttention? ==> forall x :: x in FiniteValues(e.samples) ==> x >= 0.0
  }

  lemma {:induction false} MeanBetween(xs: seq<real>)
    requires xs != [] && forall x :: x in xs ==> x >= 0.0
    ensures 0.0 <= Mean(xs) <= MaxOf(xs)
  {
    SumBetween(xs, MaxOf(xs));
    var n := |xs| as real;
    assert Mean(xs) * n == Sum(xs);
    QuotientBounds(Sum(xs), n, MaxOf(xs));
  }

  lemma {:induction false} SumBetween(xs: seq<real>, top: real)
    requires forall x :: x in xs ==> 0.0 <= x <= top
    ensures 0.0 <= Sum(xs) <= |xs| as real * top
  {
    if xs != [] {
      assert Last(xs) in xs;
      forall x | x in Init(xs)
        ensures x in xs
      {
      }
      SumBetween(Init(xs), top);
      assert |xs| as real * top == |Init(xs)| as real * top + top;
    }
  }

  lemma {:induction false} AttendedIsSane(b: Block, samples: seq<Sample>)
    requires SaneAttention(b)
    requires forall x :: x in FiniteValues(samples) ==> x >= 0.0
    ensures SaneAttention(Attended(samples)(b))
  {
    var xs := FiniteValues(samples);
    if xs != [] {
      MeanBetween(xs);
    }
  }

  lemma {:induction false} SettledBlocks(s: State, v: Verdicts)
    requires forall id :: id in v ==> v[id].block == id
    ensures All(s, Stored) ==> All(Settle(s, v), Stored)
    ensures All(s, SaneAttention) ==> All(Settle(s, v), SaneAttention)
  {
    forall c | c in Settle(s, v)
      ensures All(s, Stored) ==> Stored(c)
      ensures All(s, SaneAttention) ==> SaneAttention(c)
    {
      SettleMember(s, v, c);
      var b :| b in s && c in SettleBlock(v, b);
    }
  }

  lemma {:induction false} CycleKeepsBlocks(z: Sizes, s: State, kind: Kind, cfg: Config, free: real,
                                            prediction: Prediction)
    requires Distinct(s, BlockId)
    ensures All(s, Stored) ==> All(Cycle(z, s, kind, cfg, free, prediction), Stored)
    ensures All(s, SaneAttention) ==> All(Cycle(z, s, kind, cfg, free, prediction), SaneAttention)
  {
    var ds := CycleDecisions(z, s, kind, cfg, free, prediction);
    CycleOnDistinct(z, s, kind, cfg, free, prediction);
    forall id | id in VerdictsOf(ds)
      ensures VerdictsOf(ds)[id].block == id
    {
      VerdictBlock(ds, id);
    }
    SettledBlocks(s, VerdictsOf(ds));
  }

  /** Exactly the other events leave only stored blocks behind. */
  lemma {:induction false} StepKeepsStored(z: Sizes, s: State, e: Event)
    requires Distinct(s, BlockId) && All(s, Stored)
    ensures All(Step(z, s, e), Stored) <==> !LabelsTracked(s, e)
  {
    if e.UpdateTier? {
      RetieredStored(s, e.id, e.tier);
    } else {
      OthersKeepStored(z, s, e);
    }
  }

  lemma {:induction false} OthersKeepStored(z: Sizes, s: State, e: Event)
    requires Distinct(s, BlockId) && All(s, Stored) && !e.UpdateTier?
    ensures All(Step(z, s, e), Stored)
  {
    match e
    case RegisterBlock(id, layer, headGroup, request) =>
      RegisteredAll(s, NewBlock(id, layer, headGroup, request), Stored);
    case EvictBlock(id) => FilterKeepsAll(s, OtherThan(id), Stored);
    case UpdateAttention(id, samples) => AtBlockAll(s, id, Attended(samples), Stored);
    case MarkAccessed(id, step) => AtBlockAll(s, id, Accessed(step), Stored);
    case SetImportance(id, score) => AtBlockAll(s, id, Rescored(score), Stored);
    case MarkPrefixReuse(id, reused) => AtBlockAll(s, id, Reused(reused), Stored);
    case UpdateMemory(id, used, free) => AtBlockAll(s, id, Measured(used, free), Stored);
    case IncrementAge(step) => AgedAll(s, step, Stored);
    case ReleaseRequest(request) => FilterKeepsAll(s, NotOf(request), Stored);
    case PolicyCycle(kind, cfg, free, prediction) => CycleKeepsBlocks(z, s, kind, cfg, free, prediction);
  }

  lemma {:induction false} RetieredStored(s: State, id: int, tier: Tier)
    requires All(s, Stored)
    ensures All(AtBlock(s, id, Retiered(tier)), Stored) <==> tier != Evicted || id !in Ids(s, BlockId)
  {
    var t := AtBlock(s, id, Retiered(tier));
    InIds(s, BlockId, id);
    if tier != Evicted {
      AtBlockAll(s, id, Retiered(tier), Stored);
    } else if id in Ids(s, BlockId) {
      var i :| 0 <= i < |s| && BlockId(s[i]) == id;
      assert t[i] in t && !Stored(t[i]);
    } else {
      forall i | 0 <= i < |s|
        ensures s[i].id != id
      {
        IdIn(s, BlockId, s[i]);
      }
      assert t == s;
    }
  }

  lemma {:induction false} StepKeepsSane(z: Sizes, s: State, e: Event)
    requires Distinct(s, BlockId) && All(s, SaneAttention) && WeightsNotNegative(e)
    ensures All(Step(z, s, e), SaneAttention)
  {
    match e
    case RegisterBlock(id, layer, headGroup, request) =>
      RegisteredAll(s, NewBlock(id, layer, headGroup, request), SaneAttention);
    case EvictBlock(id) => FilterKeepsAll(s, OtherThan(id), SaneAttention);
    case UpdateAttention(id, samples) =>
      forall b | b in s
        ensures SaneAttention(Attended(samples)(b))
      {
        AttendedIsSane(b, samples);
      }
      AtBlockAll(s, id, Attended(samples), SaneAttention);
    case MarkAccessed(id, step) => AtBlockAll(s, id, Accessed(step), SaneAttention);
    case UpdateTier(id, tier) => AtBlockAll(s, id, Retiered(tier), SaneAttention);
    case SetImportance(id, score) => AtBlockAll(s, id, Rescored(score), SaneAttention);
    case MarkPrefixReuse(id, reused) => AtBlockAll(s, id, Reused(reused), SaneAttention);
    case UpdateMemory(id, used, free) => AtBlockAll(s, id, Measured(used, free), SaneAttention);
    case IncrementAge(step) => AgedAll(s, step, SaneAttention);
    case ReleaseRequest(request) => FilterKeepsAll(s, NotOf(request), SaneAttention);
    case PolicyCycle(kind, cfg, free, prediction) => CycleKeepsBlocks(z, s, kind, cfg, free, prediction);
  }

  /** In every state of the run, the first and the last included, all tracked blocks are stored. */
  ghost predicate AlwaysStored(z: Sizes, s: State, events: seq<Event>)
    decreases |events|
  {
    && All(Run(z, s, events), Stored)
    && (events != [] ==> AlwaysStored(z, s, Init(events)))
  }

  /** No event of the run labels a block that is tracked at that moment. */
  predicate NeverLabelsTracked(z: Sizes, s: State, events: seq<Event>)
    decreases |events|
  {
    events != [] ==>
      && NeverLabelsTracked(z, s, Init(events))
      && !LabelsTracked(Run(z, s, Init(events)), Last(events))
  }

  /** A run never holds a block that is tracked and evicted at once exactly when no event labels one so. */
  lemma {:induction false} RunKeepsStored(z: Sizes, s: State, events: seq<Event>)
    requires Distinct(s, BlockId) && All(s, Stored)
    ensures AlwaysStored(z, s, events) <==> NeverLabelsTracked(z, s, events)
    decreases |events|
  {
    if events != [] {
      RunKeepsStored(z, s, Init(events));
      RunKeepsDistinct(z, s, Init(events));
      if AlwaysStored(z, s, Init(events)) {
        StoredSoFar(z, s, Init(events));
        StepKeepsStored(z, Run(z, s, Init(events)), Last(events));
      }
    }
  }

  lemma {:induction false} StoredSoFar(z: Sizes, s: State, events: seq<Event>)
    requires AlwaysStored(z, s, events)
    ensures All(Run(z, s, events), Stored)
  {
  }

  /** Under any interleaving the average attention of a block stays between zero and its peak. */
  lemma {:induction false} RunKeepsSane(z: Sizes, s: State, events: seq<Event>)
    requires Distinct(s, BlockId) && All(s, SaneAttention)
    requires forall e :: e in events ==> WeightsNotNegative(e)
    ensures All(Run(z, s, events), SaneAttention)
    decreases |events|
  {
    if events != [] {
      assert events == Init(events) + [Last(events)];
      assert Last(events) in events;
      RunKeepsSane(z, s, Init(events));
      RunKeepsDistinct(z, s, Init(events));
      StepKeepsSane(z, Run(z, s, Init(events)), Last(events));
    }
  }

  // ---------- memory ----------

  lemma {:induction false} TiersPartition(s: State)
    ensures |s| ==
      CountTier(s, GpuFp16) + CountTier(s, GpuQuantized) + CountTier(s, CpuOffloaded) + CountTier(s, Evicted)
    ensures All(s, Stored) <==> CountTier(s, Evicted) == 0
  {
    if s != [] {
      assert s == Init(s) + [Last(s)];
      TiersPartition(Init(s));
      assert Last(s) in s;
      if CountTier(s, Evicted) == 0 {
        forall b | b in s
          ensures Stored(b)
        {
          assert b in Init(s) || b == Last(s);
        }
      }
    }
  }

  /** The upper bound holds in every state; the lower one exactly when few enough blocks are labelled as evicted. */
  lemma {:induction false} MemoryBounds(z: Sizes, s: State)
    requires z.fp16 == 2 * z.int8
    ensures GpuBytes(z, s) + CpuBytes(z, s) <= z.fp16 * |s|
    ensures z.int8 * |s| <= GpuBytes(z, s) + CpuBytes(z, s) <==>
      z.int8 == 0 || CountTier(s, Evicted) <= CountTier(s, GpuFp16) + CountTier(s, CpuOffloaded)
  {
    TiersPartition(s);
    var f, q := CountTier(s, GpuFp16), CountTier(s, GpuQuantized);
    var c, e := CountTier(s, CpuOffloaded), CountTier(s, Evicted);
    BytesOf(z.int8, f, q, c, e);
  }

  lemma {:induction false} BytesOf(u: nat, f: nat, q: nat, c: nat, e: nat)
    ensures f * (2 * u) + q * u + c * (2 * u) <= 2 * u * (f + q + c + e)
    ensures u * (f + q + c + e) <= f * (2 * u) + q * u + c * (2 * u) <==> u == 0 || e <= f + c
  {
    assert f * (2 * u) + q * u + c * (2 * u) == u * (2 * f + q + 2 * c);
    assert 2 * u * (f + q + c + e) == u * (2 * f + q + 2 * c) + u * (q + 2 * e);
    assert u * (2 * f + q + 2 * c) - u * (f + q + c + e) == u * (f + c - e);
    if u > 0 && e > f + c {
      assert u * (e - f - c) > 0;
    }
  }

  /**
   Whatever happens to a tracker that starts empty, its memory never exceeds all-fp16; it stays at or above all-int8 as
   long as nobody labels a tracked block as evicted.
   */
  lemma {:induction false} RunMemoryBounds(numHeads: nat, blockSize: nat, headDim: nat, events: seq<Event>)
    ensures
      var z := SizesFor(numHeads, blockSize, headDim);
      var s := Run(z, [], events);
      && GpuBytes(z, s) + CpuBytes(z, s) <= z.fp16 * |s|
      && (NeverLabelsTracked(z, [], events) ==> z.int8 * |s| <= GpuBytes(z, s) + CpuBytes(z, s))
  {
    var z := SizesFor(numHeads, blockSize, headDim);
    var s := Run(z, [], events);
    assert z.fp16 == 2 * z.int8;
    MemoryBounds(z, s);
    RunKeepsStored(z, [], events);
    if NeverLabelsTracked(z, [], events) {
      StoredSoFar(z, [], events);
      TiersPartition(s);
    }
  }

  /** The premise is needed: one block, labelled as evicted by update_tier and still tracked, takes no memory. */
  lemma {:induction false} OutsideEvictionBreaksTheBound()
    ensures
      var z := SizesFor(1, 1, 1);
      var s := Run(z, [], [RegisterBlock(0, 0, 0, "r"), UpdateTier(0, Evicted)]);
      GpuBytes(z, s) + CpuBytes(z, s) < z.int8 * |s|
  {
    var z := SizesFor(1, 1, 1);
    var register, retier := RegisterBlock(0, 0, 0, "r"), UpdateTier(0, Evicted);
    var b := NewBlock(0, 0, 0, "r");
    var c := b.(tier := Evicted);
    assert Init([register, retier]) == [register] && Init([register]) == [];
    assert Run(z, [], [register]) == [b];
    assert AtBlock([b], 0, Retiered(Evicted)) == [c];
    assert Run(z, [], [register, retier]) == [c];
    OneBlockCounts(c, GpuFp16);
    OneBlockCounts(c, GpuQuantized);
    OneBlockCounts(c, CpuOffloaded);
  }

  lemma {:induction false} OneBlockCounts(b: Block, t: Tier)
    ensures CountTier([b], t) == if b.tier == t then 1 else 0
  {
    assert Init([b]) == [] && Last([b]) == b;
  }
}
