/** The full-cache baseline at high pressure: least recently used first, cycle after cycle. */
module LruRuns {
  import opened Sequences
  import opened Sorting
  import opened Selection
  import opened Schema
  import opened Effects
  import opened Policies
  import opened TrackerModel
  import opened Outcomes
  import opened Iteration

  /** One cycle at or above the high threshold. */
  function LruStep(s: State): State {
    ApplyAll(s, Map(FullCacheVerdict(LruIds(s)), s))
  }

  /** All blocks by last access, oldest first, ties in tracker order. */
  function LruOrder(s: State): seq<Block> {
    SortBy(s, LastAccessKey)
  }

  /** The ids a cycle evicts, oldest first. */
  function Batch(s: State): seq<int> {
    Map(BlockId, Take(LruOrder(s), Portion(|s|, 0.10)))
  }

  function StayingIds(s: State): set<int> {
    Ids(s, BlockId) - LruIds(s)
  }

  lemma {:induction false} StepInClosedForm(s: State)
    requires Distinct(s, BlockId)
    ensures
      var f := FullCacheVerdict(LruIds(s));
      && LruStep(s) == Map(Marked(f), Restrict(s, BlockId, StayingIds(s)))
      && LruOrder(LruStep(s)) == Map(Marked(f), Restrict(LruOrder(s), BlockId, StayingIds(s)))
  {
    var f := FullCacheVerdict(LruIds(s));
    ApplyByBlock(s, f);
    SortOfSurvivors(s, f, LastAccessKey);
    SameElements(s, LastAccessKey);
    SparedAreOthers(s, s, LruIds(s));
    SparedAreOthers(LruOrder(s), s, LruIds(s));
  }

  lemma {:induction false} StepKeepsIds(s: State)
    requires Distinct(s, BlockId)
    ensures Distinct(LruStep(s), BlockId)
    ensures Ids(LruStep(s), BlockId) == StayingIds(s)
  {
    var f := FullCacheVerdict(LruIds(s));
    StepInClosedForm(s);
    RestrictIds(s, BlockId, StayingIds(s));
    RestrictKeepsDistinct(s, BlockId, StayingIds(s));
    MarkedIds(Restrict(s, BlockId, StayingIds(s)), f);
  }

  /** The front of an ordered list is dropped when exactly its ids go. */
  lemma {:induction false} FrontGoes(ordered: State, n: nat, stay: set<int>)
    requires Distinct(ordered, BlockId)
    requires stay == Ids(ordered, BlockId) - Ids(Take(ordered, n), BlockId)
    ensures Restrict(ordered, BlockId, stay) == Drop(ordered, n)
  {
    var front, back := Take(ordered, n), Drop(ordered, n);
    assert ordered == [] + front + back;
    assert ordered == front + back;
    DistinctParts(front, back, BlockId);
    IdsAppend(front, back, BlockId);
    RestrictToPart([], front, back, BlockId, stay);
    assert [] + back == back;
  }

  lemma {:induction false} SparedAreOthers(t: State, s: State, evict: set<int>)
    requires forall b :: b in t ==> b in s
    ensures Filter(t, Spared(FullCacheVerdict(evict))) == Restrict(t, BlockId, Ids(s, BlockId) - evict)
  {
    forall b | b in t
      ensures Spared(FullCacheVerdict(evict))(b) == HasId(BlockId, Ids(s, BlockId) - evict)(b)
    {
      IdIn(s, BlockId, b);
    }
    SameFilter(t, Spared(FullCacheVerdict(evict)), HasId(BlockId, Ids(s, BlockId) - evict));
  }

  /** One cycle takes its batch off the front of the eviction order and leaves the rest of the order as it was. */
  lemma {:induction false} OrderSplits(s: State)
    requires Distinct(s, BlockId)
    ensures Ranking(s) == Batch(s) + Ranking(LruStep(s))
  {
    var n, f := Portion(|s|, 0.10), FullCacheVerdict(LruIds(s));
    StepInClosedForm(s);
    SortKeepsDistinct(s, BlockId, LastAccessKey);
    FrontGoes(LruOrder(s), n, StayingIds(s));
    MarkedIds(Drop(LruOrder(s), n), f);
    MapSplits(LruOrder(s), n);
  }

  /** The ids of all blocks in eviction order. */
  function Ranking(s: State): seq<int> {
    Map(BlockId, LruOrder(s))
  }

  lemma {:induction false} MapSplits(s: State, n: nat)
    ensures Map(BlockId, s) == Map(BlockId, Take(s, n)) + Map(BlockId, Drop(s, n))
  {
  }

  lemma {:induction false} RankingLength(s: State)
    ensures |Ranking(s)| == |s|
    ensures |Batch(s)| == Min(Max(1, |s| / 10), |s|)
  {
    SortIsOrderedRearrangement(s, LastAccessKey);
    TenthPortion(|s|);
  }

  /** A cycle on n blocks evicts exactly max(1, n / 10) of them. */
  lemma {:induction false} EvictsATenth(s: State)
    requires Distinct(s, BlockId) && s != []
    ensures |LruStep(s)| == |s| - Max(1, |s| / 10)
  {
    OrderSplits(s);
    RankingLength(s);
    RankingLength(LruStep(s));
  }

  /** No block evicted by a cycle was used later than one that stays. */
  lemma {:induction false} EvictsTheOldest(s: State, b: Block, c: Block)
    requires Distinct(s, BlockId) && b in s && c in s
    requires b.id !in Ids(LruStep(s), BlockId) && c.id in Ids(LruStep(s), BlockId)
    ensures b.lastAccess <= c.lastAccess
  {
    StepKeepsIds(s);
    IdIn(s, BlockId, b);
    TopSelectionOrder(s, BlockId, LastAccessKey, Portion(|s|, 0.10), b, c);
    assert LastAccessKey(b) <= LastAccessKey(c);
  }

  lemma {:induction false} StepTakesFromFront(s: State)
    ensures TakesFromFront(LruStep, HasDistinctIds, Ranking, Batch, s)
  {
    DistinctByCount(s);
    if HasDistinctIds(s) {
      StepKeepsIds(s);
      DistinctByCount(LruStep(s));
      OrderSplits(s);
      RankingLength(s);
    }
  }

  /**
   Eviction is globally least-recently-used: however many cycles run, what they evicted in turn followed by the
   eviction order of what is left is the eviction order of the start; and n blocks are gone after n cycles.
   */
  lemma {:induction false} EvictionFollowsLruOrder(s: State, n: nat)
    requires Distinct(s, BlockId)
    ensures
      var t := Iterate(LruStep, s, n);
      && Taken(LruStep, Batch, s, n) + Ranking(t) == Ranking(s)
      && |t| <= Max(0, |s| - n)
  {
    forall y: State
      ensures TakesFromFront(LruStep, HasDistinctIds, Ranking, Batch, y)
    {
      StepTakesFromFront(y);
    }
    DistinctByCount(s);
    TakenThenLeft(LruStep, HasDistinctIds, Ranking, Batch, s, n);
    RankingLength(s);
    RankingLength(Iterate(LruStep, s, n));
  }

  // ---------- runs of the engine ----------

  /** Every event is a cycle of the baseline that finds no block, or pressure at or above its high threshold. */
  ghost predicate LruCycles(z: Sizes, s: State, events: seq<Event>)
    decreases |events|
  {
    events != [] ==>
      && LruCycles(z, s, Init(events))
      && Last(events).PolicyCycle? && Last(events).kind == FullCache
      && (Run(z, s, Init(events)) != [] ==>
          EnginePressure(z, Run(z, s, Init(events)), Last(events).free) >= Last(events).cfg.pressureHigh)
  }

  lemma {:induction false} LastCycle(z: Sizes, u: State, e: Event)
    requires e.PolicyCycle? && e.kind == FullCache
    requires u != [] ==> EnginePressure(z, u, e.free) >= e.cfg.pressureHigh
    ensures Step(z, u, e) == LruStep(u)
  {
    if u == [] {
      assert Map(FullCacheVerdict(LruIds(u)), u) == [];
    }
  }

  lemma {:induction false} CyclesFollow(z: Sizes, s: State, events: seq<Event>)
    requires LruCycles(z, s, events)
    ensures Follows(z, s, LruStep, events)
    decreases |events|
  {
    if events != [] {
      CyclesFollow(z, s, Init(events));
      LastCycle(z, Run(z, s, Init(events)), Last(events));
    }
  }

  /**
   On the engine: what was evicted, then what is left in LRU order, is the LRU order of the start; and nothing is left
   after |s| cycles.
   */
  lemma {:induction false} LruRun(z: Sizes, s: State, events: seq<Event>)
    requires Distinct(s, BlockId) && LruCycles(z, s, events)
    ensures
      var t := Run(z, s, events);
      && Taken(LruStep, Batch, s, |events|) + Ranking(t) == Ranking(s)
      && (|events| >= |s| ==> t == [])
  {
    CyclesFollow(z, s, events);
    RunIsIteration(z, s, LruStep, events);
    EvictionFollowsLruOrder(s, |events|);
  }
}
