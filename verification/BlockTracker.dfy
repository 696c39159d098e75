/**
 The tracker of src/telemetry/block_tracker.py: a dict of block objects that its methods update in place.
 `order` is the insertion order of the dict; `contents` is the state that TrackerModel talks about. Every public method
 holds the lock throughout, so each is one step.
 */
module BlockTracker {
  import opened Sequences
  import opened Numbers
  import opened Sorting
  import opened Selection
  import opened Schema
  import opened TrackerModel

  class BlockState {
    const blockId: int
    const layerId: int
    const headGroup: int
    const requestId: string
    var blockAgeSteps: int
    var lastAccessStep: int
    var accessCount: nat
    var avgAttentionScore: real
    var maxAttentionScore: real
    var prefixReuseFlag: bool
    var currentTier: Tier
    var gpuMemUsedMb: real
    var gpuMemFreeMb: real
    var importanceScore: real

    constructor (blockId: int, layerId: int, headGroup: int, requestId: string)
      ensures View() == NewBlock(blockId, layerId, headGroup, requestId)
      ensures this.blockId == blockId
    {
      this.blockId, this.layerId, this.headGroup, this.requestId := blockId, layerId, headGroup, requestId;
      blockAgeSteps, lastAccessStep, accessCount := 0, 0, 0;
      avgAttentionScore, maxAttentionScore := 0.0, 0.0;
      prefixReuseFlag, currentTier := false, GpuFp16;
      gpuMemUsedMb, gpuMemFreeMb, importanceScore := 0.0, 0.0, 0.0;
    }

    /** The two attention statistics after a batch with the given mean and maximum. */
    method Attend(batchMean: real, batchMax: real)
      modifies this
      ensures View() == if old(accessCount) == 0 then old(View()).(avgAttention := batchMean, maxAttention := batchMax)
        else old(View()).(avgAttention := 0.1 * batchMean + (1.0 - 0.1) * old(avgAttentionScore),
                          maxAttention := MaxReal(old(maxAttentionScore), batchMax))
    {
      var alpha := 0.1;
      if accessCount == 0 {
        avgAttentionScore := batchMean;
        maxAttentionScore := batchMax;
      } else {
        avgAttentionScore := alpha * batchMean + (1.0 - alpha) * avgAttentionScore;
        maxAttentionScore := MaxReal(maxAttentionScore, batchMax);
      }
    }

    function View(): Block
      reads this
    {
      Block(blockId, layerId, headGroup, requestId, blockAgeSteps, lastAccessStep, accessCount,
            avgAttentionScore, maxAttentionScore, prefixReuseFlag, currentTier,
            gpuMemUsedMb, gpuMemFreeMb, importanceScore)
    }
  }

  /** What a list of live blocks shows at this moment. */
  function Views(objects: seq<BlockState>): seq<Block>
    reads objects
  {
    seq(|objects|, i requires 0 <= i < |objects| reads objects => objects[i].View())
  }

  datatype Strategy = Lru | LowAttention | Age | Importance | Other(name: string)

  datatype Candidates = Candidates(blocks: seq<BlockState>) | ValueError

  function AgeKey(b: Block): real { -(b.age as real) }

  function ImportanceKey(b: Block): real { b.importance }

  function StrategyKey(strategy: Strategy): Block -> real
    requires !strategy.Other?
  {
    match strategy
    case Lru => LastAccessKey
    case LowAttention => AttentionKey
    case Age => AgeKey
    case Importance => ImportanceKey
  }

  function OnGpu(b: Block): bool { b.tier == GpuFp16 || b.tier == GpuQuantized }

  /** The blocks on the GPU that the strategy ranks first. */
  function CandidateViews(s: State, n: int, strategy: Strategy): seq<Block>
    requires !strategy.Other?
  {
    SliceTo(SortBy(Filter(s, OnGpu), StrategyKey(strategy)), n)
  }

  class Tracker {
    const sizes: Sizes
    var order: seq<int>
    var blocks: map<int, BlockState>
    ghost var contents: State  // the tracked blocks as values, in dict order

    ghost predicate Valid()
      reads this, blocks.Values
    {
      && (forall i, j :: 0 <= i < j < |order| ==> order[i] != order[j])
      && (forall id :: id in blocks <==> id in order)
      && (forall id :: id in blocks ==> blocks[id].blockId == id)
      && |contents| == |order|
      && (forall i :: 0 <= i < |order| ==> order[i] in blocks && contents[i] == blocks[order[i]].View())
    }

    lemma {:induction false} ContentsAreDistinct()
      requires Valid()
      ensures Distinct(contents, BlockId)
    {
      forall i, j | 0 <= i < j < |contents|
        ensures BlockId(contents[i]) != BlockId(contents[j])
      {
        assert contents[i].id == order[i] && contents[j].id == order[j];
      }
    }

    lemma {:induction false} TrackedIds(id: int)
      requires Valid()
      ensures id in blocks <==> id in Ids(contents, BlockId)
    {
      InIds(contents, BlockId, id);
      if id in blocks {
        var i :| 0 <= i < |order| && order[i] == id;
        assert contents[i] in contents && BlockId(contents[i]) == id;
      }
      if id in Ids(contents, BlockId) {
        var i :| 0 <= i < |contents| && BlockId(contents[i]) == id;
        assert order[i] == id;
      }
    }

    /** A tracked value is what the object of its id shows. */
    lemma {:induction false} ViewOf(c: Block)
      requires Valid() && c in contents
      ensures c.id in blocks && blocks[c.id].View() == c
    {
      var i :| 0 <= i < |contents| && contents[i] == c;
      assert blocks[order[i]].View().id == order[i];
    }

    constructor (numHeads: nat, blockSize: nat, headDim: nat)
      ensures Valid() && contents == [] && blocks == map[]
      ensures sizes == SizesFor(numHeads, blockSize, headDim)
      ensures sizes.int8 == 2 * numHeads * blockSize * headDim && sizes.fp16 == 2 * sizes.int8
    {
      sizes := SizesFor(numHeads, blockSize, headDim);
      order, blocks, contents := [], map[], [];
    }

    // ---------- block lifecycle ----------

    /** A known id keeps its place in the dict; a new one goes to the end. */
    method RegisterBlock(blockId: int, layerId: int, headGroup: int, requestId: string) returns (state: BlockState)
      requires Valid()
      modifies this
      ensures Valid() && fresh(state) && blocks == old(blocks)[blockId := state]
      ensures contents == Registered(old(contents), NewBlock(blockId, layerId, headGroup, requestId))
      ensures state.View() ==
        Block(blockId, layerId, headGroup, requestId, 0, 0, 0, 0.0, 0.0, false, GpuFp16, 0.0, 0.0, 0.0)
    {
      state := new BlockState(blockId, layerId, headGroup, requestId);
      if blockId in blocks {
        Replace(state);
      } else {
        Append(state);
      }
    }

    /** self._blocks[state.block_id] = state, for a key that is there already. */
    method Replace(state: BlockState)
      requires Valid() && state.blockId in blocks && state !in blocks.Values
      modifies this
      ensures Valid() && blocks == old(blocks)[state.blockId := state]
      ensures contents == Registered(old(contents), state.View())
    {
      RegisteredShows(state.View());
      contents := Registered(contents, state.View());
      blocks := blocks[state.blockId := state];
    }

    /** The same for a new key. */
    method Append(state: BlockState)
      requires Valid() && state.blockId !in blocks && state !in blocks.Values
      modifies this
      ensures Valid() && blocks == old(blocks)[state.blockId := state]
      ensures contents == Registered(old(contents), state.View())
    {
      RegisteredShows(state.View());
      contents := contents + [state.View()];
      order := order + [state.blockId];
      blocks := blocks[state.blockId := state];
    }

    /** A block registered under a tracked id takes its place, any other comes last. */
    lemma {:induction false} RegisteredShows(entry: Block)
      requires Valid()
      ensures
        var t := Registered(contents, entry);
        if entry.id in blocks then
          |t| == |order| && forall i :: 0 <= i < |order| ==> t[i] == if order[i] == entry.id then entry else contents[i]
        else
          t == contents + [entry]
    {
      TrackedIds(entry.id);
      forall i | 0 <= i < |order|
        ensures contents[i].id == order[i]
      {
        assert blocks[order[i]].View().id == order[i];
      }
    }

    /** The block leaves the dict, and the object the caller may still hold is labelled as evicted. */
    method EvictBlock(id: int) returns (state: BlockState?)
      requires Valid()
      modifies this, if id in blocks then {blocks[id]} else {}
      ensures Valid()
      ensures blocks == old(blocks) - {id}
      ensures contents == Without(old(contents), id)
      ensures if id in old(blocks) then state == old(blocks)[id] && state.currentTier == Evicted else state == null
    {
      if id !in blocks {
        NotTracked(id);
        return null;
      }
      state := blocks[id];
      Remove(id);
      state.currentTier := Evicted;
    }

    method Remove(id: int)
      requires Valid() && id in blocks
      modifies this
      ensures Valid() && blocks == old(blocks) - {id}
      ensures contents == Without(old(contents), id)
    {
      var others := OtherIds(id);
      order, blocks, contents := others, blocks - {id}, Without(contents, id);
    }

    /** The keys left over when one is taken out. */
    method OtherIds(id: int) returns (others: seq<int>)
      requires Valid() && id in blocks
      ensures |others| == |Without(contents, id)|
      ensures forall j :: j in others <==> j in blocks && j != id
      ensures forall i, j :: 0 <= i < j < |others| ==> others[i] != others[j]
      ensures forall i :: 0 <= i < |others| ==>
        others[i] in blocks && Without(contents, id)[i] == blocks[others[i]].View()
    {
      var k := PositionOf(id);
      others := order[..k] + order[k + 1..];
      RemainingInOrder(id, k, others);
      RemainingAreTracked(OtherThan(id), others);
    }

    lemma {:induction false} RemainingInOrder(id: int, k: nat, others: seq<int>)
      requires Valid() && k < |order| && order[k] == id && others == order[..k] + order[k + 1..]
      ensures others == Map(BlockId, Without(contents, id))
      ensures forall j :: j in others <==> j in blocks && j != id
    {
      ContentsAreDistinct();
      assert contents[k].id == id;
      WithoutAt(contents, k);
      CutAt(order, k);
      CutAt(contents, k);
    }

    method PositionOf(id: int) returns (k: nat)
      requires Valid() && id in blocks
      ensures k < |order| && order[k] == id && contents[k].id == id
    {
      k := 0;
      while order[k] != id
        invariant 0 <= k < |order| && id !in order[..k]
        decreases |order| - k
      {
        k := k + 1;
      }
    }

    lemma {:induction false} NotTracked(id: int)
      requires Valid() && id !in blocks
      ensures Without(contents, id) == contents
    {
      forall i | 0 <= i < |contents|
        ensures contents[i].id != id
      {
        assert contents[i].id == order[i];
      }
      WithoutAbsent(contents, id);
    }

    // ---------- updates in place ----------

    method UpdateAttention(id: int, samples: seq<Sample>)
      requires Valid()
      modifies this`contents, if id in blocks then {blocks[id]} else {}
      ensures Valid() && blocks == old(blocks)
      ensures contents == AtBlock(old(contents), id, Attended(samples))
      ensures id in blocks ==> Averaged(old(blocks[id].View()), blocks[id].View(), FiniteValues(samples))
    {
      if id in blocks {
        AttendedIsAveraged(blocks[id].View(), samples);
      }
      contents := AtBlock(contents, id, Attended(samples));
      var finite := FiniteValues(samples);
      if finite != [] {
        var batchMean, batchMax := Mean(finite), MaxOf(finite);
        if id in blocks {
          blocks[id].Attend(batchMean, batchMax);
          assert blocks[id].View() == Attended(samples)(old(blocks[id].View()));
        }
      }
      forall i | 0 <= i < |order|
        ensures contents[i] == blocks[order[i]].View()
      {
        assert old(contents)[i] == old(blocks[order[i]].View());
      }
    }

    method MarkAccessed(id: int, step: int)
      requires Valid()
      modifies this`contents, if id in blocks then {blocks[id]} else {}
      ensures Valid() && blocks == old(blocks)
      ensures contents == AtBlock(old(contents), id, Accessed(step))
      ensures id in blocks ==> blocks[id].View() == old(blocks[id].View()).(
        accessCount := old(blocks[id].accessCount) + 1, lastAccess := step, age := step)
    {
      if id in blocks {
        var state := blocks[id];
        state.accessCount := state.accessCount + 1;
        state.lastAccessStep := step;
        state.blockAgeSteps := step;
        assert state.View() == Accessed(step)(old(state.View()));
      }
      contents := AtBlock(contents, id, Accessed(step));
      forall i | 0 <= i < |order|
        ensures contents[i] == blocks[order[i]].View()
      {
        assert old(contents)[i] == old(blocks[order[i]].View());
      }
    }

    method UpdateTier(id: int, tier: Tier)
      requires Valid()
      modifies this`contents, if id in blocks then {blocks[id]} else {}
      ensures Valid() && blocks == old(blocks)
      ensures contents == AtBlock(old(contents), id, Retiered(tier))
      ensures id in blocks ==> blocks[id].View() == old(blocks[id].View()).(tier := tier)
    {
      if id in blocks {
        var state := blocks[id];
        state.currentTier := tier;
        assert state.View() == Retiered(tier)(old(state.View()));
      }
      contents := AtBlock(contents, id, Retiered(tier));
      forall i | 0 <= i < |order|
        ensures contents[i] == blocks[order[i]].View()
      {
        assert old(contents)[i] == old(blocks[order[i]].View());
      }
    }

    method UpdateMemorySnapshot(id: int, used: real, free: real)
      requires Valid()
      modifies this`contents, if id in blocks then {blocks[id]} else {}
      ensures Valid() && blocks == old(blocks)
      ensures contents == AtBlock(old(contents), id, Measured(used, free))
      ensures id in blocks ==> blocks[id].View() == old(blocks[id].View()).(gpuUsed := used, gpuFree := free)
    {
      if id in blocks {
        var state := blocks[id];
        state.gpuMemUsedMb := used;
        state.gpuMemFreeMb := free;
        assert state.View() == Measured(used, free)(old(state.View()));
      }
      contents := AtBlock(contents, id, Measured(used, free));
      forall i | 0 <= i < |order|
        ensures contents[i] == blocks[order[i]].View()
      {
        assert old(contents)[i] == old(blocks[order[i]].View());
      }
    }

    method SetImportanceScore(id: int, score: real)
      requires Valid()
      modifies this`contents, if id in blocks then {blocks[id]} else {}
      ensures Valid() && blocks == old(blocks)
      ensures contents == AtBlock(old(contents), id, Rescored(score))
      ensures id in blocks ==> blocks[id].View() == old(blocks[id].View()).(importance := score)
    {
      if id in blocks {
        var state := blocks[id];
        state.importanceScore := score;
        assert state.View() == Rescored(score)(old(state.View()));
      }
      contents := AtBlock(contents, id, Rescored(score));
      forall i | 0 <= i < |order|
        ensures contents[i] == blocks[order[i]].View()
      {
        assert old(contents)[i] == old(blocks[order[i]].View());
      }
    }

    method MarkPrefixReuse(id: int, reused: bool)
      requires Valid()
      modifies this`contents, if id in blocks then {blocks[id]} else {}
      ensures Valid() && blocks == old(blocks)
      ensures contents == AtBlock(old(contents), id, Reused(reused))
      ensures id in blocks ==> blocks[id].View() == old(blocks[id].View()).(prefixReuse := reused)
    {
      if id in blocks {
        var state := blocks[id];
        state.prefixReuseFlag := reused;
        assert state.View() == Reused(reused)(old(state.View()));
      }
      contents := AtBlock(contents, id, Reused(reused));
      forall i | 0 <= i < |order|
        ensures contents[i] == blocks[order[i]].View()
      {
        assert old(contents)[i] == old(blocks[order[i]].View());
      }
    }

    method IncrementAge(step: int)
      requires Valid()
      modifies this`contents, blocks.Values
      ensures Valid() && blocks == old(blocks)
      ensures contents == Map(Aged(step), old(contents))
      ensures |contents| == |old(contents)|
      ensures forall i :: 0 <= i < |contents| ==> contents[i] == old(contents)[i].(age := step)
    {
      for i := 0 to |order|
        invariant contents == old(contents)
        invariant forall k :: 0 <= k < |order| ==>
          blocks[order[k]].View() == if k < i then Aged(step)(old(contents)[k]) else old(contents)[k]
      {
        var state := blocks[order[i]];
        ghost var before := state.View();
        state.blockAgeSteps := step;
        assert state.View() == Aged(step)(before);
      }
      contents := Map(Aged(step), contents);
    }

    /** Removes the blocks of a finished request; unlike eviction it does not relabel the objects. */
    method ReleaseRequestBlocks(requestId: string) returns (count: nat)
      requires Valid()
      modifies this
      ensures Valid()
      ensures contents == Released(old(contents), requestId)
      ensures forall b :: b in contents <==> b in old(contents) && b.request != requestId
      ensures count == |old(contents)| - |contents|
    {
      var remaining := RemainingIds(requestId);
      count := |order| - |remaining|;
      RemainingAreTracked(NotOf(requestId), remaining);
      FilterIn(contents, NotOf(requestId));
      Retain(remaining, Released(contents, requestId));
    }

    /** Keeps the entries with the given ids and drops all others. */
    method Retain(ids: seq<int>, ghost kept: State)
      requires Valid() && |kept| == |ids|
      requires forall i :: 0 <= i < |ids| ==> ids[i] in blocks && kept[i] == blocks[ids[i]].View()
      requires forall i, j :: 0 <= i < j < |ids| ==> ids[i] != ids[j]
      modifies this
      ensures Valid() && contents == kept
    {
      blocks := map id | id in blocks && id in ids :: blocks[id];
      order := ids;
      contents := kept;
    }

    method RemainingIds(requestId: string) returns (remaining: seq<int>)
      requires Valid()
      ensures remaining == Map(BlockId, Released(contents, requestId)) && |remaining| <= |order|
    {
      remaining := [];
      for i := 0 to |order|
        invariant remaining == Map(BlockId, Released(contents[..i], requestId)) && |remaining| <= i
      {
        assert contents[i].id == order[i] && contents[i].request == blocks[order[i]].requestId;
        ReleasedOneMore(contents, requestId, i);
        if blocks[order[i]].requestId != requestId {
          remaining := remaining + [order[i]];
        }
      }
      assert contents[..|order|] == contents;
    }

    lemma {:induction false} RemainingAreTracked(p: Block -> bool, remaining: seq<int>)
      requires Valid() && remaining == Map(BlockId, Filter(contents, p))
      ensures forall i :: 0 <= i < |remaining| ==>
        remaining[i] in blocks && Filter(contents, p)[i] == blocks[remaining[i]].View()
      ensures forall i, j :: 0 <= i < j < |remaining| ==> remaining[i] != remaining[j]
    {
      var kept := Filter(contents, p);
      ContentsAreDistinct();
      FilterKeepsDistinct(contents, BlockId, p);
      FilterIn(contents, p);
      forall i | 0 <= i < |kept|
        ensures kept[i].id in blocks && blocks[kept[i].id].View() == kept[i]
      {
        assert kept[i] in kept;
        ViewOf(kept[i]);
      }
      forall i, j | 0 <= i < j < |kept|
        ensures kept[i].id != kept[j].id
      {
        assert BlockId(kept[i]) != BlockId(kept[j]);
      }
    }

    // ---------- read accessors ----------

    method GetBlock(id: int) returns (state: BlockState?)
      requires Valid()
      ensures if id in blocks then state == blocks[id] else state == null
    {
      state := if id in blocks then blocks[id] else null;
    }

    /** The live objects in dict order, not copies of them. */
    method GetAllBlocks() returns (live: seq<BlockState>)
      requires Valid()
      ensures Views(live) == contents
      ensures forall i :: 0 <= i < |live| ==> live[i] in blocks.Values
    {
      live := [];
      for i := 0 to |order|
        invariant |live| == i
        invariant forall k :: 0 <= k < i ==> live[k] == blocks[order[k]]
      {
        live := live + [blocks[order[i]]];
      }
      assert forall k :: 0 <= k < |live| ==> Views(live)[k] == contents[k];
    }

    method GetMemoryStats() returns (totalBlocks: nat, gpuMb: real, cpuMb: real)
      requires Valid()
      ensures totalBlocks == |contents|
      ensures gpuMb == Megabytes(GpuBytes(sizes, contents))
      ensures cpuMb == Megabytes(CpuBytes(sizes, contents))
    {
      var fp16, quantized, cpu := 0, 0, 0;
      for i := 0 to |order|
        invariant fp16 == CountTier(contents[..i], GpuFp16)
        invariant quantized == CountTier(contents[..i], GpuQuantized)
        invariant cpu == CountTier(contents[..i], CpuOffloaded)
      {
        assert Init(contents[..i + 1]) == contents[..i] && Last(contents[..i + 1]) == contents[i];
        match blocks[order[i]].currentTier {
          case GpuFp16 => fp16 := fp16 + 1;
          case GpuQuantized => quantized := quantized + 1;
          case CpuOffloaded => cpu := cpu + 1;
          case Evicted =>
        }
      }
      assert contents[..|order|] == contents;
      totalBlocks := |order|;
      gpuMb := Megabytes(fp16 * sizes.fp16 + quantized * sizes.int8);
      cpuMb := Megabytes(cpu * sizes.fp16);
    }

    /** The returned blocks are the tracked objects themselves: a caller that changes them changes the tracker. */
    method GetCandidateBlocks(n: int, strategy: Strategy) returns (found: Candidates)
      requires Valid()
      ensures strategy.Other? <==> found.ValueError?
      ensures found.Candidates? ==>
        && (forall i :: 0 <= i < |found.blocks| ==> found.blocks[i] in blocks.Values)
        && Views(found.blocks) == CandidateViews(contents, n, strategy)
    {
      if strategy.Other? {
        return ValueError;
      }
      var live := GetAllBlocks();
      var views := CandidateViews(Views(live), n, strategy);
      CandidatesAreTracked(contents, n, strategy);
      forall b | b in views
        ensures b.id in blocks && blocks[b.id].View() == b
      {
        ViewOf(b);
      }
      var chosen := ObjectsOf(views);
      found := Candidates(chosen);
    }

    method ObjectsOf(views: seq<Block>) returns (objects: seq<BlockState>)
      requires forall b :: b in views ==> b.id in blocks && blocks[b.id].View() == b
      ensures forall i :: 0 <= i < |objects| ==> objects[i] in blocks.Values
      ensures Views(objects) == views
    {
      objects := [];
      for i := 0 to |views|
        invariant |objects| == i
        invariant forall k :: 0 <= k < i ==> objects[k] in blocks.Values && objects[k].View() == views[k]
      {
        assert views[i] in views;
        objects := objects + [blocks[views[i].id]];
      }
    }
  }

  /** A sequence with one position cut out. */
  lemma {:induction false} CutAt<T(!new)>(s: seq<T>, k: nat)
    requires k < |s|
    ensures
      var t := s[..k] + s[k + 1..];
      && |t| == |s| - 1
      && (forall i :: 0 <= i < |t| ==> t[i] == s[if i < k then i else i + 1])
      && ((forall i, j :: 0 <= i < j < |s| ==> s[i] != s[j]) ==>
          (forall i, j :: 0 <= i < j < |t| ==> t[i] != t[j]) && (forall x :: x in t <==> x in s && x != s[k]))
  {
    var t := s[..k] + s[k + 1..];
    if forall i, j :: 0 <= i < j < |s| ==> s[i] != s[j] {
      forall x
        ensures x in t <==> x in s && x != s[k]
      {
        if x in s && x != s[k] {
          var j :| 0 <= j < |s| && s[j] == x;
          assert t[if j < k then j else j - 1] == x;
        }
      }
    }
  }

  lemma {:induction false} ReleasedOneMore(s: State, requestId: string, i: nat)
    requires i < |s|
    ensures Map(BlockId, Released(s[..i + 1], requestId)) ==
            Map(BlockId, Released(s[..i], requestId)) + if s[i].request == requestId then [] else [s[i].id]
  {
    assert s[..i + 1] == s[..i] + [s[i]];
    FilterAppend(s[..i], [s[i]], NotOf(requestId));
    assert Filter([s[i]], NotOf(requestId)) == if s[i].request == requestId then [] else [s[i]];
  }

  lemma {:induction false} CandidatesAreTracked(s: State, n: int, strategy: Strategy)
    requires !strategy.Other?
    ensures forall b :: b in CandidateViews(s, n, strategy) ==> b in s && OnGpu(b)
    ensures
      var available := |Filter(s, OnGpu)|;
      |CandidateViews(s, n, strategy)| == if n >= 0 then Min(n, available) else Max(0, available + n)
  {
    var key := StrategyKey(strategy);
    FilterIn(s, OnGpu);
    SameElements(Filter(s, OnGpu), key);
    SortIsOrderedRearrangement(Filter(s, OnGpu), key);
    forall b | b in CandidateViews(s, n, strategy)
      ensures b in s && OnGpu(b)
    {
      assert b in SortBy(Filter(s, OnGpu), key);
    }
  }

  /** What each strategy puts first: the least recent, the least attended, the oldest, the least important. */
  predicate NoLaterThan(strategy: Strategy, b: Block, c: Block)
    requires !strategy.Other?
  {
    match strategy
    case Lru => b.lastAccess <= c.lastAccess
    case LowAttention => b.avgAttention <= c.avgAttention
    case Age => b.age >= c.age
    case Importance => b.importance <= c.importance
  }

  lemma {:induction false} KeyIsRank(strategy: Strategy, b: Block, c: Block)
    requires !strategy.Other?
    ensures StrategyKey(strategy)(b) <= StrategyKey(strategy)(c) <==> NoLaterThan(strategy, b, c)
  {
  }

  /** Candidates come in the order of the strategy, and before every GPU block that is not among them. */
  lemma {:induction false} CandidatesAreFirst(s: State, n: int, strategy: Strategy, i: nat, c: Block)
    requires !strategy.Other? && i < |CandidateViews(s, n, strategy)|
    ensures
      var chosen := CandidateViews(s, n, strategy);
      && (forall j :: i < j < |chosen| ==> NoLaterThan(strategy, chosen[i], chosen[j]))
      && (c in s && OnGpu(c) && c !in chosen ==> NoLaterThan(strategy, chosen[i], c))
  {
    var key, chosen := StrategyKey(strategy), CandidateViews(s, n, strategy);
    FilterIn(s, OnGpu);
    PrefixOfSorted(Filter(s, OnGpu), key, chosen, i, c);
    KeyIsRank(strategy, chosen[i], c);
    forall j | i < j < |chosen|
      ensures NoLaterThan(strategy, chosen[i], chosen[j])
    {
      KeyIsRank(strategy, chosen[i], chosen[j]);
    }
  }

  lemma {:induction false} PrefixOfSorted(s: State, key: Block -> real, chosen: State, i: nat, c: Block)
    requires chosen <= SortBy(s, key) && i < |chosen|
    ensures forall j :: i < j < |chosen| ==> key(chosen[i]) <= key(chosen[j])
    ensures c in s && c !in chosen ==> key(chosen[i]) <= key(c)
  {
    var ranked := SortBy(s, key);
    SortIsOrderedRearrangement(s, key);
    SameElements(s, key);
    if c in s && c !in chosen {
      var j :| 0 <= j < |ranked| && ranked[j] == c;
      assert forall q :: 0 <= q < |chosen| ==> chosen[q] in chosen && ranked[q] == chosen[q];
    }
  }

  /** On the GPU means fp16 or quantised. */
  lemma {:induction false} OnGpuTiers(b: Block)
    ensures OnGpu(b) <==> b.tier != CpuOffloaded && b.tier != Evicted
  {
  }

  lemma {:induction false} WithoutAbsent(s: State, id: int)
    requires forall i :: 0 <= i < |s| ==> s[i].id != id
    ensures Without(s, id) == s
  {
    FilterAll(s, OtherThan(id));
  }

  lemma {:induction false} WithoutAt(s: State, k: nat)
    requires Distinct(s, BlockId) && k < |s|
    ensures Without(s, s[k].id) == s[..k] + s[k + 1..]
  {
    var id := s[k].id;
    var p := OtherThan(id);
    assert s == s[..k] + [s[k]] + s[k + 1..];
    forall i | 0 <= i < |s| && i != k
      ensures s[i].id != id
    {
      assert BlockId(s[i]) != BlockId(s[k]);
    }
    FilterAppend(s[..k] + [s[k]], s[k + 1..], p);
    FilterAppend(s[..k], [s[k]], p);
    FilterAll(s[..k], p);
    FilterNone([s[k]], p);
    FilterAll(s[k + 1..], p);
    assert s[..k] + [] == s[..k];
  }
}
