/**
 The tracker and the engine as a state machine on the tracked blocks, in the order the dict holds them.
 The classes in BlockTracker.dfy and PolicyEngine.dfy are proved to take these steps.
 */
module TrackerModel {
  import opened Sequences
  import opened Numbers
  import opened Sorting
  import opened Selection
  import opened Schema
  import opened Effects
  import opened Policies
  import opened Iteration

  type State = seq<Block>

  // ---------- changes to one block ----------

  /** The block with the given id, if any, replaced by `f` of it. */
  function AtBlock(s: State, id: int, f: Block -> Block): (t: State)
    ensures |t| == |s|
    ensures forall i :: 0 <= i < |s| ==> t[i] == if s[i].id == id then f(s[i]) else s[i]
  {
    if s == [] then [] else [if s[0].id == id then f(s[0]) else s[0]] + AtBlock(s[1..], id, f)
  }

  /** One attention weight; np.isfinite separates the two. */
  datatype Sample = Finite(value: real) | NotFinite

  function FiniteValues(samples: seq<Sample>): seq<real> {
    if samples == [] then []
    else FiniteValues(Init(samples)) + if Last(samples).Finite? then [Last(samples).value] else []
  }

  /** Overwrite on a block never accessed, moving average with weight 0.1 afterwards. */
  function Attended(samples: seq<Sample>): Block -> Block {
    (b: Block) =>
      var xs := FiniteValues(samples);
      if xs == [] then b
      else if b.accessCount == 0 then b.(avgAttention := Mean(xs), maxAttention := MaxOf(xs))
      else b.(avgAttention := 0.1 * Mean(xs) + (1.0 - 0.1) * b.avgAttention,
              maxAttention := MaxReal(b.maxAttention, MaxOf(xs)))
  }

  /** Finite weights are kept in order, the others dropped. */
  lemma {:induction false} FiniteValuesOfMore(samples: seq<Sample>, x: Sample)
    ensures FiniteValues([]) == []
    ensures FiniteValues(samples + [x]) == FiniteValues(samples) + if x.Finite? then [x.value] else []
  {
    assert Init(samples + [x]) == samples;
  }

  /** Taken as often as there are values, `v` is that share of their sum. */
  ghost predicate IsMean(v: real, xs: seq<real>, share: real) {
    v * |xs| as real == share * Sum(xs)
  }

  /**
   What a batch of finite weights makes of the attention of a block: the mean on a block never accessed, later nine
   tenths of the old average and one tenth of the mean; and the peak of all batches since then.
   */
  ghost predicate Averaged(before: Block, after: Block, xs: seq<real>) {
    && after == before.(avgAttention := after.avgAttention, maxAttention := after.maxAttention)
    && (xs == [] ==> after == before)
    && (xs != [] && before.accessCount == 0 ==>
        && IsMean(after.avgAttention, xs, 1.0)
        && after.maxAttention in xs)
    && (xs != [] && before.accessCount > 0 ==>
        && IsMean(after.avgAttention - 0.9 * before.avgAttention, xs, 0.1)
        && after.maxAttention >= before.maxAttention
        && (after.maxAttention == before.maxAttention || after.maxAttention in xs))
    && forall x :: x in xs ==> x <= after.maxAttention
  }

  lemma {:induction false} AttendedIsAveraged(b: Block, samples: seq<Sample>)
    ensures Averaged(b, Attended(samples)(b), FiniteValues(samples))
  {
    var xs := FiniteValues(samples);
    if xs != [] {
      if b.accessCount == 0 {
        FirstBatch(b, xs, Attended(samples)(b), Mean(xs));
      } else {
        LaterBatch(b, xs, Attended(samples)(b), Mean(xs));
      }
    }
  }

  lemma {:induction false} FirstBatch(b: Block, xs: seq<real>, c: Block, mean: real)
    requires xs != [] && b.accessCount == 0 && mean == Mean(xs)
    requires c == b.(avgAttention := mean, maxAttention := MaxOf(xs))
    ensures Averaged(b, c, xs)
  {
    MeanTimesCount(xs);
  }

  lemma {:induction false} LaterBatch(b: Block, xs: seq<real>, c: Block, mean: real)
    requires xs != [] && b.accessCount > 0 && mean == Mean(xs)
    requires c.avgAttention == 0.1 * mean + (1.0 - 0.1) * b.avgAttention
    requires c == b.(avgAttention := c.avgAttention, maxAttention := MaxReal(b.maxAttention, MaxOf(xs)))
    ensures Averaged(b, c, xs)
  {
    TenthOfSum(xs, mean, c.avgAttention - 0.9 * b.avgAttention);
  }

  lemma {:induction false} TenthOfSum(xs: seq<real>, mean: real, tenth: real)
    requires xs != [] && mean == Mean(xs) && tenth == 0.1 * mean
    ensures IsMean(tenth, xs, 0.1)
  {
    MeanTimesCount(xs);
    MovedMean(mean, |xs| as real, tenth, Sum(xs));
  }

  lemma {:induction false} MovedMean(mean: real, n: real, tenth: real, total: real)
    requires mean * n == total && tenth == 0.1 * mean
    ensures tenth * n == 0.1 * total
  {
    assert (0.1 * mean) * n == 0.1 * (mean * n);
  }

  function Accessed(step: int): Block -> Block {
    (b: Block) => b.(accessCount := b.accessCount + 1, lastAccess := step, age := step)
  }

  function Retiered(tier: Tier): Block -> Block {
    (b: Block) => b.(tier := tier)
  }

  function Rescored(score: real): Block -> Block {
    (b: Block) => b.(importance := score)
  }

  function Reused(reused: bool): Block -> Block {
    (b: Block) => b.(prefixReuse := reused)
  }

  function Measured(used: real, free: real): Block -> Block {
    (b: Block) => b.(gpuUsed := used, gpuFree := free)
  }

  function Aged(step: int): Block -> Block {
    (b: Block) => b.(age := step)
  }

  function Replaced(entry: Block): Block -> Block {
    (b: Block) => entry
  }

  // ---------- changes to the set of blocks ----------

  /** Assigning a dict entry: in place for a known id, at the end for a new one. */
  function Registered(s: State, entry: Block): State {
    if entry.id in Ids(s, BlockId) then AtBlock(s, entry.id, Replaced(entry)) else s + [entry]
  }

  function OtherThan(id: int): Block -> bool {
    (b: Block) => b.id != id
  }

  function Without(s: State, id: int): State {
    Filter(s, OtherThan(id))
  }

  function NotOf(request: string): Block -> bool {
    (b: Block) => b.request != request
  }

  function Released(s: State, request: string): State {
    Filter(s, NotOf(request))
  }

  // ---------- memory ----------

  /** Bytes of one block as fp16 and as int8. */
  datatype Sizes = Sizes(fp16: nat, int8: nat)

  function SizesFor(numHeads: nat, blockSize: nat, headDim: nat): Sizes {
    Sizes(2 * numHeads * blockSize * headDim * 2, 2 * numHeads * blockSize * headDim * 1)
  }

  function CountTier(s: State, t: Tier): nat {
    if s == [] then 0 else CountTier(Init(s), t) + if Last(s).tier == t then 1 else 0
  }

  function GpuBytes(z: Sizes, s: State): nat {
    CountTier(s, GpuFp16) * z.fp16 + CountTier(s, GpuQuantized) * z.int8
  }

  function CpuBytes(z: Sizes, s: State): nat {
    CountTier(s, CpuOffloaded) * z.fp16
  }

  function Megabytes(bytes: nat): real {
    bytes as real / 1048576.0
  }

  // ---------- one policy cycle ----------

  /** max(b.last_access_step for b in blocks, default=0) */
  function MaxStep(s: State): int {
    if s == [] then 0 else if |s| == 1 then s[0].lastAccess else Max(MaxStep(Init(s)), Last(s).lastAccess)
  }

  /** max(b.max_attention_score for b in blocks, default=1.0) */
  function MaxPeak(s: State): real {
    if s == [] then 1.0 else if |s| == 1 then s[0].maxAttention else MaxReal(MaxPeak(Init(s)), Last(s).maxAttention)
  }

  function EngineMetrics(z: Sizes, s: State, free: real): Metrics {
    Metrics(Megabytes(GpuBytes(z, s)), free, Some(MaxStep(s)), Some(MaxPeak(s)), Unknown)
  }

  function EnginePressure(z: Sizes, s: State, free: real): real {
    Pressure(Megabytes(GpuBytes(z, s)), free)
  }

  function CycleDecisions(z: Sizes, s: State, kind: Kind, cfg: Config, free: real,
                          prediction: Prediction): seq<PolicyDecision> {
    if s == [] then [] else Decide(kind, cfg, s, EngineMetrics(z, s, free), prediction)
  }

  function Cycle(z: Sizes, s: State, kind: Kind, cfg: Config, free: real, prediction: Prediction): State {
    ApplyAll(s, CycleDecisions(z, s, kind, cfg, free, prediction))
  }

  // ---------- runs ----------

  datatype Event =
    | RegisterBlock(id: int, layer: int, headGroup: int, request: string)
    | EvictBlock(id: int)
    | UpdateAttention(id: int, samples: seq<Sample>)
    | MarkAccessed(id: int, step: int)
    | UpdateTier(id: int, tier: Tier)
    | SetImportance(id: int, score: real)
    | MarkPrefixReuse(id: int, reused: bool)
    | UpdateMemory(id: int, used: real, free: real)
    | IncrementAge(step: int)
    | ReleaseRequest(request: string)
    | PolicyCycle(kind: Kind, cfg: Config, free: real, prediction: Prediction)

  function Step(z: Sizes, s: State, e: Event): State {
    match e
    case RegisterBlock(id, layer, headGroup, request) => Registered(s, NewBlock(id, layer, headGroup, request))
    case EvictBlock(id) => Without(s, id)
    case UpdateAttention(id, samples) => AtBlock(s, id, Attended(samples))
    case MarkAccessed(id, step) => AtBlock(s, id, Accessed(step))
    case UpdateTier(id, tier) => AtBlock(s, id, Retiered(tier))
    case SetImportance(id, score) => AtBlock(s, id, Rescored(score))
    case MarkPrefixReuse(id, reused) => AtBlock(s, id, Reused(reused))
    case UpdateMemory(id, used, free) => AtBlock(s, id, Measured(used, free))
    case IncrementAge(step) => Map(Aged(step), s)
    case ReleaseRequest(request) => Released(s, request)
    case PolicyCycle(kind, cfg, free, prediction) => Cycle(z, s, kind, cfg, free, prediction)
  }

  function Run(z: Sizes, s: State, events: seq<Event>): State {
    if events == [] then s else Step(z, Run(z, s, Init(events)), Last(events))
  }

  /** Every event of the run does what `f` does. */
  ghost predicate Follows(z: Sizes, s: State, f: State -> State, events: seq<Event>)
    decreases |events|
  {
    events != [] ==>
      && Follows(z, s, f, Init(events))
      && Step(z, Run(z, s, Init(events)), Last(events)) == f(Run(z, s, Init(events)))
  }

  lemma {:induction false} RunIsIteration(z: Sizes, s: State, f: State -> State, events: seq<Event>)
    requires Follows(z, s, f, events)
    ensures Run(z, s, events) == Iterate(f, s, |events|)
    decreases |events|
  {
    if events != [] {
      var n := |events| - 1;
      RunIsIteration(z, s, f, Init(events));
      assert Run(z, s, events) == f(Run(z, s, Init(events)));
      assert Iterate(f, s, n + 1) == f(Iterate(f, s, n));
    }
  }
}
