/**
 The quantise-only policy under pressure. A block it finds already quantised is decided KEEP_GPU, and KEEP_GPU means
 full precision: quantised blocks are promoted by the next cycle and quantised again by the one after.
 */
module QuantizeFacts {
  import opened Sequences
  import opened Sorting
  import opened Selection
  import opened Schema
  import opened Effects
  import opened Policies
  import opened TrackerModel
  import opened Outcomes

  /** One cycle at or above the low threshold with quantisation on. */
  function QuantizeStep(cfg: Config, s: State): State {
    ApplyAll(s, Map(QuantizeVerdict(cfg, SinkIds(s, cfg.sinks), MaxAttention(s)), s))
  }

  /** No sink, and attention relative to the maximum below the threshold. */
  predicate LowAttention(cfg: Config, sinks: set<int>, maxAttention: real, b: Block) {
    b.id !in sinks && NormalizedAttention(b, maxAttention) < cfg.quantizationMin
  }

  lemma {:induction false} NothingDropped(s: State, f: Block -> PolicyDecision)
    requires forall b :: b in s ==> f(b).decision != Evict
    ensures Map(Marked(f), Filter(s, Spared(f))) == Map(Marked(f), s)
  {
    FilterAll(s, Spared(f));
  }

  lemma {:induction false} StepInClosedForm(cfg: Config, s: State)
    requires Distinct(s, BlockId)
    ensures QuantizeStep(cfg, s) == Map(Marked(QuantizeVerdict(cfg, SinkIds(s, cfg.sinks), MaxAttention(s))), s)
  {
    var f := QuantizeVerdict(cfg, SinkIds(s, cfg.sinks), MaxAttention(s));
    ApplyByBlock(s, f);
    NothingDropped(s, f);
  }

  function QuantizeMark(cfg: Config, sinks: set<int>, maxAttention: real): Block -> Block {
    Marked(QuantizeVerdict(cfg, sinks, maxAttention))
  }

  lemma {:induction false} MarkOnce(cfg: Config, sinks: set<int>, maxAttention: real, b: Block)
    ensures
      var c := QuantizeMark(cfg, sinks, maxAttention)(b);
      && c.id == b.id
      && c.tier == if LowAttention(cfg, sinks, maxAttention, b) && b.tier != GpuQuantized then GpuQuantized else GpuFp16
  {
    var d := QuantizeVerdict(cfg, sinks, maxAttention)(b);
    var low := LowAttention(cfg, sinks, maxAttention, b);
    assert d.decision == if low && b.tier != GpuQuantized then Quantize else KeepGpu;
    assert QuantizeMark(cfg, sinks, maxAttention)(b) == b.(tier := TierFor(d.decision), importance := d.score);
  }

  /**
   Nothing is evicted or offloaded; exactly the low-attention blocks that were not quantised before are quantised now.
   */
  lemma {:induction false} QuantizeOutcome(cfg: Config, s: State)
    requires Distinct(s, BlockId)
    ensures
      var t := QuantizeStep(cfg, s);
      && |t| == |s|
      && forall i :: 0 <= i < |s| ==>
        && t[i].id == s[i].id
        && t[i].tier == if LowAttention(cfg, SinkIds(s, cfg.sinks), MaxAttention(s), s[i]) && s[i].tier != GpuQuantized
                        then GpuQuantized else GpuFp16
  {
    var sinks, top := SinkIds(s, cfg.sinks), MaxAttention(s);
    StepInClosedForm(cfg, s);
    MarkAll(cfg, sinks, top, s, QuantizeStep(cfg, s));
  }

  lemma {:induction false} MarkAll(cfg: Config, sinks: set<int>, top: real, s: State, t: State)
    requires t == Map(QuantizeMark(cfg, sinks, top), s)
    ensures forall i :: 0 <= i < |s| ==>
      && t[i].id == s[i].id
      && t[i].tier == if LowAttention(cfg, sinks, top, s[i]) && s[i].tier != GpuQuantized then GpuQuantized else GpuFp16
  {
    forall i | 0 <= i < |s|
      ensures t[i].id == s[i].id
      ensures t[i].tier == if LowAttention(cfg, sinks, top, s[i]) && s[i].tier != GpuQuantized
                           then GpuQuantized else GpuFp16
    {
      MarkOnce(cfg, sinks, top, s[i]);
    }
  }

  lemma {:induction false} SameMaxAttention(s: State, f: Block -> PolicyDecision)
    ensures MaxAttention(Map(Marked(f), s)) == MaxAttention(s)
  {
    if |s| > 1 {
      SameMaxAttention(Init(s), f);
      assert Init(Map(Marked(f), s)) == Map(Marked(f), Init(s));
    }
  }

  /** Relabelling changes neither the sinks nor the maximum. */
  lemma {:induction false} SameJudgement(cfg: Config, s: State, f: Block -> PolicyDecision)
    ensures SinkIds(Map(Marked(f), s), cfg.sinks) == SinkIds(s, cfg.sinks)
    ensures MaxAttention(Map(Marked(f), s)) == MaxAttention(s)
  {
    SortOfMap(s, IdKey, IdKey, Marked(f));
    MapTake(Marked(f), SortBy(s, IdKey), cfg.sinks);
    MarkedIds(Take(SortBy(s, IdKey), cfg.sinks), f);
    SameMaxAttention(s, f);
  }

  lemma {:induction false} TwoSteps(cfg: Config, s: State)
    requires Distinct(s, BlockId)
    ensures
      var f := QuantizeVerdict(cfg, SinkIds(s, cfg.sinks), MaxAttention(s));
      && Distinct(QuantizeStep(cfg, s), BlockId)
      && QuantizeStep(cfg, s) == Map(Marked(f), s)
      && QuantizeStep(cfg, QuantizeStep(cfg, s)) == Map(Marked(f), Map(Marked(f), s))
  {
    var f := QuantizeVerdict(cfg, SinkIds(s, cfg.sinks), MaxAttention(s));
    StepInClosedForm(cfg, s);
    MarkedIds(s, f);
    SameJudgement(cfg, s, f);
    StepInClosedForm(cfg, Map(Marked(f), s));
  }

  lemma {:induction false} MarkRepeats(cfg: Config, sinks: set<int>, maxAttention: real, b: Block)
    ensures
      var g := QuantizeMark(cfg, sinks, maxAttention);
      && g(g(g(g(b)))) == g(g(b))
      && (g(g(b)).tier == g(b).tier <==> !LowAttention(cfg, sinks, maxAttention, b))
  {
  }

  lemma {:induction false} MapRepeats(cfg: Config, sinks: set<int>, top: real, s: State)
    ensures
      var g := QuantizeMark(cfg, sinks, top);
      && Map(g, Map(g, Map(g, Map(g, s)))) == Map(g, Map(g, s))
      && forall i :: 0 <= i < |s| ==>
        (Map(g, Map(g, s))[i].tier == Map(g, s)[i].tier <==> !LowAttention(cfg, sinks, top, s[i]))
  {
    var g := QuantizeMark(cfg, sinks, top);
    forall i | 0 <= i < |s|
      ensures Map(g, Map(g, Map(g, Map(g, s))))[i] == Map(g, Map(g, s))[i]
      ensures Map(g, Map(g, s))[i].tier == Map(g, s)[i].tier <==> !LowAttention(cfg, sinks, top, s[i])
    {
      MarkRepeats(cfg, sinks, top, s[i]);
    }
  }

  /** Under constant pressure and attention, from the second cycle on the cycle after next is this one again. */
  lemma {:induction false} PeriodTwo(cfg: Config, s: State)
    requires Distinct(s, BlockId)
    ensures
      var u := QuantizeStep(cfg, QuantizeStep(cfg, s));
      QuantizeStep(cfg, QuantizeStep(cfg, u)) == u
  {
    var sinks, top := SinkIds(s, cfg.sinks), MaxAttention(s);
    var f := QuantizeVerdict(cfg, sinks, top);
    var t := Map(Marked(f), s);
    var u := Map(Marked(f), t);
    TwoSteps(cfg, s);
    SameJudgement(cfg, s, f);
    SameJudgement(cfg, t, f);
    TwoSteps(cfg, t);
    TwoSteps(cfg, u);
    MapRepeats(cfg, sinks, top, s);
  }

  /**
   Exactly the low-attention blocks change their tier from each cycle to the next, so all stand still only if there
   are none.
   */
  lemma {:induction false} TierFlipsIffLow(cfg: Config, s: State)
    requires Distinct(s, BlockId)
    ensures
      var t := QuantizeStep(cfg, s);
      var u := QuantizeStep(cfg, t);
      && |u| == |t| == |s|
      && forall i :: 0 <= i < |s| ==>
        (u[i].tier == t[i].tier <==> !LowAttention(cfg, SinkIds(s, cfg.sinks), MaxAttention(s), s[i]))
  {
    TwoSteps(cfg, s);
    MapRepeats(cfg, SinkIds(s, cfg.sinks), MaxAttention(s), s);
  }

  lemma {:induction false} CycleIsQuantizeStep(z: Sizes, s: State, cfg: Config, free: real, prediction: Prediction)
    requires s != [] ==> cfg.quantizationEnabled && EnginePressure(z, s, free) >= cfg.pressureLow
    ensures Cycle(z, s, QuantizeOnly, cfg, free, prediction) == QuantizeStep(cfg, s)
  {
    if s == [] {
      assert Map(QuantizeVerdict(cfg, SinkIds(s, cfg.sinks), MaxAttention(s)), s) == [];
    }
  }
}
