/** The greedy offload pass: what it takes, what it leaves, and the bound it puts on host memory. */
module OffloadFacts {
  import opened Sequences
  import opened Fractions
  import opened Sorting
  import opened Selection
  import opened Schema
  import opened Effects
  import opened Policies
  import opened DecisionLists
  import opened TrackerModel
  import opened TrackerInvariants
  import opened Outcomes

  /** Neither a sink nor above the score threshold. */
  function Eligible(cfg: Config, sinks: set<int>): Scored -> bool {
    (p: Scored) => p.block.id !in sinks && p.score <= cfg.offloadThreshold
  }

  /** How many of `n` blocks may be offloaded. */
  function Budget(cfg: Config, n: nat): nat {
    Max(0, OffloadBudget(cfg, n))
  }

  /** The greedy pass takes the first eligible blocks in score order, as many as the budget allows. */
  lemma {:induction false} GreedyTakesFirstEligible(cfg: Config, scored: seq<Scored>, sinks: set<int>, budget: int)
    ensures Offloaded(cfg, scored, sinks, budget)
         == Take(Map(ScoredId, Filter(scored, Eligible(cfg, sinks))), Max(0, budget))
  {
    var p := Eligible(cfg, sinks);
    if scored != [] {
      var rest, last := Init(scored), Last(scored);
      assert scored == rest + [last];
      GreedyTakesFirstEligible(cfg, rest, sinks, budget);
      FilterAppend(rest, [last], p);
      var before := Filter(rest, p);
      if p(last) {
        assert Filter([last], p) == [last];
        MapAppendOne(before, last);
      } else {
        assert Filter([last], p) == [];
        assert before + [] == before;
      }
    }
  }

  lemma {:induction false} MapAppendOne(s: seq<Scored>, x: Scored)
    ensures Map(ScoredId, s + [x]) == Map(ScoredId, s) + [x.block.id]
  {
    forall i | 0 <= i < |s| + 1
      ensures Map(ScoredId, s + [x])[i] == (Map(ScoredId, s) + [x.block.id])[i]
    {
    }
  }

  /** The blocks that may be offloaded, lowest attention first. */
  function EligibleBlocks(cfg: Config, s: State): seq<Scored> {
    Filter(ByAttention(s), Eligible(cfg, SinkIds(s, cfg.sinks)))
  }

  lemma {:induction false} FilterKeepsOrder(t: seq<Scored>, p: Scored -> bool)
    requires Ordered(t, ScoreOf)
    ensures Ordered(Filter(t, p), ScoreOf)
  {
    if t != [] {
      var rest := t[1..];
      var kept := Filter(rest, p);
      FilterKeepsOrder(rest, p);
      FilterIn(rest, p);
      if p(t[0]) {
        forall i | 0 <= i < |kept|
          ensures ScoreOf(t[0]) <= ScoreOf(kept[i])
        {
          assert kept[i] in rest;
          var j :| 0 <= j < |rest| && rest[j] == kept[i];
          assert t[j + 1] == kept[i];
        }
      } else {
        assert Filter(t, p) == kept;
      }
    }
  }

  lemma {:induction false} EligibleInOrder(cfg: Config, s: State)
    requires Distinct(s, BlockId)
    ensures Distinct(EligibleBlocks(cfg, s), ScoredId)
    ensures Ordered(EligibleBlocks(cfg, s), ScoreOf)
  {
    ByAttentionDistinct(s);
    SortIsOrderedRearrangement(Map(WithNormalizedAttention(MaxAttention(s)), s), ScoreOf);
    FilterKeepsDistinct(ByAttention(s), ScoredId, Eligible(cfg, SinkIds(s, cfg.sinks)));
    FilterKeepsOrder(ByAttention(s), Eligible(cfg, SinkIds(s, cfg.sinks)));
  }

  lemma {:induction false} IdsAsSet(t: seq<Scored>)
    ensures (set id | id in Map(ScoredId, t)) == Ids(t, ScoredId)
  {
    if t != [] {
      IdsAsSet(t[1..]);
      assert Map(ScoredId, t) == [t[0].block.id] + Map(ScoredId, t[1..]);
    }
  }

  lemma {:induction false} IdsOfTake(t: seq<Scored>, n: nat, chosen: seq<int>)
    requires Distinct(t, ScoredId)
    requires chosen == Take(Map(ScoredId, t), n)
    ensures (set id | id in chosen) == Ids(Take(t, n), ScoredId)
    ensures Distinct(Take(t, n), ScoredId)
    ensures |Ids(Take(t, n), ScoredId)| == Min(n, |t|)
  {
    MapTake(ScoredId, t, n);
    IdsAsSet(Take(t, n));
    CountIds(Take(t, n), ScoredId);
  }

  /** Chosen means: among the first eligible blocks in score order. */
  lemma {:induction false} OffloadIdsAreFirstEligible(cfg: Config, s: State)
    requires Distinct(s, BlockId)
    ensures
      var first := Take(EligibleBlocks(cfg, s), Budget(cfg, |s|));
      && OffloadIds(cfg, s) == Ids(first, ScoredId)
      && Distinct(first, ScoredId)
      && |OffloadIds(cfg, s)| == Min(Budget(cfg, |s|), |EligibleBlocks(cfg, s)|)
  {
    var sinks, budget := SinkIds(s, cfg.sinks), OffloadBudget(cfg, |s|);
    GreedyTakesFirstEligible(cfg, ByAttention(s), sinks, budget);
    EligibleInOrder(cfg, s);
    IdsOfTake(EligibleBlocks(cfg, s), Budget(cfg, |s|), Offloaded(cfg, ByAttention(s), sinks, budget));
  }

  /** At most int(n * fraction) blocks are offloaded, no sink among them. */
  lemma {:induction false} OffloadWithinBudget(cfg: Config, s: State)
    requires Distinct(s, BlockId)
    ensures |OffloadIds(cfg, s)| <= Budget(cfg, |s|)
    ensures OffloadIds(cfg, s) !! SinkIds(s, cfg.sinks)
    ensures OffloadIds(cfg, s) <= Ids(s, BlockId)
  {
    OffloadIdsAreFirstEligible(cfg, s);
    ByAttentionDistinct(s);
    forall id | id in OffloadIds(cfg, s)
      ensures id !in SinkIds(s, cfg.sinks) && id in Ids(s, BlockId)
    {
      ChosenIsEligible(cfg, SinkIds(s, cfg.sinks), ByAttention(s), Budget(cfg, |s|), id);
    }
  }

  lemma {:induction false} ChosenIsEligible(cfg: Config, sinks: set<int>, scored: seq<Scored>, n: nat, id: int)
    requires id in Ids(Take(Filter(scored, Eligible(cfg, sinks)), n), ScoredId)
    ensures id !in sinks && id in Ids(scored, ScoredId)
  {
    var eligible := Filter(scored, Eligible(cfg, sinks));
    FilterIn(scored, Eligible(cfg, sinks));
    InIds(Take(eligible, n), ScoredId, id);
    var p :| p in Take(eligible, n) && ScoredId(p) == id;
    assert p in eligible;
    IdIn(scored, ScoredId, p);
  }

  /** No more than that share of n blocks; none for a negative share. */
  predicate WithinShare(count: nat, n: nat, fraction: real) {
    if fraction >= 0.0 then count as real <= n as real * fraction else count == 0
  }

  /** As many as that share allows. */
  predicate FillsShare(count: nat, n: nat, fraction: real) {
    count as real + 1.0 > n as real * fraction
  }

  lemma {:induction false} BudgetIsShare(cfg: Config, n: nat, count: nat)
    ensures count <= Budget(cfg, n) ==> WithinShare(count, n, cfg.offloadMaxFraction)
    ensures count == Budget(cfg, n) ==> FillsShare(count, n, cfg.offloadMaxFraction)
  {
    var share := n as real * cfg.offloadMaxFraction;
    TruncateIsFloor(share);
    ProductGrows(0.0, n as real, cfg.offloadMaxFraction);
  }

  /** When an eligible block is left out the budget is used up. */
  lemma {:induction false} LeftOutMeansFull(cfg: Config, s: State, left: Scored)
    requires Distinct(s, BlockId)
    requires left in EligibleBlocks(cfg, s) && left.block.id !in OffloadIds(cfg, s)
    ensures |OffloadIds(cfg, s)| == Budget(cfg, |s|)
  {
    var eligible, n := EligibleBlocks(cfg, s), Budget(cfg, |s|);
    OffloadIdsAreFirstEligible(cfg, s);
    if n >= |eligible| {
      assert Take(eligible, n) == eligible;
      IdIn(eligible, ScoredId, left);
    }
  }

  /** An eligible block that was left out scores no lower than any that was taken, and the budget is then used up. */
  lemma {:induction false} LeftOutScoresNoLower(cfg: Config, s: State, taken: Scored, left: Scored)
    requires Distinct(s, BlockId)
    requires taken in EligibleBlocks(cfg, s) && left in EligibleBlocks(cfg, s)
    requires taken.block.id in OffloadIds(cfg, s) && left.block.id !in OffloadIds(cfg, s)
    ensures taken.score <= left.score
    ensures |OffloadIds(cfg, s)| == Budget(cfg, |s|)
  {
    var n, eligible := Budget(cfg, |s|), EligibleBlocks(cfg, s);
    OffloadIdsAreFirstEligible(cfg, s);
    EligibleInOrder(cfg, s);
    var first := Take(eligible, n);
    InIds(first, ScoredId, taken.block.id);
    var i :| 0 <= i < |first| && ScoredId(first[i]) == taken.block.id;
    assert eligible[i] == first[i] && eligible[i] in eligible;
    SameId(eligible, ScoredId, eligible[i], taken);
    var j :| 0 <= j < |eligible| && eligible[j] == left;
    if j < |first| {
      assert first[j] == left;
      IdIn(first, ScoredId, left);
    }
    assert i < j && ScoreOf(eligible[i]) <= ScoreOf(eligible[j]);
  }

  // ---------- the order of the decisions ----------

  /** The decisions follow the blocks in order, up to where a model stopped answering. */
  ghost predicate InOrder(s: State, ds: seq<PolicyDecision>) {
    |ds| <= |s| && forall i :: 0 <= i < |ds| ==> ds[i].block == s[i].id
  }

  /** The same of scored blocks. */
  ghost predicate ScoredInOrder(s: State, t: seq<Scored>) {
    |t| <= |s| && forall i :: 0 <= i < |t| ==> t[i].block.id == s[i].id
  }

  /**
   The decisions come in the order of the snapshot exactly when that is ascending in attention, or all scores are zero.
   */
  lemma {:induction false} OffloadKeepsOrderIff(cfg: Config, s: State, ds: seq<PolicyDecision>)
    requires Distinct(s, BlockId) && ds == Map(OffloadVerdict(OffloadIds(cfg, s)), ByAttention(s))
    ensures InOrder(s, ds) <==> MaxAttention(s) <= 0.0 || Ordered(s, AttentionKey)
  {
    var scored := Map(WithNormalizedAttention(MaxAttention(s)), s);
    MapDistinct(s, WithNormalizedAttention(MaxAttention(s)));
    ScoresInOrderIff(s, MaxAttention(s));
    SortedInPlaceIff(s, scored, ByAttention(s));
    VerdictBlocks(s, OffloadIds(cfg, s), ByAttention(s), ds);
  }

  lemma {:induction false} VerdictBlocks(s: State, offload: set<int>, t: seq<Scored>, ds: seq<PolicyDecision>)
    requires ds == Map(OffloadVerdict(offload), t)
    ensures InOrder(s, ds) <==> ScoredInOrder(s, t)
  {
    assert forall i :: 0 <= i < |t| ==> ds[i].block == t[i].block.id;
  }

  lemma {:induction false} SortedInPlaceIff(s: State, scored: seq<Scored>, t: seq<Scored>)
    requires |scored| == |s| && forall i :: 0 <= i < |s| ==> scored[i].block == s[i]
    requires Distinct(scored, ScoredId) && t == SortBy(scored, ScoreOf)
    ensures ScoredInOrder(s, t) <==> Ordered(scored, ScoreOf)
  {
    SortIsOrderedRearrangement(scored, ScoreOf);
    SameElements(scored, ScoreOf);
    if Ordered(scored, ScoreOf) {
      SortIsTheOnlyStableOrder(scored, scored, ScoreOf);
    } else if ScoredInOrder(s, t) {
      SameByIds(t, scored);
    }
  }

  lemma {:induction false} SameByIds(t: seq<Scored>, u: seq<Scored>)
    requires |t| == |u| && Distinct(u, ScoredId) && forall p :: p in t ==> p in u
    requires forall i :: 0 <= i < |u| ==> t[i].block.id == u[i].block.id
    ensures t == u
  {
    forall i | 0 <= i < |u|
      ensures t[i] == u[i]
    {
      assert t[i] in t && u[i] in u;
      SameId(u, ScoredId, t[i], u[i]);
    }
  }

  lemma {:induction false} ScoresInOrderIff(s: State, top: real)
    ensures Ordered(Map(WithNormalizedAttention(top), s), ScoreOf) <==> top <= 0.0 || Ordered(s, AttentionKey)
  {
    var scored := Map(WithNormalizedAttention(top), s);
    forall i, j | 0 <= i < j < |s|
      ensures ScoreOf(scored[i]) <= ScoreOf(scored[j]) <==> top <= 0.0 || AttentionKey(s[i]) <= AttentionKey(s[j])
    {
      assert scored[i].score == NormalizedAttention(s[i], top) && scored[j].score == NormalizedAttention(s[j], top);
      if top > 0.0 {
        QuotientOrder(s[i].avgAttention, s[j].avgAttention, top);
      }
    }
  }

  // ---------- the tracker after a cycle ----------

  /** One cycle at or above the low threshold with offloading on. */
  function OffloadStep(cfg: Config, s: State): State {
    ApplyAll(s, Map(OffloadVerdict(OffloadIds(cfg, s)), ByAttention(s)))
  }

  /** Every block stays, in its place; the chosen ones are on the host and all others back at full precision. */
  lemma {:induction false} OffloadOutcome(cfg: Config, s: State)
    requires Distinct(s, BlockId)
    ensures
      var t := OffloadStep(cfg, s);
      && |t| == |s|
      && forall i :: 0 <= i < |s| ==>
        t[i].id == s[i].id && t[i].tier == if s[i].id in OffloadIds(cfg, s) then CpuOffloaded else GpuFp16
  {
    var f := OffloadVerdict(OffloadIds(cfg, s));
    var ds := Map(f, ByAttention(s));
    var v := VerdictsOf(ds);
    ByAttentionDistinct(s);
    MappedDistinct(ByAttention(s), ScoredId, f);
    ApplyIsSettle(s, ds);
    forall b | b in s
      ensures b.id in v && v[b.id].decision == if b.id in OffloadIds(cfg, s) then OffloadCpu else KeepGpu
    {
      IdIn(s, BlockId, b);
      VerdictIsOfElement(ByAttention(s), ScoredId, f, b.id);
    }
    SettleInPlace(s, v, OffloadIds(cfg, s));
  }

  lemma {:induction false} SettleInPlace(s: State, v: Verdicts, offload: set<int>)
    requires forall b :: b in s ==> b.id in v && v[b.id].decision == if b.id in offload then OffloadCpu else KeepGpu
    ensures |Settle(s, v)| == |s|
    ensures forall i :: 0 <= i < |s| ==>
      Settle(s, v)[i].id == s[i].id && Settle(s, v)[i].tier == if s[i].id in offload then CpuOffloaded else GpuFp16
  {
    if s != [] {
      assert s[0] in s && forall b :: b in s[1..] ==> b in s;
      SettleInPlace(s[1..], v, offload);
      assert SettleBlock(v, s[0]) == [s[0].(tier := TierFor(v[s[0].id].decision), importance := v[s[0].id].score)];
    }
  }

  lemma {:induction false} CountChosen(s: State, t: State, chosen: set<int>)
    requires |t| == |s| && Distinct(s, BlockId)
    requires forall i :: 0 <= i < |s| ==> t[i].id == s[i].id && (t[i].tier == CpuOffloaded <==> s[i].id in chosen)
    ensures CountTier(t, CpuOffloaded) == |Ids(s, BlockId) * chosen|
  {
    if s != [] {
      var rest, last := Init(s), Last(s);
      assert s == rest + [last];
      DistinctParts(rest, [last], BlockId);
      IdsAppend(rest, [last], BlockId);
      assert Ids([last], BlockId) == {last.id};
      CountChosen(rest, Init(t), chosen);
      var ids := Ids(rest, BlockId);
      if last.id in chosen {
        assert Ids(s, BlockId) * chosen == ids * chosen + {last.id};
      } else {
        assert Ids(s, BlockId) * chosen == ids * chosen;
      }
      assert Last(t) == t[|s| - 1] && Last(s) == s[|s| - 1];
    }
  }

  /**
   After such a cycle the host holds exactly the chosen blocks, so never more than the budget, whatever was there
   before.
   */
  lemma {:induction false} HostWithinBudget(cfg: Config, s: State, t: State)
    requires Distinct(s, BlockId) && t == OffloadStep(cfg, s)
    ensures |t| == |s|
    ensures CountTier(t, CpuOffloaded) == |OffloadIds(cfg, s)| <= Budget(cfg, |s|)
  {
    var chosen := OffloadIds(cfg, s);
    OffloadOutcome(cfg, s);
    OffloadWithinBudget(cfg, s);
    ChosenOnHost(s, t, chosen);
  }

  lemma {:induction false} ChosenOnHost(s: State, t: State, chosen: set<int>)
    requires |t| == |s| && Distinct(s, BlockId) && chosen <= Ids(s, BlockId)
    requires forall i :: 0 <= i < |s| ==>
      t[i].id == s[i].id && t[i].tier == if s[i].id in chosen then CpuOffloaded else GpuFp16
    ensures CountTier(t, CpuOffloaded) == |chosen|
  {
    CountChosen(s, t, chosen);
    assert Ids(s, BlockId) * chosen == chosen;
  }

  /** An offload-only cycle, with offloading on, that finds no block or memory under pressure. */
  ghost predicate OffloadsUnderPressure(z: Sizes, s: State, e: Event) {
    && e.PolicyCycle? && e.kind == OffloadOnly && e.cfg.offloadEnabled
    && (s != [] ==> EnginePressure(z, s, e.free) >= e.cfg.pressureLow)
  }

  /** No sink, and attention that is no more than the threshold's share of the largest. */
  predicate MayGo(cfg: Config, s: State, b: Block) {
    b.id !in SinkIds(s, cfg.sinks) && NormalizedAttention(b, MaxAttention(s)) <= cfg.offloadThreshold
  }

  /** From `s` to `t`: CPU blocks are within the configured share, and fill it if a block that may go has stayed. */
  ghost predicate OnHostWithinShare(cfg: Config, s: State, t: State) {
    && |t| == |s|
    && WithinShare(CountTier(t, CpuOffloaded), |t|, cfg.offloadMaxFraction)
    && forall i :: 0 <= i < |s| && MayGo(cfg, s, s[i]) && t[i].tier == GpuFp16 ==>
        FillsShare(CountTier(t, CpuOffloaded), |t|, cfg.offloadMaxFraction)
  }

  /**
   In any run at all: right after such a cycle, CPU blocks are within the configured share of the blocks there are.
   */
  lemma {:induction false} OffloadBoundInRuns(z: Sizes, before: seq<Event>, e: Event)
    requires OffloadsUnderPressure(z, Run(z, [], before), e)
    ensures
      var t := Run(z, [], before + [e]);
      OnHostWithinShare(e.cfg, Run(z, [], before), t)
  {
    RunKeepsDistinct(z, [], before);
    assert Init(before + [e]) == before;
    BoundAfterEvent(z, Run(z, [], before), e, Run(z, [], before + [e]));
  }

  lemma {:induction false} BoundAfterEvent(z: Sizes, s: State, e: Event, t: State)
    requires Distinct(s, BlockId) && OffloadsUnderPressure(z, s, e) && t == Step(z, s, e)
    ensures OnHostWithinShare(e.cfg, s, t)
  {
    CycleIsOffloadStep(z, s, e.cfg, e.free, e.prediction);
    BoundAfterStep(e.cfg, s, t);
  }

  lemma {:induction false} BoundAfterStep(cfg: Config, s: State, t: State)
    requires Distinct(s, BlockId) && t == OffloadStep(cfg, s)
    ensures OnHostWithinShare(cfg, s, t)
  {
    HostWithinBudget(cfg, s, t);
    BudgetIsShare(cfg, |s|, CountTier(t, CpuOffloaded));
    forall i | 0 <= i < |s| && MayGo(cfg, s, s[i]) && t[i].tier == GpuFp16
      ensures FillsShare(CountTier(t, CpuOffloaded), |t|, cfg.offloadMaxFraction)
    {
      StepFillsShare(cfg, s, t, i);
    }
  }

  lemma {:induction false} StepFillsShare(cfg: Config, s: State, t: State, i: nat)
    requires Distinct(s, BlockId) && t == OffloadStep(cfg, s) && |t| == |s| && i < |s|
    requires MayGo(cfg, s, s[i]) && t[i].tier == GpuFp16
    ensures FillsShare(CountTier(t, CpuOffloaded), |t|, cfg.offloadMaxFraction)
  {
    OffloadOutcome(cfg, s);
    HostWithinBudget(cfg, s, t);
    MayGoIsEligible(cfg, s, i);
    LeftOutMeansFull(cfg, s, Scored(s[i], NormalizedAttention(s[i], MaxAttention(s))));
    BudgetIsShare(cfg, |s|, CountTier(t, CpuOffloaded));
  }

  lemma {:induction false} MayGoIsEligible(cfg: Config, s: State, i: nat)
    requires i < |s| && MayGo(cfg, s, s[i])
    ensures Scored(s[i], NormalizedAttention(s[i], MaxAttention(s))) in EligibleBlocks(cfg, s)
  {
    var f := WithNormalizedAttention(MaxAttention(s));
    var p := Scored(s[i], NormalizedAttention(s[i], MaxAttention(s)));
    assert Map(f, s)[i] == p;
    assert p in Map(f, s);
    SameElements(Map(f, s), ScoreOf);
    FilterIn(ByAttention(s), Eligible(cfg, SinkIds(s, cfg.sinks)));
  }

  lemma {:induction false} CycleIsOffloadStep(z: Sizes, s: State, cfg: Config, free: real, prediction: Prediction)
    requires s != [] ==> cfg.offloadEnabled && EnginePressure(z, s, free) >= cfg.pressureLow
    ensures Cycle(z, s, OffloadOnly, cfg, free, prediction) == OffloadStep(cfg, s)
  {
    if s == [] {
      OffloadStepOfNone(cfg);
    }
  }

  lemma {:induction false} OffloadStepOfNone(cfg: Config)
    ensures OffloadStep(cfg, []) == []
  {
    assert ByAttention([]) == [];
    assert Map(OffloadVerdict(OffloadIds(cfg, [])), []) == [];
  }
}
