/** Repeated cycles of the heavy-hitter oracle on blocks whose attention does not change. */
module HeavyHitterRuns {
  import opened Sequences
  import opened Sorting
  import opened Selection
  import opened Schema
  import opened Effects
  import opened Policies
  import opened TrackerModel
  import opened TrackerInvariants
  import opened SinkSafety
  import opened Outcomes
  import opened Iteration

  function KeepIds(cfg: Config, s: State): set<int> {
    SinkIds(s, cfg.sinks) + HeavyIds(cfg, s)
  }

  /** One cycle at or above the low threshold. */
  function H2OStep(cfg: Config, s: State): State {
    ApplyAll(s, Map(H2OVerdict(KeepIds(cfg, s)), s))
  }

  /** The heavy hitters in rank order: highest attention first, ties in tracker order. */
  function HeavyList(cfg: Config, s: State): seq<int> {
    Map(BlockId, Take(SortBy(s, AttentionDescending), Portion(|s|, cfg.heavyFraction)))
  }

  function StepWith(cfg: Config): State -> State {
    (s: State) => H2OStep(cfg, s)
  }

  lemma {:induction false} StepInClosedForm(cfg: Config, s: State)
    requires Distinct(s, BlockId)
    ensures
      var f := H2OVerdict(KeepIds(cfg, s));
      && H2OStep(cfg, s) == Map(Marked(f), Restrict(s, BlockId, KeepIds(cfg, s)))
      && SortBy(H2OStep(cfg, s), AttentionDescending)
         == Map(Marked(f), Restrict(SortBy(s, AttentionDescending), BlockId, KeepIds(cfg, s)))
    ensures Distinct(H2OStep(cfg, s), BlockId)
    ensures |H2OStep(cfg, s)| <= |s|
  {
    var keep := KeepIds(cfg, s);
    var f := H2OVerdict(keep);
    ApplyByBlock(s, f);
    SortOfSurvivors(s, f, AttentionDescending);
    SameFilter(s, Spared(f), HasId(BlockId, keep));
    SameFilter(SortBy(s, AttentionDescending), Spared(f), HasId(BlockId, keep));
    RestrictKeepsDistinct(s, BlockId, keep);
    MarkedIds(Restrict(s, BlockId, keep), f);
    FilterIn(s, HasId(BlockId, keep));
  }

  /** A front part that passes the filter whole is still the front afterwards. */
  lemma {:induction false} FrontSurvives(ranked: State, n: nat, m: nat, keep: set<int>, f: Block -> PolicyDecision)
    requires m <= n && Ids(Take(ranked, n), BlockId) <= keep
    ensures Map(BlockId, Take(Map(Marked(f), Restrict(ranked, BlockId, keep)), m)) <= Map(BlockId, Take(ranked, n))
  {
    var p := HasId(BlockId, keep);
    var top, rest := Take(ranked, n), ranked[Min(n, |ranked|)..];
    assert ranked == top + rest;
    FilterAppend(top, rest, p);
    forall b | b in top
      ensures p(b)
    {
      IdIn(top, BlockId, b);
    }
    FilterAll(top, p);
    var survivors := top + Filter(rest, p);
    assert Restrict(ranked, BlockId, keep) == survivors;
    MarkedIds(survivors, f);
    MapTake(BlockId, Map(Marked(f), survivors), m);
    FrontOfMap(top, Filter(rest, p), m);
    if n > |ranked| {
      assert rest == [];
    }
  }

  lemma {:induction false} FrontOfMap(top: State, rest: State, m: nat)
    requires m <= |top| || rest == []
    ensures Take(Map(BlockId, top + rest), m) <= Map(BlockId, top)
  {
    assert forall i :: 0 <= i < |top| ==> (top + rest)[i] == top[i];
  }

  /** After a cycle the heavy hitters are an initial part of what they were. */
  lemma {:induction false} HeavyListShrinks(cfg: Config, s: State)
    requires Distinct(s, BlockId)
    ensures HeavyList(cfg, H2OStep(cfg, s)) <= HeavyList(cfg, s)
  {
    var keep, t := KeepIds(cfg, s), H2OStep(cfg, s);
    StepInClosedForm(cfg, s);
    PortionGrows(|t|, |s|, cfg.heavyFraction);
    FrontSurvives(SortBy(s, AttentionDescending), Portion(|s|, cfg.heavyFraction), Portion(|t|, cfg.heavyFraction),
                  keep, H2OVerdict(keep));
  }

  /** The block ranked first stays. */
  lemma {:induction false} TopBlockStays(cfg: Config, s: State)
    requires Distinct(s, BlockId) && s != []
    ensures HeavyList(cfg, s) != [] && HeavyList(cfg, s)[0] in Ids(H2OStep(cfg, s), BlockId)
    ensures forall b, c :: b in s && b.id == HeavyList(cfg, s)[0] && c in s ==> c.avgAttention <= b.avgAttention
    ensures H2OStep(cfg, s) != []
  {
    var ranked := SortBy(s, AttentionDescending);
    var n, keep := Portion(|s|, cfg.heavyFraction), KeepIds(cfg, s);
    SortIsOrderedRearrangement(s, AttentionDescending);
    SameElements(s, AttentionDescending);
    var first := Take(ranked, n)[0];
    assert first == ranked[0] && first in s;
    IdIn(Take(ranked, n), BlockId, first);
    IdIn(s, BlockId, first);
    StepInClosedForm(cfg, s);
    RestrictIds(s, BlockId, keep);
    MarkedIds(Restrict(s, BlockId, keep), H2OVerdict(keep));
    forall b, c | b in s && b.id == first.id && c in s
      ensures c.avgAttention <= b.avgAttention
    {
      SameId(s, BlockId, b, first);
      assert c in ranked;
      var j :| 0 <= j < |ranked| && ranked[j] == c;
      assert j > 0 ==> AttentionDescending(ranked[0]) <= AttentionDescending(ranked[j]);
    }
  }

  /** Marking twice is marking once. */
  lemma {:induction false} MarkTwice(s: State, keep: set<int>, keep': set<int>)
    requires Ids(s, BlockId) <= keep && Ids(s, BlockId) <= keep'
    ensures
      var f, g := H2OVerdict(keep), H2OVerdict(keep');
      Map(Marked(g), Map(Marked(f), s)) == Map(Marked(f), s)
  {
    forall i | 0 <= i < |s|
      ensures Marked(H2OVerdict(keep'))(Marked(H2OVerdict(keep))(s[i])) == Marked(H2OVerdict(keep))(s[i])
    {
      IdIn(s, BlockId, s[i]);
    }
  }

  /** Relabelling the blocks of a snapshot does not change which of them would be kept. */
  lemma {:induction false} SameKeepIds(cfg: Config, s: State, f: Block -> PolicyDecision)
    ensures KeepIds(cfg, Map(Marked(f), s)) == KeepIds(cfg, s)
  {
    var n := Portion(|s|, cfg.heavyFraction);
    var ranked, ordered := SortBy(s, AttentionDescending), SortBy(s, IdKey);
    SortOfMap(s, AttentionDescending, AttentionDescending, Marked(f));
    SortOfMap(s, IdKey, IdKey, Marked(f));
    MapTake(Marked(f), ranked, n);
    MapTake(Marked(f), ordered, cfg.sinks);
    MarkedIds(Take(ranked, n), f);
    MarkedIds(Take(ordered, cfg.sinks), f);
  }

  lemma {:induction false} StepKeepingAll(cfg: Config, s: State)
    requires Distinct(s, BlockId) && Ids(s, BlockId) <= KeepIds(cfg, s)
    ensures H2OStep(cfg, s) == Map(Marked(H2OVerdict(KeepIds(cfg, s))), s)
  {
    StepInClosedForm(cfg, s);
    forall b | b in s
      ensures HasId(BlockId, KeepIds(cfg, s))(b)
    {
      IdIn(s, BlockId, b);
    }
    FilterAll(s, HasId(BlockId, KeepIds(cfg, s)));
  }

  /** A cycle that evicts nothing leaves a state that the next cycle does not change at all. */
  lemma {:induction false} QuietCycleIsFixed(cfg: Config, s: State)
    requires Distinct(s, BlockId)
    requires |H2OStep(cfg, s)| == |s|
    ensures H2OStep(cfg, H2OStep(cfg, s)) == H2OStep(cfg, s)
  {
    var keep := KeepIds(cfg, s);
    var f := H2OVerdict(keep);
    StepInClosedForm(cfg, s);
    SameFilter(s, Spared(f), HasId(BlockId, keep));
    FilterOfAllSpared(s, f);
    var t := Map(Marked(f), s);
    assert H2OStep(cfg, s) == t;
    MarkedIds(s, f);
    RestrictIds(s, BlockId, keep);
    SameKeepIds(cfg, s, f);
    StepKeepingAll(cfg, t);
    MarkTwice(s, keep, keep);
  }

  function Size(s: State): nat { |s| }

  lemma {:induction false} CycleShrinksOrSettles(cfg: Config, s: State)
    ensures ShrinksOrSettles(StepWith(cfg), HasDistinctIds, Size, s)
  {
    DistinctByCount(s);
    if HasDistinctIds(s) {
      var t := H2OStep(cfg, s);
      StepInClosedForm(cfg, s);
      DistinctByCount(t);
      if |t| == |s| {
        QuietCycleIsFixed(cfg, s);
      }
    }
  }

  // ---------- runs of the engine ----------

  /** Every event is a cycle of this policy that finds no block, or pressure at or above its low threshold. */
  ghost predicate H2OCycles(z: Sizes, s: State, cfg: Config, events: seq<Event>)
    decreases |events|
  {
    events != [] ==>
      && H2OCycles(z, s, cfg, Init(events))
      && Last(events).PolicyCycle? && Last(events).kind == H2O && Last(events).cfg == cfg
      && (Run(z, s, Init(events)) != [] ==>
          EnginePressure(z, Run(z, s, Init(events)), Last(events).free) >= cfg.pressureLow)
  }

  lemma {:induction false} CycleIsStep(z: Sizes, s: State, cfg: Config, free: real, prediction: Prediction)
    requires s != [] ==> EnginePressure(z, s, free) >= cfg.pressureLow
    ensures Cycle(z, s, H2O, cfg, free, prediction) == H2OStep(cfg, s)
  {
    if s == [] {
      assert Map(H2OVerdict(KeepIds(cfg, s)), s) == [];
    }
  }

  lemma {:induction false} CyclesFollow(z: Sizes, s: State, cfg: Config, events: seq<Event>)
    requires H2OCycles(z, s, cfg, events)
    ensures Follows(z, s, StepWith(cfg), events)
    decreases |events|
  {
    if events != [] {
      CyclesFollow(z, s, cfg, Init(events));
      LastCycle(z, Run(z, s, Init(events)), cfg, Last(events));
    }
  }

  lemma {:induction false} LastCycle(z: Sizes, u: State, cfg: Config, e: Event)
    requires e.PolicyCycle? && e.kind == H2O && e.cfg == cfg
    requires u != [] ==> EnginePressure(z, u, e.free) >= cfg.pressureLow
    ensures Step(z, u, e) == StepWith(cfg)(u)
  {
    CycleIsStep(z, u, cfg, e.free, e.prediction);
  }

  // ---------- runs with other events in between ----------

  /** What the event does to a block, when it is one that touches neither ids nor attention; else nothing. */
  function Touch(e: Event): Block -> Block {
    match e
    case MarkAccessed(id, step) => OnlyAt(id, Accessed(step))
    case UpdateTier(id, tier) => OnlyAt(id, Retiered(tier))
    case SetImportance(id, score) => OnlyAt(id, Rescored(score))
    case MarkPrefixReuse(id, reused) => OnlyAt(id, Reused(reused))
    case UpdateMemory(id, used, free) => OnlyAt(id, Measured(used, free))
    case IncrementAge(step) => Aged(step)
    case _ => Itself
  }

  function Itself(b: Block): Block { b }

  function OnlyAt(id: int, f: Block -> Block): Block -> Block {
    (b: Block) => if b.id == id then f(b) else b
  }

  predicate LeavesAttention(e: Event) {
    || e.MarkAccessed? || e.UpdateTier? || e.SetImportance?
    || e.MarkPrefixReuse? || e.UpdateMemory? || e.IncrementAge?
  }

  lemma {:induction false} TouchesEach(z: Sizes, s: State, e: Event)
    requires LeavesAttention(e)
    ensures Step(z, s, e) == Map(Touch(e), s)
    ensures forall b: Block :: Touch(e)(b).id == b.id && Touch(e)(b).avgAttention == b.avgAttention
  {
  }

  /** Such a change to every block leaves the ranking, and so the heavy hitters, and the sinks as they were. */
  lemma {:induction false} SameHeavyList(cfg: Config, s: State, f: Block -> Block)
    requires Distinct(s, BlockId)
    requires forall b :: f(b).id == b.id && f(b).avgAttention == b.avgAttention
    ensures HeavyList(cfg, Map(f, s)) == HeavyList(cfg, s)
    ensures Distinct(Map(f, s), BlockId) && SinkIds(Map(f, s), cfg.sinks) == SinkIds(s, cfg.sinks)
  {
    var ranked, n := SortBy(s, AttentionDescending), Portion(|s|, cfg.heavyFraction);
    SortOfMap(s, AttentionDescending, AttentionDescending, f);
    MapTake(f, ranked, n);
    assert forall i :: 0 <= i < |Take(ranked, n)| ==> f(Take(ranked, n)[i]).id == Take(ranked, n)[i].id;
    SameIdsInOrder(s, Map(f, s));
    SameIdsSameSinks(s, Map(f, s), cfg.sinks);
  }

  /** Every event is such a change, or a cycle of this policy that finds no block or pressure at its low threshold. */
  ghost predicate H2OEvents(z: Sizes, s: State, cfg: Config, events: seq<Event>)
    decreases |events|
  {
    events != [] ==>
      && H2OEvents(z, s, cfg, Init(events))
      && H2OEvent(z, Run(z, s, Init(events)), cfg, Last(events))
  }

  ghost predicate H2OEvent(z: Sizes, u: State, cfg: Config, e: Event) {
    || LeavesAttention(e)
    || (e.PolicyCycle? && e.kind == H2O && e.cfg == cfg
        && (u != [] ==> EnginePressure(z, u, e.free) >= cfg.pressureLow))
  }

  /** What one event keeps, and what it may drop. */
  lemma {:induction false} OneEvent(z: Sizes, u: State, cfg: Config, e: Event, t: State)
    requires Distinct(u, BlockId) && u != [] && H2OEvent(z, u, cfg, e) && t == Step(z, u, e)
    ensures Distinct(t, BlockId) && t != []
    ensures HeavyList(cfg, t) <= HeavyList(cfg, u)
    ensures SinkIds(t, cfg.sinks) == SinkIds(u, cfg.sinks)
  {
    if LeavesAttention(e) {
      OneTouch(z, u, cfg, e, t);
    } else {
      OneCycle(z, u, cfg, e.free, e.prediction, t);
    }
  }

  lemma {:induction false} OneTouch(z: Sizes, u: State, cfg: Config, e: Event, t: State)
    requires Distinct(u, BlockId) && u != [] && LeavesAttention(e) && t == Step(z, u, e)
    ensures Distinct(t, BlockId) && t != []
    ensures HeavyList(cfg, t) == HeavyList(cfg, u)
    ensures SinkIds(t, cfg.sinks) == SinkIds(u, cfg.sinks)
  {
    TouchesEach(z, u, e);
    SameHeavyList(cfg, u, Touch(e));
  }

  lemma {:induction false} OneCycle(z: Sizes, u: State, cfg: Config, free: real, prediction: Prediction, t: State)
    requires Distinct(u, BlockId) && u != [] && t == Cycle(z, u, H2O, cfg, free, prediction)
    requires EnginePressure(z, u, free) >= cfg.pressureLow
    ensures Distinct(t, BlockId) && t != []
    ensures HeavyList(cfg, t) <= HeavyList(cfg, u)
    ensures SinkIds(t, cfg.sinks) == SinkIds(u, cfg.sinks)
  {
    ProtectingCycleKeepsSinks(z, u, cfg.sinks, H2O, cfg, free, prediction, t);
    CycleIsStep(z, u, cfg, free, prediction);
    OneStep(cfg, u, t);
  }

  lemma {:induction false} OneStep(cfg: Config, u: State, t: State)
    requires Distinct(u, BlockId) && u != [] && t == H2OStep(cfg, u)
    ensures Distinct(t, BlockId) && t != []
    ensures HeavyList(cfg, t) <= HeavyList(cfg, u)
  {
    StepInClosedForm(cfg, u);
    HeavyListShrinks(cfg, u);
    TopBlockStays(cfg, u);
  }

  /**
   Over any run of such cycles, with other events in between that leave attention alone, the heavy hitters only lose
   members from the end of their ranking, the sinks do not change, and the block ranked first is never evicted.
   */
  lemma {:induction false} HeavyHitterRun(z: Sizes, s: State, cfg: Config, events: seq<Event>)
    requires Distinct(s, BlockId) && s != []
    requires H2OEvents(z, s, cfg, events)
    ensures
      var t := Run(z, s, events);
      && Distinct(t, BlockId) && t != []
      && HeavyList(cfg, t) <= HeavyList(cfg, s)
      && HeavyList(cfg, t) != [] && HeavyList(cfg, t)[0] == HeavyList(cfg, s)[0]
      && HeavyList(cfg, s)[0] in Ids(t, BlockId)
      && SinkIds(t, cfg.sinks) == SinkIds(s, cfg.sinks)
    decreases |events|
  {
    if events != [] {
      HeavyHitterRun(z, s, cfg, Init(events));
      OneEvent(z, Run(z, s, Init(events)), cfg, Last(events), Run(z, s, events));
    }
    InHeavyList(cfg, Run(z, s, events));
  }

  /** After more such cycles than there are blocks, a further cycle changes nothing at all. */
  lemma {:induction false} HeavyHittersSettle(z: Sizes, s: State, cfg: Config, events: seq<Event>)
    requires Distinct(s, BlockId)
    requires H2OCycles(z, s, cfg, events) && |events| > |s|
    ensures H2OStep(cfg, Run(z, s, events)) == Run(z, s, events)
  {
    CyclesFollow(z, s, cfg, events);
    RunIsIteration(z, s, StepWith(cfg), events);
    forall y: State
      ensures ShrinksOrSettles(StepWith(cfg), HasDistinctIds, Size, y)
    {
      CycleShrinksOrSettles(cfg, y);
    }
    DistinctByCount(s);
    ReachesFixedPoint(StepWith(cfg), HasDistinctIds, Size, s, |events|);
  }

  lemma {:induction false} InHeavyList(cfg: Config, s: State)
    requires Distinct(s, BlockId) && s != []
    ensures HeavyList(cfg, s) != [] && HeavyList(cfg, s)[0] in Ids(s, BlockId)
  {
    SameElements(s, AttentionDescending);
    SortIsOrderedRearrangement(s, AttentionDescending);
    var ranked := SortBy(s, AttentionDescending);
    assert ranked[0] in s;
    IdIn(s, BlockId, ranked[0]);
  }
}
