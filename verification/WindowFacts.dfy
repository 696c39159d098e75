/** The sliding window at or above the low threshold: which blocks it keeps, how many, and that once is enough. */
module WindowFacts {
  import opened Sequences
  import opened Sorting
  import opened Selection
  import opened Schema
  import opened Effects
  import opened Policies
  import opened TrackerModel
  import opened Sinks
  import opened Outcomes

  function WindowStep(cfg: Config, s: State): State {
    ApplyAll(s, Map(WindowVerdict(WindowIds(cfg, s)), s))
  }

  function Above(ids: set<int>, id: int): set<int> {
    set j | j in ids && j > id
  }

  function EndIds(t: State, a: nat, b: nat): set<int> {
    Ids(Take(t, a), BlockId) + Ids(TakeLast(t, b), BlockId)
  }

  lemma {:induction false} AmongLast(t: State, b: nat, i: nat)
    requires i < |t| && Distinct(t, BlockId)
    ensures t[i].id in Ids(TakeLast(t, b), BlockId) <==> |t| - 1 - i < b
  {
    var l := |t| - Min(b, |t|);
    assert t == t[..l] + t[l..];
    DistinctParts(t[..l], t[l..], BlockId);
    assert TakeLast(t, b) == t[l..];
    assert BlockId(t[i]) == t[i].id;
    if i < l {
      assert t[..l][i] == t[i];
      IdIn(t[..l], BlockId, t[i]);
    } else {
      assert t[l..][i - l] == t[i];
      IdIn(t[l..], BlockId, t[i]);
    }
  }

  /** The first `a` and the last `b` of a list meet: together they are everything. */
  lemma {:induction false} EndsMeet(t: State, a: nat, b: nat)
    requires Distinct(t, BlockId) && a + b >= |t|
    ensures EndIds(t, a, b) == Ids(t, BlockId)
    ensures |EndIds(t, a, b)| == |t|
  {
    forall id
      ensures id in EndIds(t, a, b) <==> id in Ids(t, BlockId)
    {
      InIds(t, BlockId, id);
      InIds(Take(t, a), BlockId, id);
      InIds(TakeLast(t, b), BlockId, id);
      if id in Ids(t, BlockId) {
        var i :| 0 <= i < |t| && BlockId(t[i]) == id;
        PrefixIds(t, a, i);
        AmongLast(t, b, i);
      }
    }
    CountIds(t, BlockId);
  }

  /** They do not meet: what is between them is all that is missing. */
  lemma {:induction false} EndsApart(t: State, a: nat, b: nat)
    requires Distinct(t, BlockId) && a + b < |t|
    ensures |EndIds(t, a, b)| == a + b
    ensures EndIds(t, a, b) <= Ids(t, BlockId)
  {
    var n := |t|;
    var front, middle, back := t[..a], t[a..n - b], t[n - b..];
    assert t == front + middle + back;
    DistinctParts(front + middle, back, BlockId);
    DistinctParts(front, middle, BlockId);
    IdsAppend(front + middle, back, BlockId);
    IdsAppend(front, middle, BlockId);
    CountIds(front, BlockId);
    CountIds(back, BlockId);
  }

  /** Exactly min(n, sinks + window) blocks are kept. */
  lemma {:induction false} WindowSize(cfg: Config, s: State)
    requires Distinct(s, BlockId)
    ensures |WindowIds(cfg, s)| == Min(|s|, cfg.sinks + cfg.window)
    ensures WindowIds(cfg, s) <= Ids(s, BlockId)
  {
    SortKeepsDistinct(s, BlockId, IdKey);
    SortIsOrderedRearrangement(s, IdKey);
    if cfg.sinks + cfg.window >= |s| {
      EndsMeet(SortBy(s, IdKey), cfg.sinks, cfg.window);
    } else {
      EndsApart(SortBy(s, IdKey), cfg.sinks, cfg.window);
    }
  }

  lemma {:induction false} CountAbove(t: State, i: nat)
    requires i < |t| && Distinct(t, BlockId) && Ordered(t, IdKey)
    ensures |Above(Ids(t, BlockId), t[i].id)| == |t| - 1 - i
  {
    var id, ids := t[i].id, Ids(t, BlockId);
    BelowIsPrefix(t, i);
    PrefixIds(t, i, i);
    CountIds(t, BlockId);
    assert t[i] in t;
    IdIn(t, BlockId, t[i]);
    assert BlockId(t[i]) == id;
    assert ids == Below(ids, id) + {id} + Above(ids, id);
  }

  /** A block is kept exactly when fewer than `sinks` ids lie below it or fewer than `window` above it. */
  lemma {:induction false} KeptIffNearAnEnd(cfg: Config, s: State, id: int)
    requires Distinct(s, BlockId) && id in Ids(s, BlockId)
    ensures id in WindowIds(cfg, s) <==>
      |Below(Ids(s, BlockId), id)| < cfg.sinks || |Above(Ids(s, BlockId), id)| < cfg.window
  {
    var t := SortBy(s, IdKey);
    SortIsOrderedRearrangement(s, IdKey);
    SortKeepsDistinct(s, BlockId, IdKey);
    InIds(t, BlockId, id);
    var i :| 0 <= i < |t| && BlockId(t[i]) == id;
    SinkIffFewBelow(s, cfg.sinks, id);
    CountAbove(t, i);
    AmongLast(t, cfg.window, i);
  }

  lemma {:induction false} StepInClosedForm(cfg: Config, s: State)
    requires Distinct(s, BlockId)
    ensures
      var keep := WindowIds(cfg, s);
      var f := WindowVerdict(keep);
      && WindowStep(cfg, s) == Map(Marked(f), Restrict(s, BlockId, keep))
      && SortBy(WindowStep(cfg, s), IdKey) == Map(Marked(f), Restrict(SortBy(s, IdKey), BlockId, keep))
  {
    var keep := WindowIds(cfg, s);
    var f := WindowVerdict(keep);
    ApplyByBlock(s, f);
    SortOfSurvivors(s, f, IdKey);
    SameFilter(s, Spared(f), HasId(BlockId, keep));
    SameFilter(SortBy(s, IdKey), Spared(f), HasId(BlockId, keep));
  }

  /** The survivors, and how many there are. */
  lemma {:induction false} WindowKeepsExactly(cfg: Config, s: State)
    requires Distinct(s, BlockId)
    ensures Ids(WindowStep(cfg, s), BlockId) == WindowIds(cfg, s)
    ensures Distinct(WindowStep(cfg, s), BlockId)
    ensures |WindowStep(cfg, s)| == Min(|s|, cfg.sinks + cfg.window)
  {
    var keep := WindowIds(cfg, s);
    WindowSize(cfg, s);
    StepInClosedForm(cfg, s);
    RestrictIds(s, BlockId, keep);
    RestrictKeepsDistinct(s, BlockId, keep);
    MarkedIds(Restrict(s, BlockId, keep), WindowVerdict(keep));
    CountIds(WindowStep(cfg, s), BlockId);
  }

  /** The survivors are their own window. */
  lemma {:induction false} WindowOfSurvivors(cfg: Config, s: State)
    requires Distinct(s, BlockId)
    ensures WindowIds(cfg, WindowStep(cfg, s)) == WindowIds(cfg, s)
  {
    var t := WindowStep(cfg, s);
    WindowKeepsExactly(cfg, s);
    WindowSize(cfg, t);
    SmallerSet(WindowIds(cfg, t), Ids(t, BlockId));
    CountIds(t, BlockId);
  }

  lemma {:induction false} MarkTwice(s: State, keep: set<int>)
    requires Ids(s, BlockId) <= keep
    ensures Map(Marked(WindowVerdict(keep)), Map(Marked(WindowVerdict(keep)), s)) == Map(Marked(WindowVerdict(keep)), s)
  {
    forall i | 0 <= i < |s|
      ensures s[i].id in keep
    {
      IdIn(s, BlockId, s[i]);
    }
  }

  /** A second cycle on the survivors evicts nothing and changes nothing. */
  lemma {:induction false} SecondCycleIsIdle(cfg: Config, s: State)
    requires Distinct(s, BlockId)
    ensures WindowStep(cfg, WindowStep(cfg, s)) == WindowStep(cfg, s)
  {
    var keep, t := WindowIds(cfg, s), WindowStep(cfg, s);
    var f := WindowVerdict(keep);
    WindowKeepsExactly(cfg, s);
    WindowOfSurvivors(cfg, s);
    StepInClosedForm(cfg, s);
    StepInClosedForm(cfg, t);
    forall b | b in t
      ensures HasId(BlockId, keep)(b)
    {
      IdIn(t, BlockId, b);
    }
    FilterAll(t, HasId(BlockId, keep));
    var survivors := Restrict(s, BlockId, keep);
    RestrictIds(s, BlockId, keep);
    MarkTwice(survivors, keep);
  }

  /** On the engine: at or above the low threshold a cycle is this step, whatever the free memory. */
  lemma {:induction false} CycleIsWindowStep(z: Sizes, s: State, cfg: Config, free: real, prediction: Prediction)
    requires s != [] ==> EnginePressure(z, s, free) >= cfg.pressureLow
    ensures Cycle(z, s, SlidingWindow, cfg, free, prediction) == WindowStep(cfg, s)
  {
    if s == [] {
      assert Map(WindowVerdict(WindowIds(cfg, s)), s) == [];
    }
  }
}
