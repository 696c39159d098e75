/**
 The rank and heavy-hitter features of src/feature_engineering/extractor.py, and how they relate to the oracle policy.
 */
module Features {
  import opened Sequences
  import opened Fractions
  import opened Sorting
  import opened Selection
  import opened Schema
  import opened Policies

  function Identity(x: real): real { x }

  /** What storing a value as a 32-bit float makes of it; any function will do where nothing else is said. */
  type Narrowing = real -> real

  /** Rounding to the nearest float never turns two values around. */
  ghost predicate Monotone(narrow: Narrowing) {
    forall x, y :: x <= y ==> narrow(x) <= narrow(y)
  }

  function NarrowedAttention(narrow: Narrowing): Block -> real {
    (b: Block) => narrow(b.avgAttention)
  }

  /** attn_sorted: the average attentions of the batch, narrowed, in ascending order. */
  function AttnSorted(narrow: Narrowing, blocks: seq<Block>): seq<real> {
    SortBy(Map(NarrowedAttention(narrow), blocks), Identity)
  }

  /** np.searchsorted(xs, v): the leftmost place for `v`. */
  function SearchSorted(xs: seq<real>, v: real): (i: nat)
    ensures i <= |xs|
  {
    if xs == [] || v <= xs[0] then 0 else 1 + SearchSorted(xs[1..], v)
  }

  /** Feature 5. */
  function AttentionRank(attnSorted: seq<real>, b: Block): real {
    if attnSorted == [] then 0.5 else SearchSorted(attnSorted, b.avgAttention) as real / |attnSorted| as real
  }

  /** Feature 15. */
  function IsHeavyHitter(attnSorted: seq<real>, totalBlocks: nat, fraction: real, b: Block): bool {
    var n := Portion(Max(totalBlocks, 1), fraction);
    attnSorted != [] && |attnSorted| >= n && b.avgAttention >= attnSorted[|attnSorted| - n]
  }

  /** Without a batch the rank is one half and nothing is a heavy hitter. */
  lemma {:induction false} EmptyBatch(narrow: Narrowing, totalBlocks: nat, fraction: real, b: Block)
    ensures AttentionRank(AttnSorted(narrow, []), b) == 0.5
    ensures !IsHeavyHitter(AttnSorted(narrow, []), totalBlocks, fraction, b)
  {
    assert AttnSorted(narrow, []) == [];
  }

  // ---------- counting ----------

  function LessThan(v: real): real -> bool { x => x < v }

  function MoreThan(v: real): real -> bool { x => x > v }

  function NarrowedBelow(narrow: Narrowing, b: Block): Block -> bool {
    (c: Block) => narrow(c.avgAttention) < b.avgAttention
  }

  function NarrowedAbove(narrow: Narrowing, b: Block): Block -> bool {
    (c: Block) => narrow(c.avgAttention) > b.avgAttention
  }

  /** As many values satisfy `p` in the sorted list as blocks have such a narrowed value. */
  lemma {:induction false} CountInSorted(narrow: Narrowing, blocks: seq<Block>, p: real -> bool, q: Block -> bool)
    requires forall b :: b in blocks ==> q(b) == p(narrow(b.avgAttention))
    ensures |Filter(AttnSorted(narrow, blocks), p)| == |Filter(blocks, q)|
    ensures |AttnSorted(narrow, blocks)| == |blocks|
    ensures Ordered(AttnSorted(narrow, blocks), Identity)
  {
    var values := Map(NarrowedAttention(narrow), blocks);
    SortIsOrderedRearrangement(values, Identity);
    SortOfFilter(values, Identity, p);
    SortIsOrderedRearrangement(Filter(values, p), Identity);
    FilterMap(blocks, NarrowedAttention(narrow), q, p);
  }

  lemma {:induction false} SearchCountsSmaller(xs: seq<real>, v: real)
    requires Ordered(xs, Identity)
    ensures SearchSorted(xs, v) == |Filter(xs, LessThan(v))|
  {
    if xs != [] {
      if v <= xs[0] {
        forall x | x in xs
          ensures !LessThan(v)(x)
        {
          var i :| 0 <= i < |xs| && xs[i] == x;
          assert i > 0 ==> Identity(xs[0]) <= Identity(xs[i]);
        }
        FilterNone(xs, LessThan(v));
      } else {
        assert forall i, j :: 0 <= i < j < |xs[1..]| ==> Identity(xs[1..][i]) <= Identity(xs[1..][j]);
        SearchCountsSmaller(xs[1..], v);
      }
    }
  }

  /**
   Feature 5 is the share of blocks whose narrowed attention is strictly lower than that of the block, which is not
   narrowed. So it reaches 1, namely when there is no block whose narrowed attention is at least that.
   */
  lemma {:induction false} RankIsShareBelow(narrow: Narrowing, blocks: seq<Block>, b: Block)
    requires blocks != []
    ensures
      var rank := AttentionRank(AttnSorted(narrow, blocks), b);
      && rank == |Filter(blocks, NarrowedBelow(narrow, b))| as real / |blocks| as real
      && 0.0 <= rank <= 1.0
      && (rank < 1.0 <==> exists c :: c in blocks && narrow(c.avgAttention) >= b.avgAttention)
  {
    var below := NarrowedBelow(narrow, b);
    CountInSorted(narrow, blocks, LessThan(b.avgAttention), below);
    SearchCountsSmaller(AttnSorted(narrow, blocks), b.avgAttention);
    AllOrNot(blocks, below);
    ShareOfAll(|Filter(blocks, below)|, |blocks|);
  }

  lemma {:induction false} ShareOfAll(m: nat, n: nat)
    requires m <= n && n > 0
    ensures 0.0 <= m as real / n as real <= 1.0
    ensures m as real / n as real < 1.0 <==> m < n
  {
    var x, y := m as real, n as real;
    QuotientInUnit(x, y);
    QuotientOrder(y, x, y);
    assert m < n <==> x < y;
  }

  lemma {:induction false} AllOrNot(s: seq<Block>, p: Block -> bool)
    ensures |Filter(s, p)| <= |s|
    ensures |Filter(s, p)| < |s| <==> exists c :: c in s && !p(c)
  {
    if s != [] {
      AllOrNot(s[1..], p);
      assert s == [s[0]] + s[1..];
      assert s[0] in s && forall c :: c in s[1..] ==> c in s;
      if p(s[0]) && exists c :: c in s && !p(c) {
        var c :| c in s && !p(c);
        assert c in s[1..];
      }
    }
  }

  /** In an ascending list, if the value at `m` exceeds `v` then so do all from there on. */
  lemma {:induction false} AllAboveFrom(xs: seq<real>, m: nat, v: real)
    requires Ordered(xs, Identity) && m < |xs| && xs[m] > v
    ensures |Filter(xs, MoreThan(v))| >= |xs| - m
  {
    var high := xs[m..];
    assert xs == xs[..m] + high;
    FilterAppend(xs[..m], high, MoreThan(v));
    forall x | x in high
      ensures MoreThan(v)(x)
    {
      var i :| 0 <= i < |high| && high[i] == x;
      assert i > 0 ==> Identity(xs[m]) <= Identity(xs[m + i]);
    }
    FilterAll(high, MoreThan(v));
  }

  /** If it does not, then only what follows it can. */
  lemma {:induction false} NoneAboveUpTo(xs: seq<real>, m: nat, v: real)
    requires Ordered(xs, Identity) && m < |xs| && xs[m] <= v
    ensures |Filter(xs, MoreThan(v))| <= |xs| - m - 1
  {
    var low, high := xs[..m + 1], xs[m + 1..];
    assert xs == low + high;
    FilterAppend(low, high, MoreThan(v));
    forall x | x in low
      ensures !MoreThan(v)(x)
    {
      var i :| 0 <= i < |low| && low[i] == x;
      assert i < m ==> Identity(xs[i]) <= Identity(xs[m]);
    }
    FilterNone(low, MoreThan(v));
    FilterIn(high, MoreThan(v));
  }

  /** In an ascending list the k-th value from the end is at most `v` exactly when fewer than k values exceed `v`. */
  lemma {:induction false} ThresholdCounts(xs: seq<real>, k: nat, v: real)
    requires Ordered(xs, Identity) && 1 <= k <= |xs|
    ensures xs[|xs| - k] <= v <==> |Filter(xs, MoreThan(v))| < k
  {
    if xs[|xs| - k] <= v {
      NoneAboveUpTo(xs, |xs| - k, v);
    } else {
      AllAboveFrom(xs, |xs| - k, v);
    }
  }

  /**
   Feature 15 is set exactly when fewer than n blocks have narrowed attention above that of the block, n at most the
   batch size.
   */
  lemma {:induction false} HeavyHitterIffFewStronger(narrow: Narrowing, blocks: seq<Block>, fraction: real, b: Block)
    requires blocks != []
    ensures
      var n := Portion(|blocks|, fraction);
      IsHeavyHitter(AttnSorted(narrow, blocks), |blocks|, fraction, b) <==>
        n <= |blocks| && |Filter(blocks, NarrowedAbove(narrow, b))| < n
  {
    var n := Portion(|blocks|, fraction);
    CountInSorted(narrow, blocks, MoreThan(b.avgAttention), NarrowedAbove(narrow, b));
    if n <= |blocks| {
      ThresholdCounts(AttnSorted(narrow, blocks), n, b.avgAttention);
    }
  }

  /** A block alone in its batch ranks lowest or highest, and is or is not a heavy hitter, as its value was rounded. */
  lemma {:induction false} LoneBlock(narrow: Narrowing, b: Block, fraction: real)
    requires fraction <= 1.0
    ensures AttentionRank(AttnSorted(narrow, [b]), b) == if narrow(b.avgAttention) < b.avgAttention then 1.0 else 0.0
    ensures IsHeavyHitter(AttnSorted(narrow, [b]), 1, fraction, b) <==> narrow(b.avgAttention) <= b.avgAttention
  {
    var x := narrow(b.avgAttention);
    assert [b][1..] == [];
    assert Map(NarrowedAttention(narrow), [b]) == [x] && [x][1..] == [];
    assert SortBy([x], Identity) == [x];
    assert AttnSorted(narrow, [b]) == [x];
    PortionOfOne(fraction);
  }

  lemma {:induction false} PortionOfOne(fraction: real)
    requires fraction <= 1.0
    ensures Portion(1, fraction) == 1
  {
    assert 1 as real * fraction == fraction;
  }

  function Distance(x: real, y: real): real { if x >= y then x - y else y - x }

  function Multiple(m: int, unit: real): real { m as real * unit }

  /** No multiple of `unit` is nearer to `x` than the one numbered `m`. */
  ghost predicate IsNearest(m: int, unit: real, x: real) {
    forall k :: Distance(Multiple(m, unit), x) <= Distance(Multiple(k, unit), x)
  }

  /** The spacing of 32-bit floats from 0.5 to 1, and from 0.0625 to 0.125: 2^-24 and 2^-27. */
  const SPACING_07 := 1.0 / 16777216.0
  const SPACING_01 := 1.0 / 134217728.0

  /** With 32-bit rounding a lone block of attention 0.7 has rank 1, and one of attention 0.1 is no heavy hitter. */
  lemma {:induction false} RoundingShows(narrow: Narrowing, b: Block, c: Block, fraction: real)
    requires narrow(0.7) == Multiple(11744051, SPACING_07) && narrow(0.1) == Multiple(13421773, SPACING_01)
    requires b.avgAttention == 0.7 && c.avgAttention == 0.1 && fraction <= 1.0
    ensures IsNearest(11744051, SPACING_07, 0.7) && IsNearest(13421773, SPACING_01, 0.1)
    ensures AttentionRank(AttnSorted(narrow, [b]), b) == 1.0
    ensures !IsHeavyHitter(AttnSorted(narrow, [c]), 1, fraction, c)
  {
    LoneBlock(narrow, b, fraction);
    LoneBlock(narrow, c, fraction);
  }

  // ---------- against the policy ----------

  /** The last of the heavy hitters in the ranking of the oracle. */
  function Cutoff(cfg: Config, blocks: seq<Block>): Block
    requires blocks != []
  {
    SortIsOrderedRearrangement(blocks, AttentionDescending);
    SortBy(blocks, AttentionDescending)[Min(Portion(|blocks|, cfg.heavyFraction), |blocks|) - 1]
  }

  lemma {:induction false} CutoffIsChosen(cfg: Config, blocks: seq<Block>)
    requires blocks != []
    ensures Cutoff(cfg, blocks) in blocks && Cutoff(cfg, blocks).id in HeavyIds(cfg, blocks)
  {
    var ranked, k := SortBy(blocks, AttentionDescending), Portion(|blocks|, cfg.heavyFraction);
    var n, last := Min(k, |blocks|), Cutoff(cfg, blocks);
    SortIsOrderedRearrangement(blocks, AttentionDescending);
    SameElements(blocks, AttentionDescending);
    assert ranked[n - 1] in ranked && Take(ranked, k) == ranked[..n];
    assert ranked[..n][n - 1] == last;
    IdIn(ranked[..n], BlockId, last);
  }

  /** It is chosen, and the weakest of the chosen; nobody left out is stronger. */
  lemma {:induction false} CutoffIsWeakest(cfg: Config, blocks: seq<Block>, b: Block)
    requires Distinct(blocks, BlockId) && b in blocks
    ensures
      var last := Cutoff(cfg, blocks);
      && last in blocks && last.id in HeavyIds(cfg, blocks)
      && (b.id in HeavyIds(cfg, blocks) ==> b.avgAttention >= last.avgAttention)
      && (b.id !in HeavyIds(cfg, blocks) ==> b.avgAttention <= last.avgAttention)
  {
    var ranked, k := SortBy(blocks, AttentionDescending), Portion(|blocks|, cfg.heavyFraction);
    var n, last := Min(k, |blocks|), Cutoff(cfg, blocks);
    SortIsOrderedRearrangement(blocks, AttentionDescending);
    SameElements(blocks, AttentionDescending);
    CutoffIsChosen(cfg, blocks);
    assert Take(ranked, k) == ranked[..n];
    if b.id in HeavyIds(cfg, blocks) {
      InIds(ranked[..n], BlockId, b.id);
      var i :| 0 <= i < n && BlockId(ranked[i]) == b.id;
      assert ranked[i] in ranked;
      SameId(blocks, BlockId, ranked[i], b);
      assert i < n - 1 ==> AttentionDescending(ranked[i]) <= AttentionDescending(ranked[n - 1]);
    } else {
      TopSelectionOrder(blocks, BlockId, AttentionDescending, k, last, b);
      assert AttentionDescending(last) <= AttentionDescending(b);
    }
  }

  /** The flag compares with the narrowed attention of the last heavy hitter of the oracle. */
  lemma {:induction false} FlagThreshold(narrow: Narrowing, cfg: Config, blocks: seq<Block>, b: Block)
    requires Monotone(narrow) && Distinct(blocks, BlockId) && blocks != []
    ensures IsHeavyHitter(AttnSorted(narrow, blocks), |blocks|, cfg.heavyFraction, b) <==>
      Portion(|blocks|, cfg.heavyFraction) <= |blocks| && narrow(Cutoff(cfg, blocks).avgAttention) <= b.avgAttention
  {
    HeavyHitterIffFewStronger(narrow, blocks, cfg.heavyFraction, b);
    if Portion(|blocks|, cfg.heavyFraction) <= |blocks| {
      if narrow(Cutoff(cfg, blocks).avgAttention) <= b.avgAttention {
        FewAbove(narrow, cfg, blocks, b);
      } else {
        ManyAbove(narrow, cfg, blocks, b);
      }
    }
  }

  lemma {:induction false} FewAbove(narrow: Narrowing, cfg: Config, blocks: seq<Block>, b: Block)
    requires Monotone(narrow) && Distinct(blocks, BlockId) && blocks != []
    requires narrow(Cutoff(cfg, blocks).avgAttention) <= b.avgAttention
    ensures |Filter(blocks, NarrowedAbove(narrow, b))| < Portion(|blocks|, cfg.heavyFraction)
  {
    var last, above := Cutoff(cfg, blocks), Filter(blocks, NarrowedAbove(narrow, b));
    var heavy := HeavyIds(cfg, blocks);
    CutoffIsWeakest(cfg, blocks, blocks[0]);
    TopSelectionSize(blocks, BlockId, AttentionDescending, Portion(|blocks|, cfg.heavyFraction));
    FilterIn(blocks, NarrowedAbove(narrow, b));
    FilterKeepsDistinct(blocks, BlockId, NarrowedAbove(narrow, b));
    CountIds(above, BlockId);
    forall k | k in Ids(above, BlockId)
      ensures k in heavy - {last.id}
    {
      InIds(above, BlockId, k);
      var c :| c in above && BlockId(c) == k;
      assert NarrowedAbove(narrow, b)(c);
      assert c.avgAttention > last.avgAttention;
      CutoffIsWeakest(cfg, blocks, c);
      if c.id == last.id {
        SameId(blocks, BlockId, c, last);
        assert false;
      }
    }
    SmallerSet(Ids(above, BlockId), heavy - {last.id});
  }

  lemma {:induction false} ManyAbove(narrow: Narrowing, cfg: Config, blocks: seq<Block>, b: Block)
    requires Monotone(narrow) && Distinct(blocks, BlockId) && blocks != []
    requires narrow(Cutoff(cfg, blocks).avgAttention) > b.avgAttention
    ensures |Filter(blocks, NarrowedAbove(narrow, b))| >= Min(Portion(|blocks|, cfg.heavyFraction), |blocks|)
  {
    var above, heavy := Filter(blocks, NarrowedAbove(narrow, b)), HeavyIds(cfg, blocks);
    TopSelectionSize(blocks, BlockId, AttentionDescending, Portion(|blocks|, cfg.heavyFraction));
    FilterIn(blocks, NarrowedAbove(narrow, b));
    FilterKeepsDistinct(blocks, BlockId, NarrowedAbove(narrow, b));
    CountIds(above, BlockId);
    forall k | k in heavy
      ensures k in Ids(above, BlockId)
    {
      InIds(blocks, BlockId, k);
      var c :| c in blocks && BlockId(c) == k;
      CutoffIsWeakest(cfg, blocks, c);
      assert NarrowedAbove(narrow, b)(c);
      IdIn(above, BlockId, c);
    }
    SmallerSet(heavy, Ids(above, BlockId));
  }

  ghost predicate AllFlagged(narrow: Narrowing, cfg: Config, blocks: seq<Block>) {
    forall b :: b in blocks && b.id in HeavyIds(cfg, blocks) ==>
      IsHeavyHitter(AttnSorted(narrow, blocks), |blocks|, cfg.heavyFraction, b)
  }

  /**
   Every heavy hitter of the oracle carries the feature exactly when the last one was not rounded up
   and the portion asked for is no larger than the batch.
   */
  lemma {:induction false} OracleChoicesAreFlaggedIff(narrow: Narrowing, cfg: Config, blocks: seq<Block>)
    requires Monotone(narrow) && Distinct(blocks, BlockId) && blocks != []
    ensures
      var last := Cutoff(cfg, blocks);
      AllFlagged(narrow, cfg, blocks) <==>
        Portion(|blocks|, cfg.heavyFraction) <= |blocks| && narrow(last.avgAttention) <= last.avgAttention
  {
    var last := Cutoff(cfg, blocks);
    CutoffIsWeakest(cfg, blocks, blocks[0]);
    FlagThreshold(narrow, cfg, blocks, last);
    forall b | b in blocks && b.id in HeavyIds(cfg, blocks)
      ensures Portion(|blocks|, cfg.heavyFraction) <= |blocks| && narrow(last.avgAttention) <= last.avgAttention ==>
        IsHeavyHitter(AttnSorted(narrow, blocks), |blocks|, cfg.heavyFraction, b)
    {
      CutoffIsWeakest(cfg, blocks, b);
      FlagThreshold(narrow, cfg, blocks, b);
    }
  }

  /**
   A block that the oracle does not choose is flagged exactly when it reaches the narrowed attention of the last one it
   does; it then lost a tie, unless that one was rounded down past it.
   */
  lemma {:induction false} FlaggedButNotChosenIff(narrow: Narrowing, cfg: Config, blocks: seq<Block>, b: Block)
    requires Monotone(narrow) && Distinct(blocks, BlockId) && b in blocks && b.id !in HeavyIds(cfg, blocks)
    ensures
      var last := Cutoff(cfg, blocks);
      var flagged := IsHeavyHitter(AttnSorted(narrow, blocks), |blocks|, cfg.heavyFraction, b);
      && b.avgAttention <= last.avgAttention
      && (flagged <==> narrow(last.avgAttention) <= b.avgAttention)
      && (flagged && b.avgAttention != last.avgAttention <==>
          narrow(last.avgAttention) <= b.avgAttention < last.avgAttention)
  {
    var k := Portion(|blocks|, cfg.heavyFraction);
    CutoffIsWeakest(cfg, blocks, b);
    FlagThreshold(narrow, cfg, blocks, b);
    TopSelectionSize(blocks, BlockId, AttentionDescending, k);
    if k > |blocks| {
      CountIds(blocks, BlockId);
      SmallerSet(HeavyIds(cfg, blocks), Ids(blocks, BlockId));
      IdIn(blocks, BlockId, b);
      assert false;
    }
  }
}
