/** A cycle of a policy that judges block by block, in closed form. */
module Outcomes {
  import opened Sequences
  import opened Sorting
  import opened Selection
  import opened Schema
  import opened Effects
  import opened Policies
  import opened DecisionLists

  /** `b` carrying the tier and score of its decision. */
  function Marked(f: Block -> PolicyDecision): Block -> Block {
    (b: Block) => b.(tier := TierFor(f(b).decision), importance := f(b).score)
  }

  function Spared(f: Block -> PolicyDecision): Block -> bool {
    (b: Block) => f(b).decision != Evict
  }

  lemma {:induction false} SettleByVerdicts(t: seq<Block>, v: Verdicts, f: Block -> PolicyDecision)
    requires forall b :: b in t ==> b.id in v && v[b.id] == f(b)
    ensures Settle(t, v) == Map(Marked(f), Filter(t, Spared(f)))
  {
    if t != [] {
      assert t[0] in t;
      SettleByVerdicts(t[1..], v, f);
      if Spared(f)(t[0]) {
        assert Filter(t, Spared(f))[1..] == Filter(t[1..], Spared(f));
      } else {
        assert Filter(t, Spared(f)) == Filter(t[1..], Spared(f));
      }
    }
  }

  /** Applying block-by-block decisions marks the spared blocks and drops the others. */
  lemma {:induction false} ApplyByBlock(s: seq<Block>, f: Block -> PolicyDecision)
    requires Distinct(s, BlockId)
    requires forall b :: b in s ==> f(b).block == b.id
    ensures ApplyAll(s, Map(f, s)) == Map(Marked(f), Filter(s, Spared(f)))
  {
    MappedDistinct(s, BlockId, f);
    ApplyIsSettle(s, Map(f, s));
    forall b | b in s
      ensures b.id in VerdictsOf(Map(f, s)) && VerdictsOf(Map(f, s))[b.id] == f(b)
    {
      VerdictOfElement(s, BlockId, f, b);
    }
    SettleByVerdicts(s, VerdictsOf(Map(f, s)), f);
  }

  /** The same two predicates on the elements give the same filter. */
  lemma {:induction false} SameFilter<T(!new)>(s: seq<T>, p: T -> bool, q: T -> bool)
    requires forall x :: x in s ==> p(x) == q(x)
    ensures Filter(s, p) == Filter(s, q)
  {
    if s != [] {
      assert s[0] in s;
      SameFilter(s[1..], p, q);
    }
  }

  /** Sorting the survivors is dropping the others from the sorted snapshot. */
  lemma {:induction false} SortOfSurvivors(s: seq<Block>, f: Block -> PolicyDecision, key: Block -> real)
    requires forall b :: b in s ==> key(Marked(f)(b)) == key(b)
    ensures SortBy(Map(Marked(f), Filter(s, Spared(f))), key) == Map(Marked(f), Filter(SortBy(s, key), Spared(f)))
  {
    FilterIn(s, Spared(f));
    SortOfMap(Filter(s, Spared(f)), key, key, Marked(f));
    SortOfFilter(s, key, Spared(f));
  }

  lemma {:induction false} MarkedIds(s: seq<Block>, f: Block -> PolicyDecision)
    ensures Map(BlockId, Map(Marked(f), s)) == Map(BlockId, s)
    ensures Ids(Map(Marked(f), s), BlockId) == Ids(s, BlockId)
    ensures Distinct(s, BlockId) ==> Distinct(Map(Marked(f), s), BlockId)
  {
    if s != [] {
      assert Map(Marked(f), s)[1..] == Map(Marked(f), s[1..]);
      assert Distinct(s, BlockId) ==> Distinct(s[1..], BlockId);
      MarkedIds(s[1..], f);
    }
    if Distinct(s, BlockId) {
      forall i, j | 0 <= i < j < |s|
        ensures BlockId(Map(Marked(f), s)[i]) != BlockId(Map(Marked(f), s)[j])
      {
        assert BlockId(s[i]) != BlockId(s[j]);
      }
    }
  }

  lemma {:induction false} FilterOfAllSpared(s: seq<Block>, f: Block -> PolicyDecision)
    ensures |Filter(s, Spared(f))| <= |s|
    ensures |Filter(s, Spared(f))| == |s| ==> Filter(s, Spared(f)) == s
  {
    if s != [] {
      FilterOfAllSpared(s[1..], f);
    }
  }

  // ---------- distinct ids as a test ----------

  predicate HasDistinctIds(s: seq<Block>) {
    |Ids(s, BlockId)| == |s|
  }

  /** Conversely, as many ids as blocks means no id twice. */
  lemma {:induction false} DistinctByCount(s: seq<Block>)
    ensures HasDistinctIds(s) <==> Distinct(s, BlockId)
    ensures |Ids(s, BlockId)| <= |s|
  {
    if Distinct(s, BlockId) {
      CountIds(s, BlockId);
    }
    if s != [] {
      DistinctByCount(s[1..]);
      if HasDistinctIds(s) {
        assert s[0].id !in Ids(s[1..], BlockId);
        DistinctCons(s[0], s[1..], BlockId);
        assert [s[0]] + s[1..] == s;
      }
    }
  }

  // ---------- portions ----------

  lemma {:induction false} PortionGrows(m: nat, n: nat, fraction: real)
    requires m <= n
    ensures Portion(m, fraction) <= Portion(n, fraction)
  {
    var a, b := m as real * fraction, n as real * fraction;
    ProductGrows(m as real, n as real, fraction);
    if fraction >= 0.0 {
      TruncateGrows(a, b);
    } else {
      TruncateOfNegative(a);
      TruncateOfNegative(b);
    }
  }

  lemma {:induction false} TruncateGrows(a: real, b: real)
    requires 0.0 <= a <= b
    ensures Truncate(a) <= Truncate(b)
  {
  }

  lemma {:induction false} TruncateOfNegative(a: real)
    requires a <= 0.0
    ensures Truncate(a) <= 0
  {
  }

  lemma {:induction false} ProductGrows(a: real, b: real, c: real)
    requires 0.0 <= a <= b
    ensures c >= 0.0 ==> 0.0 <= a * c <= b * c
    ensures c < 0.0 ==> a * c <= 0.0 && b * c <= 0.0
  {
  }

  /** int(x) is the integer part of a number that is not negative, and not positive for others. */
  lemma {:induction false} TruncateIsFloor(x: real)
    ensures x >= 0.0 ==> Truncate(x) as real <= x < Truncate(x) as real + 1.0
    ensures x < 0.0 ==> Truncate(x) <= 0 && x <= Truncate(x) as real < x + 1.0
  {
  }

  /** max(1, int(n * fraction)): the whole blocks in that share of n, and at least one. */
  lemma {:induction false} PortionIsShare(n: nat, fraction: real)
    ensures
      var share, k := n as real * fraction, Portion(n, fraction);
      && (share >= 1.0 ==> k as real <= share < k as real + 1.0)
      && (share < 1.0 ==> k == 1)
  {
    TruncateIsFloor(n as real * fraction);
  }

  /** int(n * 0.10) is the integer quotient. */
  lemma {:induction false} TenthPortion(n: nat)
    ensures Portion(n, 0.10) == Max(1, n / 10)
  {
    var q, r := n / 10, n % 10;
    assert n == 10 * q + r;
    assert n as real * 0.10 == q as real + r as real * 0.10;
    assert 0.0 <= r as real * 0.10 < 1.0;
  }
}
