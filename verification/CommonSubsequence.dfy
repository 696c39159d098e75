/**
 The longest-common-subsequence length of src/evaluators/quality_metrics.py: the two-row
 dynamic program, what it is the maximum of, and how it and the edit distance bound each other.
 */
module CommonSubsequence {
  import opened Sequences
  import EditDistance

  /** `c` is `a` with some elements crossed out. */
  ghost predicate IsSubsequence<T>(c: seq<T>, a: seq<T>) {
    c == [] ||
    (a != [] &&
     ((Last(c) == Last(a) && IsSubsequence(Init(c), Init(a))) || IsSubsequence(c, Init(a))))
  }

  ghost predicate IsCommon<T>(c: seq<T>, a: seq<T>, b: seq<T>) {
    IsSubsequence(c, a) && IsSubsequence(c, b)
  }

  /** `n` is the greatest length of a common subsequence. */
  ghost predicate IsLongest<T(!new)>(a: seq<T>, b: seq<T>, n: nat) {
    && (exists c :: IsCommon(c, a, b) && |c| == n)
    && (forall c :: IsCommon(c, a, b) ==> |c| <= n)
  }

  /** The recurrence of the table. */
  function Lcs<T(==)>(a: seq<T>, b: seq<T>): nat
    decreases |a| + |b|
  {
    if a == [] || b == [] then 0
    else if Last(a) == Last(b) then Lcs(Init(a), Init(b)) + 1
    else Max(Lcs(a, Init(b)), Lcs(Init(a), b))
  }

  /** The whole table, one row per prefix of `a`. */
  ghost function Table<T>(a: seq<T>, b: seq<T>): (t: seq<seq<nat>>)
    ensures |t| == |a| + 1
    ensures forall i :: 0 <= i <= |a| ==> |t[i]| == |b| + 1
  {
    seq(|a| + 1, i requires 0 <= i <= |a| =>
      seq(|b| + 1, j requires 0 <= j <= |b| => Lcs(a[..i], b[..j])))
  }

  /** Cell (i, j) is what its three neighbours make it. */
  ghost predicate FilledIn<T>(a: seq<T>, b: seq<T>, t: seq<seq<nat>>, i: nat, j: nat)
    requires |t| == |a| + 1 && 0 < i <= |a| && |t[i]| == |b| + 1 && |t[i - 1]| == |b| + 1 && 0 < j <= |b|
  {
    t[i][j] == if a[i - 1] == b[j - 1] then t[i - 1][j - 1] + 1 else Max(t[i][j - 1], t[i - 1][j])
  }

  lemma {:induction false} TableLaws<T>(a: seq<T>, b: seq<T>, t: seq<seq<nat>>)
    requires t == Table(a, b)
    ensures forall j :: 0 <= j <= |b| ==> t[0][j] == 0
    ensures forall i :: 0 <= i <= |a| ==> t[i][0] == 0
    ensures forall i, j :: 0 < i <= |a| && 0 < j <= |b| ==> FilledIn(a, b, t, i, j)
    ensures t[|a|][|b|] == Lcs(a, b)
  {
    forall i, j | 0 < i <= |a| && 0 < j <= |b|
      ensures FilledIn(a, b, t, i, j)
    {
      assert Init(a[..i]) == a[..i - 1] && Init(b[..j]) == b[..j - 1];
    }
    assert a[..|a|] == a && b[..|b|] == b;
  }

  /** The inner loop: `curr` becomes row `i` from the finished row before it. */
  method FillRow<T(==)>(a: seq<T>, b: seq<T>, i: nat, prev: array<nat>, curr: array<nat>, ghost t: seq<seq<nat>>)
    requires 0 < i <= |a| && t == Table(a, b)
    requires prev != curr && prev.Length == curr.Length == |b| + 1
    requires forall j :: 0 <= j <= |b| ==> prev[j] == t[i - 1][j]
    requires curr[0] == 0
    modifies curr
    ensures forall j :: 0 <= j <= |b| ==> curr[j] == t[i][j]
  {
    TableLaws(a, b, t);
    for j := 1 to |b| + 1
      invariant forall k :: 0 <= k <= |b| ==> prev[k] == t[i - 1][k]
      invariant forall k :: 0 <= k < j ==> curr[k] == t[i][k]
    {
      assert FilledIn(a, b, t, i, j);
      if a[i - 1] == b[j - 1] {
        curr[j] := prev[j - 1] + 1;
      } else {
        curr[j] := Max(curr[j - 1], prev[j]);
      }
    }
  }

  /** Two rows, the finished one and the one being filled. */
  method LcsLength<T(==, !new)>(a: seq<T>, b: seq<T>) returns (length: nat)
    ensures length == Lcs(a, b)
    ensures IsLongest(a, b, length)
  {
    ghost var t := Table(a, b);
    TableLaws(a, b, t);
    LcsIsLongest(a, b);
    var m, n := |a|, |b|;
    var prev := new nat[n + 1](_ => 0);
    var curr := new nat[n + 1](_ => 0);
    for i := 1 to m + 1
      invariant fresh(prev) && fresh(curr) && prev != curr && prev.Length == curr.Length == n + 1
      invariant forall j :: 0 <= j <= n ==> prev[j] == t[i - 1][j]
      invariant curr[0] == 0
    {
      FillRow(a, b, i, prev, curr, t);
      prev := curr;
      curr := new nat[n + 1](_ => 0);
    }
    length := prev[n];
  }

  // ---------- the recurrence is the maximum ----------

  lemma {:induction false} InitOfSubsequence<T>(c: seq<T>, a: seq<T>)
    requires IsSubsequence(c, a) && c != []
    ensures a != [] && IsSubsequence(Init(c), Init(a)) && IsSubsequence(Init(c), a)
    decreases |a|
  {
    if Last(c) != Last(a) || !IsSubsequence(Init(c), Init(a)) {
      InitOfSubsequence(c, Init(a));
    }
  }

  /** No common subsequence is longer than the recurrence. */
  lemma {:induction false} NoneLonger<T>(c: seq<T>, a: seq<T>, b: seq<T>)
    requires IsCommon(c, a, b)
    ensures |c| <= Lcs(a, b)
    decreases |a| + |b|
  {
    if c != [] {
      if Last(a) == Last(b) {
        InitOfSubsequence(c, a);
        InitOfSubsequence(c, b);
        NoneLonger(Init(c), Init(a), Init(b));
      } else if Last(c) != Last(a) {
        NoneLonger(c, Init(a), b);
      } else {
        NoneLonger(c, a, Init(b));
      }
    }
  }

  /** A common subsequence read off the table. */
  function Witness<T(==)>(a: seq<T>, b: seq<T>): (c: seq<T>)
    ensures IsCommon(c, a, b)
    ensures |c| == Lcs(a, b)
    decreases |a| + |b|
  {
    if a == [] || b == [] then []
    else if Last(a) == Last(b) then
      var c := Witness(Init(a), Init(b)) + [Last(a)];
      assert Init(c) == Witness(Init(a), Init(b));
      c
    else if Lcs(a, b) == Lcs(a, Init(b)) then Witness(a, Init(b))
    else Witness(Init(a), b)
  }

  lemma {:induction false} LcsIsLongest<T(!new)>(a: seq<T>, b: seq<T>)
    ensures IsLongest(a, b, Lcs(a, b))
  {
    assert IsCommon(Witness(a, b), a, b);
    forall c | IsCommon(c, a, b)
      ensures |c| <= Lcs(a, b)
    {
      NoneLonger(c, a, b);
    }
  }

  lemma {:induction false} Symmetric<T>(a: seq<T>, b: seq<T>)
    ensures Lcs(a, b) == Lcs(b, a)
    decreases |a| + |b|
  {
    if a != [] && b != [] {
      Symmetric(Init(a), Init(b));
      Symmetric(Init(a), b);
      Symmetric(a, Init(b));
    }
  }

  lemma {:induction false} AtMostShorter<T>(a: seq<T>, b: seq<T>)
    ensures Lcs(a, b) <= |a| && Lcs(a, b) <= |b|
    decreases |a| + |b|
  {
    if a != [] && b != [] {
      AtMostShorter(Init(a), Init(b));
      AtMostShorter(Init(a), b);
      AtMostShorter(a, Init(b));
    }
  }

  lemma {:induction false} FullLengthIffEqual<T>(a: seq<T>, b: seq<T>)
    ensures Lcs(a, b) == |a| == |b| <==> a == b
    decreases |a| + |b|
  {
    if a != [] && b != [] {
      assert a == Init(a) + [Last(a)] && b == Init(b) + [Last(b)];
      FullLengthIffEqual(Init(a), Init(b));
      AtMostShorter(Init(a), b);
      AtMostShorter(a, Init(b));
    }
  }

  /** A subsequence uses no element more often than the sequence it is taken from. */
  lemma {:induction false} SubsequenceIsContained<T>(c: seq<T>, a: seq<T>)
    requires IsSubsequence(c, a)
    ensures multiset(c) <= multiset(a)
    decreases |a|
  {
    if c != [] {
      assert a == Init(a) + [Last(a)] && c == Init(c) + [Last(c)];
      if Last(c) == Last(a) && IsSubsequence(Init(c), Init(a)) {
        SubsequenceIsContained(Init(c), Init(a));
      } else {
        SubsequenceIsContained(c, Init(a));
      }
    }
  }

  /** Order costs: what two sequences share in order is at most what they share as bags. */
  lemma {:induction false} AtMostShared<T>(a: seq<T>, b: seq<T>)
    ensures Lcs(a, b) <= |multiset(a) * multiset(b)|
  {
    var c := Witness(a, b);
    SubsequenceIsContained(c, a);
    SubsequenceIsContained(c, b);
    var shared := multiset(a) * multiset(b);
    assert multiset(c) <= shared;
    assert |shared| == |multiset(c)| + |shared - multiset(c)| by {
      assert shared == multiset(c) + (shared - multiset(c));
    }
  }

  // ---------- the two programs bound each other ----------

  /** Dropping an element from one side loses at most one match. */
  lemma {:induction false} ShorterIsNoLonger<T>(a: seq<T>, b: seq<T>)
    ensures a != [] ==> Lcs(Init(a), b) <= Lcs(a, b) <= Lcs(Init(a), b) + 1
    ensures b != [] ==> Lcs(a, Init(b)) <= Lcs(a, b) <= Lcs(a, Init(b)) + 1
    decreases |a| + |b|
  {
    if a != [] && b != [] {
      ShorterIsNoLonger(Init(a), b);
      ShorterIsNoLonger(a, Init(b));
      ShorterIsNoLonger(Init(a), Init(b));
    }
  }

  lemma {:induction false} DistanceAndLcs<T>(a: seq<T>, b: seq<T>)
    ensures Max(|a|, |b|) - Lcs(a, b) <= EditDistance.Distance(a, b) <= |a| + |b| - 2 * Lcs(a, b)
    decreases |a| + |b|
  {
    if a != [] && b != [] {
      DistanceAndLcs(Init(a), Init(b));
      DistanceAndLcs(Init(a), b);
      DistanceAndLcs(a, Init(b));
      ShorterIsNoLonger(Init(a), b);
      ShorterIsNoLonger(a, b);
    }
  }
}
