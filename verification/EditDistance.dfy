/**
 The edit distance of src/evaluators/quality_metrics.py: the one-row dynamic program,
 the edit scripts whose cheapest cost it computes, and the laws of a metric.
 */
module EditDistance {
  import opened Sequences

  /** One step of a script that rewrites a text, read from the right end of both texts. */
  datatype Edit<T> = Keep | Substitute(c: T) | Insert(c: T) | Delete

  /** What a script makes of `a`, or None when it runs out of `a` or leaves some of it unread. */
  function Apply<T>(script: seq<Edit<T>>, a: seq<T>): Option<seq<T>>
    decreases |script|
  {
    if script == [] then
      if a == [] then Some([]) else None
    else
      match Last(script)
      case Insert(c) => Append(Apply(Init(script), a), c)
      case Keep => if a == [] then None else Append(Apply(Init(script), Init(a)), Last(a))
      case Substitute(c) => if a == [] then None else Append(Apply(Init(script), Init(a)), c)
      case Delete => if a == [] then None else Apply(Init(script), Init(a))
  }

  function Append<T>(text: Option<seq<T>>, c: T): Option<seq<T>> {
    if text.None? then None else Some(text.value + [c])
  }

  /** `script` with one more step at its right end. */
  function Then<T>(script: seq<Edit<T>>, e: Edit<T>): (r: seq<Edit<T>>)
    ensures r != [] && Init(r) == script && Last(r) == e
  {
    script + [e]
  }

  function EditCost<T>(e: Edit<T>): nat {
    if e.Keep? then 0 else 1
  }

  function Cost<T>(script: seq<Edit<T>>): nat {
    if script == [] then 0 else Cost(Init(script)) + EditCost(Last(script))
  }

  ghost predicate Turns<T>(script: seq<Edit<T>>, a: seq<T>, b: seq<T>) {
    Apply(script, a) == Some(b)
  }

  /** `d` is the least cost of turning `a` into `b`: some script attains it and none beats it. */
  ghost predicate IsCheapest<T(!new)>(a: seq<T>, b: seq<T>, d: nat) {
    && (exists script :: Turns(script, a, b) && Cost(script) == d)
    && (forall script :: Turns(script, a, b) ==> d <= Cost(script))
  }

  /** The recurrence of the table, with the diagonal taken greedily on a match. */
  function Distance<T(==)>(a: seq<T>, b: seq<T>): nat
    decreases |a| + |b|
  {
    if a == [] then |b|
    else if b == [] then |a|
    else if Last(a) == Last(b) then Distance(Init(a), Init(b))
    else 1 + Min(Distance(Init(a), Init(b)), Min(Distance(Init(a), b), Distance(a, Init(b))))
  }

  /** The whole table, one row per prefix of `a`; the method below keeps one row of it at a time. */
  ghost function Table<T>(a: seq<T>, b: seq<T>): (t: seq<seq<nat>>)
    ensures |t| == |a| + 1
    ensures forall i :: 0 <= i <= |a| ==> |t[i]| == |b| + 1
  {
    seq(|a| + 1, i requires 0 <= i <= |a| =>
      seq(|b| + 1, j requires 0 <= j <= |b| => Distance(a[..i], b[..j])))
  }

  /** Cell (i, j) is what its three neighbours make it. */
  ghost predicate FilledIn<T>(a: seq<T>, b: seq<T>, t: seq<seq<nat>>, i: nat, j: nat)
    requires |t| == |a| + 1 && 0 < i <= |a| && |t[i]| == |b| + 1 && |t[i - 1]| == |b| + 1 && 0 < j <= |b|
  {
    t[i][j] == if a[i - 1] == b[j - 1] then t[i - 1][j - 1]
               else 1 + Min(t[i - 1][j - 1], Min(t[i - 1][j], t[i][j - 1]))
  }

  lemma {:induction false} TableLaws<T>(a: seq<T>, b: seq<T>, t: seq<seq<nat>>)
    requires t == Table(a, b)
    ensures forall j :: 0 <= j <= |b| ==> t[0][j] == j
    ensures forall i :: 0 <= i <= |a| ==> t[i][0] == i
    ensures forall i, j :: 0 < i <= |a| && 0 < j <= |b| ==> FilledIn(a, b, t, i, j)
    ensures t[|a|][|b|] == Distance(a, b)
  {
    forall i, j | 0 < i <= |a| && 0 < j <= |b|
      ensures FilledIn(a, b, t, i, j)
    {
      Cell(a, b, i, j);
    }
    assert a[..|a|] == a && b[..|b|] == b;
  }

  /** The in-place row: `prev` carries the diagonal that the row has already overwritten. */
  method Levenshtein<T(==, !new)>(a: seq<T>, b: seq<T>) returns (d: nat)
    ensures d == Distance(a, b)
    ensures IsCheapest(a, b, d)
  {
    ghost var t := Table(a, b);
    TableLaws(a, b, t);
    DistanceIsCheapest(a, b);
    var m, n := |a|, |b|;
    var dp := new nat[n + 1](j => j);
    for i := 1 to m + 1
      invariant forall j :: 0 <= j <= n ==> dp[j] == t[i - 1][j]
    {
      var prev := dp[0];
      dp[0] := i;
      for j := 1 to n + 1
        invariant prev == t[i - 1][j - 1]
        invariant forall k :: 0 <= k < j ==> dp[k] == t[i][k]
        invariant forall k :: j <= k <= n ==> dp[k] == t[i - 1][k]
      {
        assert FilledIn(a, b, t, i, j);
        var temp := dp[j];
        if a[i - 1] == b[j - 1] {
          dp[j] := prev;
        } else {
          dp[j] := 1 + Min(prev, Min(dp[j], dp[j - 1]));
        }
        prev := temp;
      }
    }
    d := dp[n];
  }

  // ---------- neighbouring cells of the table ----------

  /** The recurrence on the prefixes the table is indexed by. */
  lemma {:induction false} Cell<T>(a: seq<T>, b: seq<T>, i: nat, j: nat)
    requires 0 < i <= |a| && 0 < j <= |b|
    ensures Distance(a[..i], b[..j]) ==
            if a[i - 1] == b[j - 1] then Distance(a[..i - 1], b[..j - 1])
            else 1 + Min(Distance(a[..i - 1], b[..j - 1]),
                         Min(Distance(a[..i - 1], b[..j]), Distance(a[..i], b[..j - 1])))
  {
    assert Init(a[..i]) == a[..i - 1] && Init(b[..j]) == b[..j - 1];
  }

  /** One more character on either side changes the distance by at most one. */
  lemma {:induction false} Neighbours<T>(a: seq<T>, b: seq<T>)
    ensures a != [] ==> Distance(Init(a), b) - 1 <= Distance(a, b) <= Distance(Init(a), b) + 1
    ensures b != [] ==> Distance(a, Init(b)) - 1 <= Distance(a, b) <= Distance(a, Init(b)) + 1
    decreases |a| + |b|
  {
    if a != [] && b != [] {
      Neighbours(Init(a), b);
      Neighbours(a, Init(b));
      Neighbours(Init(a), Init(b));
    }
  }

  /** No script is cheaper than the recurrence. */
  lemma {:induction false} NoneCheaper<T>(script: seq<Edit<T>>, a: seq<T>, b: seq<T>)
    requires Turns(script, a, b)
    ensures Distance(a, b) <= Cost(script)
    decreases |script|
  {
    if script != [] {
      match Last(script) {
        case Insert(_) => NoneCheaper(Init(script), a, Init(b));
        case Delete => NoneCheaper(Init(script), Init(a), b);
        case Keep => NoneCheaper(Init(script), Init(a), Init(b));
        case Substitute(_) => NoneCheaper(Init(script), Init(a), Init(b));
      }
      Neighbours(a, b);
    }
  }

  /** A script read off the table by following the choices of the recurrence. */
  function BestScript<T(==)>(a: seq<T>, b: seq<T>): (script: seq<Edit<T>>)
    ensures Turns(script, a, b)
    ensures Cost(script) == Distance(a, b)
    decreases |a| + |b|
  {
    if a == [] && b == [] then []
    else if a == [] then
      assert Init(b) + [Last(b)] == b;
      Then(BestScript(a, Init(b)), Insert(Last(b)))
    else if b == [] then Then(BestScript(Init(a), b), Delete)
    else
      assert Init(b) + [Last(b)] == b;
      if Last(a) == Last(b) then Then(BestScript(Init(a), Init(b)), Keep)
      else if Distance(a, b) == 1 + Distance(Init(a), Init(b)) then
        Then(BestScript(Init(a), Init(b)), Substitute(Last(b)))
      else if Distance(a, b) == 1 + Distance(Init(a), b) then Then(BestScript(Init(a), b), Delete)
      else Then(BestScript(a, Init(b)), Insert(Last(b)))
  }

  lemma {:induction false} DistanceIsCheapest<T(!new)>(a: seq<T>, b: seq<T>)
    ensures IsCheapest(a, b, Distance(a, b))
  {
    var best := BestScript(a, b);
    assert Turns(best, a, b) && Cost(best) == Distance(a, b);
    forall script | Turns(script, a, b)
      ensures Distance(a, b) <= Cost(script)
    {
      NoneCheaper(script, a, b);
    }
  }

  // ---------- a metric ----------

  lemma {:induction false} ZeroIffEqual<T>(a: seq<T>, b: seq<T>)
    ensures Distance(a, b) == 0 <==> a == b
    decreases |a| + |b|
  {
    if a != [] && b != [] && Last(a) == Last(b) {
      ZeroIffEqual(Init(a), Init(b));
      assert a == Init(a) + [Last(a)] && b == Init(b) + [Last(b)];
    }
  }

  lemma {:induction false} Symmetric<T>(a: seq<T>, b: seq<T>)
    ensures Distance(a, b) == Distance(b, a)
    decreases |a| + |b|
  {
    if a != [] && b != [] {
      Symmetric(Init(a), Init(b));
      Symmetric(Init(a), b);
      Symmetric(a, Init(b));
    }
  }

  /** Two scripts run one after the other, fused into one that never costs more. */
  function Compose<T>(first: seq<Edit<T>>, second: seq<Edit<T>>, a: seq<T>, b: seq<T>, c: seq<T>): (fused: seq<Edit<T>>)
    requires Turns(first, a, b)
    requires Turns(second, b, c)
    ensures Turns(fused, a, c)
    ensures Cost(fused) <= Cost(first) + Cost(second)
    decreases |first| + |second|
  {
    if second != [] && Last(second).Insert? then
      Then(Compose(first, Init(second), a, b, Init(c)), Last(second))
    else if first != [] && Last(first).Delete? then
      Then(Compose(Init(first), second, Init(a), b, c), Delete)
    else if first == [] then
      []
    else if Last(second).Delete? then
      if Last(first).Insert? then Compose(Init(first), Init(second), a, Init(b), c)
      else Then(Compose(Init(first), Init(second), Init(a), Init(b), c), Delete)
    else if Last(first).Insert? then
      Then(Compose(Init(first), Init(second), a, Init(b), Init(c)), Insert(Last(c)))
    else
      Then(Compose(Init(first), Init(second), Init(a), Init(b), Init(c)),
           if Last(second).Keep? then Last(first) else Last(second))
  }

  lemma {:induction false} TriangleInequality<T>(a: seq<T>, b: seq<T>, c: seq<T>)
    ensures Distance(a, c) <= Distance(a, b) + Distance(b, c)
  {
    NoneCheaper(Compose(BestScript(a, b), BestScript(b, c), a, b, c), a, c);
  }

  lemma {:induction false} AtMostLonger<T>(a: seq<T>, b: seq<T>)
    ensures Max(|a|, |b|) - Min(|a|, |b|) <= Distance(a, b) <= Max(|a|, |b|)
    decreases |a| + |b|
  {
    if a != [] && b != [] {
      AtMostLonger(Init(a), Init(b));
      AtMostLonger(Init(a), b);
      AtMostLonger(a, Init(b));
    }
  }
}
