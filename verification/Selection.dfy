/**
 Choosing elements by identity after a sort, the way every policy does: sort a snapshot, slice it,
 collect the ids of the slice, and ask of each block whether its id was collected.
 */
module Selection {
  import opened Sequences
  import opened Sorting

  ghost predicate Distinct<T>(s: seq<T>, id: T -> int) {
    forall i, j :: 0 <= i < j < |s| ==> id(s[i]) != id(s[j])
  }

  /** The ids found in `s`. */
  function Ids<T>(s: seq<T>, id: T -> int): set<int> {
    if s == [] then {} else {id(s[0])} + Ids(s[1..], id)
  }

  lemma {:induction false} InIds<T(!new)>(s: seq<T>, id: T -> int, k: int)
    ensures k in Ids(s, id) <==> exists x :: x in s && id(x) == k
  {
    if s != [] {
      InIds(s[1..], id, k);
      assert s == [s[0]] + s[1..];
      assert s[0] in s;
    }
  }

  lemma {:induction false} IdIn<T(!new)>(s: seq<T>, id: T -> int, x: T)
    requires x in s
    ensures id(x) in Ids(s, id)
  {
    InIds(s, id, id(x));
  }

  lemma {:induction false} CountIds<T(!new)>(s: seq<T>, id: T -> int)
    requires Distinct(s, id)
    ensures |Ids(s, id)| == |s|
  {
    if s != [] {
      CountIds(s[1..], id);
      if id(s[0]) in Ids(s[1..], id) {
        InIds(s[1..], id, id(s[0]));
      }
    }
  }

  lemma {:induction false} IdsAppend<T(!new)>(s: seq<T>, t: seq<T>, id: T -> int)
    ensures Ids(s + t, id) == Ids(s, id) + Ids(t, id)
  {
    if s == [] {
      assert s + t == t;
    } else {
      assert (s + t)[1..] == s[1..] + t;
      IdsAppend(s[1..], t, id);
    }
  }

  lemma {:induction false} DistinctParts<T(!new)>(s: seq<T>, t: seq<T>, id: T -> int)
    requires Distinct(s + t, id)
    ensures Distinct(s, id) && Distinct(t, id) && Ids(s, id) !! Ids(t, id)
  {
    forall i, j | 0 <= i < |s| && 0 <= j < |t|
      ensures id(s[i]) != id(t[j])
    {
      assert (s + t)[i] == s[i] && (s + t)[|s| + j] == t[j];
    }
    forall i, j | 0 <= i < j < |s|
      ensures id(s[i]) != id(s[j])
    {
      assert (s + t)[i] == s[i] && (s + t)[j] == s[j];
    }
    forall i, j | 0 <= i < j < |t|
      ensures id(t[i]) != id(t[j])
    {
      assert (s + t)[|s| + i] == t[i] && (s + t)[|s| + j] == t[j];
    }
    forall k | k in Ids(s, id)
      ensures k !in Ids(t, id)
    {
      InIds(s, id, k);
      InIds(t, id, k);
    }
  }

  /** One element per id. */
  lemma {:induction false} SameId<T(!new)>(s: seq<T>, id: T -> int, x: T, y: T)
    requires Distinct(s, id) && x in s && y in s && id(x) == id(y)
    ensures x == y
  {
    var i :| 0 <= i < |s| && s[i] == x;
    var j :| 0 <= j < |s| && s[j] == y;
  }

  lemma {:induction false} SortKeepsDistinct<T(!new)>(s: seq<T>, id: T -> int, key: T -> real)
    requires Distinct(s, id)
    ensures Distinct(SortBy(s, key), id)
    ensures Ids(SortBy(s, key), id) == Ids(s, id)
  {
    if s != [] {
      SortKeepsDistinct(s[1..], id, key);
      var rest := SortBy(s[1..], key);
      assert s == [s[0]] + s[1..];
      DistinctParts([s[0]], s[1..], id);
      assert Ids([s[0]], id) == {id(s[0])};
      InsertKeepsDistinct(s[0], rest, id, key);
    }
  }

  lemma {:induction false} InsertKeepsDistinct<T(!new)>(x: T, s: seq<T>, id: T -> int, key: T -> real)
    requires Distinct(s, id) && id(x) !in Ids(s, id)
    ensures Distinct(Insert(x, s, key), id)
    ensures Ids(Insert(x, s, key), id) == Ids(s, id) + {id(x)}
  {
    if s == [] || key(x) <= key(s[0]) {
      assert ([x] + s)[1..] == s;
      DistinctCons(x, s, id);
    } else {
      var rest := Insert(x, s[1..], key);
      assert s == [s[0]] + s[1..];
      DistinctParts([s[0]], s[1..], id);
      assert Ids([s[0]], id) == {id(s[0])};
      InsertKeepsDistinct(x, s[1..], id, key);
      assert ([s[0]] + rest)[1..] == rest;
      DistinctCons(s[0], rest, id);
    }
  }

  lemma {:induction false} DistinctCons<T(!new)>(x: T, s: seq<T>, id: T -> int)
    requires Distinct(s, id) && id(x) !in Ids(s, id)
    ensures Distinct([x] + s, id)
  {
    forall i | 0 <= i < |s|
      ensures id(s[i]) != id(x)
    {
      IdIn(s, id, s[i]);
    }
  }

  // ---------- selecting by id ----------

  function HasId<T>(id: T -> int, chosen: set<int>): T -> bool {
    x => id(x) in chosen
  }

  /** The elements whose id was chosen, in their old order. */
  function Restrict<T>(s: seq<T>, id: T -> int, chosen: set<int>): seq<T> {
    Filter(s, HasId(id, chosen))
  }

  lemma {:induction false} RestrictIds<T(!new)>(s: seq<T>, id: T -> int, chosen: set<int>)
    ensures Ids(Restrict(s, id, chosen), id) == Ids(s, id) * chosen
  {
    if s != [] {
      RestrictIds(s[1..], id, chosen);
      var rest := Restrict(s[1..], id, chosen);
      if HasId(id, chosen)(s[0]) {
        assert ([s[0]] + rest)[1..] == rest;
      } else {
        assert Restrict(s, id, chosen) == rest;
      }
    }
  }

  lemma {:induction false} FilterKeepsDistinct<T(!new)>(s: seq<T>, id: T -> int, p: T -> bool)
    requires Distinct(s, id)
    ensures Distinct(Filter(s, p), id)
    ensures Ids(Filter(s, p), id) <= Ids(s, id)
  {
    if s != [] {
      assert s == [s[0]] + s[1..];
      DistinctParts([s[0]], s[1..], id);
      assert Ids([s[0]], id) == {id(s[0])};
      FilterKeepsDistinct(s[1..], id, p);
      var rest := Filter(s[1..], p);
      if p(s[0]) {
        DistinctCons(s[0], rest, id);
        assert ([s[0]] + rest)[1..] == rest;
      } else {
        assert Filter(s, p) == rest;
      }
    }
  }

  lemma {:induction false} RestrictKeepsDistinct<T(!new)>(s: seq<T>, id: T -> int, chosen: set<int>)
    requires Distinct(s, id)
    ensures Distinct(Restrict(s, id, chosen), id)
  {
    FilterKeepsDistinct(s, id, HasId(id, chosen));
  }

  /** Restricting to the ids of one part of a sequence gives that part back. */
  lemma {:induction false} RestrictToPart<T(!new)>(s: seq<T>, t: seq<T>, u: seq<T>, id: T -> int, chosen: set<int>)
    requires Distinct(s + t + u, id)
    requires Ids(s, id) <= chosen && Ids(u, id) <= chosen && Ids(t, id) !! chosen
    ensures Restrict(s + t + u, id, chosen) == s + u
  {
    var p := HasId(id, chosen);
    forall x | x in s || x in t || x in u
      ensures x in s || x in u ==> p(x)
      ensures x in t ==> !p(x)
    {
      if x in s { IdIn(s, id, x); }
      if x in t { IdIn(t, id, x); }
      if x in u { IdIn(u, id, x); }
    }
    FilterAppend(s + t, u, p);
    FilterAppend(s, t, p);
    FilterAll(s, p);
    FilterNone(t, p);
    FilterAll(u, p);
    assert s + [] == s;
  }

  lemma {:induction false} SplitById<T(!new)>(t: seq<T>, n: nat, id: T -> int)
    requires Distinct(t, id) && n <= |t|
    ensures |Ids(t[..n], id)| == n && Ids(t[..n], id) <= Ids(t, id)
    ensures Ids(t[n..], id) == Ids(t, id) - Ids(t[..n], id)
  {
    assert t == t[..n] + t[n..];
    DistinctParts(t[..n], t[n..], id);
    IdsAppend(t[..n], t[n..], id);
    CountIds(t[..n], id);
  }

  /** Sorting and slicing selects `k` ids, or all of them. */
  lemma {:induction false} TopSelectionSize<T(!new)>(s: seq<T>, id: T -> int, key: T -> real, k: nat)
    requires Distinct(s, id)
    ensures
      var t := SortBy(s, key);
      var top := Ids(Take(t, k), id);
      && top <= Ids(s, id)
      && |top| == Min(k, |s|)
      && |t| == |s|
      && Ids(t[Min(k, |s|)..], id) == Ids(s, id) - top
  {
    var t := SortBy(s, key);
    var n := Min(k, |s|);
    SortIsOrderedRearrangement(s, key);
    SortKeepsDistinct(s, id, key);
    SplitById(t, n, id);
    assert Take(t, k) == t[..n];
  }

  /** No selected element has a larger key than one left out. */
  lemma {:induction false} TopSelectionOrder<T(!new)>(s: seq<T>, id: T -> int, key: T -> real, k: nat, x: T, y: T)
    requires Distinct(s, id)
    requires x in s && id(x) in Ids(Take(SortBy(s, key), k), id)
    requires y in s && id(y) !in Ids(Take(SortBy(s, key), k), id)
    ensures key(x) <= key(y)
  {
    var t := SortBy(s, key);
    var n := Min(k, |s|);
    TopSelectionSize(s, id, key, k);
    SortIsOrderedRearrangement(s, key);
    SortKeepsDistinct(s, id, key);
    SameElements(s, key);
    assert Take(t, k) == t[..n];
    InIds(t[..n], id, id(x));
    var i :| 0 <= i < n && id(t[i]) == id(x);
    assert t[i] in t;
    SameId(s, id, t[i], x);
    IdIn(s, id, y);
    InIds(t[n..], id, id(y));
    var j :| n <= j < |t| && id(t[j]) == id(y);
    assert t[j] in t;
    SameId(s, id, t[j], y);
  }

  /** Distinct ids that agree as sets have equally many elements behind them. */
  lemma {:induction false} SmallerSet(a: set<int>, b: set<int>)
    requires a <= b
    ensures |a| <= |b|
    ensures |a| == |b| ==> a == b
  {
    assert b == a + (b - a);
    assert |b| == |a| + |b - a|;
  }
}
