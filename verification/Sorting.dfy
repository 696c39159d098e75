/**
 Python's sorted(): stable sorting by a key, as a function. The laws the policies rest on are here:
 it is the only ordered and stable rearrangement, it commutes with dropping elements and with changes that
 leave the key alone, and its prefixes are the top-k selections.
 */
module Sorting {
  import opened Sequences

  ghost predicate Ordered<T>(s: seq<T>, key: T -> real) {
    forall i, j :: 0 <= i < j < |s| ==> key(s[i]) <= key(s[j])
  }

  /** Elements that satisfy `p`, in order. */
  function Filter<T>(s: seq<T>, p: T -> bool): seq<T> {
    if s == [] then [] else (if p(s[0]) then [s[0]] else []) + Filter(s[1..], p)
  }

  function Map<S, T>(f: S -> T, s: seq<S>): (r: seq<T>)
    ensures |r| == |s|
    ensures forall i :: 0 <= i < |s| ==> r[i] == f(s[i])
  {
    if s == [] then [] else [f(s[0])] + Map(f, s[1..])
  }

  /** `x` placed before the first element whose key is not smaller. */
  function Insert<T>(x: T, s: seq<T>, key: T -> real): seq<T> {
    if s == [] || key(x) <= key(s[0]) then [x] + s else [s[0]] + Insert(x, s[1..], key)
  }

  function SortBy<T>(s: seq<T>, key: T -> real): seq<T> {
    if s == [] then [] else Insert(s[0], SortBy(s[1..], key), key)
  }

  // ---------- a rearrangement in order ----------

  lemma {:induction false} InsertAdds<T(!new)>(x: T, s: seq<T>, key: T -> real)
    ensures multiset(Insert(x, s, key)) == multiset(s) + multiset{x}
  {
    if s == [] || key(x) <= key(s[0]) {
    } else {
      InsertAdds(x, s[1..], key);
      assert s == [s[0]] + s[1..];
    }
  }

  lemma {:induction false} InsertKeepsOrder<T(!new)>(x: T, s: seq<T>, key: T -> real)
    requires Ordered(s, key)
    ensures Ordered(Insert(x, s, key), key)
  {
    if s != [] && key(s[0]) < key(x) {
      var rest := Insert(x, s[1..], key);
      InsertKeepsOrder(x, s[1..], key);
      InsertAdds(x, s[1..], key);
      forall j | 0 <= j < |rest|
        ensures key(s[0]) <= key(rest[j])
      {
        assert rest[j] in multiset(rest);
        assert rest[j] == x || rest[j] in s[1..];
      }
    }
  }

  lemma {:induction false} SortIsOrderedRearrangement<T(!new)>(s: seq<T>, key: T -> real)
    ensures Ordered(SortBy(s, key), key)
    ensures multiset(SortBy(s, key)) == multiset(s)
    ensures |SortBy(s, key)| == |s|
  {
    if s != [] {
      SortIsOrderedRearrangement(s[1..], key);
      InsertKeepsOrder(s[0], SortBy(s[1..], key), key);
      InsertAdds(s[0], SortBy(s[1..], key), key);
      assert s == [s[0]] + s[1..];
    }
    assert |multiset(SortBy(s, key))| == |multiset(s)|;
  }

  // ---------- sorting commutes with dropping elements ----------

  lemma {:induction false} FilterInsert<T(!new)>(x: T, s: seq<T>, key: T -> real, p: T -> bool)
    requires Ordered(s, key)
    ensures Filter(Insert(x, s, key), p) == if p(x) then Insert(x, Filter(s, p), key) else Filter(s, p)
  {
    if s == [] || key(x) <= key(s[0]) {
      assert ([x] + s)[1..] == s;
      if p(x) {
        FilterIn(s, p);
        var kept := Filter(s, p);
        if kept != [] {
          assert kept[0] in kept;
          assert kept[0] in s;
          assert key(x) <= key(kept[0]);
        }
      }
    } else {
      var rest := Insert(x, s[1..], key);
      assert ([s[0]] + rest)[1..] == rest;
      FilterInsert(x, s[1..], key, p);
      assert Filter(s, p) == (if p(s[0]) then [s[0]] else []) + Filter(s[1..], p);
      if p(s[0]) {
        assert Filter(s, p)[1..] == Filter(s[1..], p);
      } else {
        assert Filter(s, p) == Filter(s[1..], p);
      }
    }
  }

  lemma {:induction false} FilterIn<T(!new)>(s: seq<T>, p: T -> bool)
    ensures forall x :: x in Filter(s, p) <==> x in s && p(x)
    ensures |Filter(s, p)| <= |s|
  {
    if s != [] {
      FilterIn(s[1..], p);
      assert s == [s[0]] + s[1..];
    }
  }

  lemma {:induction false} SortOfFilter<T(!new)>(s: seq<T>, key: T -> real, p: T -> bool)
    ensures SortBy(Filter(s, p), key) == Filter(SortBy(s, key), p)
  {
    if s != [] {
      SortOfFilter(s[1..], key, p);
      SortIsOrderedRearrangement(s[1..], key);
      FilterInsert(s[0], SortBy(s[1..], key), key, p);
      if p(s[0]) {
        assert Filter(s, p)[1..] == Filter(s[1..], p);
      } else {
        assert Filter(s, p) == Filter(s[1..], p);
      }
    }
  }

  /** A change that leaves the sort key alone can be made before or after sorting. */
  lemma {:induction false} SortOfMap<S(!new), T(!new)>(s: seq<S>, key: S -> real, key': T -> real, f: S -> T)
    requires forall x :: x in s ==> key'(f(x)) == key(x)
    ensures SortBy(Map(f, s), key') == Map(f, SortBy(s, key))
  {
    if s != [] {
      SortOfMap(s[1..], key, key', f);
      assert Map(f, s)[1..] == Map(f, s[1..]);
      SameElements(s[1..], key);
      forall y | y in SortBy(s[1..], key)
        ensures key'(f(y)) == key(y)
      {
        assert y in s[1..];
        assert y in s;
      }
      MapInsert(s[0], SortBy(s[1..], key), key, key', f);
    }
  }

  lemma {:induction false} SameElements<T(!new)>(s: seq<T>, key: T -> real)
    ensures forall x :: x in SortBy(s, key) <==> x in s
  {
    SortIsOrderedRearrangement(s, key);
    forall x
      ensures x in SortBy(s, key) <==> x in s
    {
      assert x in multiset(SortBy(s, key)) <==> x in multiset(s);
    }
  }

  lemma {:induction false} MapInsert<S(!new), T(!new)>(x: S, s: seq<S>, key: S -> real, key': T -> real, f: S -> T)
    requires key'(f(x)) == key(x)
    requires forall y :: y in s ==> key'(f(y)) == key(y)
    ensures Map(f, Insert(x, s, key)) == Insert(f(x), Map(f, s), key')
  {
    if s == [] || key(x) <= key(s[0]) {
    } else {
      MapInsert(x, s[1..], key, key', f);
      assert Map(f, s)[1..] == Map(f, s[1..]);
    }
  }

  // ---------- stability and uniqueness ----------

  /** Elements of equal key keep the order they came in. */
  ghost predicate KeepsTies<T(!new)>(t: seq<T>, s: seq<T>, key: T -> real) {
    forall v :: Filter(t, WithKey(key, v)) == Filter(s, WithKey(key, v))
  }

  ghost function WithKey<T>(key: T -> real, v: real): T -> bool {
    x => key(x) == v
  }

  lemma {:induction false} SortOfTies<T(!new)>(s: seq<T>, key: T -> real, v: real)
    requires forall x :: x in s ==> key(x) == v
    ensures SortBy(s, key) == s
  {
    if s != [] {
      SortOfTies(s[1..], key, v);
    }
  }

  lemma {:induction false} SortIsStable<T(!new)>(s: seq<T>, key: T -> real)
    ensures KeepsTies(SortBy(s, key), s, key)
  {
    forall v
      ensures Filter(SortBy(s, key), WithKey(key, v)) == Filter(s, WithKey(key, v))
    {
      var ties := Filter(s, WithKey(key, v));
      FilterIn(s, WithKey(key, v));
      forall x | x in ties
        ensures key(x) == v
      {
        assert WithKey(key, v)(x);
      }
      SortOfTies(ties, key, v);
      SortOfFilter(s, key, WithKey(key, v));
    }
  }

  lemma {:induction false} FirstOfOrdered<T(!new)>(t: seq<T>, u: seq<T>, key: T -> real)
    requires Ordered(t, key) && Ordered(u, key) && KeepsTies(t, u, key) && t != []
    ensures u != [] && key(u[0]) <= key(t[0])
  {
    var v := key(t[0]);
    assert t[0] in Filter(t, WithKey(key, v)) by { FilterIn(t, WithKey(key, v)); }
    FilterIn(u, WithKey(key, v));
    assert t[0] in u;
  }

  /** An ordered rearrangement that keeps ties is the sorted sequence: the choice of algorithm does not matter. */
  lemma {:induction false} OrderedAndStableIsUnique<T(!new)>(t: seq<T>, u: seq<T>, key: T -> real)
    requires Ordered(t, key) && Ordered(u, key) && KeepsTies(t, u, key)
    ensures t == u
  {
    if t == [] {
      if u != [] {
        FirstOfOrdered(u, t, key);
      }
    } else {
      FirstOfOrdered(t, u, key);
      FirstOfOrdered(u, t, key);
      var v := key(t[0]);
      assert Filter(t, WithKey(key, v))[0] == t[0] && Filter(u, WithKey(key, v))[0] == u[0];
      forall w
        ensures Filter(t[1..], WithKey(key, w)) == Filter(u[1..], WithKey(key, w))
      {
        var p := WithKey(key, w);
        if w == v {
          assert Filter(t[1..], p) == Filter(t, p)[1..] && Filter(u[1..], p) == Filter(u, p)[1..];
        } else {
          assert Filter(t[1..], p) == Filter(t, p) && Filter(u[1..], p) == Filter(u, p);
        }
      }
      OrderedAndStableIsUnique(t[1..], u[1..], key);
      assert t == [t[0]] + t[1..] && u == [u[0]] + u[1..];
    }
  }

  /** sorted() is pinned down by its promise: ordered, and ties in their old order. */
  lemma {:induction false} SortIsTheOnlyStableOrder<T(!new)>(t: seq<T>, s: seq<T>, key: T -> real)
    ensures Ordered(t, key) && KeepsTies(t, s, key) <==> t == SortBy(s, key)
  {
    SortIsOrderedRearrangement(s, key);
    SortIsStable(s, key);
    if Ordered(t, key) && KeepsTies(t, s, key) {
      OrderedAndStableIsUnique(t, SortBy(s, key), key);
    }
  }

  // ---------- laws of filtering ----------

  lemma {:induction false} FilterAppend<T(!new)>(s: seq<T>, t: seq<T>, p: T -> bool)
    ensures Filter(s + t, p) == Filter(s, p) + Filter(t, p)
  {
    if s == [] {
      assert s + t == t;
    } else {
      var rest := s[1..];
      FilterAppend(rest, t, p);
      assert (s + t)[0] == s[0] && (s + t)[1..] == rest + t;
      JoinedFirst(if p(s[0]) then [s[0]] else [], Filter(rest, p), Filter(t, p));
    }
  }

  lemma {:induction false} JoinedFirst<T>(a: seq<T>, b: seq<T>, c: seq<T>)
    ensures a + (b + c) == (a + b) + c
  {
  }

  lemma {:induction false} FilterAll<T(!new)>(s: seq<T>, p: T -> bool)
    requires forall x :: x in s ==> p(x)
    ensures Filter(s, p) == s
  {
    if s != [] {
      FilterAll(s[1..], p);
    }
  }

  lemma {:induction false} FilterNone<T(!new)>(s: seq<T>, p: T -> bool)
    requires forall x :: x in s ==> !p(x)
    ensures Filter(s, p) == []
  {
    if s != [] {
      FilterNone(s[1..], p);
    }
  }

  lemma {:induction false} FilterMap<S(!new), T(!new)>(s: seq<S>, f: S -> T, p: S -> bool, q: T -> bool)
    requires forall x :: x in s ==> p(x) == q(f(x))
    ensures Filter(Map(f, s), q) == Map(f, Filter(s, p))
  {
    if s != [] {
      assert Map(f, s)[1..] == Map(f, s[1..]);
      FilterMap(s[1..], f, p, q);
      if p(s[0]) {
        assert Map(f, Filter(s, p))[1..] == Map(f, Filter(s, p)[1..]);
        assert Filter(s, p)[1..] == Filter(s[1..], p);
      }
    }
  }

  /** The first `n` elements, or all of them when there are fewer: Python's s[:n] for n >= 0. */
  function Take<T>(s: seq<T>, n: nat): seq<T> {
    if n <= |s| then s[..n] else s
  }

  /** Python's s[:n] for any n; a negative one counts from the other end. */
  function SliceTo<T>(s: seq<T>, n: int): seq<T> {
    Take(s, if n >= 0 then n else Max(0, |s| + n))
  }

  /** What Take leaves: Python's s[n:] for n >= 0. */
  function Drop<T>(s: seq<T>, n: nat): seq<T> {
    if n <= |s| then s[n..] else []
  }

  /** Python's s[max(0, len(s) - n):] */
  function TakeLast<T>(s: seq<T>, n: nat): seq<T> {
    if n <= |s| then s[|s| - n..] else s
  }

  lemma {:induction false} MapTake<S(!new), T(!new)>(g: S -> T, s: seq<S>, n: nat)
    ensures Map(g, Take(s, n)) == Take(Map(g, s), n)
  {
  }
}
