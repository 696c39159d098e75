/** Repeating a step: when it stops changing anything, and when a run of events is such a repetition. */
module Iteration {
  import opened Sequences

  function Iterate<T>(f: T -> T, x: T, n: nat): T {
    if n == 0 then x else f(Iterate(f, x, n - 1))
  }

  lemma {:induction false} IterateFromStep<T(!new)>(f: T -> T, x: T, n: nat)
    ensures Iterate(f, x, n + 1) == Iterate(f, f(x), n)
  {
    if n > 0 {
      IterateFromStep(f, x, n - 1);
    }
  }

  lemma {:induction false} FixedForever<T(!new)>(f: T -> T, x: T, n: nat)
    requires f(x) == x
    ensures Iterate(f, x, n) == x
  {
    if n > 0 {
      FixedForever(f, x, n - 1);
    }
  }

  /** A step from `x` keeps `inv` and shrinks the size, or keeps the size and leaves a fixed point. */
  ghost predicate ShrinksOrSettles<T(!new)>(f: T -> T, inv: T -> bool, size: T -> nat, x: T) {
    inv(x) ==>
      && inv(f(x))
      && size(f(x)) <= size(x)
      && (size(f(x)) == size(x) ==> f(f(x)) == f(x))
  }

  /** If every step does so, a fixed point is reached within one step more than the size. */
  lemma {:induction false} ReachesFixedPoint<T(!new)>(f: T -> T, inv: T -> bool, size: T -> nat, x: T, n: nat)
    requires forall y :: ShrinksOrSettles(f, inv, size, y)
    requires inv(x) && n > size(x)
    ensures f(Iterate(f, x, n)) == Iterate(f, x, n)
    decreases size(x)
  {
    assert ShrinksOrSettles(f, inv, size, x);
    IterateFromStep(f, x, n - 1);
    if size(f(x)) == size(x) {
      FixedForever(f, f(x), n - 1);
    } else {
      ReachesFixedPoint(f, inv, size, f(x), n - 1);
    }
  }

  // ---------- taking a sequence apart step by step ----------

  /** What `n` steps have taken off, in order. */
  function Taken<T, U>(f: T -> T, batch: T -> seq<U>, x: T, n: nat): seq<U> {
    if n == 0 then [] else Taken(f, batch, x, n - 1) + batch(Iterate(f, x, n - 1))
  }

  /** A step takes its batch off the front of `order`, and something whenever something is left. */
  ghost predicate TakesFromFront<T(!new), U(!new)>(f: T -> T, inv: T -> bool, order: T -> seq<U>, batch: T -> seq<U>,
                                   x: T) {
    inv(x) ==>
      && inv(f(x))
      && order(x) == batch(x) + order(f(x))
      && (order(x) != [] ==> batch(x) != [])
  }

  /** Then what was taken, followed by what is left, is always the order of the start. */
  lemma {:induction false} TakenThenLeft<T(!new), U(!new)>(
    f: T -> T, inv: T -> bool, order: T -> seq<U>, batch: T -> seq<U>, x: T, n: nat)
    requires forall y :: TakesFromFront(f, inv, order, batch, y)
    requires inv(x)
    ensures inv(Iterate(f, x, n))
    ensures Taken(f, batch, x, n) + order(Iterate(f, x, n)) == order(x)
    ensures |order(Iterate(f, x, n))| <= Max(0, |order(x)| - n)
  {
    if n > 0 {
      TakenThenLeft(f, inv, order, batch, x, n - 1);
      var y := Iterate(f, x, n - 1);
      assert TakesFromFront(f, inv, order, batch, y);
      assert Taken(f, batch, x, n - 1) + (batch(y) + order(f(y))) == Taken(f, batch, x, n) + order(f(y));
    }
  }
}
