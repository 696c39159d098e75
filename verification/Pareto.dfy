/** The Pareto frontier of src/evaluators/pareto.py: the accumulating analyzer and the laws of its frontier. */
module Pareto {
  import opened Sequences
  import opened Sorting

  /** A benchmark result; a metric that is absent or not a number is not in the map. */
  datatype Result = Result(policy: string, metrics: map<string, real>)

  datatype Point = Point(x: real, y: real, policy: string)

  /** Which way is better on each axis. */
  datatype Directions = Directions(higherX: bool, higherY: bool)

  const DEFAULT_DIRECTIONS := Directions(false, true)

  /** The frontier as a data frame: of no results, of some points, or the lookup error of an empty frame. */
  datatype Frame = NoResults | Points(points: seq<Point>) | KeyError

  function Oriented(v: real, higher: bool): real {
    if higher then v else -v
  }

  predicate Dominates(d: Directions, a: Point, b: Point) {
    var (ax, ay) := (Oriented(a.x, d.higherX), Oriented(a.y, d.higherY));
    var (bx, by') := (Oriented(b.x, d.higherX), Oriented(b.y, d.higherY));
    ax >= bx && ay >= by' && (ax > bx || ay > by')
  }

  /** At least as good on one axis, read off the direction flag. */
  predicate AsGood(higher: bool, v: real, w: real) {
    if higher then v >= w else v <= w
  }

  /** What it means to beat a point: at least as good on both axes, and different on one. */
  predicate Beats(d: Directions, a: Point, b: Point) {
    && AsGood(d.higherX, a.x, b.x) && AsGood(d.higherY, a.y, b.y)
    && (a.x != b.x || a.y != b.y)
  }

  /** The comparison of sign-adjusted coordinates is that. */
  lemma {:induction false} DominatesIff(d: Directions, a: Point, b: Point)
    ensures Dominates(d, a, b) <==> Beats(d, a, b)
  {
  }

  ghost predicate BeatenIn(d: Directions, points: seq<Point>, p: Point) {
    exists q :: q in points && Beats(d, q, p)
  }

  lemma {:induction false} DominatedInIff(d: Directions, points: seq<Point>, p: Point)
    ensures DominatedIn(d, points, p) <==> BeatenIn(d, points, p)
  {
    if BeatenIn(d, points, p) {
      var q :| q in points && Beats(d, q, p);
      var i :| 0 <= i < |points| && points[i] == q;
      DominatesIff(d, points[i], p);
    }
    if DominatedIn(d, points, p) {
      var i :| 0 <= i < |points| && Dominates(d, points[i], p);
      DominatesIff(d, points[i], p);
    }
  }

  /** In the default directions: no more of x, no less of y, and not the same. */
  lemma {:induction false} LessMemoryMoreQuality(a: Point, b: Point)
    ensures Dominates(DEFAULT_DIRECTIONS, a, b) <==> a.x <= b.x && a.y >= b.y && a != b.(policy := a.policy)
  {
  }

  /** The rows that have both metrics. */
  function PointsOf(results: seq<Result>, x: string, y: string): seq<Point> {
    if results == [] then []
    else
      var last := Last(results);
      PointsOf(Init(results), x, y)
      + if x in last.metrics && y in last.metrics then [Point(last.metrics[x], last.metrics[y], last.policy)] else []
  }

  predicate DominatedIn(d: Directions, points: seq<Point>, p: Point) {
    exists i :: 0 <= i < |points| && Dominates(d, points[i], p)
  }

  function Undominated(d: Directions, points: seq<Point>): Point -> bool {
    p => !DominatedIn(d, points, p)
  }

  /** The non-dominated points in the order they were added. */
  function Frontier(d: Directions, points: seq<Point>): seq<Point> {
    Filter(points, Undominated(d, points))
  }

  function XKey(p: Point): real { p.x }

  class ParetoAnalyzer {
    var results: seq<Result>

    constructor ()
      ensures results == []
    {
      results := [];
    }

    method AddResult(r: Result)
      modifies this
      ensures results == old(results) + [r]
    {
      results := results + [r];
    }

    /** The frontier sorted by x; how equal x are ordered is up to the sort. */
    method ComputeParetoFrontier(x: string, y: string, d: Directions) returns (frame: Frame)
      ensures results == [] ==> frame == NoResults
      ensures results != [] && PointsOf(results, x, y) == [] ==> frame == KeyError
      ensures results != [] && PointsOf(results, x, y) != [] ==>
        && frame.Points?
        && Ordered(frame.points, XKey)
        && multiset(frame.points) == multiset(Frontier(d, PointsOf(results, x, y)))
        && forall p :: multiset(frame.points)[p] ==
             if BeatenIn(d, PointsOf(results, x, y), p) then 0 else multiset(PointsOf(results, x, y))[p]
    {
      if results == [] {
        return NoResults;
      }
      var points := PointsOf(results, x, y);
      var frontier: seq<Point> := [];
      for i := 0 to |points|
        invariant frontier == Filter(points[..i], Undominated(d, points))
      {
        var p := points[i];
        var dominated := false;
        for k := 0 to |points|
          invariant dominated <==> exists q :: 0 <= q < k && Dominates(d, points[q], p)
        {
          if k != i && Dominates(d, points[k], p) {
            dominated := true;
          }
        }
        assert points[..i + 1] == points[..i] + [p];
        FilterAppend(points[..i], [p], Undominated(d, points));
        if !dominated {
          frontier := frontier + [p];
        }
      }
      assert points[..|points|] == points;
      if frontier == [] {
        if points != [] {
          SomethingSurvives(d, points);
        }
        return KeyError;
      }
      SortIsOrderedRearrangement(frontier, XKey);
      forall p
        ensures multiset(frontier)[p] == if BeatenIn(d, points, p) then 0 else multiset(points)[p]
      {
        FilterMultiplicity(points, Undominated(d, points), p);
        DominatedInIff(d, points, p);
      }
      frame := Points(SortBy(frontier, XKey));
    }

    /** A scan of the given points. */
    method IsDominated(point: Point, frontier: seq<Point>, d: Directions) returns (dominated: bool)
      ensures dominated == DominatedIn(d, frontier, point)
      ensures dominated <==> BeatenIn(d, frontier, point)
    {
      DominatedInIff(d, frontier, point);
      for i := 0 to |frontier|
        invariant forall q :: 0 <= q < i ==> !Dominates(d, frontier[q], point)
      {
        if Dominates(d, frontier[i], point) {
          return true;
        }
      }
      return false;
    }
  }

  /** The points are the results that have both metrics, with their values. */
  lemma {:induction false} PointsAreResults(results: seq<Result>, x: string, y: string, p: Point)
    ensures p in PointsOf(results, x, y) <==>
      exists r :: r in results && x in r.metrics && y in r.metrics && p == Point(r.metrics[x], r.metrics[y], r.policy)
  {
    if results != [] {
      var rest, last := Init(results), Last(results);
      assert results == rest + [last];
      PointsAreResults(rest, x, y, p);
    }
  }

  /** Results added later contribute their points after the others. */
  lemma {:induction false} PointsOfMore(results: seq<Result>, r: Result, x: string, y: string)
    ensures PointsOf(results + [r], x, y) == PointsOf(results, x, y)
      + if x in r.metrics && y in r.metrics then [Point(r.metrics[x], r.metrics[y], r.policy)] else []
  {
    assert Init(results + [r]) == results && Last(results + [r]) == r;
  }

  // ---------- domination is a strict order ----------

  lemma {:induction false} StrictOrder(d: Directions, a: Point, b: Point, c: Point)
    ensures !Dominates(d, a, a)
    ensures Dominates(d, a, b) ==> !Dominates(d, b, a)
    ensures Dominates(d, a, b) && Dominates(d, b, c) ==> Dominates(d, a, c)
  {
  }

  // ---------- completeness ----------

  /** Everything that dominates `p` is itself dominated only by other things that dominate `p`. */
  function Dominators(d: Directions, points: seq<Point>, p: Point): set<Point> {
    set q | q in points && Dominates(d, q, p)
  }

  /** A dominated point is dominated by a frontier member. */
  lemma {:induction false} SomeFrontierMemberDominates(d: Directions, points: seq<Point>, p: Point)
    requires DominatedIn(d, points, p)
    ensures DominatedIn(d, Frontier(d, points), p)
    decreases |Dominators(d, points, p)|
  {
    var i :| 0 <= i < |points| && Dominates(d, points[i], p);
    var q := points[i];
    var front := Frontier(d, points);
    FilterIn(points, Undominated(d, points));
    if DominatedIn(d, points, q) {
      assert q in Dominators(d, points, p) && q !in Dominators(d, points, q);
      assert Dominators(d, points, q) <= Dominators(d, points, p) - {q};
      Fewer(Dominators(d, points, q), Dominators(d, points, p), q);
      SomeFrontierMemberDominates(d, points, q);
      var k :| 0 <= k < |front| && Dominates(d, front[k], q);
      assert Dominates(d, front[k], p);
    } else {
      assert q in front;
    }
  }

  lemma {:induction false} Fewer(a: set<Point>, b: set<Point>, q: Point)
    requires a <= b - {q} && q in b
    ensures |a| < |b|
  {
    assert b == a + (b - a);
    assert q in b - a;
  }

  /** The frontier answers domination queries as the whole set would, for any point. */
  lemma {:induction false} FrontierDecidesDomination(d: Directions, points: seq<Point>, p: Point)
    ensures DominatedIn(d, Frontier(d, points), p) <==> DominatedIn(d, points, p)
  {
    if DominatedIn(d, points, p) {
      SomeFrontierMemberDominates(d, points, p);
    }
    var front := Frontier(d, points);
    FilterIn(points, Undominated(d, points));
    if DominatedIn(d, front, p) {
      var k :| 0 <= k < |front| && Dominates(d, front[k], p);
      assert front[k] in points;
    }
  }

  /** Of some points something survives. */
  lemma {:induction false} SomethingSurvives(d: Directions, points: seq<Point>)
    requires points != []
    ensures Frontier(d, points) != []
  {
    FilterIn(points, Undominated(d, points));
    if DominatedIn(d, points, points[0]) {
      SomeFrontierMemberDominates(d, points, points[0]);
    } else {
      assert points[0] in points;
      assert points[0] in Frontier(d, points);
    }
  }

  /** The frontier is an antichain of points of the set, and every point left out is dominated by one of it. */
  lemma {:induction false} FrontierIsComplete(d: Directions, points: seq<Point>, p: Point)
    requires p in points
    ensures p in Frontier(d, points) <==> !DominatedIn(d, Frontier(d, points), p)
  {
    FrontierDecidesDomination(d, points, p);
    FilterIn(points, Undominated(d, points));
  }

  // ---------- merging ----------

  lemma {:induction false} FilterMultiplicity(s: seq<Point>, p: Point -> bool, x: Point)
    ensures multiset(Filter(s, p))[x] == if p(x) then multiset(s)[x] else 0
  {
    if s != [] {
      FilterMultiplicity(s[1..], p, x);
      assert s == [s[0]] + s[1..];
    }
  }

  /** Domination in a list depends only on what is in it. */
  lemma {:induction false} DominatedInMembers(d: Directions, s: seq<Point>, t: seq<Point>, p: Point)
    requires forall q :: q in s ==> q in t
    ensures DominatedIn(d, s, p) ==> DominatedIn(d, t, p)
  {
    if DominatedIn(d, s, p) {
      var i :| 0 <= i < |s| && Dominates(d, s[i], p);
      assert s[i] in t;
      var j :| 0 <= j < |t| && t[j] == s[i];
    }
  }

  lemma {:induction false} DominatedInSum(d: Directions, s: seq<Point>, t: seq<Point>, p: Point)
    ensures DominatedIn(d, s + t, p) <==> DominatedIn(d, s, p) || DominatedIn(d, t, p)
  {
    DominatedInMembers(d, s, s + t, p);
    DominatedInMembers(d, t, s + t, p);
    if DominatedIn(d, s + t, p) {
      var i :| 0 <= i < |s + t| && Dominates(d, (s + t)[i], p);
      assert if i < |s| then (s + t)[i] == s[i] else (s + t)[i] == t[i - |s|];
    }
  }

  /** `front` holds the frontier of `points`, in any order. */
  ghost predicate IsFrontierOf(d: Directions, front: seq<Point>, points: seq<Point>) {
    multiset(front) == multiset(Frontier(d, points))
  }

  lemma {:induction false} FrontierInAnyOrder(d: Directions, front: seq<Point>, points: seq<Point>, p: Point)
    requires IsFrontierOf(d, front, points)
    ensures DominatedIn(d, front, p) <==> DominatedIn(d, points, p)
    ensures multiset(front)[p] == if DominatedIn(d, points, p) then 0 else multiset(points)[p]
  {
    FrontierDecidesDomination(d, points, p);
    FilterMultiplicity(points, Undominated(d, points), p);
    forall q
      ensures q in front <==> q in Frontier(d, points)
    {
      assert q in multiset(front) <==> q in multiset(Frontier(d, points));
    }
    DominatedInMembers(d, front, Frontier(d, points), p);
    DominatedInMembers(d, Frontier(d, points), front, p);
  }

  /** Dropping dominated results before more are added loses nothing, however the frontiers are ordered. */
  lemma {:induction false} FrontierOfFrontiers(d: Directions, a: seq<Point>, b: seq<Point>, frontA: seq<Point>,
                                               frontB: seq<Point>)
    requires IsFrontierOf(d, frontA, a) && IsFrontierOf(d, frontB, b)
    ensures IsFrontierOf(d, Frontier(d, frontA + frontB), a + b)
  {
    var all, few := Frontier(d, a + b), Frontier(d, frontA + frontB);
    forall p
      ensures multiset(few)[p] == multiset(all)[p]
    {
      FilterMultiplicity(a + b, Undominated(d, a + b), p);
      FilterMultiplicity(frontA + frontB, Undominated(d, frontA + frontB), p);
      DominatedInSum(d, a, b, p);
      DominatedInSum(d, frontA, frontB, p);
      FrontierInAnyOrder(d, frontA, a, p);
      FrontierInAnyOrder(d, frontB, b, p);
    }
  }

  /** Computing the frontier of a frontier changes nothing, in order as well. */
  lemma {:induction false} FrontierIsIdempotent(d: Directions, points: seq<Point>)
    ensures Frontier(d, Frontier(d, points)) == Frontier(d, points)
  {
    var front := Frontier(d, points);
    FilterIn(points, Undominated(d, points));
    forall p | p in front
      ensures Undominated(d, front)(p)
    {
      FrontierDecidesDomination(d, points, p);
    }
    FilterAll(front, Undominated(d, front));
  }

  // ---------- the shape of the reported curve ----------

  /**
   Along the reported frontier equal x force equal y; when the axes point opposite ways y grows with x, else it falls.
   */
  lemma {:induction false} FrontierCurve(d: Directions, points: seq<Point>, front: seq<Point>, i: nat, j: nat)
    requires IsFrontierOf(d, front, points) && Ordered(front, XKey)
    requires i < j < |front|
    ensures front[i].x == front[j].x ==> front[i].y == front[j].y
    ensures front[i].x < front[j].x ==>
      if d.higherX == d.higherY then front[i].y > front[j].y else front[i].y < front[j].y
  {
    var p, q := front[i], front[j];
    assert XKey(p) <= XKey(q);
    assert p in multiset(front) && q in multiset(front);
    assert p in front && q in front;
    FrontierInAnyOrder(d, front, points, p);
    FrontierInAnyOrder(d, front, points, q);
    assert !Dominates(d, front[i], q) && !Dominates(d, front[j], p);
  }

  lemma {:induction false} DefaultCurveRises(points: seq<Point>, front: seq<Point>, i: nat, j: nat)
    requires IsFrontierOf(DEFAULT_DIRECTIONS, front, points) && Ordered(front, XKey)
    requires i < j < |front|
    ensures front[i].x < front[j].x ==> front[i].y < front[j].y
    ensures front[i].x == front[j].x ==> front[i].y == front[j].y
  {
    FrontierCurve(DEFAULT_DIRECTIONS, points, front, i, j);
  }
}
