/** Distances between the nodes of the network, and the ranking of router addresses
    by which the hierarchical controller chooses the home router of a computer. */
module NetworkTopology {
  import opened Wrappers
  import opened StringOrder

  /** Names map a node to its row; distances is the N x N matrix, row by row. */
  datatype Topology = Topology(names: map<string, nat>, distances: seq<real>) {
    ghost predicate Valid() {
      && (forall n | n in names :: names[n] < |names|)
      && |distances| == |names| * |names|
    }

    function NumNodes(): nat { |names| }

    /** None stands for the InvalidNode exception. */
    function Distance(src: string, dst: string): (r: Option<real>)
      requires Valid()
      ensures r.None? <==> src !in names || dst !in names
      ensures r.Some? ==> r.value in distances
    {
      if src !in names || dst !in names then None
      else
        RowMajorInRange(names[src], names[dst], |names|);
        Some(distances[names[src] * |names| + names[dst]])
    }

    /** Every distance is a whole number of hops, at most the number of nodes. */
    ghost predicate HopCounts() {
      forall d | d in distances :: 0.0 <= d <= NumNodes() as real && Whole(d)
    }
  }

  lemma {:induction false} RowMajorInRange(i: nat, j: nat, n: nat)
    requires i < n && j < n
    ensures i * n + j < n * n
  {
    Scale(i + 1, n, n);
    assert (i + 1) * n == i * n + n;
  }

  lemma {:induction false} Scale(a: nat, b: nat, c: nat)
    requires a <= b
    ensures a * c <= b * c
  {
    if c > 0 {
      Scale(a, b, c - 1);
      assert a * c == a * (c - 1) + a && b * c == b * (c - 1) + b;
    }
  }

  ghost predicate Whole(x: real) { x == x.Floor as real }

  datatype Objective = MinMax | MinAvg

  ghost predicate Known(t: Topology, q: seq<string>) {
    t.Valid() && forall x | x in q :: x in t.names
  }

  function Hops(t: Topology, src: string, dst: string): (d: real)
    requires t.Valid() && src in t.names && dst in t.names
    ensures d in t.distances
  {
    t.Distance(src, dst).value
  }

  function Larger(x: real, y: real): real { if x < y then y else x }

  /** The farthest router of q from r. */
  function Farthest(t: Topology, r: string, q: seq<string>): real
    requires Known(t, q) && r in t.names && q != []
  {
    var d := Hops(t, r, q[|q| - 1]);
    if |q| == 1 then d else Larger(Farthest(t, r, q[..|q| - 1]), d)
  }

  /** The sum of the distances from r to the routers of q. */
  function Spread(t: Topology, r: string, q: seq<string>): real
    requires Known(t, q) && r in t.names
  {
    if q == [] then 0.0 else Spread(t, r, q[..|q| - 1]) + Hops(t, r, q[|q| - 1])
  }

  /** No router of q is farther, and one of them is as far. */
  lemma {:induction false} FarthestIsMax(t: Topology, r: string, q: seq<string>)
    requires Known(t, q) && r in t.names && q != []
    ensures forall x | x in q :: Hops(t, r, x) <= Farthest(t, r, q)
    ensures exists x :: x in q && Hops(t, r, x) == Farthest(t, r, q)
  {
    hide Hops;
    var (front, last) := (q[..|q| - 1], q[|q| - 1]);
    assert q == front + [last];
    if |q| == 1 {
      assert last in q;
    } else {
      FarthestIsMax(t, r, front);
      if Hops(t, r, last) <= Farthest(t, r, front) {
        var x :| x in front && Hops(t, r, x) == Farthest(t, r, front);
        assert x in q;
      } else {
        assert last in q;
      }
    }
  }

  lemma SpreadLast(t: Topology, r: string, q: seq<string>, front: seq<string>, x: string)
    requires Known(t, q) && r in t.names && q == front + [x]
    ensures Known(t, front) && x in t.names && Spread(t, r, q) == Spread(t, r, front) + Hops(t, r, x)
  {
    hide Hops;
    assert q[|q| - 1] == x && q[..|q| - 1] == front;
  }

  /** Every router of q counts once. */
  lemma {:induction false} SpreadCountsEach(t: Topology, r: string, q: seq<string>, k: nat)
    requires Known(t, q) && r in t.names && k < |q|
    ensures Spread(t, r, q) == Hops(t, r, q[k]) + Spread(t, r, q[..k] + q[k + 1..])
  {
    hide Hops, Spread;
    var last := |q| - 1;
    var (front, rest) := (q[..last], q[..k] + q[k + 1..]);
    assert q == front + [q[last]];
    SpreadLast(t, r, q, front, q[last]);
    if k == last {
      assert rest == front;
    } else {
      SpreadCountsEach(t, r, front, k);
      assert rest == front[..k] + front[k + 1..] + [q[last]];
      SpreadLast(t, r, rest, front[..k] + front[k + 1..], q[last]);
    }
  }

  /** The maximum cost is that of reaching the computer, and then the router that is farthest from its home. */
  lemma MaxCostIsMax(t: Topology, q: seq<string>, c: string, r: string)
    requires Known(t, q) && r in t.names && c in t.names && q != []
    ensures forall x | x in q :: Hops(t, r, c) + Hops(t, r, x) <= MaxCost(t, q, c, r)
    ensures exists x :: x in q && Hops(t, r, c) + Hops(t, r, x) == MaxCost(t, q, c, r)
  {
    hide Hops, Farthest;
    FarthestIsMax(t, r, q);
    var x :| x in q && Hops(t, r, x) == Farthest(t, r, q);
    assert Hops(t, r, c) + Hops(t, r, x) == MaxCost(t, q, c, r);
  }

  function MaxCost(t: Topology, q: seq<string>, c: string, r: string): real
    requires Known(t, q) && r in t.names && c in t.names && q != []
  {
    Hops(t, r, c) + Farthest(t, r, q)
  }

  function Times(x: real, y: real): real { x * y }

  function Affine(n: nat, d: real, s: real): real { Times(n as real, d) + s }

  function AvgCost(t: Topology, q: seq<string>, c: string, r: string): real
    requires Known(t, q) && r in t.names && c in t.names && q != []
  {
    Affine(t.NumNodes(), Hops(t, r, c), Spread(t, r, q))
  }

  function Omega(t: Topology): real { 1.0 + 2.0 * (t.NumNodes() * t.NumNodes()) as real }

  function Score(t: Topology, o: Objective, q: seq<string>, c: string, r: string): real
    requires Known(t, q) && r in t.names && c in t.names && q != []
  {
    match o
    case MinMax => Times(Omega(t), MaxCost(t, q, c, r)) + AvgCost(t, q, c, r)
    case MinAvg => MaxCost(t, q, c, r) + Times(Omega(t), AvgCost(t, q, c, r))
  }

  /** a is the first address, in iteration order, among those of minimum score. */
  ghost predicate IsClosest(t: Topology, o: Objective, addresses: set<string>, c: string, a: string) {
    var q := Sorted(addresses);
    && Known(t, q) && c in t.names && a in addresses
    && forall b | b in addresses ::
         Score(t, o, q, c, a) < Score(t, o, q, c, b)
         || (Score(t, o, q, c, a) == Score(t, o, q, c, b) && Leq(a, b))
  }

  /** There is only one closest address, so a cached answer and a fresh one agree. */
  lemma ClosestIsUnique(t: Topology, o: Objective, addresses: set<string>, c: string, a: string, b: string)
    requires IsClosest(t, o, addresses, c, a) && IsClosest(t, o, addresses, c, b)
    ensures a == b
  {
    LeqAntisymmetric(a, b);
  }

  /** Position k holds the first of the least scores. */
  ghost predicate IsFirstMinimum(t: Topology, o: Objective, q: seq<string>, c: string, k: nat)
    requires Known(t, q) && c in t.names && k < |q|
  {
    forall j | 0 <= j < |q| ::
      Score(t, o, q, c, q[k]) < Score(t, o, q, c, q[j])
      || (Score(t, o, q, c, q[k]) == Score(t, o, q, c, q[j]) && k <= j)
  }

  lemma FirstMinimumIsClosest(t: Topology, o: Objective, addresses: set<string>, c: string, k: nat)
    requires Known(t, Sorted(addresses)) && c in t.names && k < |addresses|
    requires IsFirstMinimum(t, o, Sorted(addresses), c, k)
    ensures IsClosest(t, o, addresses, c, Sorted(addresses)[k])
  {
    hide Score, Sorted;
    var q := Sorted(addresses);
    forall b | b in addresses
      ensures Score(t, o, q, c, q[k]) < Score(t, o, q, c, b)
              || (Score(t, o, q, c, q[k]) == Score(t, o, q, c, b) && Leq(q[k], b))
    {
      var j :| 0 <= j < |q| && q[j] == b;
      LeqTotal(b, b);
    }
  }

  // --- the Omega score is lexicographic on hop counts ---

  lemma {:induction false} FarthestIsHopCount(t: Topology, r: string, q: seq<string>)
    requires Known(t, q) && r in t.names && t.HopCounts() && q != []
    ensures 0.0 <= Farthest(t, r, q) <= t.NumNodes() as real && Whole(Farthest(t, r, q))
  {
    hide Hops;
    if |q| > 1 {
      FarthestIsHopCount(t, r, q[..|q| - 1]);
    }
  }

  lemma {:induction false} SpreadIsHopCount(t: Topology, r: string, q: seq<string>)
    requires Known(t, q) && r in t.names && t.HopCounts()
    ensures 0.0 <= Spread(t, r, q) <= (|q| * t.NumNodes()) as real && Whole(Spread(t, r, q))
  {
    hide Hops;
    if q != [] {
      var front := q[..|q| - 1];
      var d := Hops(t, r, q[|q| - 1]);
      SpreadIsHopCount(t, r, front);
      WholeSum(Spread(t, r, front), d);
      OneMoreRow(|front|, t.NumNodes());
    }
  }

  lemma OneMoreRow(k: nat, n: nat)
    ensures (k * n) as real + n as real == ((k + 1) * n) as real
  {
    assert k * n + n == (k + 1) * n;
  }

  lemma WholeSum(x: real, y: real)
    requires Whole(x) && Whole(y)
    ensures Whole(x + y)
  {
    assert x + y == (x.Floor + y.Floor) as real;
  }

  lemma WholeAffine(n: nat, d: real, s: real)
    requires Whole(d) && Whole(s)
    ensures Whole(Affine(n, d, s))
  {
    var k := n * d.Floor + s.Floor;
    assert Times(n as real, d) == (n * d.Floor) as real;
    assert Affine(n, d, s) == k as real;
    assert (k as real).Floor == k;
  }

  lemma {:induction false} DistinctNodes(q: seq<string>, names: set<string>)
    requires forall x | x in q :: x in names
    requires forall i, j | 0 <= i < j < |q| :: q[i] != q[j]
    ensures |q| <= |names|
  {
    if q != [] {
      var last := q[|q| - 1];
      DistinctNodes(q[..|q| - 1], names - {last});
    }
  }

  /** A weight above every possible value of the second criterion ranks by the first one first. */
  lemma WeightedIsLexicographic(omega: real, x1: real, y1: real, x2: real, y2: real)
    requires Whole(x1) && Whole(x2)
    requires 0.0 <= y1 < omega && 0.0 <= y2 < omega
    ensures Times(omega, x1) + y1 < Times(omega, x2) + y2 <==> x1 < x2 || (x1 == x2 && y1 < y2)
  {
    hide Times, Whole;
    if x1 < x2 {
      WholeGap(x1, x2);
      OneStepUp(omega, x1, x2);
    } else if x2 < x1 {
      WholeGap(x2, x1);
      OneStepUp(omega, x2, x1);
    }
  }

  lemma WholeGap(x1: real, x2: real)
    requires Whole(x1) && Whole(x2) && x1 < x2
    ensures x1 + 1.0 <= x2
  {
    assert x1.Floor + 1 <= x2.Floor;
  }

  lemma TimesNonNegative(x: real, y: real)
    requires 0.0 <= x && 0.0 <= y
    ensures 0.0 <= Times(x, y)
  {
  }

  lemma OneStepUp(omega: real, x1: real, x2: real)
    requires x1 + 1.0 <= x2 && 0.0 <= omega
    ensures Times(omega, x1) + omega <= Times(omega, x2)
  {
    var k := x2 - x1 - 1.0;
    TimesNonNegative(omega, k);
    assert Times(omega, x2) == Times(omega, x1) + omega + Times(omega, k);
  }

  ghost predicate Before(o: Objective, max1: real, avg1: real, max2: real, avg2: real) {
    match o
    case MinMax => max1 < max2 || (max1 == max2 && avg1 < avg2)
    case MinAvg => avg1 < avg2 || (avg1 == avg2 && max1 < max2)
  }

  lemma CostArithmetic(n: nat, k: nat, d: real, far: real, spread: real)
    requires 1 <= k <= n && 0.0 <= d <= n as real && 0.0 <= far <= n as real
    requires 0.0 <= spread <= (k * n) as real
    ensures 0.0 <= d + far < 1.0 + 2.0 * (n * n) as real
    ensures 0.0 <= Affine(n, d, spread) < 1.0 + 2.0 * (n * n) as real
  {
    assert n <= n * n;
    assert k * n <= n * n;
    var x := n as real;
    assert Times(x, x) == (n * n) as real;
    TimesNonNegative(x, d);
    TimesNonNegative(x, x - d);
    assert Times(x, d) + Times(x, x - d) == Times(x, x);
  }

  lemma CostBounds(t: Topology, q: seq<string>, c: string, r: string)
    requires Known(t, q) && r in t.names && c in t.names && q != [] && t.HopCounts()
    requires forall i, j | 0 <= i < j < |q| :: q[i] != q[j]
    ensures Whole(MaxCost(t, q, c, r)) && 0.0 <= MaxCost(t, q, c, r) < Omega(t)
    ensures Whole(AvgCost(t, q, c, r)) && 0.0 <= AvgCost(t, q, c, r) < Omega(t)
  {
    hide Hops, Farthest, Spread, Affine;
    var d := Hops(t, r, c);
    FarthestIsHopCount(t, r, q);
    SpreadIsHopCount(t, r, q);
    DistinctNodes(q, t.names.Keys);
    WholeSum(d, Farthest(t, r, q));
    WholeAffine(t.NumNodes(), d, Spread(t, r, q));
    CostArithmetic(t.NumNodes(), |q|, d, Farthest(t, r, q), Spread(t, r, q));
  }

  /** On hop counts the score orders routers exactly by (max, avg) or (avg, max). */
  lemma OmegaIsLexicographic(t: Topology, o: Objective, q: seq<string>, c: string, a: string, b: string)
    requires Known(t, q) && c in t.names && a in t.names && b in t.names && q != [] && t.HopCounts()
    requires forall i, j | 0 <= i < j < |q| :: q[i] != q[j]
    ensures Score(t, o, q, c, a) < Score(t, o, q, c, b)
            <==> Before(o, MaxCost(t, q, c, a), AvgCost(t, q, c, a), MaxCost(t, q, c, b), AvgCost(t, q, c, b))
  {
    hide Omega, MaxCost, AvgCost;
    CostBounds(t, q, c, a);
    CostBounds(t, q, c, b);
    var (maxA, avgA) := (MaxCost(t, q, c, a), AvgCost(t, q, c, a));
    var (maxB, avgB) := (MaxCost(t, q, c, b), AvgCost(t, q, c, b));
    match o
    case MinMax => WeightedIsLexicographic(Omega(t), maxA, avgA, maxB, avgB);
    case MinAvg => WeightedIsLexicographic(Omega(t), avgA, maxA, avgB, maxB);
  }

  /** Ranking by the weighted score, with the leading cost first. */
  lemma WeightedIsRightIff(w: real, x1: real, y1: real, x2: real, y2: real)
    ensures (Times(w, x1) + y1 < Times(w, x2) + y2 <==> x1 < x2 || (x1 == x2 && y1 < y2)) <==>
      (x1 < x2 ==> y1 - y2 < Times(w, x2 - x1)) && (x2 < x1 ==> y2 - y1 <= Times(w, x1 - x2))
  {
    TimesDifference(w, x1, x2);
    TimesDifference(w, x2, x1);
    hide Times;
  }

  lemma TimesDifference(w: real, x: real, y: real)
    ensures Times(w, y - x) == Times(w, y) - Times(w, x)
  {}

  /**
   * For any distances, two routers are ranked as the objective says if and only if the gap of the
   * leading cost, weighted, outweighs what the other cost says against it.
   */
  lemma RankingIsRightIff(t: Topology, o: Objective, q: seq<string>, c: string, a: string, b: string)
    requires Known(t, q) && a in t.names && b in t.names && c in t.names && q != []
    ensures var (maxA, avgA) := (MaxCost(t, q, c, a), AvgCost(t, q, c, a));
            var (maxB, avgB) := (MaxCost(t, q, c, b), AvgCost(t, q, c, b));
            (Score(t, o, q, c, a) < Score(t, o, q, c, b) <==> Before(o, maxA, avgA, maxB, avgB)) <==>
            match o
            case MinMax => (maxA < maxB ==> avgA - avgB < Times(Omega(t), maxB - maxA)) && (maxB < maxA ==> avgB - avgA <= Times(Omega(t), maxA - maxB))
            case MinAvg => (avgA < avgB ==> maxA - maxB < Times(Omega(t), avgB - avgA)) && (avgB < avgA ==> maxB - maxA <= Times(Omega(t), avgA - avgB))
  {
    hide Omega, MaxCost, AvgCost, Times;
    var (maxA, avgA) := (MaxCost(t, q, c, a), AvgCost(t, q, c, a));
    var (maxB, avgB) := (MaxCost(t, q, c, b), AvgCost(t, q, c, b));
    match o
    case MinMax => WeightedIsRightIff(Omega(t), maxA, avgA, maxB, avgB);
    case MinAvg => WeightedIsRightIff(Omega(t), avgA, maxA, avgB, maxB);
  }

  /** Three nodes with fractional distances; the computer sits on "c", the routers on "a" and "b". */
  function Skewed(): Topology {
    Topology(map["a" := 0, "b" := 1, "c" := 2],
             [0.0, 0.0, 0.9,
              0.905, 0.0, 0.0,
              0.0, 0.0, 0.0])
  }

  lemma SkewedIsValid()
    ensures Skewed().names.Keys == {"a", "b", "c"} && Skewed().NumNodes() == 3 && Skewed().Valid()
  {
    var t := Skewed();
    assert t.names.Keys == {"a", "b", "c"};
    assert |t.names| == |t.names.Keys| == 3;
  }

  lemma SkewedHop(x: string, y: string)
    requires x in Skewed().names && y in Skewed().names
    ensures Skewed().Valid() && 3 * Skewed().names[x] + Skewed().names[y] < 9
    ensures Hops(Skewed(), x, y) == Skewed().distances[3 * Skewed().names[x] + Skewed().names[y]]
  {
    SkewedIsValid();
    var t := Skewed();
    assert t.names[x] * |t.names| == 3 * t.names[x];
  }

  lemma SkewedHops()
    ensures Skewed().names.Keys == {"a", "b", "c"} && Skewed().NumNodes() == 3 && Skewed().Valid()
    ensures Hops(Skewed(), "a", "a") == Hops(Skewed(), "a", "b") == 0.0 && Hops(Skewed(), "a", "c") == 0.9
    ensures Hops(Skewed(), "b", "a") == 0.905 && Hops(Skewed(), "b", "b") == Hops(Skewed(), "b", "c") == 0.0
  {
    SkewedIsValid();
    hide Hops;
    SkewedHop("a", "a");
    SkewedHop("a", "b");
    SkewedHop("a", "c");
    SkewedHop("b", "a");
    SkewedHop("b", "b");
    SkewedHop("b", "c");
  }

  lemma TwoRouters(t: Topology, r: string, x: string, y: string)
    requires Known(t, [x, y]) && r in t.names
    ensures Farthest(t, r, [x, y]) == Larger(Hops(t, r, x), Hops(t, r, y))
    ensures Spread(t, r, [x, y]) == Hops(t, r, x) + Hops(t, r, y)
  {
    hide Hops;
    assert [x, y][..1] == [x] && [x][..0] == [];
    assert Spread(t, r, [x]) == Spread(t, r, []) + Hops(t, r, x);
  }

  /** Fractional distances, as Topology::randomize draws them, break the ranking:
      under MinMax the router with the larger maximum cost is preferred. */
  lemma FractionalDistancesBreakTheRanking()
    ensures Known(Skewed(), ["a", "b"]) && "c" in Skewed().names
    ensures forall d | d in Skewed().distances :: 0.0 <= d <= 1.0
    ensures MaxCost(Skewed(), ["a", "b"], "c", "a") < MaxCost(Skewed(), ["a", "b"], "c", "b")
    ensures Score(Skewed(), MinMax, ["a", "b"], "c", "b") < Score(Skewed(), MinMax, ["a", "b"], "c", "a")
  {
    SkewedHops();
    TwoRouters(Skewed(), "a", "a", "b");
    TwoRouters(Skewed(), "b", "a", "b");
    hide Hops, Farthest, Spread;
    assert Omega(Skewed()) == 19.0;
  }

  /** Routers on "a", "b" and "c", and a computer on "p"; no distance is the same both ways. */
  function Lopsided(): Topology {
    Topology(map["a" := 0, "b" := 1, "c" := 2, "p" := 3],
             [0.0, 1.0, 0.0, 3.0,
              4.0, 0.0, 5.0, 5.0,
              4.0, 4.0, 0.0, 1.0,
              9.0, 0.0, 9.0, 0.0])
  }

  lemma LopsidedIsValid()
    ensures Lopsided().names.Keys == {"a", "b", "c", "p"} && Lopsided().NumNodes() == 4 && Lopsided().Valid()
  {
    var t := Lopsided();
    assert t.names.Keys == {"a", "b", "c", "p"};
    assert |t.names| == |t.names.Keys| == 4;
  }

  lemma LopsidedHop(x: string, y: string)
    requires x in Lopsided().names && y in Lopsided().names
    ensures Lopsided().Valid() && 4 * Lopsided().names[x] + Lopsided().names[y] < 16
    ensures Hops(Lopsided(), x, y) == Lopsided().distances[4 * Lopsided().names[x] + Lopsided().names[y]]
  {
    LopsidedIsValid();
    var t := Lopsided();
    assert t.names[x] * |t.names| == 4 * t.names[x];
  }

  lemma ThreeRouters(t: Topology, r: string, x: string, y: string, z: string)
    requires Known(t, [x, y, z]) && r in t.names
    ensures Farthest(t, r, [x, y, z]) == Larger(Larger(Hops(t, r, x), Hops(t, r, y)), Hops(t, r, z))
    ensures Spread(t, r, [x, y, z]) == Hops(t, r, x) + Hops(t, r, y) + Hops(t, r, z)
  {
    hide Hops;
    assert [x, y, z][..2] == [x, y];
    TwoRouters(t, r, x, y);
  }

  lemma LopsidedHops(r: string)
    requires r in {"a", "b", "c"}
    ensures Known(Lopsided(), ["a", "b", "c"]) && r in Lopsided().names && "p" in Lopsided().names && Lopsided().NumNodes() == 4
    ensures Hops(Lopsided(), r, "a") == if r == "a" then 0.0 else 4.0
    ensures Hops(Lopsided(), r, "b") == if r == "a" then 1.0 else if r == "b" then 0.0 else 4.0
    ensures Hops(Lopsided(), r, "c") == if r == "b" then 5.0 else 0.0
    ensures Hops(Lopsided(), r, "p") == if r == "a" then 3.0 else if r == "b" then 5.0 else 1.0
  {
    LopsidedIsValid();
    LopsidedRows();
    hide Hops, Lopsided;
    LopsidedFrom(r, if r == "a" then 0 else if r == "b" then 1 else 2);
  }

  lemma LopsidedRows()
    ensures var (t, d) := (Lopsided(), Lopsided().distances);
            && t.names == map["a" := 0, "b" := 1, "c" := 2, "p" := 3] && |d| == 16
            && d[0] == 0.0 && d[1] == 1.0 && d[2] == 0.0 && d[3] == 3.0
            && d[4] == 4.0 && d[5] == 0.0 && d[6] == 5.0 && d[7] == 5.0
            && d[8] == 4.0 && d[9] == 4.0 && d[10] == 0.0 && d[11] == 1.0
  {}

  lemma LopsidedFrom(r: string, k: nat)
    requires r in Lopsided().names && k == Lopsided().names[r] && k < 3
    ensures Lopsided().Valid() && Known(Lopsided(), ["a", "b", "c", "p"]) && |Lopsided().distances| == 16
    ensures var (t, row) := (Lopsided(), 4 * k);
            && Hops(t, r, "a") == t.distances[row] && Hops(t, r, "b") == t.distances[row + 1]
            && Hops(t, r, "c") == t.distances[row + 2] && Hops(t, r, "p") == t.distances[row + 3]
  {
    LopsidedIsValid();
    LopsidedRows();
    hide Hops, Lopsided;
    LopsidedHop(r, "a");
    LopsidedHop(r, "b");
    LopsidedHop(r, "c");
    LopsidedHop(r, "p");
  }

  lemma LopsidedCosts(r: string)
    requires r in {"a", "b", "c"}
    ensures var (t, q) := (Lopsided(), ["a", "b", "c"]);
            && Known(t, q) && r in t.names && "p" in t.names
            && MaxCost(t, q, "p", r) == (if r == "a" then 4.0 else if r == "b" then 10.0 else 5.0)
            && AvgCost(t, q, "p", r) == (if r == "a" then 13.0 else if r == "b" then 29.0 else 12.0)
  {
    hide Hops, Farthest, Spread, Lopsided, Known;
    LopsidedHops(r);
    ThreeRouters(Lopsided(), r, "a", "b", "c");
  }

  lemma LopsidedScores(r: string)
    requires r in {"a", "b", "c"}
    ensures var (t, q) := (Lopsided(), ["a", "b", "c"]);
            && Known(t, q) && r in t.names && "p" in t.names
            && Score(t, MinMax, q, "p", r) == (if r == "a" then 145.0 else if r == "b" then 359.0 else 177.0)
            && Score(t, MinAvg, q, "p", r) == (if r == "a" then 433.0 else if r == "b" then 967.0 else 401.0)
  {
    hide MaxCost, AvgCost, Lopsided, Known;
    LopsidedIsValid();
    LopsidedCosts(r);
    assert Omega(Lopsided()) == 33.0;
  }

  lemma SortedLetters()
    ensures Sorted({"a", "b", "c"}) == ["a", "b", "c"]
  {
    var q := Sorted({"a", "b", "c"});
    hide Sorted;
    assert |{"a", "b", "c"}| == 3;
    assert Leq("a", "b") && Leq("a", "c") && Leq("b", "c") && !Leq("b", "a") && !Leq("c", "a") && !Leq("c", "b");
    hide Leq;
    assert q[0] in q && q[1] in q && q[2] in q;
  }

  /** The home on this network is "a" for the smallest maximum and "c" for the smallest average, as the source computes them. */
  lemma HomesOnLopsided()
    ensures IsClosest(Lopsided(), MinMax, {"a", "b", "c"}, "p", "a")
    ensures IsClosest(Lopsided(), MinAvg, {"a", "b", "c"}, "p", "c")
  {
    hide Score, Sorted, Leq, Lopsided, Known;
    SortedLetters();
    LopsidedScores("a");
    LopsidedScores("b");
    LopsidedScores("c");
    LeqTotal("a", "a");
    LeqTotal("c", "c");
  }
}
