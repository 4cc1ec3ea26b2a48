/** The graph of a workflow: for each function but the last, the functions that follow it. */
module Dags {
  type Successors = seq<seq<nat>>

  /** (i, k) stands for the k-th successor listed for function i. */
  type Edge = (nat, nat)

  predicate IsEdge(d: Successors, e: Edge) {
    e.0 < |d| && e.1 < |d[e.0]|
  }

  function Target(d: Successors, e: Edge): nat
    requires IsEdge(d, e)
  {
    d[e.0][e.1]
  }

  function Occurrences(q: seq<nat>, j: nat): nat {
    if q == [] then 0 else Occurrences(q[..|q| - 1], j) + if q[|q| - 1] == j then 1 else 0
  }

  /** How many invocations of j the graph announces, as checkPreconditions counts them. */
  function Expected(d: Successors, j: nat): nat {
    if d == [] then 0 else Expected(d[..|d| - 1], j) + Occurrences(d[|d| - 1], j)
  }

  ghost function EdgesTo(d: Successors, j: nat): set<Edge> {
    set i, k | 0 <= i < |d| && 0 <= k < |d[i]| && d[i][k] == j :: (i, k)
  }

  ghost function Positions(q: seq<nat>, j: nat): set<nat> {
    set k: nat | k < |q| && q[k] == j
  }

  ghost function Row(i: nat, ks: set<nat>): set<Edge> {
    set k | k in ks :: (i, k)
  }

  lemma {:induction false} OccurrencesCount(q: seq<nat>, j: nat)
    ensures Occurrences(q, j) == |Positions(q, j)|
  {
    if q != [] {
      var front := q[..|q| - 1];
      OccurrencesCount(front, j);
      if q[|q| - 1] == j {
        assert Positions(q, j) == Positions(front, j) + {|q| - 1};
      } else {
        assert Positions(q, j) == Positions(front, j);
      }
    }
  }

  lemma {:induction false} RowSize(i: nat, ks: set<nat>)
    ensures |Row(i, ks)| == |ks|
  {
    if ks != {} {
      var x :| x in ks;
      RowSize(i, ks - {x});
      assert Row(i, ks) == Row(i, ks - {x}) + {(i, x)};
      assert (i, x) !in Row(i, ks - {x});
    }
  }

  /** The number expected is the number of edges. */
  lemma {:induction false} ExpectedIsEdgeCount(d: Successors, j: nat)
    ensures Expected(d, j) == |EdgesTo(d, j)|
  {
    if d == [] {
      assert EdgesTo(d, j) == {};
    } else {
      var (front, last) := (d[..|d| - 1], |d| - 1);
      var row := Row(last, Positions(d[last], j));
      ExpectedIsEdgeCount(front, j);
      OccurrencesCount(d[last], j);
      RowSize(last, Positions(d[last], j));
      assert EdgesTo(d, j) == EdgesTo(front, j) + row;
      assert EdgesTo(front, j) !! row;
    }
  }

  /** Function 0 is the only one without predecessors, |d| the only one without successors,
      there are at least two functions, and a rank grows along every edge. */
  ghost predicate WellFormed(d: Successors) {
    && |d| >= 1
    && (forall i | 0 <= i < |d| :: d[i] != [])
    && (forall e: Edge | IsEdge(d, e) :: 0 < Target(d, e) <= |d|)
    && (forall j | 0 < j <= |d| :: EdgesTo(d, j) != {})
    && exists rank :: Ranks(d, rank)
  }

  ghost predicate Ranks(d: Successors, rank: seq<nat>) {
    && |rank| == |d| + 1
    && forall e: Edge | IsEdge(d, e) :: Target(d, e) <= |d| && rank[e.0] < rank[Target(d, e)]
  }
}
