/**
 * Giving the requests of tasks to workers with limited capacities: one unit at a time, either
 * each to the cheapest worker with capacity left, or at random.
 */
module Mcfp {
  import opened Vectors
  import opened Lists
  import opened Wrappers

  type Costs = seq<seq<real>>

  /** A request or a capacity below zero counts as none. */
  function Pos(x: int): nat { if x > 0 then x else 0 }

  function Units(v: seq<int>): (r: seq<nat>)
    ensures |r| == |v| && forall i | 0 <= i < |v| :: r[i] == Pos(v[i])
  {
    seq(|v|, i requires 0 <= i < |v| => Pos(v[i]))
  }

  function Min(a: nat, b: nat): nat { if a <= b then a else b }

  predicate Consistent(costs: Costs, requests: seq<int>, capacities: seq<int>) {
    costs != [] && Shape(costs, |requests|, |capacities|)
  }

  /** The number of tasks and workers, or the complaint about the input. */
  method InputCheck(costs: Costs, requests: seq<int>, capacities: seq<int>) returns (r: Result<(nat, nat)>)
    ensures r.Ok? <==> Consistent(costs, requests, capacities)
    ensures r.Ok? ==> r.value == (|requests|, |capacities|)
  {
    if costs == [] {
      return Err("Invalid empty cost matrix");
    }
    var (t, w) := (|costs|, |costs[0]|);
    for i := 0 to t
      invariant forall k | 0 <= k < i :: |costs[k]| == w
    {
      if |costs[i]| != w {
        return Err("Invalid cost matrix");
      }
    }
    if |requests| != t {
      return Err("Invalid requests size");
    }
    if |capacities| != w {
      return Err("Invalid capacity size");
    }
    return Ok((t, w));
  }

  // --- what an assignment must do ---

  /** No task gets more than it requests and no worker more than it can take. */
  ghost predicate Respects(m: Matrix, requests: seq<nat>, capacities: seq<nat>) {
    Shape(m, |requests|, |capacities|) &&
    (forall i | 0 <= i < |m| :: Sum(m[i]) <= requests[i]) &&
    forall j | 0 <= j < |capacities| :: ColSum(m, j) <= capacities[j]
  }

  /** The capacities, without what the units in m take. */
  ghost predicate Left(m: Matrix, capacities: seq<nat>, left: seq<nat>) {
    |left| == |capacities| && Shape(m, |m|, |left|) &&
    (forall j | 0 <= j < |left| :: ColSum(m, j) + left[j] == capacities[j]) &&
    GrandSum(m) + Sum(left) == Sum(capacities)
  }

  lemma LeftUp(m: Matrix, capacities: seq<nat>, left: seq<nat>, i: nat, j: nat)
    requires Left(m, capacities, left) && i < |m| && j < |left| && left[j] > 0
    ensures Left(Up(m, i, j), capacities, left[j := left[j] - 1])
  {
    hide Sum, ColSum, GrandSum;
    var r := Up(m, i, j);
    hide Up;
    UpGrand(m, i, j);
    SumSet(left, j, left[j] - 1);
    forall k | 0 <= k < |left| ensures ColSum(r, k) == ColSum(m, k) + if k == j then 1 else 0 { UpCol(m, i, j, k); }
  }

  /** What any solution promises that gives out units until tasks or workers are exhausted. */
  ghost predicate FullResult(m: Matrix, requests: seq<nat>, capacities: seq<nat>) {
    Respects(m, requests, capacities) && GrandSum(m) == Min(Sum(requests), Sum(capacities))
  }

  /** What respects requests and capacities can be completed, without taking a unit back. */
  lemma {:induction false} Complete(m: Matrix, requests: seq<nat>, capacities: seq<nat>, left: seq<nat>, i: nat, j: nat) returns (r: Matrix)
    requires |m| == |requests| && Left(m, capacities, left) && (forall k | 0 <= k < |m| :: Sum(m[k]) <= requests[k])
    requires i < |m| && j < |capacities|
    ensures FullResult(r, requests, capacities) && r[i][j] >= m[i][j]
    decreases Sum(left)
  {
    hide Sum, ColSum, GrandSum;
    if GrandSum(m) == Min(Sum(requests), Sum(capacities)) {
      return m;
    }
    var k := ShortRow(m, requests, capacities, left);
    var w := RoomLeft(left);
    LeftUp(m, capacities, left, k, w);
    UpRow(m, k, w);
    SumSet(left, w, left[w] - 1);
    r := Complete(Up(m, k, w), requests, capacities, left[w := left[w] - 1], i, j);
  }

  /** A task that could get more. */
  lemma ShortRow(m: Matrix, requests: seq<nat>, capacities: seq<nat>, left: seq<nat>) returns (k: nat)
    requires |m| == |requests| && Left(m, capacities, left) && forall i | 0 <= i < |m| :: Sum(m[i]) <= requests[i]
    requires GrandSum(m) != Min(Sum(requests), Sum(capacities))
    ensures k < |m| && Sum(m[k]) < requests[k] && Sum(left) > 0
  {
    hide Sum, GrandSum, ColSum;
    GrandAtMost(m, requests);
    k :| 0 <= k < |m| && Sum(m[k]) != requests[k];
  }

  lemma RoomLeft(left: seq<nat>) returns (w: nat)
    requires Sum(left) > 0
    ensures w < |left| && left[w] > 0
  {
    SumZero(left);
    w :| 0 <= w < |left| && left[w] != 0;
  }

  /** Some full assignment gives a unit of task i to worker w. */
  lemma FullWith(requests: seq<nat>, capacities: seq<nat>, i: nat, w: nat) returns (m: Matrix)
    requires i < |requests| && w < |capacities| && requests[i] > 0 && capacities[w] > 0
    ensures FullResult(m, requests, capacities) && Shape(m, |requests|, |capacities|) && m[i][w] > 0
  {
    hide Sum, ColSum, GrandSum, FullResult;
    var zero := Zeros(|requests|, |capacities|);
    NothingGiven(zero, capacities);
    LeftUp(zero, capacities, capacities, i, w);
    UpRow(zero, i, w);
    m := Complete(Up(zero, i, w), requests, capacities, capacities[w := capacities[w] - 1], i, w);
    HasShape(m, requests, capacities);
  }

  lemma HasShape(m: Matrix, requests: seq<nat>, capacities: seq<nat>)
    requires FullResult(m, requests, capacities)
    ensures Shape(m, |requests|, |capacities|)
  {}

  lemma NothingGiven(m: Matrix, capacities: seq<nat>)
    requires Shape(m, |m|, |capacities|) && AllZero(m)
    ensures Left(m, capacities, capacities) && forall k | 0 <= k < |m| :: Sum(m[k]) == 0
  {
    var c: seq<seq<real>> := seq(|m|, i => seq(|capacities|, j => 0.0));
    ZeroSums(m, c, |capacities|);
    forall k | 0 <= k < |m| ensures Sum(m[k]) == 0 { SumZero(m[k]); }
  }

  // --- rows at least cost ---

  /** Worker j comes before worker k: it is cheaper, or costs the same and is listed first. */
  predicate Before(cost: seq<real>, j: nat, k: nat)
    requires j < |cost| && k < |cost|
  {
    cost[j] < cost[k] || (cost[j] == cost[k] && j <= k)
  }

  /** A worker is used only when none before it has room. */
  ghost predicate CheapFirst(row: seq<nat>, room: seq<nat>, cost: seq<real>) {
    |row| == |room| == |cost| &&
    (forall j | 0 <= j < |row| :: row[j] <= room[j]) &&
    forall j, k | 0 <= j < |row| && 0 <= k < |row| && row[j] > 0 && row[k] < room[k] :: Before(cost, j, k)
  }

  /** No other way to place as many units in the same room costs less. */
  ghost predicate Cheapest(row: seq<nat>, room: seq<nat>, cost: seq<real>) {
    |row| == |room| == |cost| &&
    forall x: seq<nat> | |x| == |row| && Sum(x) == Sum(row) && (forall j | 0 <= j < |x| :: x[j] <= room[j]) ::
      Dot(row, cost) <= Dot(x, cost)
  }

  /** t separates the costs of the units in row from those of the room it leaves. */
  ghost predicate Separates(t: real, row: seq<nat>, x: seq<nat>, cost: seq<real>) {
    |row| == |x| == |cost| &&
    forall j | 0 <= j < |row| :: (row[j] > x[j] ==> cost[j] <= t) && (row[j] < x[j] ==> t <= cost[j])
  }

  lemma TimesSeparated(t: real, r: nat, x: nat, c: real)
    requires (r > x ==> c <= t) && (r < x ==> t <= c)
    ensures Times(r, c) + Times(x, t) <= Times(x, c) + Times(r, t)
  {
    var d := (x as real - r as real) * (c - t);
    assert d >= 0.0;
    assert d == x as real * c + r as real * t - x as real * t - r as real * c;
  }

  lemma {:induction false} DotSeparated(t: real, row: seq<nat>, x: seq<nat>, cost: seq<real>)
    requires Separates(t, row, x, cost)
    ensures Dot(row, cost) + Times(Sum(x), t) <= Dot(x, cost) + Times(Sum(row), t)
  {
    if row != [] {
      var last := |row| - 1;
      DotSeparated(t, row[..last], x[..last], cost[..last]);
      TimesSeparated(t, row[last], x[last], cost[last]);
      TimesSum(Sum(x[..last]), x[last], t);
      TimesSum(Sum(row[..last]), row[last], t);
      hide Times;
    }
  }

  /** The most expensive worker in use. */
  lemma {:induction false} MostExpensive(row: seq<nat>, cost: seq<real>) returns (j: nat)
    requires |cost| == |row| && Sum(row) > 0
    ensures j < |row| && row[j] > 0 && forall k | 0 <= k < |row| && row[k] > 0 :: cost[k] <= cost[j]
  {
    var last := |row| - 1;
    if Sum(row[..last]) == 0 {
      SumZero(row[..last]);
      assert forall k | 0 <= k < last :: row[k] == row[..last][k];
      return last;
    }
    j := MostExpensive(row[..last], cost[..last]);
    assert forall k | 0 <= k < last && row[k] > 0 :: row[..last][k] > 0 && cost[k] == cost[..last][k];
    if row[last] > 0 && cost[last] > cost[j] {
      j := last;
    }
  }

  lemma CheapFirstIsCheapest(row: seq<nat>, room: seq<nat>, cost: seq<real>)
    requires CheapFirst(row, room, cost)
    ensures Cheapest(row, room, cost)
  {
    forall x: seq<nat> | |x| == |row| && Sum(x) == Sum(row) && forall j | 0 <= j < |x| :: x[j] <= room[j]
      ensures Dot(row, cost) <= Dot(x, cost)
    {
      if Sum(row) == 0 {
        SumZero(row);
        SumZero(x);
        assert x == row;
      } else {
        var j := MostExpensive(row, cost);
        DotSeparated(cost[j], row, x, cost);
      }
    }
  }

  // --- the greedy solution ---

  /** The cost matrix of the loop: workers without capacity are at infinity from row i on. */
  ghost predicate Blocked(now: Costs, costs: Costs, left: seq<nat>, i: nat, inf: real) {
    Shape(now, |costs|, |left|) && Shape(costs, |costs|, |left|) &&
    forall k, j | i <= k < |costs| && 0 <= j < |left| :: now[k][j] == if left[j] == 0 then inf else costs[k][j]
  }

  /** Column j at infinity, from row i on. */
  method BlockColumn(costs: Costs, i: nat, j: nat, inf: real) returns (r: Costs)
    requires i <= |costs| && forall k | 0 <= k < |costs| :: j < |costs[k]|
    ensures |r| == |costs| && (forall k | 0 <= k < |costs| :: |r[k]| == |costs[k]|)
    ensures forall k, l | 0 <= k < |costs| && 0 <= l < |costs[k]| :: r[k][l] == if k >= i && l == j then inf else costs[k][l]
  {
    r := costs;
    for k := i to |costs|
      invariant |r| == |costs| && (forall n | 0 <= n < |costs| :: |r[n]| == |costs[n]|)
      invariant forall n, l | 0 <= n < |costs| && 0 <= l < |costs[n]| :: r[n][l] == if i <= n < k && l == j then inf else costs[n][l]
    {
      r := r[k := r[k][j := inf]];
    }
  }

  /** The first cheapest worker. */
  method MinElement(row: seq<real>) returns (j: nat)
    requires row != []
    ensures j < |row| && (forall k | 0 <= k < |row| :: row[j] <= row[k]) && forall k | 0 <= k < j :: row[j] < row[k]
  {
    j := 0;
    for i := 1 to |row|
      invariant j < i && (forall k | 0 <= k < i :: row[j] <= row[k]) && forall k | 0 <= k < j :: row[j] < row[k]
    {
      if row[i] < row[j] {
        j := i;
      }
    }
  }

  /** The capacity that the first i tasks leave to the next one. */
  ghost function Room(m: Matrix, capacities: seq<nat>, i: nat): (room: seq<nat>)
    requires i <= |m| && Shape(m, |m|, |capacities|)
    ensures |room| == |capacities| && forall j | 0 <= j < |room| :: room[j] == Pos(capacities[j] - ColSum(m[..i], j))
  {
    seq(|capacities|, j requires 0 <= j < |capacities| => Pos(capacities[j] - ColSum(m[..i], j)))
  }

  ghost predicate RowCheapest(m: Matrix, costs: Costs, capacities: seq<nat>, i: nat)
    requires i < |m|
  {
    SameShape(m, costs) && Shape(m, |m|, |capacities|) &&
    CheapFirst(m[i], Room(m, capacities, i), costs[i]) && Cheapest(m[i], Room(m, capacities, i), costs[i])
  }

  /** What the greedy solution promises about its assignment. */
  ghost predicate GreedyResult(m: Matrix, costs: Costs, requests: seq<nat>, capacities: seq<nat>) {
    FullResult(m, requests, capacities) &&
    (forall i | 0 <= i < |m| :: RowCheapest(m, costs, capacities, i)) &&
    forall i, k | 0 <= i < k < |m| && Sum(m[i]) < requests[i] :: Sum(m[k]) == 0
  }

  /** Rows before i are complete, row i has u units and those after it none. */
  ghost predicate Served(m: Matrix, requests: seq<nat>, i: nat, u: nat) {
    |m| == |requests| && i <= |m| &&
    (forall k | 0 <= k < i :: Sum(m[k]) == requests[k]) &&
    (forall k | i <= k < |m| :: Sum(m[k]) == if k == i then u else 0) &&
    (i < |m| ==> u <= requests[i])
  }

  /** Row i takes the cheapest of the room that the rows before it have left. */
  ghost predicate RowInProgress(m: Matrix, costs: Costs, capacities: seq<nat>, left: seq<nat>, i: nat) {
    i < |m| && SameShape(m, costs) && Shape(m, |m|, |capacities|) && |left| == |capacities| &&
    CheapFirst(m[i], Room(m, capacities, i), costs[i]) &&
    forall j | 0 <= j < |left| :: Room(m, capacities, i)[j] == m[i][j] + left[j]
  }

  /** The invariant of the loops: row i has been given u units. */
  ghost predicate Serving(m: Matrix, costs: Costs, requests: seq<nat>, capacities: seq<nat>, left: seq<nat>, i: nat, u: nat) {
    SameShape(m, costs) && Served(m, requests, i, u) && Left(m, capacities, left) &&
    (forall k | 0 <= k < i :: RowCheapest(m, costs, capacities, k)) &&
    (i < |m| ==> RowInProgress(m, costs, capacities, left, i))
  }

  lemma ServedUp(m: Matrix, requests: seq<nat>, i: nat, u: nat, j: nat)
    requires Served(m, requests, i, u) && i < |m| && u < requests[i] && j < |m[i]|
    ensures Served(Up(m, i, j), requests, i, u + 1)
  {
    hide Sum;
    UpRow(m, i, j);
  }

  lemma RowUp(m: Matrix, costs: Costs, capacities: seq<nat>, left: seq<nat>, i: nat, j: nat)
    requires RowInProgress(m, costs, capacities, left, i) && j < |left| && left[j] > 0
    requires j < |costs[i]| == |left| && forall k | 0 <= k < |left| && left[k] > 0 :: Before(costs[i], j, k)
    ensures RowInProgress(Up(m, i, j), costs, capacities, left[j := left[j] - 1], i)
  {
    hide ColSum, Pos, Room;
    RoomUp(m, capacities, i, j, i);
  }

  lemma RoomUp(m: Matrix, capacities: seq<nat>, i: nat, j: nat, k: nat)
    requires k <= i < |m| && Shape(m, |m|, |capacities|) && j < |capacities|
    ensures Room(Up(m, i, j), capacities, k) == Room(m, capacities, k)
  {
    assert Up(m, i, j)[..k] == m[..k];
  }

  /** One more unit for task i, to a cheapest worker with capacity left. */
  lemma ServeUp(m: Matrix, costs: Costs, requests: seq<nat>, capacities: seq<nat>, left: seq<nat>, i: nat, u: nat, j: nat)
    requires Serving(m, costs, requests, capacities, left, i, u) && i < |m| && u < requests[i]
    requires j < |left| && left[j] > 0 && |costs[i]| == |left| && forall k | 0 <= k < |left| && left[k] > 0 :: Before(costs[i], j, k)
    ensures Serving(Up(m, i, j), costs, requests, capacities, left[j := left[j] - 1], i, u + 1)
  {
    hide Served, Left, RowInProgress, Cheapest, CheapFirst, Room, Before;
    assert |left| == |capacities| && Shape(m, |m|, |capacities|) by { ShapeOf(m, capacities, left); }
    ServedUp(m, requests, i, u, j);
    RowUp(m, costs, capacities, left, i, j);
    LeftUp(m, capacities, left, i, j);
    forall k | 0 <= k < i ensures RowCheapest(Up(m, i, j), costs, capacities, k) {
      assert RowCheapest(m, costs, capacities, k);
      RoomUp(m, capacities, i, j, k);
    }
  }

  lemma ShapeOf(m: Matrix, capacities: seq<nat>, left: seq<nat>)
    requires Left(m, capacities, left)
    ensures |left| == |capacities| && Shape(m, |m|, |capacities|)
  {}

  /** Task i has got all it requests: the next one finds what is left. */
  lemma NextTask(m: Matrix, costs: Costs, requests: seq<nat>, capacities: seq<nat>, left: seq<nat>, i: nat)
    requires i < |m| && |requests| == |m| && Serving(m, costs, requests, capacities, left, i, requests[i])
    ensures Serving(m, costs, requests, capacities, left, i + 1, 0)
  {
    hide Sum, Left, Cheapest, GrandSum, Room, ColSum, CheapFirst;
    ShapeOf(m, capacities, left);
    CheapFirstIsCheapest(m[i], Room(m, capacities, i), costs[i]);
    if i + 1 < |m| {
      NextRoom(m, costs, capacities, left, i);
      FirstUnit(m, costs, capacities, left, i + 1);
    }
  }

  lemma NextRoom(m: Matrix, costs: Costs, capacities: seq<nat>, left: seq<nat>, i: nat)
    requires RowInProgress(m, costs, capacities, left, i)
    ensures Room(m, capacities, i + 1) == left
  {
    forall j | 0 <= j < |left| ensures Room(m, capacities, i + 1)[j] == left[j] {
      assert m[..i + 1][..i] == m[..i];
      assert Room(m, capacities, i)[j] == m[i][j] + left[j];
    }
  }

  lemma FirstUnit(m: Matrix, costs: Costs, capacities: seq<nat>, left: seq<nat>, i: nat)
    requires i < |m| && SameShape(m, costs) && Shape(m, |m|, |capacities|) && |left| == |capacities| && Sum(m[i]) == 0
    requires Room(m, capacities, i) == left
    ensures RowInProgress(m, costs, capacities, left, i)
  {
    hide Room;
    SumZero(m[i]);
  }

  lemma Starts(m: Matrix, costs: Costs, requests: seq<nat>, capacities: seq<nat>)
    requires Shape(m, |requests|, |capacities|) && SameShape(m, costs) && AllZero(m)
    ensures Serving(m, costs, requests, capacities, capacities, 0, 0) && Cost(m, costs) == 0.0
  {
    ZeroSums(m, costs, |capacities|);
    forall i | 0 <= i < |m| ensures Sum(m[i]) == 0 { SumZero(m[i]); }
    if m != [] {
      FirstUnit(m, costs, capacities, capacities, 0);
    }
  }

  lemma {:induction false} GrandAtMost(m: Matrix, requests: seq<nat>)
    requires |m| == |requests| && forall i | 0 <= i < |m| :: Sum(m[i]) <= requests[i]
    ensures GrandSum(m) <= Sum(requests)
    ensures (forall i | 0 <= i < |m| :: Sum(m[i]) == requests[i]) ==> GrandSum(m) == Sum(requests)
  {
    if m != [] {
      var last := |m| - 1;
      forall i | 0 <= i < last ensures m[..last][i] == m[i] && requests[..last][i] == requests[i] {}
      GrandAtMost(m[..last], requests[..last]);
    }
  }

  /** Either every task has been served, or no capacity is left. */
  lemma Ends(m: Matrix, costs: Costs, requests: seq<nat>, capacities: seq<nat>, left: seq<nat>, i: nat, u: nat)
    requires Serving(m, costs, requests, capacities, left, i, u)
    requires i == |m| || forall j | 0 <= j < |left| :: left[j] == 0
    ensures GreedyResult(m, costs, requests, capacities)
  {
    hide Sum, GrandSum, ColSum, Room, Cheapest, CheapFirst;
    SumZero(left);
    GrandAtMost(m, requests);
    forall k | i <= k < |m| ensures RowCheapest(m, costs, capacities, k) {
      if k == i {
        CheapFirstIsCheapest(m[i], Room(m, capacities, i), costs[i]);
      } else {
        NothingIsCheapest(m[k], Room(m, capacities, k), costs[k]);
      }
    }
  }

  lemma NothingIsCheapest(row: seq<nat>, room: seq<nat>, cost: seq<real>)
    requires |row| == |room| == |cost| && Sum(row) == 0
    ensures CheapFirst(row, room, cost) && Cheapest(row, room, cost)
  {
    SumZero(row);
    CheapFirstIsCheapest(row, room, cost);
  }

  /** Workers with capacity left cost what they cost; without, they are at infinity. */
  lemma CheapestLeft(now: Costs, costs: Costs, left: seq<nat>, i: nat, j: nat, inf: real)
    requires Blocked(now, costs, left, i, inf) && i < |costs| && j < |left|
    requires forall k | 0 <= k < |left| :: costs[i][k] < inf && now[i][j] <= now[i][k] && (k < j ==> now[i][j] < now[i][k])
    ensures now[i][j] == inf ==> forall k | 0 <= k < |left| :: left[k] == 0
    ensures now[i][j] != inf ==> left[j] > 0 && now[i][j] == costs[i][j]
    ensures |costs[i]| == |left|
    ensures now[i][j] != inf ==> forall k | 0 <= k < |left| && left[k] > 0 :: Before(costs[i], j, k)
  {}

  lemma BlockedShape(now: Costs, costs: Costs, left: seq<nat>, i: nat, inf: real)
    requires Blocked(now, costs, left, i, inf)
    ensures Shape(now, |costs|, |left|)
    ensures i < |costs| ==> Blocked(now, costs, left, i + 1, inf)
  {}

  /** A worker that takes a unit, and is put at infinity when it was the last one. */
  lemma BlockedUp(now: Costs, next: Costs, costs: Costs, left: seq<nat>, i: nat, j: nat, inf: real)
    requires Blocked(now, costs, left, i, inf) && j < |left| && left[j] > 0 && Shape(next, |costs|, |left|)
    requires forall k, l | 0 <= k < |costs| && 0 <= l < |left| ::
               next[k][l] == if left[j] == 1 && k >= i && l == j then inf else now[k][l]
    ensures Blocked(next, costs, left[j := left[j] - 1], i, inf)
  {}

  ghost predicate CellUpto(now: Costs, costs: Costs, capacities: seq<int>, j: nat, inf: real, k: nat, l: nat) {
    k < |now| && k < |costs| && l < |now[k]| && l < |costs[k]| && l < |capacities| &&
    now[k][l] == if l < j && capacities[l] <= 0 then inf else costs[k][l]
  }

  /** The first j columns are at infinity where there is no capacity. */
  ghost predicate BlockedUpto(now: Costs, costs: Costs, capacities: seq<int>, j: nat, inf: real) {
    Shape(now, |costs|, |capacities|) && Shape(costs, |costs|, |capacities|) &&
    forall k: nat, l: nat | k < |costs| && l < |capacities| :: CellUpto(now, costs, capacities, j, inf, k, l)
  }

  lemma BlockedNext(now: Costs, next: Costs, costs: Costs, capacities: seq<int>, j: nat, inf: real)
    requires BlockedUpto(now, costs, capacities, j, inf) && j < |capacities| && Shape(next, |costs|, |capacities|)
    requires forall k, l | 0 <= k < |costs| && 0 <= l < |capacities| ::
               next[k][l] == if l == j && capacities[j] <= 0 then inf else now[k][l]
    ensures BlockedUpto(next, costs, capacities, j + 1, inf)
  {
    var n := j + 1;
    forall k: nat, l: nat | k < |costs| && l < |capacities| ensures CellUpto(next, costs, capacities, n, inf, k, l) {
      assert CellUpto(now, costs, capacities, j, inf, k, l);
      assert next[k][l] == if l == j && capacities[j] <= 0 then inf else now[k][l];
    }
  }

  lemma BlockedFinally(now: Costs, costs: Costs, capacities: seq<int>, inf: real)
    requires BlockedUpto(now, costs, capacities, |capacities|, inf)
    ensures Blocked(now, costs, Units(capacities), 0, inf)
  {
    forall k, j | 0 <= k < |costs| && 0 <= j < |capacities| ensures now[k][j] == if Units(capacities)[j] == 0 then inf else costs[k][j] {
      assert CellUpto(now, costs, capacities, |capacities|, inf, k, j);
    }
  }

  lemma ShapeUpto(now: Costs, costs: Costs, capacities: seq<int>, j: nat, inf: real)
    requires BlockedUpto(now, costs, capacities, j, inf)
    ensures Shape(now, |costs|, |capacities|)
  {}

  /** At infinity where there is no capacity to begin with. */
  method BlockEmpty(costs: Costs, capacities: seq<int>, inf: real) returns (now: Costs)
    requires Shape(costs, |costs|, |capacities|)
    ensures Blocked(now, costs, Units(capacities), 0, inf)
  {
    now := costs;
    assert BlockedUpto(now, costs, capacities, 0, inf);
    hide Blocked, BlockedUpto, Units;
    for j := 0 to |capacities|
      invariant BlockedUpto(now, costs, capacities, j, inf)
    {
      ShapeUpto(now, costs, capacities, j, inf);
      ghost var before := now;
      if capacities[j] <= 0 {
        now := BlockColumn(now, 0, j, inf);
      }
      BlockedNext(before, now, costs, capacities, j, inf);
    }
    BlockedFinally(now, costs, capacities, inf);
  }

  /**
   * Each unit of each task, in order, to the cheapest worker with capacity left; inf stands for
   * the highest floating-point number.
   */
  method SolveGreedy(costs: Costs, requests: seq<int>, capacities: seq<int>, inf: real) returns (r: Result<(Matrix, real)>)
    requires Consistent(costs, requests, capacities) && capacities == [] ==> forall i | 0 <= i < |requests| :: requests[i] <= 0
    requires forall i | 0 <= i < |costs| :: forall j | 0 <= j < |costs[i]| :: costs[i][j] < inf
    ensures r.Ok? <==> Consistent(costs, requests, capacities)
    ensures r.Ok? ==>
      var (m, cost) := r.value;
      GreedyResult(m, costs, Units(requests), Units(capacities)) && cost == Cost(m, costs)
  {
    hide Serving, GreedyResult, Cost, Blocked, Units;
    var check := InputCheck(costs, requests, capacities);
    if check.Err? {
      return Err(check.error);
    }
    var (t, w) := check.value;
    var now := BlockEmpty(costs, capacities, inf);
    var m := Zeros(t, w);
    var left := capacities;
    var cost := 0.0;
    ghost var (rs, cs) := (Units(requests), Units(capacities));
    Starts(m, costs, rs, cs);
    assert |rs| == t && |cs| == w;
    for i := 0 to t
      invariant |left| == w && Shape(m, t, w) && cost == Cost(m, costs)
      invariant Serving(m, costs, rs, cs, Units(left), i, 0) && Blocked(now, costs, Units(left), i, inf)
    {
      var u := 0;
      while u < requests[i]
        invariant 0 <= u <= Pos(requests[i])
        invariant |left| == w && Shape(m, t, w) && cost == Cost(m, costs)
        invariant Serving(m, costs, rs, cs, Units(left), i, u) && Blocked(now, costs, Units(left), i, inf)
      {
        BlockedShape(now, costs, Units(left), i, inf);
        var j := MinElement(now[i]);
        CheapestLeft(now, costs, Units(left), i, j, inf);
        if now[i][j] == inf {
          Ends(m, costs, rs, cs, Units(left), i, u);
          return Ok((m, cost));
        }
        ServeUp(m, costs, rs, cs, Units(left), i, u, j);
        UpCost(m, costs, i, j);
        m := Up(m, i, j);
        cost := cost + now[i][j];
        ghost var (before, units) := (now, Units(left));
        left := left[j := left[j] - 1];
        if left[j] == 0 {
          now := BlockColumn(now, i, j, inf);
        }
        assert Units(left) == units[j := units[j] - 1];
        BlockedUp(before, now, costs, units, i, j, inf);
        u := u + 1;
      }
      NextTask(m, costs, rs, cs, Units(left), i);
      BlockedShape(now, costs, Units(left), i, inf);
    }
    Ends(m, costs, rs, cs, Units(left), t, 0);
    return Ok((m, cost));
  }

  // --- the greedy solution is the only one of its kind ---

  /** Not both: one row uses worker j more than the other, and worker k less. */
  lemma NotCrossed(x: seq<nat>, y: seq<nat>, room: seq<nat>, cost: seq<real>, j: nat, k: nat)
    requires CheapFirst(x, room, cost) && CheapFirst(y, room, cost) && j < |x| && k < |x|
    ensures x[j] <= y[j] || y[k] <= x[k]
  {}

  /** How much a task gets determines which workers it uses. */
  lemma CheapFirstIsUnique(x: seq<nat>, y: seq<nat>, room: seq<nat>, cost: seq<real>)
    requires CheapFirst(x, room, cost) && CheapFirst(y, room, cost) && Sum(x) == Sum(y)
    ensures x == y
  {
    forall j, k | 0 <= j < |x| && 0 <= k < |x| ensures x[j] <= y[j] || y[k] <= x[k] { NotCrossed(x, y, room, cost, j, k); }
    if forall j | 0 <= j < |x| :: x[j] <= y[j] {
      SumMonotone(x, y);
    } else {
      SumMonotone(y, x);
    }
  }

  lemma {:induction false} GrandPrefix(m: Matrix, i: nat)
    requires i <= |m|
    ensures GrandSum(m[..i]) <= GrandSum(m)
    ensures (forall k | i <= k < |m| :: Sum(m[k]) == 0) ==> GrandSum(m[..i]) == GrandSum(m)
  {
    if i < |m| {
      var rest := m[..|m| - 1];
      GrandPrefix(rest, i);
      assert rest[..i] == m[..i];
    } else {
      assert m[..i] == m;
    }
  }

  /** A task that gets less than elsewhere leaves the later ones nothing. */
  lemma LessMeansFewer(m: Matrix, n: Matrix, costs: Costs, requests: seq<nat>, capacities: seq<nat>, i: nat)
    requires GreedyResult(m, costs, requests, capacities) && GreedyResult(n, costs, requests, capacities)
    requires i < |m| && i < |n| && m[..i] == n[..i]
    ensures Sum(m[i]) < Sum(n[i]) ==> GrandSum(m) < GrandSum(n)
  {
    hide Sum, ColSum, Room, RowCheapest;
    assert m[..i + 1][..i] == m[..i] && n[..i + 1][..i] == n[..i];
    GrandPrefix(m, i + 1);
    GrandPrefix(n, i + 1);
  }

  lemma SameRow(m: Matrix, n: Matrix, costs: Costs, requests: seq<nat>, capacities: seq<nat>, k: nat)
    requires GreedyResult(m, costs, requests, capacities) && GreedyResult(n, costs, requests, capacities)
    requires k < |m| == |n| && m[..k] == n[..k]
    ensures m[k] == n[k]
  {
    LessMeansFewer(m, n, costs, requests, capacities, k);
    LessMeansFewer(n, m, costs, requests, capacities, k);
    hide Sum, ColSum, CheapFirst, Cheapest, GrandSum;
    assert RowCheapest(m, costs, capacities, k) && RowCheapest(n, costs, capacities, k);
    assert Room(m, capacities, k) == Room(n, capacities, k);
    CheapFirstIsUnique(m[k], n[k], Room(m, capacities, k), costs[k]);
  }

  lemma SameLength(m: Matrix, costs: Costs, requests: seq<nat>, capacities: seq<nat>)
    requires GreedyResult(m, costs, requests, capacities)
    ensures |m| == |requests|
  {}

  lemma {:induction false} SameUpto(m: Matrix, n: Matrix, costs: Costs, requests: seq<nat>, capacities: seq<nat>, i: nat)
    requires GreedyResult(m, costs, requests, capacities) && GreedyResult(n, costs, requests, capacities) && i <= |m|
    ensures |m| == |n| && m[..i] == n[..i]
  {
    SameLength(m, costs, requests, capacities);
    SameLength(n, costs, requests, capacities);
    if i > 0 {
      var k := i - 1;
      SameUpto(m, n, costs, requests, capacities, k);
      SameRow(m, n, costs, requests, capacities, k);
      hide GreedyResult;
      assert m[..i] == m[..k] + [m[k]] && n[..i] == n[..k] + [n[k]];
    }
  }

  /** Tasks in order, each with the first cheapest workers that have room, as many units as possible: there is
      one such assignment. */
  lemma GreedyIsUnique(m: Matrix, n: Matrix, costs: Costs, requests: seq<nat>, capacities: seq<nat>)
    requires GreedyResult(m, costs, requests, capacities) && GreedyResult(n, costs, requests, capacities)
    ensures m == n
  {
    SameUpto(m, n, costs, requests, capacities, |m|);
    assert m[..|m|] == m && n[..|n|] == n;
  }

  // --- the random solution ---

  /** A unit of a task or of a worker, with the random key that gives it its place. */
  datatype Ticket = Ticket(key: real, id: nat)

  function Count(q: seq<Ticket>, id: nat): nat {
    if q == [] then 0 else Count(q[..|q| - 1], id) + if q[|q| - 1].id == id then 1 else 0
  }

  lemma {:induction false} CountConcat(a: seq<Ticket>, b: seq<Ticket>, id: nat)
    ensures Count(a + b, id) == Count(a, id) + Count(b, id)
  {
    if b == [] {
      assert a + b == a;
    } else {
      var last := |b| - 1;
      assert (a + b)[..|a| + last] == a + b[..last];
      CountConcat(a, b[..last], id);
    }
  }

  lemma CountInsert(q: seq<Ticket>, i: nat, x: Ticket, id: nat)
    requires i <= |q|
    ensures Count(Insert(q, i, x), id) == Count(q, id) + if x.id == id then 1 else 0
  {
    CountConcat(q[..i], [x], id);
    CountConcat(q[..i] + [x], q[i..], id);
    CountConcat(q[..i], q[i..], id);
    assert q == q[..i] + q[i..];
  }

  lemma CountPrefix(q: seq<Ticket>, n: nat, id: nat)
    requires n <= |q|
    ensures Count(q[..n], id) <= Count(q, id)
  {
    CountConcat(q[..n], q[n..], id);
    assert q == q[..n] + q[n..];
  }

  ghost predicate ByKey(q: seq<Ticket>) {
    forall i, j | 0 <= i < j < |q| :: InTurn(q[i], q[j])
  }

  /** By key, and with the same key in the order of the tasks or workers. */
  predicate InTurn(a: Ticket, b: Ticket) { a.key < b.key || (a.key == b.key && a.id <= b.id) }

  lemma WithoutLast(q: seq<Ticket>)
    requires ByKey(q) && q != []
    ensures ByKey(q[..|q| - 1]) && q == q[..|q| - 1] + [q[|q| - 1]]
    ensures forall t | t in multiset(q) :: InTurn(t, q[|q| - 1])
    ensures q[|q| - 1] in multiset(q) && multiset(q[..|q| - 1]) == multiset(q) - multiset{q[|q| - 1]}
  {
    hide InTurn;
    var last := |q| - 1;
    assert q == q[..last] + [q[last]];
    forall t | t in q ensures InTurn(t, q[last]) {
      var k :| 0 <= k < |q| && q[k] == t;
      if k == last { Reflexive(t); }
    }
  }

  lemma Reflexive(t: Ticket)
    ensures InTurn(t, t)
  {}

  lemma Antisymmetric(t: Ticket, u: Ticket)
    requires InTurn(t, u) && InTurn(u, t)
    ensures t == u
  {}

  lemma {:induction false} ByKeyIsUnique(q: seq<Ticket>, r: seq<Ticket>)
    requires ByKey(q) && ByKey(r) && multiset(q) == multiset(r)
    ensures q == r
    decreases |q|
  {
    hide ByKey, InTurn;
    assert |q| == |multiset(q)| && |r| == |multiset(r)|;
    if q != [] {
      WithoutLast(q);
      WithoutLast(r);
      Antisymmetric(q[|q| - 1], r[|r| - 1]);
      ByKeyIsUnique(q[..|q| - 1], r[..|r| - 1]);
    }
  }

  lemma InsertInTurn(q: seq<Ticket>, i: nat, x: Ticket)
    requires i <= |q| && ByKey(q)
    requires (forall k | 0 <= k < i :: InTurn(q[k], x)) && forall k | i <= k < |q| :: InTurn(x, q[k])
    ensures ByKey(Insert(q, i, x))
  {
    hide InTurn;
  }

  /** A multimap insertion: after all the entries with the same key. */
  method Emplace(q: seq<Ticket>, x: Ticket) returns (r: seq<Ticket>)
    requires ByKey(q) && forall t | t in q :: t.id <= x.id
    ensures ByKey(r) && |r| == |q| + 1 && multiset(r) == multiset(q) + multiset{x}
    ensures forall id :: Count(r, id) == Count(q, id) + if x.id == id then 1 else 0
    ensures forall t :: t in r <==> t in q || t == x
  {
    var i := |q|;
    while i > 0 && q[i - 1].key > x.key
      invariant 0 <= i <= |q| && forall k | i <= k < |q| :: q[k].key > x.key
    {
      i := i - 1;
    }
    forall k | 0 <= k < i ensures InTurn(q[k], x) { assert q[k] in q && (k == i - 1 || InTurn(q[k], q[i - 1])); }
    r := Insert(q, i, x);
    hide ByKey, Count;
    InsertMembers(q, i, x);
    InsertInTurn(q, i, x);
    forall id ensures Count(r, id) == Count(q, id) + if x.id == id then 1 else 0 { CountInsert(q, i, x, id); }
    hide Insert;
  }

  /** The tickets hold the first i entries of units, and u units of the next one. */
  ghost predicate Drawn(q: seq<Ticket>, units: seq<nat>, i: nat, u: nat) {
    i <= |units| && |q| == Sum(units[..i]) + u && (forall t | t in q :: t.id < |units|) &&
    forall id | 0 <= id < |units| :: Count(q, id) == if id < i then units[id] else if id == i then u else 0
  }

  lemma DrawnNext(q: seq<Ticket>, units: seq<nat>, i: nat)
    requires i < |units| && Drawn(q, units, i, units[i])
    ensures Drawn(q, units, i + 1, 0)
  {
    assert units[..i + 1][..i] == units[..i];
  }

  /** The tickets of the first i entries of units, and of u units of the next one: one random key for each, in this order. */
  ghost function Dealt(units: seq<nat>, i: nat, u: nat, rnd: nat -> real, first: nat): multiset<Ticket>
    requires i <= |units|
    decreases i, u
  {
    if u > 0 then Dealt(units, i, u - 1, rnd, first) + multiset{Ticket(rnd(first + Sum(units[..i]) + u - 1), i)}
    else if i > 0 then Dealt(units, i - 1, units[i - 1], rnd, first)
    else multiset{}
  }

  lemma DealtOne(units: seq<nat>, i: nat, u: nat, rnd: nat -> real, first: nat)
    requires i <= |units|
    ensures Dealt(units, i, u + 1, rnd, first) == Dealt(units, i, u, rnd, first) + multiset{Ticket(rnd(first + Sum(units[..i]) + u), i)}
    ensures i < |units| ==> Dealt(units, i + 1, 0, rnd, first) == Dealt(units, i, units[i], rnd, first)
  {}

  /** One ticket per unit, in the order of the random keys. */
  method Shuffle(amounts: seq<int>, rnd: nat -> real, first: nat) returns (q: seq<Ticket>, next: nat)
    ensures ByKey(q) && Drawn(q, Units(amounts), |amounts|, 0) && next == first + |q|
    ensures multiset(q) == Dealt(Units(amounts), |amounts|, 0, rnd, first)
  {
    hide Count, Sum, ByKey, Dealt;
    ghost var units := Units(amounts);
    q, next := [], first;
    NothingDrawn(units, rnd, first);
    for i := 0 to |amounts|
      invariant ByKey(q) && Drawn(q, units, i, 0) && next == first + |q|
      invariant multiset(q) == Dealt(units, i, 0, rnd, first) && forall t | t in q :: t.id <= i
    {
      var u := 0;
      while u < amounts[i]
        invariant 0 <= u <= Pos(amounts[i]) && ByKey(q) && Drawn(q, units, i, u) && next == first + |q|
        invariant multiset(q) == Dealt(units, i, u, rnd, first) && forall t | t in q :: t.id <= i
      {
        DealtOne(units, i, u, rnd, first);
        q := Emplace(q, Ticket(rnd(next), i));
        next, u := next + 1, u + 1;
      }
      DrawnNext(q, units, i);
      DealtOne(units, i, u, rnd, first);
    }
  }

  lemma NothingDrawn(units: seq<nat>, rnd: nat -> real, first: nat)
    ensures Drawn([], units, 0, 0) && ByKey([]) && Dealt(units, 0, 0, rnd, first) == multiset{}
  {}

  /** The first n tickets of the tasks are matched with those of the workers. */
  ghost predicate Matched(m: Matrix, ts: seq<Ticket>, ws: seq<Ticket>, n: nat, cols: nat) {
    n <= |ts| && n <= |ws| && Shape(m, |m|, cols) && GrandSum(m) == n &&
    (forall i | 0 <= i < |m| :: Sum(m[i]) == Count(ts[..n], i)) &&
    forall j | 0 <= j < cols :: ColSum(m, j) == Count(ws[..n], j)
  }

  lemma MatchUp(m: Matrix, ts: seq<Ticket>, ws: seq<Ticket>, n: nat, cols: nat)
    requires Matched(m, ts, ws, n, cols) && n < |ts| && n < |ws| && ts[n].id < |m| && ws[n].id < cols
    ensures Matched(Up(m, ts[n].id, ws[n].id), ts, ws, n + 1, cols)
  {
    var (i, j) := (ts[n].id, ws[n].id);
    assert ts[..n + 1][..n] == ts[..n] && ws[..n + 1][..n] == ws[..n];
    forall id ensures Count(ts[..n + 1], id) == Count(ts[..n], id) + if id == i then 1 else 0 {}
    forall id ensures Count(ws[..n + 1], id) == Count(ws[..n], id) + if id == j then 1 else 0 {}
    hide Count, Sum, ColSum, GrandSum;
    UpGrand(m, i, j);
    UpRow(m, i, j);
    forall k | 0 <= k < cols ensures ColSum(Up(m, i, j), k) == ColSum(m, k) + if k == j then 1 else 0 { UpCol(m, i, j, k); }
  }

  lemma AllMatched(m: Matrix, ts: seq<Ticket>, ws: seq<Ticket>, n: nat, requests: seq<nat>, capacities: seq<nat>)
    requires |m| == |requests| && Matched(m, ts, ws, n, |capacities|) && n == Min(|ts|, |ws|)
    requires Drawn(ts, requests, |requests|, 0) && Drawn(ws, capacities, |capacities|, 0)
    ensures FullResult(m, requests, capacities)
  {
    hide Count, Sum, ColSum, GrandSum;
    assert requests[..|requests|] == requests && capacities[..|capacities|] == capacities;
    forall i | 0 <= i < |m| ensures Sum(m[i]) <= requests[i] { CountPrefix(ts, n, i); }
    forall j | 0 <= j < |capacities| ensures ColSum(m, j) <= capacities[j] { CountPrefix(ws, n, j); }
  }

  /** How many of the first n pairs of tickets are of task i and worker j. */
  ghost function Both(ts: seq<Ticket>, ws: seq<Ticket>, n: nat, i: nat, j: nat): nat
    requires n <= |ts| && n <= |ws|
  {
    if n == 0 then 0 else Both(ts, ws, n - 1, i, j) + if ts[n - 1].id == i && ws[n - 1].id == j then 1 else 0
  }

  ghost predicate Paired(m: Matrix, ts: seq<Ticket>, ws: seq<Ticket>, n: nat, cols: nat) {
    n <= |ts| && n <= |ws| && Shape(m, |m|, cols) &&
    forall i, j | 0 <= i < |m| && 0 <= j < cols :: m[i][j] == Both(ts, ws, n, i, j)
  }

  lemma PairUp(m: Matrix, ts: seq<Ticket>, ws: seq<Ticket>, n: nat, cols: nat)
    requires Paired(m, ts, ws, n, cols) && n < |ts| && n < |ws| && ts[n].id < |m| && ws[n].id < cols
    ensures Paired(Up(m, ts[n].id, ws[n].id), ts, ws, n + 1, cols)
  {}

  lemma NonePaired(ts: seq<Ticket>, ws: seq<Ticket>, rows: nat, cols: nat)
    ensures Paired(Zeros(rows, cols), ts, ws, 0, cols)
  {}

  /** These are the tickets of all the units, in turn, and the matrix counts the pairs. */
  ghost predicate Matching(m: Matrix, ts: seq<Ticket>, ws: seq<Ticket>, requests: seq<nat>, capacities: seq<nat>, rnd: nat -> real) {
    ByKey(ts) && multiset(ts) == Dealt(requests, |requests|, 0, rnd, 0) &&
    ByKey(ws) && multiset(ws) == Dealt(capacities, |capacities|, 0, rnd, |ts|) &&
    |m| == |requests| && Paired(m, ts, ws, Min(|ts|, |ws|), |capacities|)
  }

  /** What the random solution promises about its assignment. */
  ghost predicate RandomResult(m: Matrix, requests: seq<nat>, capacities: seq<nat>, rnd: nat -> real) {
    FullResult(m, requests, capacities) && exists ts, ws :: Matching(m, ts, ws, requests, capacities, rnd)
  }

  /** The random numbers determine the assignment. */
  lemma RandomIsUnique(m: Matrix, n: Matrix, requests: seq<nat>, capacities: seq<nat>, rnd: nat -> real)
    requires RandomResult(m, requests, capacities, rnd) && RandomResult(n, requests, capacities, rnd)
    ensures m == n
  {
    hide FullResult, ByKey, Both, Dealt;
    var ts, ws :| Matching(m, ts, ws, requests, capacities, rnd);
    var ts', ws' :| Matching(n, ts', ws', requests, capacities, rnd);
    ByKeyIsUnique(ts, ts');
    ByKeyIsUnique(ws, ws');
    forall i | 0 <= i < |m| ensures m[i] == n[i] {}
  }

  lemma NoneMatched(m: Matrix, costs: Costs, ts: seq<Ticket>, ws: seq<Ticket>, cols: nat)
    requires SameShape(m, costs) && Shape(m, |m|, cols) && AllZero(m)
    ensures Matched(m, ts, ws, 0, cols) && Cost(m, costs) == 0.0
  {
    ZeroSums(m, costs, cols);
    forall i | 0 <= i < |m| ensures Sum(m[i]) == 0 { SumZero(m[i]); }
  }

  /** The units of tasks and workers, each in a random order, are matched one to one. */
  method SolveRandom(costs: Costs, requests: seq<int>, capacities: seq<int>, rnd: nat -> real) returns (r: Result<(Matrix, real)>)
    ensures r.Ok? <==> Consistent(costs, requests, capacities)
    ensures r.Ok? ==>
      var (m, cost) := r.value;
      RandomResult(m, Units(requests), Units(capacities), rnd) && cost == Cost(m, costs)
  {
    hide Matched, Paired, FullResult, Cost, Count, Sum, ByKey, Dealt;
    var check := InputCheck(costs, requests, capacities);
    if check.Err? {
      return Err(check.error);
    }
    var (t, w) := check.value;
    var ts, next := Shuffle(requests, rnd, 0);
    var ws, _ := Shuffle(capacities, rnd, next);
    var m := Zeros(t, w);
    var (cost, n) := (0.0, 0);
    NoneMatched(m, costs, ts, ws, w);
    NonePaired(ts, ws, t, w);
    while n < |ts| && n < |ws|
      invariant n <= |ts| && n <= |ws| && Shape(m, t, w) && cost == Cost(m, costs) && Matched(m, ts, ws, n, w) && Paired(m, ts, ws, n, w)
    {
      var (i, j) := (ts[n].id, ws[n].id);
      assert ts[n] in ts && ws[n] in ws;
      MatchUp(m, ts, ws, n, w);
      PairUp(m, ts, ws, n, w);
      UpCost(m, costs, i, j);
      m := Up(m, i, j);
      cost, n := cost + costs[i][j], n + 1;
    }
    AllMatched(m, ts, ws, n, Units(requests), Units(capacities));
    assert Matching(m, ts, ws, Units(requests), Units(capacities), rnd);
    return Ok((m, cost));
  }
}
