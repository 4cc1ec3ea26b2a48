/** The weights of lambda-apps: units per container, added up per edge node. */
module Weights {
  import opened Placements
  import V = Vectors

  /** What a container costs from a broker, by the edge node it is on. */
  function BaseRow(net: Net, broker: nat, slots: seq<nat>): (r: seq<real>)
    ensures |r| == |slots| && forall c | 0 <= c < |slots| :: r[c] == At(net, broker, slots[c])
  {
    seq(|slots|, c requires 0 <= c < |slots| => At(net, broker, slots[c]))
  }

  /** The sum over the first k edge nodes. */
  function MapCost(acc: map<nat, nat>, net: Net, broker: nat, k: nat): real {
    if k == 0 then 0.0
    else MapCost(acc, net, broker, k - 1) + if k - 1 in acc then V.Times(acc[k - 1], At(net, broker, k - 1)) else 0.0
  }

  function MapSum(acc: map<nat, nat>, k: nat): nat {
    if k == 0 then 0 else MapSum(acc, k - 1) + if k - 1 in acc then acc[k - 1] else 0
  }

  function Added(acc: map<nat, nat>, e: nat, w: nat): map<nat, nat> {
    acc[e := (if e in acc then acc[e] else 0) + w]
  }

  lemma {:induction false} MapAdd(acc: map<nat, nat>, e: nat, w: nat, net: Net, broker: nat, k: nat)
    ensures MapCost(Added(acc, e, w), net, broker, k) == MapCost(acc, net, broker, k) + if e < k then V.Times(w, At(net, broker, e)) else 0.0
    ensures MapSum(Added(acc, e, w), k) == MapSum(acc, k) + if e < k then w else 0
  {
    if k > 0 {
      MapAdd(acc, e, w, net, broker, k - 1);
      V.TimesSum(if e in acc then acc[e] else 0, w, At(net, broker, e));
      V.TimesStep(0, At(net, broker, e));
      hide V.Times, At;
    }
  }

  lemma {:induction false} NothingYet(net: Net, broker: nat, k: nat)
    ensures MapCost(map[], net, broker, k) == 0.0 && MapSum(map[], k) == 0
  {
    if k > 0 {
      NothingYet(net, broker, k - 1);
    }
  }

  /** The units of the first n containers. */
  lemma PrefixSums(units: seq<nat>, row: seq<real>, n: nat)
    requires n < |units| == |row|
    ensures V.Sum(units[..n + 1]) == V.Sum(units[..n]) + units[n]
    ensures V.Dot(units[..n + 1], row[..n + 1]) == V.Dot(units[..n], row[..n]) + V.Times(units[n], row[n])
  {
    hide V.Times;
    assert units[..n + 1][..n] == units[..n] && row[..n + 1][..n] == row[..n];
  }

  /** The units of those of the first c containers that are on edge node e. */
  function UnitsOn(units: seq<nat>, slots: seq<nat>, c: nat, e: nat): nat
    requires c <= |units| == |slots|
  {
    if c == 0 then 0 else UnitsOn(units, slots, c - 1, e) + if slots[c - 1] == e then units[c - 1] else 0
  }

  /** The edge nodes of the first c containers, with their units. */
  ghost predicate Gathered(acc: map<nat, nat>, units: seq<nat>, slots: seq<nat>, c: nat) {
    c <= |units| == |slots| && (forall e :: e in acc <==> e in slots[..c]) &&
    forall e: nat :: UnitsOn(units, slots, c, e) == if e in acc then acc[e] else 0
  }

  lemma GatheredMore(acc: map<nat, nat>, units: seq<nat>, slots: seq<nat>, c: nat)
    requires Gathered(acc, units, slots, c) && c < |units|
    ensures Gathered(Added(acc, slots[c], units[c]), units, slots, c + 1)
  {
    assert slots[..c + 1] == slots[..c] + [slots[c]];
  }

  /** One entry for each edge node that has a container, in order, with all the units on it. */
  ghost predicate PerNode(ws: seq<(nat, nat)>, units: seq<nat>, slots: seq<nat>) {
    |units| == |slots| && (forall i, k | 0 <= i < k < |ws| :: ws[i].0 < ws[k].0) &&
    forall w: (nat, nat) :: w in ws <==> w.0 in slots && w.1 == UnitsOn(units, slots, |units|, w.0)
  }

  lemma GatheredAll(acc: map<nat, nat>, ws: seq<(nat, nat)>, units: seq<nat>, slots: seq<nat>)
    requires Gathered(acc, units, slots, |units|) && forall w: (nat, nat) :: w in ws <==> w.0 in acc && w.1 == acc[w.0]
    requires forall i, k | 0 <= i < k < |ws| :: ws[i].0 < ws[k].0
    ensures PerNode(ws, units, slots)
  {
    assert slots[..|units|] == slots;
  }

  /** Adding up the containers of each edge node first. */
  method PerEdge(units: seq<nat>, slots: seq<nat>, n: nat, ghost net: Net, ghost broker: nat) returns (acc: map<nat, nat>)
    requires |units| == |slots| && forall c | 0 <= c < |slots| :: slots[c] < n
    ensures (forall e | e in acc :: e < n) && (slots != [] ==> slots[0] in acc)
    ensures MapCost(acc, net, broker, n) == V.Dot(units, BaseRow(net, broker, slots)) && MapSum(acc, n) == V.Sum(units)
    ensures Gathered(acc, units, slots, |units|)
  {
    hide MapCost, MapSum, V.Dot, V.Sum, V.Times, At, BaseRow, Gathered;
    acc := map[];
    assert Gathered(acc, units, slots, 0) by { NothingGathered(units, slots); }
    ghost var row := BaseRow(net, broker, slots);
    NothingYet(net, broker, n);
    assert V.Dot(units[..0], row[..0]) == 0.0 && V.Sum(units[..0]) == 0 by { NoUnits(units[..0], row[..0]); }
    for c := 0 to |units|
      invariant (forall e | e in acc :: e < n) && (c > 0 ==> slots[0] in acc)
      invariant MapCost(acc, net, broker, n) == V.Dot(units[..c], row[..c]) && MapSum(acc, n) == V.Sum(units[..c])
      invariant Gathered(acc, units, slots, c)
    {
      GatheredMore(acc, units, slots, c);
      MapAdd(acc, slots[c], units[c], net, broker, n);
      PrefixSums(units, row, c);
      acc := Added(acc, slots[c], units[c]);
    }
    assert units[..|units|] == units && row[..|row|] == row;
  }

  lemma NothingGathered(units: seq<nat>, slots: seq<nat>)
    requires |units| == |slots|
    ensures Gathered(map[], units, slots, 0)
  {}

  lemma NoUnits(units: seq<nat>, row: seq<real>)
    requires units == [] && row == []
    ensures V.Dot(units, row) == 0.0 && V.Sum(units) == 0
  {}

  lemma WeightAppend(ws: seq<(nat, nat)>, w: (nat, nat), net: Net, broker: nat)
    ensures WeightCost(ws + [w], net, broker) == WeightCost(ws, net, broker) + V.Times(w.1, At(net, broker, w.0))
    ensures WeightSum(ws + [w]) == WeightSum(ws) + w.1
  {
    hide V.Times, At;
    assert (ws + [w])[..|ws|] == ws;
  }

  /**
   * The weights of one application: as many units as it got, at the same cost, with one entry
   * for each edge node that has a container, in order.
   */
  method Aggregate(units: seq<nat>, slots: seq<nat>, n: nat, ghost net: Net, ghost broker: nat) returns (ws: seq<(nat, nat)>)
    requires |units| == |slots| && forall c | 0 <= c < |slots| :: slots[c] < n
    ensures WeightCost(ws, net, broker) == V.Dot(units, BaseRow(net, broker, slots)) && WeightSum(ws) == V.Sum(units)
    ensures (forall i | 0 <= i < |ws| :: ws[i].0 < n) && (slots != [] ==> ws != [])
    ensures PerNode(ws, units, slots)
  {
    hide PerNode, Gathered, UnitsOn, V.Dot, V.Sum, V.Times, At, BaseRow, WeightCost, WeightSum;
    var acc := PerEdge(units, slots, n, net, broker);
    ws := [];
    assert WeightCost(ws, net, broker) == 0.0 && WeightSum(ws) == 0 by { NoWeights(net, broker); }
    for e := 0 to n
      invariant WeightCost(ws, net, broker) == MapCost(acc, net, broker, e) && WeightSum(ws) == MapSum(acc, e)
      invariant forall i | 0 <= i < |ws| :: ws[i].0 < e
      invariant forall i, k | 0 <= i < k < |ws| :: ws[i].0 < ws[k].0
      invariant forall w: (nat, nat) :: w in ws <==> w.0 < e && w.0 in acc && w.1 == acc[w.0]
    {
      if e in acc {
        WeightAppend(ws, (e, acc[e]), net, broker);
        ws := ws + [(e, acc[e])];
      }
    }
    GatheredAll(acc, ws, units, slots);
    assert slots != [] ==> (slots[0], acc[slots[0]]) in ws;
  }

  lemma NoWeights(net: Net, broker: nat)
    ensures WeightCost([], net, broker) == 0.0 && WeightSum([]) == 0
  {}

  // --- over all applications ---

  function RowCosts(m: V.Matrix, c: seq<seq<real>>): (r: seq<real>)
    requires V.SameShape(m, c)
    ensures |r| == |m| && forall i | 0 <= i < |m| :: r[i] == V.Dot(m[i], c[i])
  {
    seq(|m|, i requires 0 <= i < |m| => V.Dot(m[i], c[i]))
  }

  lemma {:induction false} CostIsSum(m: V.Matrix, c: seq<seq<real>>)
    requires V.SameShape(m, c)
    ensures V.Cost(m, c) == Sum(RowCosts(m, c))
  {
    if m != [] {
      hide V.Dot;
      var last := |m| - 1;
      CostIsSum(m[..last], c[..last]);
      assert RowCosts(m, c)[..last] == RowCosts(m[..last], c[..last]);
    }
  }

  function Reals(v: seq<nat>): (r: seq<real>)
    ensures |r| == |v| && forall i | 0 <= i < |v| :: r[i] == v[i] as real
  {
    seq(|v|, i requires 0 <= i < |v| => v[i] as real)
  }

  lemma {:induction false} SumAsReal(v: seq<nat>)
    ensures Sum(Reals(v)) == V.Sum(v) as real
  {
    if v != [] {
      var last := |v| - 1;
      SumAsReal(v[..last]);
      assert Reals(v)[..last] == Reals(v[..last]);
    }
  }

  function RowSums(m: V.Matrix): (r: seq<nat>)
    ensures |r| == |m| && forall i | 0 <= i < |m| :: r[i] == V.Sum(m[i])
  {
    seq(|m|, i requires 0 <= i < |m| => V.Sum(m[i]))
  }

  lemma {:induction false} GrandIsSum(m: V.Matrix)
    ensures V.GrandSum(m) == V.Sum(RowSums(m))
  {
    if m != [] {
      var last := |m| - 1;
      GrandIsSum(m[..last]);
      assert RowSums(m)[..last] == RowSums(m[..last]);
    }
  }
}
