/**
 * The prices that an optimisation uses, against what was meant and against what the running
 * costs assume: exactly when they agree, in terms of what is known before the assignment.
 */
module Pricing {
  import opened Placements
  import opened Weights
  import opened Scenarios
  import V = Vectors
  import F = Mcfp

  // --- storage is priced by the index of the container, not by its edge node ---

  /** The cost of a unit of a lambda-app on edge node e, with storage priced by the node. */
  function Priced(app: App, net: Net, e: nat, local: real, remote: real): real {
    V.Times(app.exchange, At(net, app.broker, e)) + V.Times(app.storage, if e == CLOUD then local else remote)
  }

  lemma TimesInjective(x: nat, c: real, d: real)
    ensures V.Times(x, c) == V.Times(x, d) <==> x == 0 || c == d
  {
    if c >= d { V.TimesGap(x, c, d); } else { V.TimesGap(x, d, c); }
  }

  /** A unit is priced by the node exactly when index and node agree on the cloud, or it makes no difference. */
  lemma UnitIsPricedIff(app: App, net: Net, w: nat, e: nat, local: real, remote: real)
    ensures UnitCost(app, net, w, e, local, remote) == Priced(app, net, e, local, remote) <==>
      (w == CLOUD <==> e == CLOUD) || app.storage == 0 || local == remote
  {
    hide V.Times;
    TimesInjective(app.storage, local, remote);
  }

  /** The second container of the cloud is charged the remote price. */
  lemma SecondCloudContainerIsRemote()
    ensures var app := App(0, Lambda, 1, 1, 1, 0, []);
            UnitCost(app, [[1.0]], 1, CLOUD, 0.0, 5.0) == 6.0 && Priced(app, [[1.0]], CLOUD, 0.0, 5.0) == 1.0
  {
    V.TimesStep(0, 1.0);
    V.TimesStep(0, 5.0);
    V.TimesStep(0, 0.0);
  }

  function PricedMatrix(apps: seq<App>, ids: seq<nat>, slots: seq<nat>, net: Net, local: real, remote: real): (c: seq<seq<real>>)
    requires forall i | 0 <= i < |ids| :: ids[i] < |apps|
    ensures V.Shape(c, |ids|, |slots|)
    ensures forall i, w | 0 <= i < |ids| && 0 <= w < |slots| :: c[i][w] == Priced(apps[ids[i]], net, slots[w], local, remote)
  {
    seq(|ids|, i requires 0 <= i < |ids| => seq(|slots|, w requires 0 <= w < |slots| => Priced(apps[ids[i]], net, slots[w], local, remote)))
  }

  /** The containers of the cloud come first. */
  lemma CloudComesFirst(slots: seq<nat>)
    requires (forall c, d | 0 <= c < d < |slots| :: slots[c] <= slots[d]) && Containers(slots, CLOUD) != {}
    ensures slots != [] && slots[0] == CLOUD
    ensures |Containers(slots, CLOUD)| == 1 <==> forall w | 0 <= w < |slots| :: w == CLOUD <==> slots[w] == CLOUD
    ensures |Containers(slots, CLOUD)| > 1 ==> |slots| > 1 && slots[1] == CLOUD
  {
    var s := Containers(slots, CLOUD);
    var c :| c in s;
    assert slots[0] == CLOUD;
    assert 0 in s && |s - {0}| == |s| - 1;
    if |s| == 1 {
      SameSize({0}, s);
      forall w | 0 <= w < |slots| && slots[w] == CLOUD ensures w == 0 {
        assert w in s;
      }
    } else {
      var d :| d in s - {0};
      assert slots[1] <= slots[d];
    }
  }

  /** All units are priced by node exactly when one container of the cloud is left, or prices or storage make no difference. */
  lemma MatrixIsPricedIff(apps: seq<App>, edges: seq<Edge>, ids: seq<nat>, slots: seq<nat>, net: Net, local: real, remote: real)
    requires FreeSlots(slots, edges) && Containers(slots, CLOUD) != {} && forall i | 0 <= i < |ids| :: ids[i] < |apps|
    ensures LambdaMatrix(apps, ids, slots, net, local, remote) == PricedMatrix(apps, ids, slots, net, local, remote) <==>
      |Containers(slots, CLOUD)| == 1 || local == remote || forall i | 0 <= i < |ids| :: apps[ids[i]].storage == 0
  {
    hide Containers, UnitCost, Priced;
    var (c, d) := (LambdaMatrix(apps, ids, slots, net, local, remote), PricedMatrix(apps, ids, slots, net, local, remote));
    CloudComesFirst(slots);
    forall i, w | 0 <= i < |ids| && 0 <= w < |slots|
      ensures c[i][w] == d[i][w] <==> (w == CLOUD <==> slots[w] == CLOUD) || apps[ids[i]].storage == 0 || local == remote
    {
      UnitIsPricedIff(apps[ids[i]], net, w, slots[w], local, remote);
    }
    if c == d && |Containers(slots, CLOUD)| != 1 && local != remote {
      assert |Containers(slots, CLOUD)| > 1;
      forall i | 0 <= i < |ids| ensures apps[ids[i]].storage == 0 {
        assert c[i][1] == d[i][1];
      }
    }
    if |Containers(slots, CLOUD)| == 1 || local == remote || forall i | 0 <= i < |ids| :: apps[ids[i]].storage == 0 {
      forall i | 0 <= i < |ids| ensures c[i] == d[i] {
        assert forall w | 0 <= w < |slots| :: c[i][w] == d[i][w];
      }
    }
  }

  /** In a dynamic run two containers of the cloud are left at least, as soon as there is a lambda-app. */
  lemma DynamicMatrixIsPricedIff(apps: seq<App>, edges: seq<Edge>, slots: seq<nat>, net: Net, local: real, remote: real)
    requires FreeSlots(slots, edges) && Listed(apps, edges) && edges != [] && edges[CLOUD].containers == 1 + |apps|
    requires Of(apps, Lambda) != [] && forall i | 0 <= i < |Of(apps, Lambda)| :: Of(apps, Lambda)[i] < |apps|
    ensures LambdaMatrix(apps, Of(apps, Lambda), slots, net, local, remote) == PricedMatrix(apps, Of(apps, Lambda), slots, net, local, remote) <==>
      local == remote || forall i | 0 <= i < |Of(apps, Lambda)| :: apps[Of(apps, Lambda)[i]].storage == 0
  {
    hide Containers, Listed, LambdaMatrix, PricedMatrix, Filter;
    ListedAtMost(apps, edges, CLOUD);
    Sizes(apps);
    assert |Containers(slots, CLOUD)| > 1;
    MatrixIsPricedIff(apps, edges, Of(apps, Lambda), slots, net, local, remote);
  }

  /** In a snapshot one container of the cloud is left exactly when all mu-apps are there. */
  lemma SnapshotLeavesOneIff(apps: seq<App>, edges: seq<Edge>, slots: seq<nat>)
    requires FreeSlots(slots, edges) && Listed(apps, edges) && edges != [] && edges[CLOUD].containers == 1 + |SetOf(apps, Mu)|
    ensures Containers(slots, CLOUD) != {}
    ensures |Containers(slots, CLOUD)| == 1 <==> forall a | 0 <= a < |apps| && apps[a].kind == Mu :: apps[a].edge == CLOUD
  {
    hide Containers;
    var s := Elements(edges[CLOUD].muApps);
    NoDupsSize(edges[CLOUD].muApps);
    ListedAtMost(apps, edges, CLOUD);
    assert s <= SetOf(apps, Mu);
    if |s| == |SetOf(apps, Mu)| {
      SameSize(s, SetOf(apps, Mu));
      forall a | 0 <= a < |apps| && apps[a].kind == Mu ensures apps[a].edge == CLOUD {
        assert a in SetOf(apps, Mu);
        assert a in edges[CLOUD].muApps;
      }
    }
    if forall a | 0 <= a < |apps| && apps[a].kind == Mu :: apps[a].edge == CLOUD {
      forall a | a in SetOf(apps, Mu) ensures a in s { assert MuAt(apps, a, CLOUD); }
      assert s == SetOf(apps, Mu);
    }
  }

  lemma SameSize(s: set<nat>, t: set<nat>)
    requires s <= t && |s| == |t|
    ensures s == t
  {
    if x :| x in t && x !in s {
      SubsetSize(s, t - {x});
    }
  }

  // --- mu-apps: charged by rate and exchange, counted without ---

  /** The distances of the containers that a solver picks: what the running cost assumes. */
  function PickedDistances(apps: seq<App>, ids: seq<nat>, pick: seq<nat>, slots: seq<nat>, net: Net): (v: seq<real>)
    requires |pick| == |ids| && forall i | 0 <= i < |ids| :: ids[i] < |apps| && pick[i] < |slots|
    ensures |v| == |ids| && forall i | 0 <= i < |ids| :: v[i] == At(net, apps[ids[i]].broker, slots[pick[i]])
  {
    seq(|ids|, i requires 0 <= i < |ids| => At(net, apps[ids[i]].broker, slots[pick[i]]))
  }

  lemma DistancesAreMuTotal(was: seq<App>, apps: seq<App>, edges: seq<Edge>, pick: seq<nat>, slots: seq<nat>, net: Net)
    requires Moved(was, apps) && PutOn(apps, edges, Of(was, Mu), pick, slots, |Of(was, Mu)|)
    ensures Sum(PickedDistances(was, Of(was, Mu), pick, slots, net)) == MuTotal(apps, net)
  {
    hide At, Sum, Filter;
    var (ids, vals) := (Of(was, Mu), MuCosts(apps, net));
    FilterSame(was, apps, Mu, |apps|);
    FilterMembers(apps, Mu, |apps|);
    SumFilter(vals, apps, Mu, |apps|);
    assert vals[..|apps|] == vals;
    forall i | 0 <= i < |ids| ensures Pick(vals, ids)[i] == PickedDistances(was, ids, pick, slots, net)[i] {
      assert ids[i] in ids;
    }
    assert Pick(vals, ids) == PickedDistances(was, ids, pick, slots, net);
  }

  /** Some assignment gives container c to application i. */
  lemma PickOf(n: nat, m: nat, i: nat, c: nat) returns (pick: seq<nat>)
    requires i < n <= m && c < m
    ensures IsAssignment(pick, n, m) && pick[i] == c
  {
    pick := seq(n, k requires 0 <= k < n => if k == i then c else if k == c then i else k);
  }

  /** Unit factors, or no distance to any container. */
  ghost predicate FairMu(app: App, slots: seq<nat>, net: Net) {
    app.rate * app.exchange == 1 || forall c | 0 <= c < |slots| :: At(net, app.broker, slots[c]) == 0.0
  }

  ghost predicate FairPick(apps: seq<App>, ids: seq<nat>, pick: seq<nat>, slots: seq<nat>, net: Net) {
    |pick| == |ids| && (forall i | 0 <= i < |ids| :: ids[i] < |apps| && pick[i] < |slots|) &&
    Sum(PickedCosts(apps, ids, pick, slots, net)) == Sum(PickedDistances(apps, ids, pick, slots, net))
  }

  lemma FairPickIff(apps: seq<App>, ids: seq<nat>, pick: seq<nat>, slots: seq<nat>, net: Net)
    requires |pick| == |ids| && forall i | 0 <= i < |ids| :: ids[i] < |apps| && pick[i] < |slots|
    requires forall i | 0 <= i < |ids| :: apps[ids[i]].rate * apps[ids[i]].exchange >= 1
    requires forall b, e :: At(net, b, e) >= 0.0
    ensures FairPick(apps, ids, pick, slots, net) <==>
      forall i | 0 <= i < |ids| :: apps[ids[i]].rate * apps[ids[i]].exchange == 1 || At(net, apps[ids[i]].broker, slots[pick[i]]) == 0.0
  {
    hide At, V.Times, Sum;
    var (v, w) := (PickedCosts(apps, ids, pick, slots, net), PickedDistances(apps, ids, pick, slots, net));
    forall i | 0 <= i < |ids|
      ensures v[i] >= w[i]
      ensures v[i] == w[i] <==> apps[ids[i]].rate * apps[ids[i]].exchange == 1 || At(net, apps[ids[i]].broker, slots[pick[i]]) == 0.0
    {
      TimesAtLeast(apps[ids[i]].rate * apps[ids[i]].exchange, At(net, apps[ids[i]].broker, slots[pick[i]]));
    }
    SumGap(v, w);
    assert v == w <==> forall i | 0 <= i < |ids| :: v[i] == w[i];
  }

  /**
   * Whatever the solver picks, the charge is the running cost: exactly when every application
   * has unit factors or no distance to any container it may get.
   */
  lemma MuChargeIsCostForEveryPickIff(apps: seq<App>, ids: seq<nat>, slots: seq<nat>, net: Net)
    requires |ids| <= |slots| && forall i | 0 <= i < |ids| :: ids[i] < |apps| && apps[ids[i]].rate * apps[ids[i]].exchange >= 1
    requires forall b, e :: At(net, b, e) >= 0.0
    ensures (forall pick | IsAssignment(pick, |ids|, |slots|) :: FairPick(apps, ids, pick, slots, net)) <==>
      forall i | 0 <= i < |ids| :: FairMu(apps[ids[i]], slots, net)
  {
    hide At, FairPick, NoDups;
    if forall i | 0 <= i < |ids| :: FairMu(apps[ids[i]], slots, net) {
      forall pick | IsAssignment(pick, |ids|, |slots|) ensures FairPick(apps, ids, pick, slots, net) {
        FairPickIff(apps, ids, pick, slots, net);
      }
    }
    if forall pick | IsAssignment(pick, |ids|, |slots|) :: FairPick(apps, ids, pick, slots, net) {
      forall i | 0 <= i < |ids| ensures FairMu(apps[ids[i]], slots, net) {
        forall c | 0 <= c < |slots| ensures apps[ids[i]].rate * apps[ids[i]].exchange == 1 || At(net, apps[ids[i]].broker, slots[c]) == 0.0 {
          var pick := PickOf(|ids|, |slots|, i, c);
          FairPickIff(apps, ids, pick, slots, net);
        }
      }
    }
  }

  /** No distance to any container is no distance to any edge node with a container to use. */
  lemma FairMuByNodeIff(app: App, edges: seq<Edge>, slots: seq<nat>, alpha: real, net: Net)
    requires 0.0 <= alpha <= 1.0 && UsableSlots(slots, edges, alpha)
    ensures FairMu(app, slots, net) <==>
      app.rate * app.exchange == 1 || forall e | 0 <= e < |edges| && Usable(edges, alpha, e) > 0 :: At(net, app.broker, e) == 0.0
  {
    hide At, Usable;
    if FairMu(app, slots, net) && app.rate * app.exchange != 1 {
      forall e | 0 <= e < |edges| && Usable(edges, alpha, e) > 0 ensures At(net, app.broker, e) == 0.0 {
        assert |Containers(slots, e)| > 0;
        var c :| c in Containers(slots, e);
        assert slots[c] == e;
      }
    }
    if forall e | 0 <= e < |edges| && Usable(edges, alpha, e) > 0 :: At(net, app.broker, e) == 0.0 {
      forall c | 0 <= c < |slots| ensures At(net, app.broker, slots[c]) == 0.0 {
        assert c in Containers(slots, slots[c]);
      }
    }
  }

  // --- lambda-apps: charged by exchange and storage, counted without ---

  /** A unit costs what the network costs: a unit exchange or no distance, and no storage or a free one. */
  ghost predicate FairUnit(app: App, net: Net, w: nat, e: nat, local: real, remote: real) {
    (app.exchange == 1 || At(net, app.broker, e) == 0.0) && (app.storage == 0 || (if w == CLOUD then local else remote) == 0.0)
  }

  lemma FairUnitIff(app: App, net: Net, w: nat, e: nat, local: real, remote: real)
    requires local >= 0.0 && remote >= 0.0 && At(net, app.broker, e) >= 0.0 && app.exchange >= 1
    ensures UnitCost(app, net, w, e, local, remote) >= At(net, app.broker, e)
    ensures UnitCost(app, net, w, e, local, remote) == At(net, app.broker, e) <==> FairUnit(app, net, w, e, local, remote)
  {
    hide At;
    var price := if w == CLOUD then local else remote;
    TimesAtLeast(app.exchange, At(net, app.broker, e));
    V.TimesGap(app.storage, price, 0.0);
    NoPrice(app.storage);
    hide V.Times;
  }

  lemma NoPrice(x: nat)
    ensures V.Times(x, 0.0) == 0.0
  {}

  /** An exchange of two is charged twice, and storage on top, where the running cost counts the distance once. */
  lemma ExchangeTwoIsChargedTwice()
    ensures var app := App(0, Lambda, 1, 2, 1, 0, [(0, 1)]);
            UnitCost(app, [[1.0]], 0, CLOUD, 3.0, 5.0) == 5.0 && LambdaCost(app, [[1.0]]) == 1.0
  {
    V.TimesStep(0, 1.0);
    V.TimesStep(1, 1.0);
    V.TimesStep(0, 3.0);
    var ws: seq<(nat, nat)> := [(0, 1)];
    assert ws[..0] == [];
    assert WeightCost(ws[..0], [[1.0]], 0) == 0.0;
  }

  ghost predicate FairResult(m: V.Matrix, c: seq<seq<real>>, d: seq<seq<real>>) {
    V.SameShape(m, c) && V.SameShape(m, d) && V.Cost(m, c) == V.Cost(m, d)
  }

  /**
   * Whatever a solver does that places all it can, the charge is the running cost: exactly when
   * every unit is fair that an application with a demand may place in a container with capacity.
   */
  lemma LambdaChargeIsCostForEveryResultIff(apps: seq<App>, ids: seq<nat>, slots: seq<nat>, capacities: seq<nat>, net: Net, local: real, remote: real)
    requires |capacities| == |slots| && forall i | 0 <= i < |ids| :: ids[i] < |apps| && apps[ids[i]].exchange >= 1
    requires local >= 0.0 && remote >= 0.0 && forall b, e :: At(net, b, e) >= 0.0
    ensures (forall m: V.Matrix | F.FullResult(m, Rates(apps, ids), capacities) ::
               FairResult(m, LambdaMatrix(apps, ids, slots, net, local, remote), BaseMatrix(apps, ids, slots, net))) <==>
      forall i, w | 0 <= i < |ids| && 0 <= w < |slots| && apps[ids[i]].rate > 0 && capacities[w] > 0 ::
        FairUnit(apps[ids[i]], net, w, slots[w], local, remote)
  {
    hide At, UnitCost, FairUnit, F.FullResult, FairResult;
    var rates := Rates(apps, ids);
    var (c, d) := (LambdaMatrix(apps, ids, slots, net, local, remote), BaseMatrix(apps, ids, slots, net));
    forall i, w | 0 <= i < |ids| && 0 <= w < |slots|
      ensures c[i][w] >= d[i][w] && (c[i][w] == d[i][w] <==> FairUnit(apps[ids[i]], net, w, slots[w], local, remote))
    {
      FairUnitIff(apps[ids[i]], net, w, slots[w], local, remote);
    }
    hide LambdaMatrix, BaseMatrix;
    if forall i, w | 0 <= i < |ids| && 0 <= w < |slots| && rates[i] > 0 && capacities[w] > 0 :: c[i][w] == d[i][w] {
      forall m: V.Matrix | F.FullResult(m, rates, capacities) ensures FairResult(m, c, d) {
        FairEverywhere(m, c, d, rates, capacities);
      }
    }
    if forall m: V.Matrix | F.FullResult(m, rates, capacities) :: FairResult(m, c, d) {
      forall i, w | 0 <= i < |ids| && 0 <= w < |slots| && rates[i] > 0 && capacities[w] > 0 ensures c[i][w] == d[i][w] {
        var m := F.FullWith(rates, capacities, i, w);
        assert FairResult(m, c, d);
        FairWhereUsed(m, c, d, rates, capacities, i, w);
      }
    }
  }

  lemma FairEverywhere(m: V.Matrix, c: seq<seq<real>>, d: seq<seq<real>>, rates: seq<nat>, capacities: seq<nat>)
    requires F.FullResult(m, rates, capacities) && V.Shape(c, |rates|, |capacities|) && V.Shape(d, |rates|, |capacities|)
    requires forall i, w | 0 <= i < |rates| && 0 <= w < |capacities| :: c[i][w] >= d[i][w]
    requires forall i, w | 0 <= i < |rates| && 0 <= w < |capacities| && rates[i] > 0 && capacities[w] > 0 :: c[i][w] == d[i][w]
    ensures FairResult(m, c, d)
  {
    hide V.Cost, V.Sum, V.ColSum, V.GrandSum;
    V.CostGap(m, c, d);
    forall i, w | 0 <= i < |rates| && 0 <= w < |capacities| && m[i][w] > 0 ensures c[i][w] == d[i][w] {
      V.SumAtLeast(m[i], w);
      V.ColSumAtLeast(m, i, w);
    }
    AllUndisturbed(m, c, d, |rates|, |capacities|);
  }

  lemma FairWhereUsed(m: V.Matrix, c: seq<seq<real>>, d: seq<seq<real>>, rates: seq<nat>, capacities: seq<nat>, i: nat, w: nat)
    requires V.Shape(m, |rates|, |capacities|) && V.Shape(c, |rates|, |capacities|) && V.Shape(d, |rates|, |capacities|)
    requires forall k, j | 0 <= k < |rates| && 0 <= j < |capacities| :: c[k][j] >= d[k][j]
    requires FairResult(m, c, d) && i < |rates| && w < |capacities| && m[i][w] > 0
    ensures c[i][w] == d[i][w]
  {
    hide V.Cost;
    V.CostGap(m, c, d);
    AllUndisturbed(m, c, d, |rates|, |capacities|);
  }
}
