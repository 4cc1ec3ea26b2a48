/** A scenario: the assignment of mu-apps and lambda-apps to the containers of edge nodes. */
module Scenarios {
  import opened Placements
  import opened Weights
  import opened Wrappers
  import V = Vectors
  import F = Mcfp

  /** How lambda-apps are assigned. */
  datatype LambdaAlgorithm = Greedy | Random(rnd: nat -> real)

  // --- what an optimisation charges ---

  /** The cost of a mu-app in the assignment problem. */
  function MuCharge(app: App, net: Net): real {
    if app.kind == Mu then V.Times(app.rate * app.exchange, At(net, app.broker, app.edge)) else 0.0
  }

  function MuCharges(apps: seq<App>, net: Net): (v: seq<real>)
    ensures |v| == |apps| && forall a | 0 <= a < |apps| :: v[a] == MuCharge(apps[a], net)
  {
    seq(|apps|, a requires 0 <= a < |apps| => MuCharge(apps[a], net))
  }

  /** The optimisation charges what the running cost assumes exactly when every mu-app has unit factors or is at no distance. */
  lemma MuChargeIsCost(apps: seq<App>, net: Net)
    requires forall a | 0 <= a < |apps| && apps[a].kind == Mu ::
               apps[a].rate * apps[a].exchange >= 1 && At(net, apps[a].broker, apps[a].edge) >= 0.0
    ensures Sum(MuCharges(apps, net)) >= MuTotal(apps, net)
    ensures Sum(MuCharges(apps, net)) == MuTotal(apps, net) <==>
      forall a | 0 <= a < |apps| && apps[a].kind == Mu :: apps[a].rate * apps[a].exchange == 1 || At(net, apps[a].broker, apps[a].edge) == 0.0
  {
    forall a | 0 <= a < |apps| && apps[a].kind == Mu
      ensures MuCharge(apps[a], net) >= MuCost(apps[a], net)
      ensures MuCharge(apps[a], net) == MuCost(apps[a], net) <==>
        apps[a].rate * apps[a].exchange == 1 || At(net, apps[a].broker, apps[a].edge) == 0.0
    {
      TimesAtLeast(apps[a].rate * apps[a].exchange, At(net, apps[a].broker, apps[a].edge));
    }
    var (v, w) := (MuCharges(apps, net), MuCosts(apps, net));
    hide Sum, At, V.Times, MuCharge, MuCost;
    forall a | 0 <= a < |apps| ensures v[a] >= w[a] {
      if apps[a].kind != Mu { NoMuCost(apps[a], net); }
    }
    SumGap(v, w);
    assert v == w <==> forall a | 0 <= a < |apps| :: v[a] == w[a];
    assert forall a | 0 <= a < |apps| && apps[a].kind != Mu :: v[a] == w[a] by {
      forall a | 0 <= a < |apps| && apps[a].kind != Mu ensures v[a] == w[a] { NoMuCost(apps[a], net); }
    }
  }

  /** A rate of two is charged twice by the optimisation and once by the running cost. */
  lemma RateTwoIsChargedTwice()
    ensures var app := App(0, Mu, 2, 1, 0, 0, []);
            MuCharge(app, [[1.0]]) == 2.0 && MuCost(app, [[1.0]]) == 1.0
  {
    V.TimesStep(0, 1.0);
    V.TimesStep(1, 1.0);
  }

  lemma NoMuCost(app: App, net: Net)
    requires app.kind != Mu
    ensures MuCharge(app, net) == MuCost(app, net) == 0.0
  {}

  lemma TimesAtLeast(k: nat, c: real)
    requires k >= 1 && c >= 0.0
    ensures V.Times(k, c) >= c && (V.Times(k, c) == c <==> k == 1 || c == 0.0)
  {
    V.TimesStep(k - 1, c);
    V.TimesGap(k - 1, c, 0.0);
  }

  /** The cost of a unit of a lambda-app in container w of the flow problem, on edge node e. */
  function UnitCost(app: App, net: Net, w: nat, e: nat, local: real, remote: real): real {
    V.Times(app.exchange, At(net, app.broker, e)) + V.Times(app.storage, if w == CLOUD then local else remote)
  }

  function LambdaMatrix(apps: seq<App>, ids: seq<nat>, slots: seq<nat>, net: Net, local: real, remote: real): (c: seq<seq<real>>)
    requires forall i | 0 <= i < |ids| :: ids[i] < |apps|
    ensures V.Shape(c, |ids|, |slots|)
    ensures forall i, w | 0 <= i < |ids| && 0 <= w < |slots| :: c[i][w] == UnitCost(apps[ids[i]], net, w, slots[w], local, remote)
  {
    seq(|ids|, i requires 0 <= i < |ids| =>
      seq(|slots|, w requires 0 <= w < |slots| => UnitCost(apps[ids[i]], net, w, slots[w], local, remote)))
  }

  /** The same, with what the running cost assumes. */
  function BaseMatrix(apps: seq<App>, ids: seq<nat>, slots: seq<nat>, net: Net): (c: seq<seq<real>>)
    requires forall i | 0 <= i < |ids| :: ids[i] < |apps|
    ensures V.Shape(c, |ids|, |slots|)
    ensures forall i | 0 <= i < |ids| :: c[i] == BaseRow(net, apps[ids[i]].broker, slots)
  {
    seq(|ids|, i requires 0 <= i < |ids| => BaseRow(net, apps[ids[i]].broker, slots))
  }

  /** Unit exchanges and free storage: the two agree. */
  lemma UnitMatrix(apps: seq<App>, ids: seq<nat>, slots: seq<nat>, net: Net)
    requires forall i | 0 <= i < |ids| :: ids[i] < |apps| && apps[ids[i]].exchange == 1
    ensures LambdaMatrix(apps, ids, slots, net, 0.0, 0.0) == BaseMatrix(apps, ids, slots, net)
  {
    var (c, d) := (LambdaMatrix(apps, ids, slots, net, 0.0, 0.0), BaseMatrix(apps, ids, slots, net));
    forall i | 0 <= i < |ids| ensures c[i] == d[i] {
      forall w | 0 <= w < |slots| ensures c[i][w] == d[i][w] {
        UnitIsBase(apps[ids[i]], net, w, slots[w]);
      }
    }
  }

  lemma UnitIsBase(app: App, net: Net, w: nat, e: nat)
    requires app.exchange == 1
    ensures UnitCost(app, net, w, e, 0.0, 0.0) == At(net, app.broker, e)
  {
    V.TimesStep(0, At(net, app.broker, e));
  }

  // --- what the lambda-apps get ---

  function Capacity(beta: real, capacity: int): int { (beta * capacity as real).Floor }

  function Capacities(edges: seq<Edge>, slots: seq<nat>, beta: real): (r: seq<int>)
    requires forall c | 0 <= c < |slots| :: slots[c] < |edges|
    ensures |r| == |slots| && forall c | 0 <= c < |slots| :: r[c] == Capacity(beta, edges[slots[c]].capacity)
  {
    seq(|slots|, c requires 0 <= c < |slots| => Capacity(beta, edges[slots[c]].capacity))
  }

  function Rates(apps: seq<App>, ids: seq<nat>): (r: seq<nat>)
    requires forall i | 0 <= i < |ids| :: ids[i] < |apps|
    ensures |r| == |ids| && forall i | 0 <= i < |ids| :: r[i] == apps[ids[i]].rate
  {
    seq(|ids|, i requires 0 <= i < |ids| => apps[ids[i]].rate)
  }

  /** The containers that mu-apps leave, in the order of the edge nodes. */
  ghost predicate FreeSlots(slots: seq<nat>, edges: seq<Edge>) {
    (forall c | 0 <= c < |slots| :: slots[c] < |edges|) && (forall c, d | 0 <= c < d < |slots| :: slots[c] <= slots[d]) &&
    forall e | 0 <= e < |edges| :: |Containers(slots, e)| + |edges[e].muApps| == edges[e].containers
  }

  /** Only the weights of lambda-apps have changed. */
  ghost predicate Reweighted(was: seq<App>, apps: seq<App>) {
    |apps| == |was| && forall a | 0 <= a < |apps| ::
      apps[a] == was[a].(weights := apps[a].weights) && (apps[a].kind == Mu ==> apps[a] == was[a])
  }

  ghost predicate WeightsOf(app: App, units: seq<nat>, slots: seq<nat>, net: Net, n: nat)
    requires |units| == |slots|
  {
    WeightCost(app.weights, net, app.broker) == V.Dot(units, BaseRow(net, app.broker, slots)) &&
    WeightSum(app.weights) == V.Sum(units) && app.weights != [] && (forall w | w in app.weights :: w.0 < n) &&
    PerNode(app.weights, units, slots)
  }

  /** The weights of the lambda-apps are the units that m gives them. */
  ghost predicate LambdaResult(apps: seq<App>, ids: seq<nat>, m: V.Matrix, slots: seq<nat>, net: Net, n: nat) {
    V.Shape(m, |ids|, |slots|) && forall i | 0 <= i < |ids| :: ids[i] < |apps| && WeightsOf(apps[ids[i]], m[i], slots, net, n)
  }

  /** Adding up the weights per edge node changes no cost: the recomputed cost is that of the units. */
  lemma LambdaTotalIsCost(apps: seq<App>, m: V.Matrix, slots: seq<nat>, net: Net, n: nat)
    requires LambdaResult(apps, Of(apps, Lambda), m, slots, net, n)
    ensures LambdaTotal(apps, net) == V.Cost(m, BaseMatrix(apps, Of(apps, Lambda), slots, net))
  {
    hide V.Dot, V.Sum, WeightCost, WeightSum, BaseRow, Sum, Filter;
    var (ids, vals) := (Of(apps, Lambda), LambdaCosts(apps, net));
    var base := BaseMatrix(apps, ids, slots, net);
    FilterMembers(apps, Lambda, |apps|);
    SumFilter(vals, apps, Lambda, |apps|);
    assert vals[..|apps|] == vals;
    CostIsSum(m, base);
    forall i | 0 <= i < |ids| ensures Pick(vals, ids)[i] == RowCosts(m, base)[i] {
      assert ids[i] in ids;
      assert WeightsOf(apps[ids[i]], m[i], slots, net, n);
    }
    assert Pick(vals, ids) == RowCosts(m, base);
  }

  /** The units of lambda-apps that are placed, and those requested. */
  function ServedUnits(apps: seq<App>): (v: seq<real>)
    ensures |v| == |apps| && forall a | 0 <= a < |apps| :: v[a] == if apps[a].kind == Lambda then WeightSum(apps[a].weights) as real else 0.0
  {
    seq(|apps|, a requires 0 <= a < |apps| => if apps[a].kind == Lambda then WeightSum(apps[a].weights) as real else 0.0)
  }

  function RequestedUnits(apps: seq<App>): (v: seq<real>)
    ensures |v| == |apps| && forall a | 0 <= a < |apps| :: v[a] == if apps[a].kind == Lambda then apps[a].rate as real else 0.0
  {
    seq(|apps|, a requires 0 <= a < |apps| => if apps[a].kind == Lambda then apps[a].rate as real else 0.0)
  }

  lemma ServedIsGrandSum(apps: seq<App>, m: V.Matrix, slots: seq<nat>, net: Net, n: nat)
    requires LambdaResult(apps, Of(apps, Lambda), m, slots, net, n)
    ensures Sum(ServedUnits(apps)) == V.GrandSum(m) as real
  {
    hide V.Dot, V.Sum, WeightCost, WeightSum, BaseRow, Sum, Filter;
    var (ids, vals) := (Of(apps, Lambda), ServedUnits(apps));
    FilterMembers(apps, Lambda, |apps|);
    SumFilter(vals, apps, Lambda, |apps|);
    assert vals[..|apps|] == vals;
    GrandIsSum(m);
    SumAsReal(RowSums(m));
    forall i | 0 <= i < |ids| ensures Pick(vals, ids)[i] == Reals(RowSums(m))[i] {
      assert ids[i] in ids;
      assert WeightsOf(apps[ids[i]], m[i], slots, net, n);
    }
    assert Pick(vals, ids) == Reals(RowSums(m));
  }

  lemma RequestedIsSum(apps: seq<App>)
    ensures forall i | 0 <= i < |Of(apps, Lambda)| :: Of(apps, Lambda)[i] < |apps|
    ensures Sum(RequestedUnits(apps)) == V.Sum(Rates(apps, Of(apps, Lambda))) as real
  {
    hide V.Sum, Sum, Filter;
    var (ids, vals) := (Of(apps, Lambda), RequestedUnits(apps));
    FilterMembers(apps, Lambda, |apps|);
    SumFilter(vals, apps, Lambda, |apps|);
    assert vals[..|apps|] == vals;
    SumAsReal(Rates(apps, ids));
    forall i | 0 <= i < |ids| ensures Pick(vals, ids)[i] == Reals(Rates(apps, ids))[i] {
      assert ids[i] in ids;
    }
    assert Pick(vals, ids) == Reals(Rates(apps, ids));
  }

  // --- the cloud is big enough, but for one unit ---

  /** Rounded towards zero, as in the conversion to an integer. */
  function CloudCapacity(demand: nat, beta: real): int
    requires 0.0 < beta <= 1.0
  {
    (demand as real / beta).Floor
  }

  /** Rounding twice loses one unit at most. */
  lemma CloudIsEnough(demand: nat, beta: real)
    requires 0.0 < beta <= 1.0
    ensures Capacity(beta, CloudCapacity(demand, beta)) >= demand - 1
  {
    var x := demand as real / beta;
    Quotient(demand as real, beta);
    Scale(x.Floor as real, x, beta);
  }

  /** The demand divided by beta has no fractional part. */
  ghost predicate WholeQuotient(demand: nat, beta: real)
    requires beta > 0.0
  {
    demand as real / beta == (demand as real / beta).Floor as real
  }

  /** Nothing is lost if and only if the first rounding has nothing to round. */
  lemma CloudIsExactIff(demand: nat, beta: real)
    requires 0.0 < beta <= 1.0
    ensures Capacity(beta, CloudCapacity(demand, beta)) >= demand <==> WholeQuotient(demand, beta)
    ensures Capacity(beta, CloudCapacity(demand, beta)) <= demand
  {
    var x := demand as real / beta;
    Quotient(demand as real, beta);
    Products(x, x.Floor as real, beta, demand as real);
  }

  lemma Products(x: real, f: real, beta: real, d: real)
    requires beta > 0.0 && x * beta == d && f <= x
    ensures beta * f <= d && (beta * f == d <==> f == x)
  {
    assert beta * (x - f) == d - beta * f;
    if f < x {
      V.ProductIsPositive(beta, x - f);
    }
  }

  lemma Quotient(x: real, v: real)
    requires v > 0.0
    ensures x / v * v == x
  {}

  lemma Scale(f: real, x: real, beta: real)
    requires 0.0 < beta <= 1.0 && x - 1.0 < f <= x
    ensures beta * f > x * beta - 1.0
  {
    var d := x - f;
    NotNegative(1.0 - beta, d);
    assert (1.0 - beta) * d == d - beta * d;
    assert beta * f == x * beta - beta * d;
  }

  lemma NotNegative(x: real, y: real)
    requires x >= 0.0 && y >= 0.0
    ensures x * y >= 0.0
  {}

  /** One unit can be lost: a demand of one with three fifths over-provisioned. */
  lemma OneUnitIsLost()
    ensures Capacity(0.6, CloudCapacity(1, 0.6)) == 0
  {}

  /** A container of the cloud is left for lambda-apps. */
  lemma CloudSlot(apps: seq<App>, edges: seq<Edge>, slots: seq<nat>) returns (c: nat)
    requires FreeSlots(slots, edges) && Listed(apps, edges) && Roomy(apps, edges)
    ensures c < |slots| && slots[c] == CLOUD
  {
    ListedAtMost(apps, edges, CLOUD);
    var s := Containers(slots, CLOUD);
    assert |s| > 0;
    c :| c in s;
  }

  // --- the scenario ---

  /** Finite costs, below the highest floating-point number. */
  ghost predicate Affordable(apps: seq<App>, n: nat, net: Net, local: real, remote: real, inf: real) {
    forall a, w, e | 0 <= a < |apps| && 0 <= w && 0 <= e < n :: UnitCost(apps[a], net, w, e, local, remote) < inf
  }

  /** Only the edge nodes of mu-apps have changed. */
  ghost predicate Moved(was: seq<App>, apps: seq<App>) {
    |apps| == |was| && forall a | 0 <= a < |apps| ::
      apps[a] == was[a].(edge := apps[a].edge) && (apps[a].kind == Lambda ==> apps[a] == was[a])
  }

  ghost predicate SameNodes(was: seq<Edge>, edges: seq<Edge>) {
    |edges| == |was| && forall e | 0 <= e < |edges| :: edges[e] == was[e].(muApps := edges[e].muApps)
  }

  /** A solver of the assignment problem picks different containers, whatever its algorithm. */
  ghost predicate Solver(pick: (nat, nat) -> seq<nat>) {
    forall n: nat, m: nat | n <= m :: IsAssignment(pick(n, m), n, m)
  }

  /** The cost that the solver reports: the sum over the picked entries of its matrix. */
  function PickedCosts(apps: seq<App>, ids: seq<nat>, pick: seq<nat>, slots: seq<nat>, net: Net): (v: seq<real>)
    requires |pick| == |ids| && forall i | 0 <= i < |ids| :: ids[i] < |apps| && pick[i] < |slots|
    ensures |v| == |ids| && forall i | 0 <= i < |ids| ::
      v[i] == V.Times(apps[ids[i]].rate * apps[ids[i]].exchange, At(net, apps[ids[i]].broker, slots[pick[i]]))
  {
    seq(|ids|, i requires 0 <= i < |ids| =>
      V.Times(apps[ids[i]].rate * apps[ids[i]].exchange, At(net, apps[ids[i]].broker, slots[pick[i]])))
  }

  lemma PickedIsCharged(was: seq<App>, apps: seq<App>, edges: seq<Edge>, pick: seq<nat>, slots: seq<nat>, net: Net)
    requires Moved(was, apps) && PutOn(apps, edges, Of(was, Mu), pick, slots, |Of(was, Mu)|)
    ensures Sum(PickedCosts(was, Of(was, Mu), pick, slots, net)) == Sum(MuCharges(apps, net))
  {
    hide V.Times, At, Sum, Filter;
    var (ids, vals) := (Of(was, Mu), MuCharges(apps, net));
    FilterSame(was, apps, Mu, |apps|);
    FilterMembers(apps, Mu, |apps|);
    SumFilter(vals, apps, Mu, |apps|);
    assert vals[..|apps|] == vals;
    forall i | 0 <= i < |ids| ensures Pick(vals, ids)[i] == PickedCosts(was, ids, pick, slots, net)[i] {
      assert ids[i] in ids;
    }
    assert Pick(vals, ids) == PickedCosts(was, ids, pick, slots, net);
  }

  lemma EnoughSlots(apps: seq<App>, edges: seq<Edge>, slots: seq<nat>)
    requires Roomy(apps, edges) && |Containers(slots, CLOUD)| == edges[CLOUD].containers
    ensures |Of(apps, Mu)| < |slots|
  {
    ContainersAtMost(slots, CLOUD);
    Sizes(apps);
  }

  lemma NoMuApps(apps: seq<App>, edges: seq<Edge>, alpha: real, net: Net)
    requires Listed(apps, edges) && Of(apps, Mu) == [] && 0.0 <= alpha <= 1.0
    ensures Within(edges, alpha) && Sum(MuCharges(apps, net)) == 0.0
  {
    hide Listed, Filter, Sum, Usable;
    Sizes(apps);
    forall e | 0 <= e < |edges| ensures edges[e].muApps == [] {
      ListedAtMost(apps, edges, e);
    }
    FilterMembers(apps, Mu, |apps|);
    var vals := MuCharges(apps, net);
    SumFilter(vals, apps, Mu, |apps|);
    assert vals[..|apps|] == vals && Pick(vals, []) == [];
    NothingToAdd();
  }

  lemma NothingToAdd()
    ensures Sum([]) == 0.0
  {}

  method AppsOf(apps: seq<App>, kind: Kind) returns (ids: seq<nat>)
    ensures ids == Of(apps, kind)
  {
    ids := [];
    for a := 0 to |apps|
      invariant ids == Filter(apps, kind, a)
    {
      if apps[a].kind == kind {
        ids := ids + [a];
      }
    }
  }

  /** The mu-apps are in the containers that the solver picked for them. */
  ghost predicate MuPlaced(apps: seq<App>, edges: seq<Edge>, alpha: real, pick: (nat, nat) -> seq<nat>, slots: seq<nat>)
    requires 0.0 <= alpha <= 1.0
  {
    var ids := Of(apps, Mu);
    UsableSlots(slots, edges, alpha) && (ids != [] ==> PutOn(apps, edges, ids, pick(|ids|, |slots|), slots, |ids|))
  }

  lemma AreUsable(slots: seq<nat>, counts: seq<nat>, edges: seq<Edge>, alpha: real)
    requires 0.0 <= alpha <= 1.0 && |counts| == |edges| && forall e | 0 <= e < |edges| :: counts[e] == Usable(edges, alpha, e)
    requires forall c | 0 <= c < |slots| :: slots[c] < |counts|
    requires forall c, d | 0 <= c < d < |slots| :: slots[c] <= slots[d]
    requires forall e | 0 <= e < |counts| :: |Containers(slots, e)| == counts[e]
    ensures UsableSlots(slots, edges, alpha)
  {
    hide Containers, Usable;
  }

  lemma NonePlaced(apps: seq<App>, edges: seq<Edge>, alpha: real, pick: (nat, nat) -> seq<nat>, slots: seq<nat>)
    requires 0.0 <= alpha <= 1.0 && UsableSlots(slots, edges, alpha) && Of(apps, Mu) == []
    ensures MuPlaced(apps, edges, alpha, pick, slots)
  {
    hide UsableSlots;
  }

  lemma ArePlaced(was: seq<App>, apps: seq<App>, nodes: seq<Edge>, edges: seq<Edge>, alpha: real, pick: (nat, nat) -> seq<nat>, slots: seq<nat>)
    requires 0.0 <= alpha <= 1.0 && UsableSlots(slots, nodes, alpha) && SameNodes(nodes, edges) && Moved(was, apps)
    requires var ids := Of(was, Mu); PutOn(apps, edges, ids, pick(|ids|, |slots|), slots, |ids|)
    ensures MuPlaced(apps, edges, alpha, pick, slots)
  {
    hide PutOn, Containers, Usable, Filter;
    FilterSame(was, apps, Mu, |apps|);
    SameUsable(nodes, edges, alpha);
  }

  class Scenario {
    const net: Net
    const local: real
    const remote: real
    const inf: real
    var apps: seq<App>
    var edges: seq<Edge>

    /** The mu-apps to different containers within the part alpha of each edge node. */
    method AssignMuApps(alpha: real, pick: (nat, nat) -> seq<nat>) returns (cost: real, ghost slots: seq<nat>)
      requires 0.0 <= alpha <= 1.0 && Solver(pick) && Roomy(apps, edges) && (SetOf(apps, Mu) == {} ==> Listed(apps, edges))
      modifies this`apps, this`edges
      ensures Moved(old(apps), apps) && SameNodes(old(edges), edges)
      ensures Listed(apps, edges) && Within(edges, alpha)
      ensures cost == Sum(MuCharges(apps, net)) && MuPlaced(apps, edges, alpha, pick, slots)
    {
      hide Listed, Within, Roomy, Usable, Containers, Sum, MuCharges, PutOn, Filter, SetOf, MuPlaced;
      var nodes := edges;
      var counts := seq(|nodes|, e requires 0 <= e < |nodes| => Usable(nodes, alpha, e));
      NotEmpty(apps, edges, alpha);
      var list := Slots(counts);
      slots := list;
      AreUsable(slots, counts, nodes, alpha);
      var ids := AppsOf(apps, Mu);
      if ids == [] {
        Sizes(apps);
        NoMuApps(apps, edges, alpha, net);
        NonePlaced(apps, edges, alpha, pick, slots);
        return 0.0, slots;
      }
      EnoughSlots(apps, edges, slots);
      var chosen := pick(|ids|, |list|);
      FilterMembers(apps, Mu, |apps|);
      assert forall i | 0 <= i < |ids| :: ids[i] in ids;
      cost := Sum(PickedCosts(apps, ids, chosen, list, net));
      ghost var was := apps;
      edges := seq(|nodes|, e requires 0 <= e < |nodes| => nodes[e].(muApps := []));
      NonePut(apps, edges, ids, chosen, slots);
      for i := 0 to |ids|
        invariant Moved(was, apps) && SameNodes(old(edges), edges)
        invariant PutOn(apps, edges, ids, chosen, slots, i)
      {
        PutOnMore(apps, edges, ids, chosen, slots, i);
        var e := list[chosen[i]];
        apps := apps[ids[i] := apps[ids[i]].(edge := e)];
        edges := edges[e := edges[e].(muApps := edges[e].muApps + [ids[i]])];
      }
      PickedIsCharged(was, apps, edges, chosen, slots, net);
      SameUsable(old(edges), edges, alpha);
      ArePlaced(was, apps, nodes, edges, alpha, pick, slots);
      AllPutOn(apps, edges, ids, chosen, slots, alpha);
    }

    /** The lambda-apps share the containers that mu-apps leave. */
    method AssignLambdaApps(beta: real, algorithm: LambdaAlgorithm, ghost alpha: real)
        returns (cost: real, ghost m: V.Matrix, ghost slots: seq<nat>)
      requires 0.0 <= alpha <= 1.0 && Listed(apps, edges) && Within(edges, alpha) && Roomy(apps, edges)
      requires Affordable(apps, |edges|, net, local, remote, inf)
      modifies this`apps
      ensures Reweighted(old(apps), apps) && Optimised(apps, edges, net, local, remote, beta, cost, m, slots)
      ensures SolvedBy(algorithm, apps, edges, net, local, remote, beta, m, slots)
    {
      hide Listed, Within, Roomy, Containers, Filter, Affordable, WeightedUpto, V.Cost, F.FullResult, UnitCost, Optimised, WeightsOf, LambdaMatrix, Rates, Capacities, FreeSlots, BaseRow, V.Dot, V.Sum, WeightCost, WeightSum, Reweighted, NoDups, Solution, SolvedBy, PerNode;
      var ids := AppsOf(apps, Lambda);
      FilterMembers(apps, Lambda, |apps|);
      assert forall i | 0 <= i < |ids| :: ids[i] in ids;
      if ids == [] {
        NothingToOptimise(apps, edges, net, local, remote, beta, algorithm);
        return 0.0, [], [];
      }
      var free := FreeContainers(alpha);
      slots := free;
      var _ := CloudSlot(apps, edges, free);
      var costs := LambdaMatrix(apps, ids, free, net, local, remote);
      AllAffordable(apps, ids, free, |edges|, net, local, remote, inf);
      var units;
      units, cost := SolveFlow(costs, Rates(apps, ids), Capacities(edges, free, beta), algorithm, inf);
      m := units;
      ghost var was := apps;
      NoneWeighted(apps, ids, units, free, net, |edges|);
      for t := 0 to |ids|
        invariant |apps| == |was| && (forall a | 0 <= a < |was| :: apps[a].kind == was[a].kind)
        invariant WeightedUpto(was, apps, ids, units, free, net, |edges|, t)
      {
        var app := apps[ids[t]];
        var ws := Aggregate(units[t], free, |edges|, net, app.broker);
        IsWeights(app.(weights := ws), units[t], free, net, |edges|);
        WeightedMore(was, apps, ids, units, free, net, |edges|, t, app.(weights := ws));
        apps := apps[ids[t] := app.(weights := ws)];
      }
      AllWeighted(was, apps, edges, ids, units, free, net, local, remote, beta, cost);
      IsSolved(was, apps, edges, ids, units, free, net, local, remote, beta, algorithm, |edges|);
    }

    /** A lambda-app gets a container of its own: the cheapest that is free, the first of these. */
    method MigrateLambdaToMu(a: nat, alpha: real) returns (oldCost: real, newCost: real)
      requires 0.0 <= alpha <= 1.0 && Listed(apps, edges) && Within(edges, alpha) && Roomy(apps, edges)
      requires a < |apps| && apps[a].kind == Lambda && forall e | 0 <= e < |edges| :: At(net, apps[a].broker, e) < inf
      modifies this`apps, this`edges
      ensures |apps| == |old(apps)| && apps[a] == old(apps)[a].(kind := Mu, edge := apps[a].edge, weights := []) && apps == old(apps)[a := apps[a]]
      ensures IsCheapestFree(apps[a].edge, apps[a].broker, old(edges), alpha, net)
      ensures edges == old(edges)[apps[a].edge := old(edges)[apps[a].edge].(muApps := old(edges)[apps[a].edge].muApps + [a])]
      ensures Listed(apps, edges) && Within(edges, alpha)
      ensures oldCost == LambdaCost(old(apps)[a], net) && newCost == MuCost(apps[a], net)
    {
      hide Listed, Within, Roomy, At, Usable, WeightCost;
      oldCost := LambdaCost(apps[a], net);
      var candidate: nat := |edges|;
      var candidateCost := inf;
      SomeFree(apps, edges, alpha);
      for e := 0 to |edges|
        invariant candidate == |edges| ==> candidateCost == inf && forall k | 0 <= k < e :: !Free(edges, alpha, k)
        invariant candidate != |edges| ==> candidate < e && candidateCost == At(net, apps[a].broker, candidate) && Free(edges, alpha, candidate)
        invariant candidate != |edges| ==> forall k | 0 <= k < e && Free(edges, alpha, k) :: candidateCost <= At(net, apps[a].broker, k)
        invariant candidate != |edges| ==> forall k | 0 <= k < candidate && Free(edges, alpha, k) :: candidateCost < At(net, apps[a].broker, k)
      {
        if Free(edges, alpha, e) && At(net, apps[a].broker, e) < candidateCost {
          candidate, candidateCost := e, At(net, apps[a].broker, e);
        }
      }
      var app := apps[a].(kind := Mu, edge := candidate, weights := []);
      NowListed(apps, edges, a, candidate, app, edges[candidate].muApps + [a]);
      StillWithin(edges, alpha, candidate, edges[candidate].muApps + [a]);
      edges := edges[candidate := edges[candidate].(muApps := edges[candidate].muApps + [a])];
      apps := apps[a := app];
      newCost := MuCost(apps[a], net);
    }

    /** A mu-app leaves its container and is served by the cloud. */
    method MigrateMuToLambda(a: nat, ghost alpha: real) returns (oldCost: real, newCost: real)
      requires 0.0 <= alpha <= 1.0 && Listed(apps, edges) && Within(edges, alpha) && edges != []
      requires a < |apps| && apps[a].kind == Mu && apps[a].weights == []
      modifies this`apps, this`edges
      ensures apps == old(apps)[a := old(apps)[a].(kind := Lambda, weights := [(CLOUD, old(apps)[a].rate)])] && SameNodes(old(edges), edges)
      ensures Listed(apps, edges) && Within(edges, alpha)
      ensures oldCost == MuCost(old(apps)[a], net) && newCost == LambdaCost(apps[a], net)
    {
      hide Within, At, Usable, WeightCost;
      oldCost := MuCost(apps[a], net);
      var e := apps[a].edge;
      var original := edges[e].muApps;
      var copy := [];
      for i := 0 to |original|
        invariant NoDups(copy) && |copy| <= i && forall x :: x in copy <==> x != a && exists k :: 0 <= k < i && original[k] == x
      {
        if original[i] != a {
          assert forall k | 0 <= k < |copy| :: copy[k] in copy;
          copy := copy + [original[i]];
        }
      }
      var app := apps[a].(weights := apps[a].weights + [(CLOUD, apps[a].rate)], kind := Lambda);
      assert app.weights == [(CLOUD, apps[a].rate)];
      NoLongerListed(apps, edges, a, app, copy);
      LessWithin(edges, alpha, e, copy);
      edges := edges[e := edges[e].(muApps := copy)];
      apps := apps[a := app];
      newCost := LambdaCost(apps[a], net);
    }

    /** The containers that mu-apps leave, by edge node. */
    method FreeContainers(ghost alpha: real) returns (slots: seq<nat>)
      requires 0.0 <= alpha <= 1.0 && Within(edges, alpha)
      ensures FreeSlots(slots, edges) && forall c | 0 <= c < |slots| :: slots[c] < |edges|
    {
      var nodes := edges;
      assert forall e | 0 <= e < |nodes| :: |nodes[e].muApps| <= nodes[e].containers;
      hide Containers, Within;
      slots := Slots(seq(|nodes|, e requires 0 <= e < |nodes| => nodes[e].containers - |nodes[e].muApps|));
    }
  }

  /** Between the loops: the first t lambda-apps have their weights. */
  ghost predicate WeightedUpto(was: seq<App>, apps: seq<App>, ids: seq<nat>, m: V.Matrix, slots: seq<nat>, net: Net, n: nat, t: nat) {
    Reweighted(was, apps) && t <= |ids| && V.Shape(m, |ids|, |slots|) && (forall i | 0 <= i < |ids| :: ids[i] < |apps|) &&
    forall i | 0 <= i < t :: WeightsOf(apps[ids[i]], m[i], slots, net, n)
  }

  lemma WeightedMore(was: seq<App>, apps: seq<App>, ids: seq<nat>, m: V.Matrix, slots: seq<nat>, net: Net, n: nat, t: nat, app: App)
    requires WeightedUpto(was, apps, ids, m, slots, net, n, t) && t < |ids| && NoDups(ids) && apps[ids[t]].kind == Lambda
    requires app == apps[ids[t]].(weights := app.weights) && WeightsOf(app, m[t], slots, net, n)
    ensures WeightedUpto(was, apps[ids[t] := app], ids, m, slots, net, n, t + 1)
  {
    hide WeightsOf;
  }

  lemma SameProblem(was: seq<App>, apps: seq<App>, ids: seq<nat>, slots: seq<nat>, net: Net, local: real, remote: real)
    requires Reweighted(was, apps) && ids == Of(was, Lambda)
    ensures ids == Of(apps, Lambda) && forall i | 0 <= i < |ids| :: ids[i] < |apps|
    ensures LambdaMatrix(was, ids, slots, net, local, remote) == LambdaMatrix(apps, ids, slots, net, local, remote)
    ensures Rates(was, ids) == Rates(apps, ids)
  {
    hide At, V.Times, Filter;
    FilterSame(was, apps, Lambda, |apps|);
    FilterInRange(was, Lambda, |was|, |was|);
    var (c, d) := (LambdaMatrix(was, ids, slots, net, local, remote), LambdaMatrix(apps, ids, slots, net, local, remote));
    forall i | 0 <= i < |ids| ensures c[i] == d[i] {
      assert was[ids[i]].exchange == apps[ids[i]].exchange;
      assert forall w | 0 <= w < |slots| :: c[i][w] == d[i][w];
    }
  }

  /** What an assignment of the lambda-apps achieves, with the units m that it gives to containers. */
  ghost predicate Optimised(apps: seq<App>, edges: seq<Edge>, net: Net, local: real, remote: real, beta: real, cost: real, m: V.Matrix, slots: seq<nat>) {
    var ids := Of(apps, Lambda);
    (forall i | 0 <= i < |ids| :: ids[i] < |apps|) &&
    if ids == [] then cost == 0.0 && m == []
    else
      FreeSlots(slots, edges) && LambdaResult(apps, ids, m, slots, net, |edges|) &&
      cost == V.Cost(m, LambdaMatrix(apps, ids, slots, net, local, remote)) &&
      F.FullResult(m, Rates(apps, ids), F.Units(Capacities(edges, slots, beta)))
  }

  /** What the algorithm promises about the units that it gives. */
  ghost predicate Solution(algorithm: LambdaAlgorithm, m: V.Matrix, costs: seq<seq<real>>, rates: seq<nat>, capacities: seq<nat>) {
    match algorithm
    case Greedy => F.GreedyResult(m, costs, rates, capacities)
    case Random(rnd) => F.RandomResult(m, rates, capacities, rnd)
  }

  /** The units that the algorithm gives to the lambda-apps determine their weights. */
  ghost predicate SolvedBy(algorithm: LambdaAlgorithm, apps: seq<App>, edges: seq<Edge>, net: Net, local: real, remote: real, beta: real, m: V.Matrix, slots: seq<nat>) {
    var ids := Of(apps, Lambda);
    (forall i | 0 <= i < |ids| :: ids[i] < |apps|) && (forall c | 0 <= c < |slots| :: slots[c] < |edges|) &&
    (ids != [] ==>
      Solution(algorithm, m, LambdaMatrix(apps, ids, slots, net, local, remote), Rates(apps, ids), F.Units(Capacities(edges, slots, beta))))
  }

  lemma IsSolved(was: seq<App>, apps: seq<App>, edges: seq<Edge>, ids: seq<nat>, m: V.Matrix, slots: seq<nat>, net: Net, local: real, remote: real, beta: real, algorithm: LambdaAlgorithm, n: nat)
    requires ids == Of(was, Lambda) && (forall i | 0 <= i < |ids| :: ids[i] < |was|) && (forall c | 0 <= c < |slots| :: slots[c] < |edges|)
    requires WeightedUpto(was, apps, ids, m, slots, net, n, |ids|)
    requires Solution(algorithm, m, LambdaMatrix(was, ids, slots, net, local, remote), Rates(was, ids), F.Units(Capacities(edges, slots, beta)))
    ensures SolvedBy(algorithm, apps, edges, net, local, remote, beta, m, slots)
  {
    hide Filter, Solution, WeightsOf, Capacities, LambdaMatrix, Rates;
    SameProblem(was, apps, ids, slots, net, local, remote);
  }

  lemma NothingToOptimise(apps: seq<App>, edges: seq<Edge>, net: Net, local: real, remote: real, beta: real, algorithm: LambdaAlgorithm)
    requires Of(apps, Lambda) == []
    ensures Optimised(apps, edges, net, local, remote, beta, 0.0, [], []) && Reweighted(apps, apps)
    ensures SolvedBy(algorithm, apps, edges, net, local, remote, beta, [], [])
  {}

  lemma AllAffordable(apps: seq<App>, ids: seq<nat>, slots: seq<nat>, n: nat, net: Net, local: real, remote: real, inf: real)
    requires (forall i | 0 <= i < |ids| :: ids[i] < |apps|) && forall c | 0 <= c < |slots| :: slots[c] < n
    requires Affordable(apps, n, net, local, remote, inf)
    ensures forall i, w | 0 <= i < |ids| && 0 <= w < |slots| :: LambdaMatrix(apps, ids, slots, net, local, remote)[i][w] < inf
  {
    hide UnitCost;
  }

  lemma NoneWeighted(apps: seq<App>, ids: seq<nat>, m: V.Matrix, slots: seq<nat>, net: Net, n: nat)
    requires V.Shape(m, |ids|, |slots|) && forall i | 0 <= i < |ids| :: ids[i] < |apps|
    ensures WeightedUpto(apps, apps, ids, m, slots, net, n, 0)
  {}

  lemma IsWeights(app: App, units: seq<nat>, slots: seq<nat>, net: Net, n: nat)
    requires |units| == |slots| && WeightCost(app.weights, net, app.broker) == V.Dot(units, BaseRow(net, app.broker, slots))
    requires WeightSum(app.weights) == V.Sum(units) && app.weights != [] && forall i | 0 <= i < |app.weights| :: app.weights[i].0 < n
    requires PerNode(app.weights, units, slots)
    ensures WeightsOf(app, units, slots, net, n)
  {
    hide PerNode;
  }

  lemma AllWeighted(was: seq<App>, apps: seq<App>, edges: seq<Edge>, ids: seq<nat>, m: V.Matrix, slots: seq<nat>, net: Net, local: real, remote: real, beta: real, cost: real)
    requires ids == Of(was, Lambda) && ids != [] && FreeSlots(slots, edges) && (forall i | 0 <= i < |ids| :: ids[i] < |was|)
    requires WeightedUpto(was, apps, ids, m, slots, net, |edges|, |ids|)
    requires V.SameShape(m, LambdaMatrix(was, ids, slots, net, local, remote))
    requires cost == V.Cost(m, LambdaMatrix(was, ids, slots, net, local, remote))
    requires F.FullResult(m, Rates(was, ids), F.Units(Capacities(edges, slots, beta)))
    ensures Reweighted(was, apps) && Optimised(apps, edges, net, local, remote, beta, cost, m, slots)
  {
    hide Filter, V.Cost, F.FullResult, WeightsOf, Containers;
    SameProblem(was, apps, ids, slots, net, local, remote);
  }

  lemma UnitsOfRates(rates: seq<nat>)
    ensures F.Units(rates) == rates
  {}

  /** The containers, requests, capacities and costs of the flow problem, solved. */
  method SolveFlow(costs: seq<seq<real>>, rates: seq<nat>, capacities: seq<int>, algorithm: LambdaAlgorithm, inf: real)
      returns (m: V.Matrix, cost: real)
    requires rates != [] && capacities != [] && V.Shape(costs, |rates|, |capacities|)
    requires forall i, w | 0 <= i < |rates| && 0 <= w < |capacities| :: costs[i][w] < inf
    ensures V.SameShape(m, costs) && cost == V.Cost(m, costs) && F.FullResult(m, rates, F.Units(capacities))
    ensures Solution(algorithm, m, costs, rates, F.Units(capacities))
  {
    hide V.Cost, F.FullResult, F.RowCheapest, F.Matching;
    UnitsOfRates(rates);
    var r;
    match algorithm {
      case Greedy => r := F.SolveGreedy(costs, rates, capacities, inf);
      case Random(rnd) => r := F.SolveRandom(costs, rates, capacities, rnd);
    }
    assert r.Ok?;
    m, cost := r.value.0, r.value.1;
    ShapeOfResult(m, rates, F.Units(capacities));
  }

  lemma ShapeOfResult(m: V.Matrix, requests: seq<nat>, capacities: seq<nat>)
    requires F.FullResult(m, requests, capacities)
    ensures V.Shape(m, |requests|, |capacities|)
  {}

  // --- what follows from an assignment of the lambda-apps ---

  /** The units are charged at no less than what the running cost assumes, and at as much only where the two agree. */
  lemma LambdaChargeIsCost(apps: seq<App>, edges: seq<Edge>, net: Net, local: real, remote: real, beta: real, cost: real, m: V.Matrix, slots: seq<nat>)
    requires Optimised(apps, edges, net, local, remote, beta, cost, m, slots) && Of(apps, Lambda) != []
    requires local >= 0.0 && remote >= 0.0 && (forall b, e :: At(net, b, e) >= 0.0) && forall a | 0 <= a < |apps| :: apps[a].exchange >= 1
    ensures cost >= LambdaTotal(apps, net)
    ensures cost == LambdaTotal(apps, net) <==> forall i, w | 0 <= i < |Of(apps, Lambda)| && 0 <= w < |slots| && m[i][w] > 0 ::
      UnitCost(apps[Of(apps, Lambda)[i]], net, w, slots[w], local, remote) == At(net, apps[Of(apps, Lambda)[i]].broker, slots[w])
  {
    hide V.Cost, V.Times, At, Filter, F.FullResult, Containers;
    var ids := Of(apps, Lambda);
    var (c, d) := (LambdaMatrix(apps, ids, slots, net, local, remote), BaseMatrix(apps, ids, slots, net));
    LambdaTotalIsCost(apps, m, slots, net, |edges|);
    assert V.SameShape(m, c) && V.SameShape(m, d);
    forall i, w | 0 <= i < |ids| && 0 <= w < |slots| ensures c[i][w] >= d[i][w] {
      DearerUnit(apps[ids[i]], net, w, slots[w], local, remote);
    }
    V.CostGap(m, c, d);
    hide UnitCost;
    AllUndisturbed(m, c, d, |ids|, |slots|);
  }

  lemma AllUndisturbed(m: V.Matrix, c: seq<seq<real>>, d: seq<seq<real>>, rows: nat, cols: nat)
    requires V.Shape(m, rows, cols) && V.SameShape(m, c) && V.SameShape(m, d)
    ensures (forall i | 0 <= i < rows :: V.Undisturbed(m, c, d, i)) <==>
      forall i, w | 0 <= i < rows && 0 <= w < cols && m[i][w] > 0 :: c[i][w] == d[i][w]
  {
    if forall i, w | 0 <= i < rows && 0 <= w < cols && m[i][w] > 0 :: c[i][w] == d[i][w] {
      forall i | 0 <= i < rows ensures V.Undisturbed(m, c, d, i) {}
    }
    if forall i | 0 <= i < rows :: V.Undisturbed(m, c, d, i) {
      forall i, w | 0 <= i < rows && 0 <= w < cols && m[i][w] > 0 ensures c[i][w] == d[i][w] {
        assert V.Undisturbed(m, c, d, i);
      }
    }
  }

  lemma DearerUnit(app: App, net: Net, w: nat, e: nat, local: real, remote: real)
    requires local >= 0.0 && remote >= 0.0 && At(net, app.broker, e) >= 0.0 && app.exchange >= 1
    ensures UnitCost(app, net, w, e, local, remote) >= At(net, app.broker, e)
  {
    TimesAtLeast(app.exchange, At(net, app.broker, e));
    V.TimesGap(app.storage, if w == CLOUD then local else remote, 0.0);
  }

  /** With unit exchanges and free storage the charge is the recomputed cost. */
  lemma UnitChargeIsCost(apps: seq<App>, edges: seq<Edge>, net: Net, beta: real, cost: real, m: V.Matrix, slots: seq<nat>)
    requires Optimised(apps, edges, net, 0.0, 0.0, beta, cost, m, slots) && forall a | 0 <= a < |apps| :: apps[a].exchange == 1
    ensures cost == LambdaTotal(apps, net)
  {
    hide V.Cost, V.Times, At, Filter, F.FullResult, Containers, WeightsOf;
    var ids := Of(apps, Lambda);
    if ids == [] {
      NoLambdaApps(apps, net);
    } else {
      LambdaTotalIsCost(apps, m, slots, net, |edges|);
      UnitMatrix(apps, ids, slots, net);
    }
  }

  lemma NoLambdaApps(apps: seq<App>, net: Net)
    requires Of(apps, Lambda) == []
    ensures LambdaTotal(apps, net) == 0.0
  {
    hide Filter, Sum;
    FilterMembers(apps, Lambda, |apps|);
    var vals := LambdaCosts(apps, net);
    SumFilter(vals, apps, Lambda, |apps|);
    assert vals[..|apps|] == vals && Pick(vals, []) == [];
    NothingToAdd();
  }

  /** When the cloud is sized for at least the demand of the lambda-apps, all but one unit of it is served. */
  lemma AtMostOneUnitUnserved(apps: seq<App>, edges: seq<Edge>, net: Net, local: real, remote: real, beta: real, cost: real, m: V.Matrix, slots: seq<nat>, demand: nat)
    requires Optimised(apps, edges, net, local, remote, beta, cost, m, slots) && Listed(apps, edges) && Roomy(apps, edges)
    requires 0.0 < beta <= 1.0 && edges[CLOUD].capacity == CloudCapacity(demand, beta) && Sum(RequestedUnits(apps)) <= demand as real
    ensures Sum(RequestedUnits(apps)) - 1.0 <= Sum(ServedUnits(apps)) <= Sum(RequestedUnits(apps))
    ensures WholeQuotient(demand, beta) ==> Sum(ServedUnits(apps)) == Sum(RequestedUnits(apps))
  {
    hide WholeQuotient, V.Cost, V.GrandSum, Filter, Containers, Sum, Capacity, CloudCapacity, V.Sum, Listed, Roomy, WeightsOf, F.Respects;
    var ids := Of(apps, Lambda);
    RequestedIsSum(apps);
    if ids == [] {
      NothingServed(apps);
    } else {
      ServedIsGrandSum(apps, m, slots, net, |edges|);
      var c := CloudSlot(apps, edges, slots);
      CloudIsEnough(demand, beta);
      CloudIsExactIff(demand, beta);
      V.SumAtLeast(F.Units(Capacities(edges, slots, beta)), c);
    }
  }

  lemma NothingServed(apps: seq<App>)
    requires Of(apps, Lambda) == []
    ensures Sum(ServedUnits(apps)) == Sum(RequestedUnits(apps))
  {
    hide Sum, Filter;
    FilterMembers(apps, Lambda, |apps|);
    assert ServedUnits(apps) == RequestedUnits(apps);
  }

  lemma NotEmpty(apps: seq<App>, edges: seq<Edge>, alpha: real)
    requires Roomy(apps, edges) && 0.0 <= alpha <= 1.0
    ensures edges != [] && Usable(edges, alpha, CLOUD) == edges[CLOUD].containers
  {}

  /** Mu-apps may use one more container of the edge node. */
  predicate Free(edges: seq<Edge>, alpha: real, e: nat)
    requires e < |edges| && 0.0 <= alpha <= 1.0
  {
    |edges[e].muApps| < Usable(edges, alpha, e)
  }

  ghost predicate IsCheapestFree(e: nat, broker: nat, edges: seq<Edge>, alpha: real, net: Net)
    requires 0.0 <= alpha <= 1.0
  {
    e < |edges| && Free(edges, alpha, e) &&
    (forall k | 0 <= k < |edges| && Free(edges, alpha, k) :: At(net, broker, e) <= At(net, broker, k)) &&
    forall k | 0 <= k < e && Free(edges, alpha, k) :: At(net, broker, e) < At(net, broker, k)
  }

  /** The cloud is always free. */
  lemma SomeFree(apps: seq<App>, edges: seq<Edge>, alpha: real)
    requires 0.0 <= alpha <= 1.0 && Listed(apps, edges) && Roomy(apps, edges)
    ensures edges != [] && Free(edges, alpha, CLOUD)
  {
    ListedAtMost(apps, edges, CLOUD);
  }

  lemma StillWithin(edges: seq<Edge>, alpha: real, e: nat, list: seq<nat>)
    requires 0.0 <= alpha <= 1.0 && Within(edges, alpha) && e < |edges| && Free(edges, alpha, e) && |list| == |edges[e].muApps| + 1
    ensures Within(edges[e := edges[e].(muApps := list)], alpha)
  {
    var next := edges[e := edges[e].(muApps := list)];
    SameUsable(edges, next, alpha);
    hide Usable;
  }

  lemma LessWithin(edges: seq<Edge>, alpha: real, e: nat, list: seq<nat>)
    requires 0.0 <= alpha <= 1.0 && Within(edges, alpha) && e < |edges| && |list| <= |edges[e].muApps|
    ensures Within(edges[e := edges[e].(muApps := list)], alpha)
  {
    var next := edges[e := edges[e].(muApps := list)];
    SameUsable(edges, next, alpha);
    hide Usable;
  }

  lemma SameUsable(was: seq<Edge>, edges: seq<Edge>, alpha: real)
    requires SameNodes(was, edges) && 0.0 <= alpha <= 1.0
    ensures forall e | 0 <= e < |edges| :: Usable(edges, alpha, e) == Usable(was, alpha, e)
  {}

  lemma NonePut(apps: seq<App>, edges: seq<Edge>, ids: seq<nat>, pick: seq<nat>, slots: seq<nat>)
    requires |ids| == |pick| && (forall c | 0 <= c < |slots| :: slots[c] < |edges|) && forall e | 0 <= e < |edges| :: edges[e].muApps == []
    requires forall k | 0 <= k < |ids| :: ids[k] < |apps| && apps[ids[k]].kind == Mu && pick[k] < |slots|
    ensures PutOn(apps, edges, ids, pick, slots, 0)
  {
    forall e | 0 <= e < |edges| ensures ListedUpto(edges[e].muApps, ids, pick, slots, 0, e) {
      assert Taken(pick, slots, 0, e) == {};
    }
  }
}
