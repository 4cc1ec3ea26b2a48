/** Snapshots of a scenario, and its evolution as applications change between lambda and mu. */
module Dynamics {
  import opened Placements
  import opened Scenarios
  import opened AppPools
  import opened Wrappers
  import opened Weights
  import F = Mcfp
  import V = Vectors

  /** What is drawn for a new application. */
  datatype Draw = Draw(broker: nat, rate: nat, exchange: nat, storage: nat)

  function Born(d: Draw, kind: Kind): App { App(d.broker, kind, d.rate, d.exchange, d.storage, 0, []) }

  function Demand(draws: seq<Draw>): nat {
    if draws == [] then 0 else Demand(draws[..|draws| - 1]) + draws[|draws| - 1].rate
  }

  function AllBorn(draws: seq<Draw>, kind: Kind): (apps: seq<App>)
    ensures |apps| == |draws| && forall a | 0 <= a < |draws| :: apps[a] == Born(draws[a], kind)
  {
    seq(|draws|, a requires 0 <= a < |draws| => Born(draws[a], kind))
  }

  /** Every node without mu-apps, and the cloud sized for the applications. */
  function Cleared(edges: seq<Edge>, containers: nat, capacity: int): (r: seq<Edge>)
    ensures |r| == |edges| && forall e | 0 <= e < |edges| :: r[e].muApps == [] && (e != CLOUD ==> r[e] == edges[e].(muApps := []))
    ensures edges != [] ==> r[CLOUD] == Edge(containers, capacity, [])
  {
    seq(|edges|, e requires 0 <= e < |edges| => if e == CLOUD then Edge(containers, capacity, []) else edges[e].(muApps := []))
  }

  lemma {:induction false} RequestedAtMost(apps: seq<App>, draws: seq<Draw>)
    requires |draws| <= |apps| && forall a | 0 <= a < |apps| :: if a < |draws| then apps[a].rate == draws[a].rate else apps[a].kind == Mu
    ensures Sum(RequestedUnits(apps)) <= Demand(draws) as real
    decreases |apps|
  {
    if apps != [] {
      var last := |apps| - 1;
      assert RequestedUnits(apps)[..last] == RequestedUnits(apps[..last]);
      if last < |draws| {
        RequestedAtMost(apps[..last], draws[..last]);
        assert |draws| == |apps|;
      } else {
        RequestedAtMost(apps[..last], draws);
      }
    }
  }

  /** Nothing is listed for applications that have just been born as lambda-apps. */
  lemma NoneListed(apps: seq<App>, edges: seq<Edge>)
    requires (forall a | 0 <= a < |apps| :: apps[a].kind == Lambda) && forall e | 0 <= e < |edges| :: edges[e].muApps == []
    ensures Listed(apps, edges) && SetOf(apps, Mu) == {} && |SetOf(apps, Lambda)| == |apps|
  {
    Sizes(apps);
    assert SetOf(apps, Mu) == {};
  }

  // --- a snapshot ---

  /** Costs of any application with these draws stay below the highest floating-point number. */
  ghost predicate DrawsAffordable(draws: seq<Draw>, n: nat, s: Scenario) {
    forall a, w, e | 0 <= a < |draws| && 0 <= w && 0 <= e < n :: UnitCost(Born(draws[a], Lambda), s.net, w, e, s.local, s.remote) < s.inf
  }

  lemma BornAffordable(draws: seq<Draw>, apps: seq<App>, n: nat, s: Scenario)
    requires DrawsAffordable(draws, n, s) && |apps| == |draws|
    requires forall a | 0 <= a < |apps| :: apps[a].broker == draws[a].broker && apps[a].exchange == draws[a].exchange && apps[a].storage == draws[a].storage
    ensures Affordable(apps, n, s.net, s.local, s.remote, s.inf)
  {
    hide V.Times, At;
    forall a, w, e | 0 <= a < |apps| && 0 <= w && 0 <= e < n ensures UnitCost(apps[a], s.net, w, e, s.local, s.remote) < s.inf {
      assert UnitCost(apps[a], s.net, w, e, s.local, s.remote) == UnitCost(Born(draws[a], Lambda), s.net, w, e, s.local, s.remote);
    }
  }

  lemma MuCount(lambdas: seq<Draw>, mus: seq<Draw>)
    ensures |SetOf(AllBorn(lambdas, Lambda) + AllBorn(mus, Mu), Mu)| == |mus|
    decreases |mus|
  {
    var apps := AllBorn(lambdas, Lambda) + AllBorn(mus, Mu);
    if mus == [] {
      assert SetOf(apps, Mu) == {};
    } else {
      var rest := mus[..|mus| - 1];
      MuCount(lambdas, rest);
      var fewer := AllBorn(lambdas, Lambda) + AllBorn(rest, Mu);
      assert forall a | 0 <= a < |fewer| :: apps[a] == fewer[a];
      assert SetOf(apps, Mu) == SetOf(fewer, Mu) + {|fewer|};
    }
  }

  /**
   * Applications of both kinds, placed once: at most one unit of what the lambda-apps request
   * is not served, and none if their demand divided by beta is whole.
   */
  method Snapshot(s: Scenario, lambdas: seq<Draw>, mus: seq<Draw>, alpha: real, beta: real, pick: (nat, nat) -> seq<nat>, algorithm: LambdaAlgorithm)
      returns (r: Result<(real, real)>)
    requires s.edges != [] && Solver(pick) && DrawsAffordable(lambdas + mus, |s.edges|, s) && beta != 0.0
    modifies s
    ensures r.Ok? <==> 0.0 <= alpha <= 1.0 && 0.0 <= beta <= 1.0
    ensures r.Ok? ==> Listed(s.apps, s.edges) && Within(s.edges, alpha) && |SetOf(s.apps, Mu)| == |mus| && |s.apps| == |lambdas| + |mus|
    ensures r.Ok? ==> JustPlaced(s.apps, s.edges, s.net, s.local, s.remote, alpha, beta, pick, algorithm, r.value.0, r.value.1)
    ensures r.Ok? ==> Replaced(AllBorn(lambdas, Lambda) + AllBorn(mus, Mu), s.apps)
    ensures r.Ok? ==> SameNodes(Cleared(old(s.edges), 1 + |mus|, CloudCapacity(Demand(lambdas), beta)), s.edges)
    ensures r.Ok? ==> Sum(RequestedUnits(s.apps)) - 1.0 <= Sum(ServedUnits(s.apps)) <= Sum(RequestedUnits(s.apps))
    ensures r.Ok? && WholeQuotient(Demand(lambdas), beta) ==> Sum(ServedUnits(s.apps)) == Sum(RequestedUnits(s.apps))
    ensures r.Err? ==> s.apps == old(s.apps) && s.edges == old(s.edges)
  {
    if alpha < 0.0 || alpha > 1.0 {
      return Err("Invalid alpha, must be in [0,1]");
    }
    if beta < 0.0 || beta > 1.0 {
      return Err("Invalid beta, must be in [0,1]");
    }
    hide Listed, Within, SetOf, Sum, Affordable, Optimised, CloudCapacity, DrawsAffordable, Solver, WholeQuotient, AllBorn, Replaced, Roomy, RequestedUnits, ServedUnits, Demand, JustPlaced, Cleared, SameNodes;
    var born := AllBorn(lambdas, Lambda) + AllBorn(mus, Mu);
    s.apps, s.edges := born, Cleared(s.edges, 1 + |mus|, CloudCapacity(Demand(lambdas), beta));
    CloudOf(old(s.edges), 1 + |mus|, CloudCapacity(Demand(lambdas), beta), s.edges);
    MuCount(lambdas, mus);
    BornSlots(s, lambdas, mus);
    BornFinite(lambdas, mus, s.apps, |s.edges|, s);
    var muCost, lambdaCost, m, slots := Optimise(s, alpha, beta, pick, algorithm);
    PlacedDraws(lambdas, mus, born, s.apps);
    CloudOf(old(s.edges), 1 + |mus|, CloudCapacity(Demand(lambdas), beta), s.edges);
    AtMostOneUnitUnserved(s.apps, s.edges, s.net, s.local, s.remote, beta, lambdaCost, m, slots, Demand(lambdas));
    return Ok((muCost, lambdaCost));
  }

  /** The cloud keeps its containers and its capacity. */
  lemma CloudOf(was: seq<Edge>, containers: nat, capacity: int, edges: seq<Edge>)
    requires was != [] && SameNodes(Cleared(was, containers, capacity), edges)
    ensures edges != [] && |edges| == |was| && edges[CLOUD].containers == containers && edges[CLOUD].capacity == capacity
    ensures edges == Cleared(was, containers, capacity) ==> forall e | 0 <= e < |edges| :: edges[e].muApps == []
  {}

  lemma BornFinite(lambdas: seq<Draw>, mus: seq<Draw>, apps: seq<App>, n: nat, s: Scenario)
    requires DrawsAffordable(lambdas + mus, n, s) && apps == AllBorn(lambdas, Lambda) + AllBorn(mus, Mu)
    ensures Affordable(apps, n, s.net, s.local, s.remote, s.inf)
  {
    hide DrawsAffordable;
    BornAffordable(lambdas + mus, apps, n, s);
  }

  /** After the assignment the same applications request what was drawn. */
  lemma PlacedDraws(lambdas: seq<Draw>, mus: seq<Draw>, born: seq<App>, apps: seq<App>)
    requires born == AllBorn(lambdas, Lambda) + AllBorn(mus, Mu) && Replaced(born, apps)
    ensures |apps| == |lambdas| + |mus| && |SetOf(apps, Mu)| == |mus| && Sum(RequestedUnits(apps)) <= Demand(lambdas) as real
  {
    hide Sum;
    SameKinds(born, apps);
    MuCount(lambdas, mus);
    RequestedAtMost(apps, lambdas);
  }

  /** The applications are the same, of the same kinds; mu-apps have the weights they had. */
  ghost predicate Replaced(was: seq<App>, apps: seq<App>) {
    |apps| == |was| && forall a | 0 <= a < |apps| ::
      apps[a] == was[a].(edge := apps[a].edge, weights := apps[a].weights) && (apps[a].kind == Mu ==> apps[a].weights == was[a].weights)
  }

  /**
   * Mu-apps are in the containers that their solver picked and lambda-apps have the units of theirs;
   * the two costs are those of the mu-apps and of the lambda-apps.
   */
  ghost predicate JustPlaced(apps: seq<App>, edges: seq<Edge>, net: Net, local: real, remote: real, alpha: real, beta: real,
                             pick: (nat, nat) -> seq<nat>, algorithm: LambdaAlgorithm, muCost: real, lambdaCost: real) {
    0.0 <= alpha <= 1.0 && muCost == Sum(MuCharges(apps, net)) &&
    (exists slots :: MuPlaced(apps, edges, alpha, pick, slots)) &&
    exists m, slots :: LambdaPlaced(apps, edges, net, local, remote, beta, algorithm, lambdaCost, m, slots)
  }

  ghost predicate LambdaPlaced(apps: seq<App>, edges: seq<Edge>, net: Net, local: real, remote: real, beta: real,
                               algorithm: LambdaAlgorithm, cost: real, m: V.Matrix, slots: seq<nat>) {
    Optimised(apps, edges, net, local, remote, beta, cost, m, slots) && SolvedBy(algorithm, apps, edges, net, local, remote, beta, m, slots)
  }

  /** First the mu-apps, then the lambda-apps on the containers that are left. */
  method Optimise(s: Scenario, alpha: real, beta: real, pick: (nat, nat) -> seq<nat>, algorithm: LambdaAlgorithm)
      returns (muCost: real, lambdaCost: real, ghost m: V.Matrix, ghost slots: seq<nat>)
    requires 0.0 <= alpha <= 1.0 && Solver(pick) && Roomy(s.apps, s.edges) && (SetOf(s.apps, Mu) == {} ==> Listed(s.apps, s.edges))
    requires Affordable(s.apps, |s.edges|, s.net, s.local, s.remote, s.inf)
    modifies s
    ensures Replaced(old(s.apps), s.apps) && SameNodes(old(s.edges), s.edges)
    ensures Listed(s.apps, s.edges) && Within(s.edges, alpha) && Roomy(s.apps, s.edges)
    ensures muCost == Sum(MuCharges(s.apps, s.net))
    ensures Optimised(s.apps, s.edges, s.net, s.local, s.remote, beta, lambdaCost, m, slots)
    ensures JustPlaced(s.apps, s.edges, s.net, s.local, s.remote, alpha, beta, pick, algorithm, muCost, lambdaCost)
  {
    hide Listed, Within, SetOf, Sum, Affordable, Optimised, Solver, MuCharges, MuPlaced, SolvedBy;
    ghost var born := s.apps;
    ghost var used;
    muCost, used := s.AssignMuApps(alpha, pick);
    ghost var placed := s.apps;
    SameKinds(born, placed);
    StillAffordable(born, placed, |s.edges|, s);
    lambdaCost, m, slots := s.AssignLambdaApps(beta, algorithm, alpha);
    SameKinds(placed, s.apps);
    ListedStill(placed, s.apps, s.edges);
    SameCharges(placed, s.apps, s.net);
    StillPlaced(placed, s.apps, s.edges, alpha, pick, used);
    assert LambdaPlaced(s.apps, s.edges, s.net, s.local, s.remote, beta, algorithm, lambdaCost, m, slots);
  }

  lemma StillPlaced(was: seq<App>, apps: seq<App>, edges: seq<Edge>, alpha: real, pick: (nat, nat) -> seq<nat>, slots: seq<nat>)
    requires 0.0 <= alpha <= 1.0 && MuPlaced(was, edges, alpha, pick, slots) && Reweighted(was, apps)
    ensures MuPlaced(apps, edges, alpha, pick, slots)
  {
    hide UsableSlots, ListedUpto, Filter;
    FilterSame(was, apps, Mu, |apps|);
  }

  lemma StillAffordable(was: seq<App>, apps: seq<App>, n: nat, s: Scenario)
    requires Affordable(was, n, s.net, s.local, s.remote, s.inf) && |apps| == |was|
    requires forall a | 0 <= a < |apps| :: apps[a].broker == was[a].broker && apps[a].exchange == was[a].exchange && apps[a].storage == was[a].storage
    ensures Affordable(apps, n, s.net, s.local, s.remote, s.inf)
  {
    hide V.Times, At;
    forall a, w, e | 0 <= a < |apps| && 0 <= w && 0 <= e < n ensures UnitCost(apps[a], s.net, w, e, s.local, s.remote) < s.inf {
      assert UnitCost(apps[a], s.net, w, e, s.local, s.remote) == UnitCost(was[a], s.net, w, e, s.local, s.remote);
    }
  }

  lemma SameCharges(was: seq<App>, apps: seq<App>, net: Net)
    requires Reweighted(was, apps)
    ensures MuCharges(apps, net) == MuCharges(was, net)
  {
    hide V.Times, At;
    forall a | 0 <= a < |apps| ensures MuCharges(apps, net)[a] == MuCharges(was, net)[a] {}
  }

  lemma BornSlots(s: Scenario, lambdas: seq<Draw>, mus: seq<Draw>)
    requires s.edges != [] && (forall e | 0 <= e < |s.edges| :: s.edges[e].muApps == []) && s.edges[CLOUD].containers == 1 + |mus|
    requires s.apps == AllBorn(lambdas, Lambda) + AllBorn(mus, Mu) && |SetOf(s.apps, Mu)| == |mus|
    ensures Roomy(s.apps, s.edges) && (SetOf(s.apps, Mu) == {} ==> Listed(s.apps, s.edges))
  {
    if SetOf(s.apps, Mu) == {} {
      forall a | 0 <= a < |s.apps| ensures s.apps[a].kind == Lambda {
        assert a !in SetOf(s.apps, Mu);
      }
      NoneListed(s.apps, s.edges);
    }
  }

  lemma SameKinds(was: seq<App>, apps: seq<App>)
    requires |apps| == |was| && forall a | 0 <= a < |apps| :: apps[a].kind == was[a].kind
    ensures forall kind :: SetOf(apps, kind) == SetOf(was, kind)
  {}

  lemma ListedStill(was: seq<App>, apps: seq<App>, edges: seq<Edge>)
    requires Listed(was, edges) && |apps| == |was| && forall a | 0 <= a < |apps| :: apps[a].kind == was[a].kind && apps[a].edge == was[a].edge
    ensures Listed(apps, edges)
  {
    hide NoDups;
    forall e, a | 0 <= e < |edges| ensures a in edges[e].muApps <==> MuAt(apps, a, e) {
      assert MuAt(apps, a, e) <==> MuAt(was, a, e);
    }
  }

  // --- a dynamic run ---

  /** Mu-apps are listed where they are, within the shares, and the cloud has one container more than there are applications. */
  ghost predicate Steady(apps: seq<App>, edges: seq<Edge>, alpha: real)
    requires 0.0 <= alpha <= 1.0
  {
    Listed(apps, edges) && Within(edges, alpha) && edges != [] && edges[CLOUD].containers == 1 + |apps|
  }

  /** An application is a lambda-app exactly when its period has an even index. */
  ghost predicate InPhase(apps: seq<App>, current: seq<nat>) {
    |apps| == |current| && forall a | 0 <= a < |apps| :: apps[a].kind == Lambda <==> current[a] % 2 == 0
  }

  ghost predicate Bare(apps: seq<App>) {
    forall a | 0 <= a < |apps| && apps[a].kind == Mu :: apps[a].weights == []
  }

  /** The costs that an application can meet are finite. */
  ghost predicate Finite(apps: seq<App>, n: nat, s: Scenario) {
    Affordable(apps, n, s.net, s.local, s.remote, s.inf) &&
    forall a, e | 0 <= a < |apps| && 0 <= e < n :: At(s.net, apps[a].broker, e) < s.inf
  }

  ghost predicate UnitMu(apps: seq<App>) {
    forall a | 0 <= a < |apps| :: apps[a].rate * apps[a].exchange == 1
  }

  ghost predicate UnitLambda(apps: seq<App>, s: Scenario) {
    s.local == 0.0 && s.remote == 0.0 && forall a | 0 <= a < |apps| :: apps[a].exchange == 1
  }

  /** The running costs are the recomputed ones plus what the last optimisation charged beyond them. */
  ghost predicate Costed(apps: seq<App>, s: Scenario, muCost: real, lambdaCost: real, muDrift: real, lambdaDrift: real) {
    muCost == MuTotal(apps, s.net) + muDrift && lambdaCost == LambdaTotal(apps, s.net) + lambdaDrift &&
    (UnitMu(apps) ==> muDrift == 0.0) && (UnitLambda(apps, s) ==> lambdaDrift == 0.0)
  }

  lemma RoomyCloud(apps: seq<App>, edges: seq<Edge>)
    requires edges != [] && edges[CLOUD].containers == 1 + |apps|
    ensures Roomy(apps, edges)
  {
    Sizes(apps);
  }

  lemma UnitMuCharges(apps: seq<App>, net: Net)
    requires UnitMu(apps)
    ensures Sum(MuCharges(apps, net)) == MuTotal(apps, net)
  {
    hide Sum, At;
    forall a | 0 <= a < |apps| ensures MuCharges(apps, net)[a] == MuCosts(apps, net)[a] {
      V.TimesStep(0, At(net, apps[a].broker, apps[a].edge));
    }
    assert MuCharges(apps, net) == MuCosts(apps, net);
  }

  lemma OptimisedIsWeighted(apps: seq<App>, edges: seq<Edge>, s: Scenario, beta: real, cost: real, m: V.Matrix, slots: seq<nat>)
    requires Optimised(apps, edges, s.net, s.local, s.remote, beta, cost, m, slots) && Bare(apps)
    ensures Weighted(apps, |edges|)
  {
    hide WeightsOf, Filter, LambdaTotal, V.Cost, LambdaMatrix, FreeSlots, V.Dot, V.Sum, WeightCost, WeightSum, BaseRow, F.FullResult, UnitLambda;
    var ids := Of(apps, Lambda);
    FilterMembers(apps, Lambda, |apps|);
    forall a | 0 <= a < |apps| && apps[a].kind == Lambda ensures HasWeights(apps[a], |edges|) {
      assert a in ids;
      var i :| 0 <= i < |ids| && ids[i] == a;
      WeightsThere(apps[a], m[i], slots, s.net, |edges|);
    }
  }

  lemma UnitLambdaCharges(apps: seq<App>, edges: seq<Edge>, s: Scenario, beta: real, cost: real, m: V.Matrix, slots: seq<nat>)
    requires Optimised(apps, edges, s.net, s.local, s.remote, beta, cost, m, slots)
    ensures UnitLambda(apps, s) ==> cost == LambdaTotal(apps, s.net)
  {
    hide Optimised, LambdaTotal;
    if UnitLambda(apps, s) { UnitChargeIsCost(apps, edges, s.net, beta, cost, m, slots); }
  }

  ghost predicate HasWeights(app: App, n: nat) {
    app.weights != [] && forall w | w in app.weights :: w.0 < n
  }

  lemma WeightsThere(app: App, units: seq<nat>, slots: seq<nat>, net: Net, n: nat)
    requires |units| == |slots| && WeightsOf(app, units, slots, net, n)
    ensures HasWeights(app, n)
  {}

  /** One application changes its kind, and what is fixed about it stays. */
  ghost predicate Flipped(was: seq<App>, apps: seq<App>, a: nat) {
    |apps| == |was| && a < |apps| && apps == was[a := apps[a]] && apps[a].kind != was[a].kind &&
    apps[a] == was[a].(kind := apps[a].kind, edge := apps[a].edge, weights := apps[a].weights)
  }

  lemma FlippedStaysFinite(was: seq<App>, apps: seq<App>, a: nat, n: nat, s: Scenario)
    requires Flipped(was, apps, a) && Finite(was, n, s)
    ensures Finite(apps, n, s) && (UnitMu(apps) <==> UnitMu(was)) && (UnitLambda(apps, s) <==> UnitLambda(was, s))
  {
    hide Affordable, At;
    StillAffordable(was, apps, n, s);
    forall k | 0 <= k < |apps| ensures apps[k].broker == was[k].broker && apps[k].rate == was[k].rate && apps[k].exchange == was[k].exchange {}
  }

  lemma FlippedCosts(was: seq<App>, apps: seq<App>, a: nat, s: Scenario, muCost: real, lambdaCost: real, muDrift: real, lambdaDrift: real, n: nat)
    requires Flipped(was, apps, a) && Finite(was, n, s) && Costed(was, s, muCost, lambdaCost, muDrift, lambdaDrift)
    ensures Costed(apps, s, muCost - MuCost(was[a], s.net) + MuCost(apps[a], s.net),
      lambdaCost - LambdaCost(was[a], s.net) + LambdaCost(apps[a], s.net), muDrift, lambdaDrift)
  {
    hide MuTotal, LambdaTotal, MuCost, LambdaCost, UnitMu, UnitLambda, Finite;
    TotalsSet(was, a, apps[a], s.net);
    FlippedStaysFinite(was, apps, a, n, s);
  }

  lemma FlippedPhase(was: seq<App>, apps: seq<App>, a: nat, current: seq<nat>, next: seq<nat>)
    requires Flipped(was, apps, a) && InPhase(was, current) && |next| == |current| && next == current[a := next[a]] && next[a] % 2 != current[a] % 2
    ensures InPhase(apps, next)
  {
    var k := apps[a].kind;
    assert k == Lambda || k == Mu;
  }

  /** What holds of applications and edge nodes from the beginning. */
  ghost predicate World(apps: seq<App>, edges: seq<Edge>, current: seq<nat>, numLambda: nat, alpha: real, s: Scenario)
    requires 0.0 <= alpha <= 1.0
  {
    InPhase(apps, current) && Steady(apps, edges, alpha) && Finite(apps, |edges|, s) && Bare(apps) && numLambda == |SetOf(apps, Lambda)|
  }

  /** The applications are those drawn at the beginning, whatever they have become, and the cloud is sized for all of them. */
  ghost predicate OfDraws(apps: seq<App>, edges: seq<Edge>, draws: seq<Draw>, beta: real) {
    0.0 < beta <= 1.0 && edges != [] && edges[CLOUD].capacity == CloudCapacity(Demand(draws), beta) && |apps| == |draws| &&
    forall a | 0 <= a < |apps| ::
      apps[a].broker == draws[a].broker && apps[a].rate == draws[a].rate && apps[a].exchange == draws[a].exchange && apps[a].storage == draws[a].storage
  }

  lemma ReplacedOfDraws(was: seq<App>, apps: seq<App>, nodes: seq<Edge>, edges: seq<Edge>, draws: seq<Draw>, beta: real)
    requires OfDraws(was, nodes, draws, beta) && Replaced(was, apps) && SameNodes(nodes, edges)
    ensures OfDraws(apps, edges, draws, beta)
  {
    hide Demand, CloudCapacity;
  }

  lemma FlippedOfDraws(was: seq<App>, apps: seq<App>, a: nat, nodes: seq<Edge>, edges: seq<Edge>, draws: seq<Draw>, beta: real)
    requires OfDraws(was, nodes, draws, beta) && Flipped(was, apps, a) && SameNodes(nodes, edges)
    ensures OfDraws(apps, edges, draws, beta)
  {
    hide Demand, CloudCapacity;
  }

  lemma {:induction false} BornWorld(draws: seq<Draw>, was: seq<Edge>, alpha: real, beta: real, current: seq<nat>, offsets: seq<nat>, s: Scenario)
    requires 0.0 <= alpha <= 1.0 && 0.0 < beta <= 1.0 && was != [] && Finite(AllBorn(draws, Lambda), |was|, s)
    requires |offsets| == |draws| && AtOffsets(current, offsets)
    ensures var (apps, edges) := (AllBorn(draws, Lambda), Cleared(was, 1 + |draws|, CloudCapacity(Demand(draws), beta)));
            World(apps, edges, current, |draws|, alpha, s) && OfDraws(apps, edges, draws, beta)
  {
    var (apps, edges) := (AllBorn(draws, Lambda), Cleared(was, 1 + |draws|, CloudCapacity(Demand(draws), beta)));
    hide Finite, CloudCapacity, Demand, Listed;
    NoneListed(apps, edges);
    hide SetOf;
  }

  ghost predicate Solvers(pick: nat -> (nat, nat) -> seq<nat>) {
    forall k :: Solver(pick(k))
  }

  class Simulation {
    const s: Scenario
    const pool: AppPool
    const alpha: real
    const beta: real
    const epoch: real
    const pick: nat -> (nat, nat) -> seq<nat>
    const algorithm: nat -> LambdaAlgorithm
    ghost const draws: seq<Draw>
    var clock: real
    var nextEpoch: real
    var optimize: bool
    var assignments: nat
    var numLambda: nat
    var lambdaCost: real
    var muCost: real
    ghost var started: bool
    ghost var muDrift: real
    ghost var lambdaDrift: real

    ghost predicate Valid()
      reads this, s, pool
    {
      0.0 <= alpha <= 1.0 && epoch >= 0.0 && nextEpoch >= 0.0 && Solvers(pick) && pool.Valid() &&
      World(s.apps, s.edges, pool.current, numLambda, alpha, s) && OfDraws(s.apps, s.edges, draws, beta) &&
      (started && !optimize ==> Fresh()) &&
      (if started then Weighted(s.apps, |s.edges|) && Costed(s.apps, s, muCost, lambdaCost, muDrift, lambdaDrift)
       else optimize && nextEpoch == 0.0)
    }

    /** All is placed as the last optimisation left it, and that is what the costs are of. */
    ghost predicate Fresh()
      reads this, s
    {
      assignments > 0 &&
      JustPlaced(s.apps, s.edges, s.net, s.local, s.remote, alpha, beta, pick(assignments - 1), algorithm(assignments - 1), muCost, lambdaCost)
    }

    /** All applications are born as lambda-apps; the lists of periods and the offsets into them are drawn. */
    constructor (s: Scenario, draws: seq<Draw>, periods: seq<seq<real>>, which: seq<nat>, offsets: seq<nat>,
                 alpha: real, beta: real, epoch: real, pick: nat -> (nat, nat) -> seq<nat>, algorithm: nat -> LambdaAlgorithm)
      requires 0.0 <= alpha <= 1.0 && 0.0 < beta <= 1.0 && epoch >= 0.0 && Solvers(pick)
      requires s.edges != [] && draws != [] && Finite(AllBorn(draws, Lambda), |s.edges|, s)
      requires |which| == |offsets| == |draws| && forall p | p in periods :: Periodic(p)
      requires forall a | 0 <= a < |which| :: which[a] < |periods| && offsets[a] < |periods[which[a]]| / 2
      modifies s
      ensures Valid() && fresh(pool) && this.s == s && clock == 0.0 && !started && |s.apps| == |draws| && this.draws == draws
      ensures s.apps == AllBorn(draws, Lambda) && s.edges == Cleared(old(s.edges), 1 + |draws|, CloudCapacity(Demand(draws), beta))
      ensures Opening(pool.desc, periods, which, pool.current) && AtOffsets(pool.current, offsets)
      ensures this.alpha == alpha && this.beta == beta && this.epoch == epoch && this.pick == pick && this.algorithm == algorithm
    {
      hide World, OfDraws, AllBorn, Cleared, Finite, CloudCapacity, Demand, Opening, AtOffsets, AppPool.Valid, Simulation.Fresh, Weighted, Costed, Solvers, Periodic;
      this.draws := draws;
      this.s, this.alpha, this.beta, this.epoch, this.pick, this.algorithm := s, alpha, beta, epoch, pick, algorithm;
      clock, nextEpoch, optimize, assignments := 0.0, 0.0, true, 0;
      numLambda, lambdaCost, muCost := |draws|, 0.0, 0.0;
      started, muDrift, lambdaDrift := false, 0.0, 0.0;
      pool := new AppPool(periods, which, offsets);
      new;
      s.apps, s.edges := AllBorn(draws, Lambda), Cleared(s.edges, 1 + |draws|, CloudCapacity(Demand(draws), beta));
      BornWorld(draws, old(s.edges), alpha, beta, pool.current, offsets, s);
    }

    /** A new epoch: the placement is optimised, unless nothing has changed. */
    method EpochStep()
      requires Valid() && pool.desc != [] && nextEpoch <= pool.desc[0].remaining
      modifies this, s, pool`desc
      ensures Valid() && started && clock == old(clock) + old(nextEpoch) && nextEpoch == epoch && !optimize
      ensures !old(optimize) ==> s.apps == old(s.apps) && s.edges == old(s.edges) && muCost == old(muCost) && lambdaCost == old(lambdaCost)
      ensures assignments == if old(optimize) then old(assignments) + 1 else old(assignments)
      ensures Fresh()
      ensures Replaced(old(s.apps), s.apps) && numLambda == old(numLambda)
    {
      hide Solvers, World, Weighted, Costed, AppPool.Valid, Replaced, OfDraws, JustPlaced;
      pool.AdvanceClock(nextEpoch);
      clock, nextEpoch := clock + nextEpoch, epoch;
      SameReplaced(s.apps);
      if optimize {
        ghost var (was, nodes) := (s.apps, s.edges);
        Reoptimise();
        ReplacedOfDraws(was, s.apps, nodes, s.edges, draws, beta);
        optimize := false;
      }
    }

    /** Between epochs the next application changes its kind, and is the only one to move. */
    method EventStep()
      requires Valid() && started && pool.desc != [] && nextEpoch > pool.desc[0].remaining
      modifies this, s, pool
      ensures Valid() && started && clock == old(clock) + old(pool.desc[0].remaining) >= old(clock) && optimize
      ensures nextEpoch == old(nextEpoch) - old(pool.desc[0].remaining) && assignments == old(assignments)
      ensures Flipped(old(s.apps), s.apps, old(pool.desc[0].app))
      ensures muDrift == old(muDrift) && lambdaDrift == old(lambdaDrift)
    {
      hide Solvers, World, Weighted, Costed, AppPool.Valid, Flipped, Advanced, OfDraws, SameNodes;
      ghost var (was, nodes) := (s.apps, s.edges);
      ghost var current := pool.current;
      var changed, elapsed := pool.Advance();
      clock, nextEpoch, optimize := clock + elapsed, nextEpoch - elapsed, true;
      WorldFacts(s.apps, s.edges, current, numLambda, alpha, s);
      if s.apps[changed].kind == Lambda {
        LambdaEvent(changed, current);
      } else {
        MuEvent(changed, current);
      }
      FlippedOfDraws(was, s.apps, changed, nodes, s.edges, draws, beta);
    }

    method LambdaEvent(a: nat, ghost current: seq<nat>)
      requires 0.0 <= alpha <= 1.0 && World(s.apps, s.edges, current, numLambda, alpha, s) && a < |s.apps| && s.apps[a].kind == Lambda
      requires Weighted(s.apps, |s.edges|) && Costed(s.apps, s, muCost, lambdaCost, muDrift, lambdaDrift)
      requires |pool.current| == |current| && a < |current| && pool.current == current[a := pool.current[a]] && pool.current[a] % 2 != current[a] % 2
      modifies s, this`muCost, this`lambdaCost, this`numLambda
      ensures World(s.apps, s.edges, pool.current, numLambda, alpha, s) && Flipped(old(s.apps), s.apps, a)
      ensures SameNodes(old(s.edges), s.edges)
      ensures Weighted(s.apps, |s.edges|) && Costed(s.apps, s, muCost, lambdaCost, muDrift, lambdaDrift)
    {
      hide Finite, InPhase, Costed, SetOf, Listed, Within, Roomy, At, MuCost, LambdaCost, Free;
      ghost var (was, nodes) := (s.apps, s.edges);
      SteadyIsRoomy(s.apps, s.edges, alpha);
      FiniteIsReachable(s.apps, |s.edges|, s, a);
      var oldCost, newCost := s.MigrateLambdaToMu(a, alpha);
      assert |s.edges| == |nodes| && s.edges[CLOUD].containers == nodes[CLOUD].containers;
      OneKindOnly(was[a], s.apps[a], s.net);
      FlippedCosts(was, s.apps, a, s, muCost, lambdaCost, muDrift, lambdaDrift, |nodes|);
      Flip(was, a, s.apps[a]);
      lambdaCost, muCost, numLambda := lambdaCost - oldCost, muCost + newCost, numLambda - 1;
      FlippedStaysFinite(was, s.apps, a, |nodes|, s);
      FlippedPhase(was, s.apps, a, current, pool.current);
    }

    method MuEvent(a: nat, ghost current: seq<nat>)
      requires 0.0 <= alpha <= 1.0 && World(s.apps, s.edges, current, numLambda, alpha, s) && a < |s.apps| && s.apps[a].kind == Mu
      requires Weighted(s.apps, |s.edges|) && Costed(s.apps, s, muCost, lambdaCost, muDrift, lambdaDrift)
      requires |pool.current| == |current| && a < |current| && pool.current == current[a := pool.current[a]] && pool.current[a] % 2 != current[a] % 2
      modifies s, this`muCost, this`lambdaCost, this`numLambda
      ensures World(s.apps, s.edges, pool.current, numLambda, alpha, s) && Flipped(old(s.apps), s.apps, a)
      ensures SameNodes(old(s.edges), s.edges)
      ensures Weighted(s.apps, |s.edges|) && Costed(s.apps, s, muCost, lambdaCost, muDrift, lambdaDrift)
    {
      hide Finite, InPhase, Costed, SetOf, Listed, Within, Roomy, At, MuCost, LambdaCost;
      ghost var (was, nodes) := (s.apps, s.edges);
      SteadyIsRoomy(s.apps, s.edges, alpha);
      var oldCost, newCost := s.MigrateMuToLambda(a, alpha);
      OneKindOnly(s.apps[a], was[a], s.net);
      FlippedCosts(was, s.apps, a, s, muCost, lambdaCost, muDrift, lambdaDrift, |nodes|);
      Flip(was, a, s.apps[a]);
      lambdaCost, muCost, numLambda := lambdaCost + newCost, muCost - oldCost, numLambda + 1;
      FlippedStaysFinite(was, s.apps, a, |nodes|, s);
      FlippedPhase(was, s.apps, a, current, pool.current);
    }

    /** One round of the event loop. */
    method Step()
      requires Valid()
      modifies this, s, pool
      ensures Valid() && started && old(pool.desc) != []
      ensures var (left, next) := (old(nextEpoch), old(pool.desc[0].remaining));
        clock == old(clock) + (if left <= next then left else next) >= old(clock) && optimize == (left > next) &&
        (optimize ==> Flipped(old(s.apps), s.apps, old(pool.desc[0].app)))
    {
      hide Solvers, World, Weighted, Costed, Flipped, Replaced, PoolOk, OneEach, OfDraws, Simulation.Fresh;
      var next := pool.Next();
      if nextEpoch <= next {
        EpochStep();
      } else {
        EventStep();
      }
    }

    /** Any number of rounds, as long as the simulated time lasts: every state of the run after the first is covered. */
    method Run(duration: real, rounds: nat) returns (done: nat)
      requires Valid() && clock < duration
      modifies this, s, pool
      ensures Valid() && clock >= old(clock) && (rounds > 0 ==> started)
      ensures done <= rounds && (done < rounds ==> clock >= duration)
      ensures started && !optimize ==> Fresh()
    {
      hide Simulation.Fresh, World, Weighted, Costed, OfDraws, Solvers;
      done := 0;
      while done < rounds
        invariant Valid() && clock >= old(clock) && (if done == 0 then clock < duration else started) && done <= rounds
      {
        if clock >= duration {
          break;
        }
        Step();
        done := done + 1;
      }
    }

    /** Between an epoch and the next event at most one unit of what the lambda-apps request is not served. */
    lemma ServedInEpoch()
      requires Valid() && started && !optimize
      ensures Sum(RequestedUnits(s.apps)) - 1.0 <= Sum(ServedUnits(s.apps)) <= Sum(RequestedUnits(s.apps))
      ensures WholeQuotient(Demand(draws), beta) ==> Sum(ServedUnits(s.apps)) == Sum(RequestedUnits(s.apps))
    {
      hide Solvers, Weighted, Costed, AppPool.Valid, Listed, Within, Finite, InPhase, Bare, SetOf, Optimised, SolvedBy, MuPlaced, MuCharges, Sum, WholeQuotient, Demand, CloudCapacity;
      SteadyIsRoomy(s.apps, s.edges, alpha);
      RequestedAtMost(s.apps, draws);
      var m, slots :| LambdaPlaced(s.apps, s.edges, s.net, s.local, s.remote, beta, algorithm(assignments - 1), lambdaCost, m, slots);
      AtMostOneUnitUnserved(s.apps, s.edges, s.net, s.local, s.remote, beta, lambdaCost, m, slots, Demand(draws));
    }

    /** All applications are placed anew. */
    method Reoptimise()
      requires 0.0 <= alpha <= 1.0 && Solvers(pick) && World(s.apps, s.edges, pool.current, numLambda, alpha, s)
      modifies s, this`muCost, this`lambdaCost, this`assignments, this`started, this`muDrift, this`lambdaDrift
      ensures World(s.apps, s.edges, pool.current, numLambda, alpha, s) && started && Replaced(old(s.apps), s.apps)
      ensures SameNodes(old(s.edges), s.edges) && assignments == old(assignments) + 1
      ensures JustPlaced(s.apps, s.edges, s.net, s.local, s.remote, alpha, beta, pick(old(assignments)), algorithm(old(assignments)), muCost, lambdaCost)
      ensures Weighted(s.apps, |s.edges|) && Costed(s.apps, s, muCost, lambdaCost, muDrift, lambdaDrift)
    {
      hide Solver, Steady, Finite, InPhase, Weighted, Costed, SetOf, Bare, Listed, Within, Roomy, Affordable, Optimised, MuTotal, LambdaTotal, MuCharges, Sum, Replaced, SameNodes, UnitLambda, UnitMu, JustPlaced;
      ghost var (was, nodes) := (s.apps, s.edges);
      SteadyIsRoomy(s.apps, s.edges, alpha);
      FiniteIsAffordable(s.apps, |s.edges|, s);
      ghost var m, slots;
      muCost, lambdaCost, m, slots := Optimise(s, alpha, beta, pick(assignments), algorithm(assignments));
      assignments, started := assignments + 1, true;
      muDrift, lambdaDrift := muCost - MuTotal(s.apps, s.net), lambdaCost - LambdaTotal(s.apps, s.net);
      ReplacedIsSteady(was, s.apps, nodes, s.edges, alpha, pool.current, s);
      OptimisedIsWeighted(s.apps, s.edges, s, beta, lambdaCost, m, slots);
      UnitLambdaCharges(s.apps, s.edges, s, beta, lambdaCost, m, slots);
      OptimisedIsCosted(s.apps, s, muCost, lambdaCost);
    }
  }

  /** The arguments of a dynamic simulation are checked first; without applications there is none. */
  method StartDynamic(s: Scenario, duration: real, warmUp: real, draws: seq<Draw>, periods: seq<seq<real>>, which: seq<nat>, offsets: seq<nat>,
                      alpha: real, beta: real, epoch: real, pick: nat -> (nat, nat) -> seq<nat>, algorithm: nat -> LambdaAlgorithm)
      returns (r: Result<Simulation>)
    requires beta != 0.0 && epoch >= 0.0 && Solvers(pick) && s.edges != [] && Finite(AllBorn(draws, Lambda), |s.edges|, s)
    requires |which| == |offsets| == |draws| && forall p | p in periods :: Periodic(p)
    requires forall a | 0 <= a < |which| :: which[a] < |periods| && offsets[a] < |periods[which[a]]| / 2
    modifies s
    ensures r.Ok? <==> 0.0 <= alpha <= 1.0 && 0.0 <= beta <= 1.0 && duration >= 0.0 && warmUp >= 0.0 && draws != []
    ensures r.Ok? ==> fresh(r.value) && fresh(r.value.pool) && r.value.s == s && r.value.Valid() && |s.apps| == |draws|
    ensures r.Ok? ==> r.value.draws == draws && r.value.alpha == alpha && r.value.beta == beta && r.value.epoch == epoch
    ensures r.Ok? ==> s.apps == AllBorn(draws, Lambda) && AtOffsets(r.value.pool.current, offsets) && !r.value.started && r.value.clock == 0.0
  {
    if alpha < 0.0 || alpha > 1.0 {
      return Err("Invalid alpha, must be in [0,1]");
    }
    if beta < 0.0 || beta > 1.0 {
      return Err("Invalid beta, must be in [0,1]");
    }
    if duration < 0.0 {
      return Err("Invalid simulation duration, must be >= 0");
    }
    if warmUp < 0.0 {
      return Err("Invalid warm-up duration, must be >= 0");
    }
    if draws == [] {
      s.apps, s.edges := [], Cleared(s.edges, 1, CloudCapacity(0, beta));
      return Err("Invalid number of applications, must be > 0");
    }
    hide Simulation.Valid, AtOffsets, AllBorn;
    var simulation := new Simulation(s, draws, periods, which, offsets, alpha, beta, epoch, pick, algorithm);
    return Ok(simulation);
  }

  lemma WorldFacts(apps: seq<App>, edges: seq<Edge>, current: seq<nat>, numLambda: nat, alpha: real, s: Scenario)
    requires 0.0 <= alpha <= 1.0 && World(apps, edges, current, numLambda, alpha, s)
    ensures |apps| == |current|
  {}

  lemma FiniteIsReachable(apps: seq<App>, n: nat, s: Scenario, a: nat)
    requires Finite(apps, n, s) && a < |apps|
    ensures forall e | 0 <= e < n :: At(s.net, apps[a].broker, e) < s.inf
  {
    hide Affordable, At;
  }

  /** An application costs something as what it is, and nothing as what it is not. */
  lemma OneKindOnly(x: App, y: App, net: Net)
    requires x.kind == Lambda && y.kind == Mu
    ensures MuCost(x, net) == 0.0 && LambdaCost(y, net) == 0.0
  {}

  lemma SameReplaced(apps: seq<App>)
    ensures Replaced(apps, apps)
  {}

  lemma SteadyIsRoomy(apps: seq<App>, edges: seq<Edge>, alpha: real)
    requires 0.0 <= alpha <= 1.0 && Steady(apps, edges, alpha)
    ensures Roomy(apps, edges) && Listed(apps, edges) && Within(edges, alpha) && edges != []
  {
    RoomyCloud(apps, edges);
  }

  lemma FiniteIsAffordable(apps: seq<App>, n: nat, s: Scenario)
    requires Finite(apps, n, s)
    ensures Affordable(apps, n, s.net, s.local, s.remote, s.inf)
  {}

  lemma ReplacedIsSteady(was: seq<App>, apps: seq<App>, nodes: seq<Edge>, edges: seq<Edge>, alpha: real, current: seq<nat>, s: Scenario)
    requires 0.0 <= alpha <= 1.0 && Replaced(was, apps) && SameNodes(nodes, edges) && Steady(was, nodes, alpha) && Listed(apps, edges) && Within(edges, alpha)
    requires InPhase(was, current) && Finite(was, |nodes|, s) && Bare(was)
    ensures Steady(apps, edges, alpha) && InPhase(apps, current) && Finite(apps, |edges|, s) && Bare(apps)
    ensures forall kind :: SetOf(apps, kind) == SetOf(was, kind)
  {
    hide Listed, Within, Affordable, At;
    SameKinds(was, apps);
    StillAffordable(was, apps, |nodes|, s);
    forall a | 0 <= a < |apps| ensures apps[a].broker == was[a].broker {}
  }

  lemma OptimisedIsCosted(apps: seq<App>, s: Scenario, muCost: real, lambdaCost: real)
    requires muCost == Sum(MuCharges(apps, s.net)) && (UnitLambda(apps, s) ==> lambdaCost == LambdaTotal(apps, s.net))
    ensures Costed(apps, s, muCost, lambdaCost, muCost - MuTotal(apps, s.net), lambdaCost - LambdaTotal(apps, s.net))
  {
    hide Sum;
    if UnitMu(apps) { UnitMuCharges(apps, s.net); }
  }
}
