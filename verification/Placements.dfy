/**
 * Applications on the containers of edge nodes: mu-apps have a container of their own, lambda-apps
 * share containers by weights. Edge node 0 is the cloud.
 */
module Placements {
  import V = Vectors

  datatype Kind = Lambda | Mu

  datatype App = App(broker: nat, kind: Kind, rate: nat, exchange: nat, storage: nat, edge: nat, weights: seq<(nat, nat)>)

  datatype Edge = Edge(containers: nat, capacity: int, muApps: seq<nat>)

  const CLOUD: nat := 0

  /** The cost from each broker to each edge node. */
  type Net = seq<seq<real>>

  // --- sums ---

  function Sum(v: seq<real>): real {
    if v == [] then 0.0 else Sum(v[..|v| - 1]) + v[|v| - 1]
  }

  lemma {:induction false} SumSet(v: seq<real>, i: nat, x: real)
    requires i < |v|
    ensures Sum(v[i := x]) == Sum(v) - v[i] + x
  {
    var last := |v| - 1;
    if i < last {
      SumSet(v[..last], i, x);
      assert v[i := x][..last] == v[..last][i := x];
    } else {
      assert v[i := x][..last] == v[..last];
    }
  }

  lemma SumAppend(v: seq<real>, x: real)
    ensures Sum(v + [x]) == Sum(v) + x
  {
    assert (v + [x])[..|v|] == v;
  }

  lemma {:induction false} SumGap(v: seq<real>, w: seq<real>)
    requires |v| == |w| && forall i | 0 <= i < |v| :: v[i] >= w[i]
    ensures Sum(v) >= Sum(w) && (Sum(v) == Sum(w) <==> v == w)
  {
    if v != [] {
      var last := |v| - 1;
      SumGap(v[..last], w[..last]);
      assert v == v[..last] + [v[last]] && w == w[..last] + [w[last]];
    }
  }

  // --- which applications ---

  /** The applications of a kind among the first n, in order. */
  function Filter(apps: seq<App>, kind: Kind, n: nat): seq<nat>
    requires n <= |apps|
  {
    if n == 0 then [] else Filter(apps, kind, n - 1) + if apps[n - 1].kind == kind then [n - 1] else []
  }

  function Of(apps: seq<App>, kind: Kind): seq<nat> { Filter(apps, kind, |apps|) }

  function SetOf(apps: seq<App>, kind: Kind): set<nat> {
    set a | 0 <= a < |apps| && apps[a].kind == kind
  }

  ghost predicate NoDups(q: seq<nat>) {
    forall i, k | 0 <= i < k < |q| :: q[i] != q[k]
  }

  lemma {:induction false} FilterMembers(apps: seq<App>, kind: Kind, n: nat)
    requires n <= |apps|
    ensures forall a :: a in Filter(apps, kind, n) <==> 0 <= a < n && apps[a].kind == kind
    ensures NoDups(Filter(apps, kind, n))
  {
    if n > 0 {
      FilterMembers(apps, kind, n - 1);
      var f := Filter(apps, kind, n - 1);
      assert forall i | 0 <= i < |f| :: f[i] in f;
    }
  }

  function Elements(q: seq<nat>): set<nat> { set x | x in q }

  lemma {:induction false} FilterSame(apps: seq<App>, more: seq<App>, kind: Kind, n: nat)
    requires n <= |apps| == |more| && forall a | 0 <= a < n :: apps[a].kind == more[a].kind
    ensures Filter(apps, kind, n) == Filter(more, kind, n)
  {
    if n > 0 {
      FilterSame(apps, more, kind, n - 1);
    }
  }

  lemma {:induction false} NoDupsSize(q: seq<nat>)
    requires NoDups(q)
    ensures |Elements(q)| == |q|
  {
    if q != [] {
      var (front, last) := (q[..|q| - 1], q[|q| - 1]);
      NoDupsSize(front);
      assert q == front + [last];
      assert Elements(q) == Elements(front) + {last};
      assert last !in Elements(front);
    }
  }

  lemma {:induction false} FilterSizes(apps: seq<App>, n: nat)
    requires n <= |apps|
    ensures |Filter(apps, Lambda, n)| + |Filter(apps, Mu, n)| == n
  {
    if n > 0 {
      FilterSizes(apps, n - 1);
    }
  }

  lemma Sizes(apps: seq<App>)
    ensures |SetOf(apps, Lambda)| + |SetOf(apps, Mu)| == |apps|
    ensures |Of(apps, Lambda)| == |SetOf(apps, Lambda)| && |Of(apps, Mu)| == |SetOf(apps, Mu)|
  {
    FilterSizes(apps, |apps|);
    KindSize(apps, Lambda);
    KindSize(apps, Mu);
  }

  lemma KindSize(apps: seq<App>, kind: Kind)
    ensures |Of(apps, kind)| == |SetOf(apps, kind)|
  {
    FilterMembers(apps, kind, |apps|);
    NoDupsSize(Of(apps, kind));
    assert Elements(Of(apps, kind)) == SetOf(apps, kind);
  }

  lemma FlipSets(apps: seq<App>, a: nat, app: App, kind: Kind)
    requires a < |apps| && app.kind != apps[a].kind
    ensures SetOf(apps[a := app], kind) == if kind == app.kind then SetOf(apps, kind) + {a} else SetOf(apps, kind) - {a}
    ensures a in SetOf(apps, kind) <==> kind != app.kind
  {}

  lemma Flip(apps: seq<App>, a: nat, app: App)
    requires a < |apps| && app.kind != apps[a].kind
    ensures |SetOf(apps[a := app], app.kind)| == |SetOf(apps, app.kind)| + 1
    ensures |SetOf(apps[a := app], apps[a].kind)| == |SetOf(apps, apps[a].kind)| - 1
  {
    hide SetOf;
    FlipSets(apps, a, app, app.kind);
    FlipSets(apps, a, app, apps[a].kind);
  }

  function Pick(vals: seq<real>, ids: seq<nat>): (r: seq<real>)
    requires forall i | 0 <= i < |ids| :: ids[i] < |vals|
    ensures |r| == |ids| && forall i | 0 <= i < |ids| :: r[i] == vals[ids[i]]
  {
    seq(|ids|, i requires 0 <= i < |ids| => vals[ids[i]])
  }

  lemma PickAppend(vals: seq<real>, ids: seq<nat>, a: nat)
    requires a < |vals| && forall i | 0 <= i < |ids| :: ids[i] < |vals|
    ensures Sum(Pick(vals, ids + [a])) == Sum(Pick(vals, ids)) + vals[a]
  {
    hide Sum;
    assert Pick(vals, ids + [a]) == Pick(vals, ids) + [vals[a]];
    SumAppend(Pick(vals, ids), vals[a]);
  }

  lemma FilterInRange(apps: seq<App>, kind: Kind, n: nat, m: nat)
    requires n <= |apps| <= m
    ensures forall i | 0 <= i < |Filter(apps, kind, n)| :: Filter(apps, kind, n)[i] < m
  {
    FilterMembers(apps, kind, n);
    forall i | 0 <= i < |Filter(apps, kind, n)| ensures Filter(apps, kind, n)[i] < m {
      assert Filter(apps, kind, n)[i] in Filter(apps, kind, n);
    }
  }

  lemma FilterStep(apps: seq<App>, kind: Kind, n: nat)
    requires 0 < n <= |apps|
    ensures Filter(apps, kind, n) == if apps[n - 1].kind == kind then Filter(apps, kind, n - 1) + [n - 1] else Filter(apps, kind, n - 1)
  {}

  lemma SumPrefix(vals: seq<real>, n: nat)
    requires n < |vals|
    ensures Sum(vals[..n + 1]) == Sum(vals[..n]) + vals[n]
  {
    assert vals[..n + 1][..n] == vals[..n];
  }

  lemma NothingFiltered(vals: seq<real>, apps: seq<App>, kind: Kind)
    ensures Filter(apps, kind, 0) == [] && Sum(vals[..0]) == 0.0 && Sum(Pick(vals, [])) == 0.0
  {}

  /** A sum over all applications to which only those of one kind contribute. */
  lemma {:induction false} SumFilter(vals: seq<real>, apps: seq<App>, kind: Kind, n: nat)
    requires n <= |apps| == |vals| && forall a | 0 <= a < n && apps[a].kind != kind :: vals[a] == 0.0
    ensures forall i | 0 <= i < |Filter(apps, kind, n)| :: Filter(apps, kind, n)[i] < |vals|
    ensures Sum(vals[..n]) == Sum(Pick(vals, Filter(apps, kind, n)))
  {
    hide Sum, Filter, Pick;
    FilterInRange(apps, kind, n, |vals|);
    if n == 0 {
      NothingFiltered(vals, apps, kind);
    } else {
      FilterStep(apps, kind, n);
      SumFilter(vals, apps, kind, n - 1);
      SumPrefix(vals, n - 1);
      if apps[n - 1].kind == kind {
        PickAppend(vals, Filter(apps, kind, n - 1), n - 1);
      }
    }
  }

  // --- costs ---

  function At(net: Net, broker: nat, e: nat): real {
    if broker < |net| && e < |net[broker]| then net[broker][e] else 0.0
  }

  /** The cost of the weights of an application, as seen from its broker. */
  function WeightCost(ws: seq<(nat, nat)>, net: Net, broker: nat): real {
    if ws == [] then 0.0
    else
      var last := ws[|ws| - 1];
      WeightCost(ws[..|ws| - 1], net, broker) + V.Times(last.1, At(net, broker, last.0))
  }

  function WeightSum(ws: seq<(nat, nat)>): nat {
    if ws == [] then 0 else WeightSum(ws[..|ws| - 1]) + ws[|ws| - 1].1
  }

  function LambdaCost(app: App, net: Net): real {
    if app.kind == Lambda then WeightCost(app.weights, net, app.broker) else 0.0
  }

  function MuCost(app: App, net: Net): real {
    if app.kind == Mu then At(net, app.broker, app.edge) else 0.0
  }

  function LambdaCosts(apps: seq<App>, net: Net): (v: seq<real>)
    ensures |v| == |apps| && forall a | 0 <= a < |apps| :: v[a] == LambdaCost(apps[a], net)
  {
    seq(|apps|, a requires 0 <= a < |apps| => LambdaCost(apps[a], net))
  }

  function MuCosts(apps: seq<App>, net: Net): (v: seq<real>)
    ensures |v| == |apps| && forall a | 0 <= a < |apps| :: v[a] == MuCost(apps[a], net)
  {
    seq(|apps|, a requires 0 <= a < |apps| => MuCost(apps[a], net))
  }

  /** The costs recomputed over the current applications. */
  function LambdaTotal(apps: seq<App>, net: Net): real { Sum(LambdaCosts(apps, net)) }

  function MuTotal(apps: seq<App>, net: Net): real { Sum(MuCosts(apps, net)) }

  /** One application that changes adds its new cost and takes its old one away. */
  lemma TotalsSet(apps: seq<App>, a: nat, app: App, net: Net)
    requires a < |apps|
    ensures LambdaTotal(apps[a := app], net) == LambdaTotal(apps, net) - LambdaCost(apps[a], net) + LambdaCost(app, net)
    ensures MuTotal(apps[a := app], net) == MuTotal(apps, net) - MuCost(apps[a], net) + MuCost(app, net)
  {
    SumSet(LambdaCosts(apps, net), a, LambdaCost(app, net));
    assert LambdaCosts(apps[a := app], net) == LambdaCosts(apps, net)[a := LambdaCost(app, net)];
    SumSet(MuCosts(apps, net), a, MuCost(app, net));
    assert MuCosts(apps[a := app], net) == MuCosts(apps, net)[a := MuCost(app, net)];
  }

  // --- where the mu-apps are ---

  /** The part of the containers that mu-apps may use. */
  function Share(n: nat, alpha: real): (s: nat)
    requires 0.0 <= alpha <= 1.0
    ensures s <= n && s as real <= n as real * alpha < s as real + 1.0
  {
    ShareBounds(n as real, alpha);
    (n as real * alpha).Floor
  }

  lemma ShareBounds(n: real, alpha: real)
    requires 0.0 <= alpha <= 1.0 && n >= 0.0
    ensures 0.0 <= n * alpha <= n
  {}

  function Usable(edges: seq<Edge>, alpha: real, e: nat): nat
    requires e < |edges| && 0.0 <= alpha <= 1.0
  {
    if e == CLOUD then edges[e].containers else Share(edges[e].containers, alpha)
  }

  predicate MuAt(apps: seq<App>, a: nat, e: nat) {
    a < |apps| && apps[a].kind == Mu && apps[a].edge == e
  }

  /** An edge node lists exactly the mu-apps that are there, each once. */
  ghost predicate Listed(apps: seq<App>, edges: seq<Edge>) {
    (forall e | 0 <= e < |edges| :: NoDups(edges[e].muApps) && forall a :: a in edges[e].muApps <==> MuAt(apps, a, e)) &&
    forall a | 0 <= a < |apps| && apps[a].kind == Mu :: apps[a].edge < |edges|
  }

  ghost predicate Within(edges: seq<Edge>, alpha: real)
    requires 0.0 <= alpha <= 1.0
  {
    forall e | 0 <= e < |edges| :: |edges[e].muApps| <= Usable(edges, alpha, e)
  }

  /** Lambda-apps have weights, on edge nodes that exist, and mu-apps none. */
  ghost predicate Weighted(apps: seq<App>, n: nat) {
    forall a | 0 <= a < |apps| :: (apps[a].kind == Lambda <==> apps[a].weights != []) && forall w | w in apps[a].weights :: w.0 < n
  }

  /** The cloud has more containers than there are mu-apps. */
  ghost predicate Roomy(apps: seq<App>, edges: seq<Edge>) {
    edges != [] && edges[CLOUD].containers > |SetOf(apps, Mu)|
  }

  /** In no list are there more mu-apps than there are at all. */
  lemma ListedAtMost(apps: seq<App>, edges: seq<Edge>, e: nat)
    requires Listed(apps, edges) && e < |edges|
    ensures |edges[e].muApps| <= |SetOf(apps, Mu)|
  {
    var s := Elements(edges[e].muApps);
    NoDupsSize(edges[e].muApps);
    assert s <= SetOf(apps, Mu);
    SubsetSize(s, SetOf(apps, Mu));
  }

  lemma {:induction false} SubsetSize(s: set<nat>, t: set<nat>)
    requires s <= t
    ensures |s| <= |t|
  {
    if s != {} {
      var x :| x in s;
      SubsetSize(s - {x}, t - {x});
    }
  }

  /** A lambda-app becomes a mu-app on edge node e. */
  lemma NowListed(apps: seq<App>, edges: seq<Edge>, a: nat, e: nat, app: App, list: seq<nat>)
    requires Listed(apps, edges) && a < |apps| && apps[a].kind == Lambda && e < |edges|
    requires app.kind == Mu && app.edge == e && list == edges[e].muApps + [a]
    ensures Listed(apps[a := app], edges[e := edges[e].(muApps := list)])
  {
    assert a !in edges[e].muApps;
    assert forall k | 0 <= k < |edges[e].muApps| :: edges[e].muApps[k] in edges[e].muApps;
  }

  /** A mu-app becomes a lambda-app. */
  lemma NoLongerListed(apps: seq<App>, edges: seq<Edge>, a: nat, app: App, list: seq<nat>)
    requires Listed(apps, edges) && a < |apps| && apps[a].kind == Mu && apps[a].edge < |edges| && app.kind == Lambda
    requires NoDups(list) && forall x :: x in list <==> x in edges[apps[a].edge].muApps && x != a
    ensures Listed(apps[a := app], edges[apps[a].edge := edges[apps[a].edge].(muApps := list)])
  {}

  // --- containers ---

  /** The containers in a list that belong to edge node e. */
  function Containers(slots: seq<nat>, e: nat): set<nat> {
    set c | 0 <= c < |slots| && slots[c] == e
  }

  lemma OneMoreContainer(slots: seq<nat>, x: nat, e: nat)
    ensures Containers(slots + [x], e) == Containers(slots, e) + if e == x then {|slots|} else {}
    ensures |Containers(slots + [x], e)| == |Containers(slots, e)| + if e == x then 1 else 0
  {
    assert Containers(slots + [x], e) == Containers(slots, e) + if e == x then {|slots|} else {};
  }

  /** The containers that mu-apps may use, in the order of the nodes. */
  ghost predicate UsableSlots(slots: seq<nat>, edges: seq<Edge>, alpha: real)
    requires 0.0 <= alpha <= 1.0
  {
    (forall c | 0 <= c < |slots| :: slots[c] < |edges|) && (forall c, d | 0 <= c < d < |slots| :: slots[c] <= slots[d]) &&
    forall e | 0 <= e < |edges| :: |Containers(slots, e)| == Usable(edges, alpha, e)
  }

  /** Each edge node as often as it has containers, in the order of the nodes. */
  method Slots(counts: seq<nat>) returns (slots: seq<nat>)
    ensures forall c | 0 <= c < |slots| :: slots[c] < |counts|
    ensures forall c, d | 0 <= c < d < |slots| :: slots[c] <= slots[d]
    ensures forall e | 0 <= e < |counts| :: |Containers(slots, e)| == counts[e]
  {
    hide Containers;
    slots := [];
    assert forall e :: |Containers(slots, e)| == 0 by { forall e ensures |Containers([], e)| == 0 { NoContainers(e); } }
    for e := 0 to |counts|
      invariant forall c | 0 <= c < |slots| :: slots[c] < e
      invariant forall c, d | 0 <= c < d < |slots| :: slots[c] <= slots[d]
      invariant forall k | 0 <= k < |counts| :: |Containers(slots, k)| == if k < e then counts[k] else 0
    {
      for i := 0 to counts[e]
        invariant forall c | 0 <= c < |slots| :: slots[c] <= e
        invariant forall c, d | 0 <= c < d < |slots| :: slots[c] <= slots[d]
        invariant forall k | 0 <= k < |counts| :: |Containers(slots, k)| == if k < e then counts[k] else if k == e then i else 0
      {
        forall k: nat ensures |Containers(slots + [e], k)| == |Containers(slots, k)| + if k == e then 1 else 0 {
          OneMoreContainer(slots, e, k);
        }
        slots := slots + [e];
      }
    }
  }

  lemma NoContainers(e: nat)
    ensures |Containers([], e)| == 0
  {}

  lemma {:induction false} ContainersAtMost(slots: seq<nat>, e: nat)
    ensures |Containers(slots, e)| <= |slots|
  {
    if slots == [] {
      NoContainers(e);
    } else {
      var last := |slots| - 1;
      ContainersAtMost(slots[..last], e);
      OneMoreContainer(slots[..last], slots[last], e);
      assert slots == slots[..last] + [slots[last]];
    }
  }

  // --- mu-apps to containers ---

  /** Different containers for n applications out of m. */
  ghost predicate IsAssignment(pick: seq<nat>, n: nat, m: nat) {
    |pick| == n && NoDups(pick) && forall i | 0 <= i < n :: pick[i] < m
  }

  /** The containers of edge node e that the first i applications take. */
  function Taken(pick: seq<nat>, slots: seq<nat>, i: nat, e: nat): set<nat>
    requires i <= |pick|
  {
    set k | 0 <= k < i && pick[k] < |slots| && slots[pick[k]] == e :: pick[k]
  }

  lemma TakenMore(pick: seq<nat>, slots: seq<nat>, i: nat, e: nat)
    requires i < |pick| && NoDups(pick) && pick[i] < |slots|
    ensures |Taken(pick, slots, i + 1, e)| == |Taken(pick, slots, i, e)| + if slots[pick[i]] == e then 1 else 0
  {
    assert Taken(pick, slots, i + 1, e) == Taken(pick, slots, i, e) + if slots[pick[i]] == e then {pick[i]} else {};
  }

  lemma TakenAtMost(pick: seq<nat>, slots: seq<nat>, i: nat, e: nat)
    requires i <= |pick|
    ensures |Taken(pick, slots, i, e)| <= |Containers(slots, e)|
  {
    SubsetSize(Taken(pick, slots, i, e), Containers(slots, e));
  }

  /** The first i mu-apps are on the edge nodes of their containers. */
  ghost predicate PutOn(apps: seq<App>, edges: seq<Edge>, ids: seq<nat>, pick: seq<nat>, slots: seq<nat>, i: nat) {
    i <= |ids| && |ids| == |pick| && (forall c | 0 <= c < |slots| :: slots[c] < |edges|) &&
    (forall k | 0 <= k < |ids| :: ids[k] < |apps| && apps[ids[k]].kind == Mu && pick[k] < |slots|) &&
    (forall k | 0 <= k < i :: apps[ids[k]].edge == slots[pick[k]]) &&
    forall e | 0 <= e < |edges| :: ListedUpto(edges[e].muApps, ids, pick, slots, i, e)
  }

  ghost predicate ListedUpto(list: seq<nat>, ids: seq<nat>, pick: seq<nat>, slots: seq<nat>, i: nat, e: nat) {
    i <= |ids| && |ids| == |pick| && (forall k | 0 <= k < i :: pick[k] < |slots|) &&
    |list| == |Taken(pick, slots, i, e)| && NoDups(list) &&
    forall a :: a in list <==> exists k :: 0 <= k < i && ids[k] == a && slots[pick[k]] == e
  }

  lemma ListedMore(list: seq<nat>, ids: seq<nat>, pick: seq<nat>, slots: seq<nat>, i: nat, e: nat)
    requires i < |ids| && NoDups(ids) && NoDups(pick) && ListedUpto(list, ids, pick, slots, i, e) && pick[i] < |slots|
    ensures ListedUpto(if slots[pick[i]] == e then list + [ids[i]] else list, ids, pick, slots, i + 1, e)
  {
    TakenMore(pick, slots, i, e);
    hide Taken;
    var next := if slots[pick[i]] == e then list + [ids[i]] else list;
    assert ids[i] !in list;
    assert NoDups(next) by { assert forall k | 0 <= k < |list| :: list[k] in list; }
    forall a ensures a in next <==> exists k :: 0 <= k < i + 1 && ids[k] == a && slots[pick[k]] == e {}
  }

  lemma PutOnMore(apps: seq<App>, edges: seq<Edge>, ids: seq<nat>, pick: seq<nat>, slots: seq<nat>, i: nat)
    requires PutOn(apps, edges, ids, pick, slots, i) && i < |ids| && NoDups(ids) && NoDups(pick)
    ensures
      var e := slots[pick[i]];
      PutOn(apps[ids[i] := apps[ids[i]].(edge := e)], edges[e := edges[e].(muApps := edges[e].muApps + [ids[i]])], ids, pick, slots, i + 1)
  {
    hide ListedUpto;
    forall e | 0 <= e < |edges| ensures ListedUpto(if slots[pick[i]] == e then edges[e].muApps + [ids[i]] else edges[e].muApps, ids, pick, slots, i + 1, e) {
      ListedMore(edges[e].muApps, ids, pick, slots, i, e);
    }
  }

  /** All the mu-apps are where they are listed, and no edge node has more than its share. */
  lemma AllPutOn(apps: seq<App>, edges: seq<Edge>, ids: seq<nat>, pick: seq<nat>, slots: seq<nat>, alpha: real)
    requires PutOn(apps, edges, ids, pick, slots, |ids|) && 0.0 <= alpha <= 1.0
    requires forall a :: a in ids <==> 0 <= a < |apps| && apps[a].kind == Mu
    requires forall e | 0 <= e < |edges| :: |Containers(slots, e)| == Usable(edges, alpha, e)
    ensures Listed(apps, edges) && Within(edges, alpha)
  {
    hide Usable, Containers, Taken;
    forall e | 0 <= e < |edges| ensures |edges[e].muApps| <= Usable(edges, alpha, e) {
      assert ListedUpto(edges[e].muApps, ids, pick, slots, |ids|, e);
      TakenAtMost(pick, slots, |ids|, e);
    }
    forall e | 0 <= e < |edges| ensures NoDups(edges[e].muApps) && forall a :: a in edges[e].muApps <==> MuAt(apps, a, e) {
      assert ListedUpto(edges[e].muApps, ids, pick, slots, |ids|, e);
    }
    forall a | 0 <= a < |apps| && apps[a].kind == Mu ensures apps[a].edge < |edges| {
      assert a in ids;
    }
  }
}
