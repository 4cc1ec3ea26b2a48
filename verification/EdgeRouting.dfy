/** What happens to a lambda request on its way: inside one router, and from router to router. */
module EdgeRouting {
  import opened Wrappers
  import opened ForwardingTables
  import opened Announcements
  import opened HierController

  /** The part of a LambdaRequest that routing looks at. */
  datatype Request = Request(name: Lambda, forward: bool, hops: nat) {
    /** As the next node receives it: built from the wire, and counted as one more hop. */
    function Relayed(): Request { this.(forward := true, hops := hops + 1) }
  }

  /** Requests of other nodes only see the final table. */
  function Selected(t: RouterTables, q: Request): Table {
    if q.forward then t.final else t.overall
  }

  ghost predicate Picks(t: RouterTables, q: Request, d: Endpoint) {
    Offers(Selected(t, q), q.name, d)
  }

  // --- one router: try a destination, purge it if it fails, try the next ---

  function Purged(t: RouterTables, l: Lambda, ds: seq<Endpoint>): RouterTables {
    if ds == [] then t else Apply(Purged(t, l, ds[..|ds| - 1]), Remove(l, ds[|ds| - 1]))
  }

  lemma NothingPurged(t: RouterTables, l: Lambda)
    ensures Purged(t, l, []) == t
  {}

  lemma OnePurgedMore(t: RouterTables, l: Lambda, ds: seq<Endpoint>, d: Endpoint)
    ensures (ds + [d])[..|ds|] == ds
    ensures Purged(t, l, ds + [d]) == Apply(Purged(t, l, ds), Remove(l, d))
  {
    assert (ds + [d])[..|ds|] == ds;
  }

  lemma {:induction false} PurgedContents(t: RouterTables, l: Lambda, ds: seq<Endpoint>, q: Request, d: Endpoint)
    requires q.name == l
    ensures Picks(Purged(t, l, ds), q, d) <==> Picks(t, q, d) && d !in ds
  {
    if ds != [] {
      var front := ds[..|ds| - 1];
      assert ds == front + [ds[|ds| - 1]];
      PurgedContents(t, l, front, q, d);
    }
  }

  /** Distinct destinations, all listed for the request. */
  ghost predicate Attempts(t: RouterTables, q: Request, tried: seq<Endpoint>) {
    && (forall i | 0 <= i < |tried| :: Picks(t, q, tried[i]))
    && (forall i, j | 0 <= i < j < |tried| :: tried[i] != tried[j])
  }

  /** The first n attempts fail. */
  ghost predicate AllFail(replies: nat -> bool, n: nat) {
    forall i: nat | i < n :: !replies(i)
  }

  lemma NoFailureYet(replies: nat -> bool)
    ensures AllFail(replies, 0)
  {
  }

  lemma OneMoreFailure(replies: nat -> bool, n: nat)
    requires AllFail(replies, n) && !replies(n)
    ensures AllFail(replies, n + 1)
  {
  }

  lemma NoAttemptYet(t: RouterTables, q: Request)
    ensures Attempts(t, q, [])
  {
  }

  lemma OneMoreAttempt(t: RouterTables, q: Request, tried: seq<Endpoint>, d: Endpoint)
    requires Attempts(t, q, tried) && Picks(t, q, d) && d !in tried
    ensures Attempts(t, q, tried + [d])
  {
  }

  lemma {:induction false} AtMostListed(t: Table, l: Lambda, tried: seq<Endpoint>)
    requires forall i | 0 <= i < |tried| :: (l, tried[i]) in t
    requires forall i, j | 0 <= i < j < |tried| :: tried[i] != tried[j]
    ensures |tried| <= |t|
  {
    if tried != [] {
      var last := tried[|tried| - 1];
      var rest := t - {(l, last)};
      assert rest.Keys == t.Keys - {(l, last)};
      assert |rest.Keys| == |t.Keys| - 1;
      AtMostListed(rest, l, tried[..|tried| - 1]);
    }
  }

  lemma AttemptsEnd(t: RouterTables, q: Request, tried: seq<Endpoint>)
    requires Attempts(t, q, tried)
    ensures |tried| <= |Selected(t, q)|
  {
    AtMostListed(Selected(t, q), q.name, tried);
  }

  class EdgeRouter {
    const overall: ForwardingTable
    const final: ForwardingTable

    constructor ()
      ensures fresh(overall) && fresh(final) && overall != final
      ensures Tables() == NoRoutes
    {
      overall := new ForwardingTable();
      final := new ForwardingTable();
    }

    ghost function Tables(): RouterTables
      reads this, overall, final
    {
      RouterTables(overall.View(), final.View())
    }

    method Destination(q: Request) returns (d: Option<Endpoint>)
      ensures d.None? <==> forall x :: !Picks(Tables(), q, x)
      ensures d.Some? ==> Picks(Tables(), q, d.value)
    {
      hide Flat;
      if q.forward {
        d := final.Lookup(q.name);
        assert forall x :: Picks(Tables(), q, x) <==> Offers(final.View(), q.name, x);
      } else {
        d := overall.Lookup(q.name);
        assert forall x :: Picks(Tables(), q, x) <==> Offers(overall.View(), q.name, x);
      }
    }

    method ProcessFailure(q: Request, d: Endpoint)
      requires overall != final
      modifies overall, final
      ensures Tables() == Apply(old(Tables()), Remove(q.name, d))
    {
      overall.Remove(q.name, d);
      final.Remove(q.name, d);
    }

    /** The n-th attempt of this request succeeds when replies(n). The request fails only if it has
        looped, or once every destination of the selected table has been tried and has failed;
        the destinations that failed, and only those, are purged from both tables. */
    method Process(q: Request, replies: nat -> bool) returns (r: Result<Endpoint>, tried: seq<Endpoint>)
      requires overall != final
      modifies overall, final
      ensures Attempts(old(Tables()), q, tried)
      ensures r.Ok? ==> |tried| > 0 && r.value == tried[|tried| - 1] && replies(|tried| - 1)
                        && AllFail(replies, |tried| - 1)
                        && Tables() == Purged(old(Tables()), q.name, tried[..|tried| - 1])
      ensures r.Err? ==> AllFail(replies, |tried|)
                         && Tables() == Purged(old(Tables()), q.name, tried)
                         && if q.hops > 254 then tried == [] else forall d | Picks(old(Tables()), q, d) :: d in tried
    {
      hide Attempts, Picks, EdgeRouter.Tables, Apply, AllFail, Purged, Selected;
      tried := [];
      ghost var t0 := Tables();
      NothingPurged(t0, q.name);
      NoAttemptYet(t0, q);
      NoFailureYet(replies);
      while true
        invariant Tables() == Purged(t0, q.name, tried)
        invariant Attempts(t0, q, tried) && AllFail(replies, |tried|)
        invariant q.hops > 254 ==> tried == []
        decreases |Selected(t0, q)| - |tried|
      {
        if q.hops > 254 { return Err("loop detected"), tried; }
        var d := Destination(q);
        forall x ensures Picks(Tables(), q, x) <==> Picks(t0, q, x) && x !in tried {
          PurgedContents(t0, q.name, tried, q, x);
        }
        if d.None? { return Err("no destinations"), tried; }
        OneMoreAttempt(t0, q, tried, d.value);
        ghost var before := tried;
        OnePurgedMore(t0, q.name, before, d.value);
        tried := tried + [d.value];
        AttemptsEnd(t0, q, tried);
        if replies(|tried| - 1) { return Ok(d.value), tried; }
        OneMoreFailure(replies, |before|);
        ProcessFailure(q, d.value);
      }
    }
  }

  // --- from router to router ---

  /** path lists the destinations picked one after the other, starting at router r. */
  ghost predicate Route(routers: map<Endpoint, Endpoint>, tables: map<Endpoint, RouterTables>, r: Endpoint, q: Request, path: seq<Endpoint>)
    decreases |path|
  {
    && path != [] && r in routers && routers[r] in tables
    && Picks(tables[routers[r]], q, path[0])
    && (|path| > 1 ==> Route(routers, tables, path[0], q.Relayed(), path[1..]))
  }

  /** Wherever a client enters and whatever each table picks, a request for an offered lambda is
      never without a destination, meets at most two routers, and ends on a computer offering it. */
  lemma AtMostTwoRouters(ctl: Controller, r: Endpoint, l: Lambda, path: seq<Endpoint>)
    requires ctl.Inv() && Route(ctl.routers, ctl.net.tables, r, Request(l, false, 0), path)
    ensures |path| <= 2
    ensures var last := path[|path| - 1];
            if last in ctl.routers then
              |path| == 1 && ctl.routers[last] in ctl.net.tables
              && exists d :: Picks(ctl.net.tables[ctl.routers[last]], Request(l, false, 0).Relayed(), d)
            else
              last in ctl.computers && l in LambdaNames(ctl.computers[last])
  {
    var q := Request(l, false, 0);
    PickIsExact(ctl, r, q, path[0]);
    if path[0] in ctl.routers {
      HomeKnowsTheLambda(ctl, path[0], q.Relayed());
    }
    if |path| > 1 {
      RelayedEndsHere(ctl, path[0], q.Relayed(), path[1..]);
    }
  }

  lemma HomeKnowsTheLambda(ctl: Controller, h: Endpoint, q: Request)
    requires ctl.Inv() && h in ctl.routers && q.forward && Served(ctl.announced, h, q.name) != {}
    ensures ctl.routers[h] in ctl.net.tables && exists d :: Picks(ctl.net.tables[ctl.routers[h]], q, d)
  {
    var c :| c in Served(ctl.announced, h, q.name);
    var t := ctl.net.tables[ctl.routers[h]];
    assert Exact(t, ctl.announced, h);
    assert ExactKey(t, ctl.announced, h, (q.name, c));
    assert Picks(t, q, c);
  }

  /** A relayed request consults the final table only, so its next destination is a computer. */
  lemma RelayedEndsHere(ctl: Controller, r: Endpoint, q: Request, path: seq<Endpoint>)
    requires ctl.Inv() && q.forward && Route(ctl.routers, ctl.net.tables, r, q, path)
    ensures |path| == 1 && path[0] !in ctl.routers
    ensures path[0] in ctl.computers && q.name in LambdaNames(ctl.computers[path[0]])
  {
    PickIsExact(ctl, r, q, path[0]);
  }

  /** What a destination picked at r can be. */
  lemma PickIsExact(ctl: Controller, r: Endpoint, q: Request, d: Endpoint)
    requires ctl.Inv() && r in ctl.routers && ctl.routers[r] in ctl.net.tables && Picks(ctl.net.tables[ctl.routers[r]], q, d)
    ensures d in ctl.computers ==> d !in ctl.routers
    ensures if d in ctl.routers then !q.forward && d != r && Served(ctl.announced, d, q.name) != {}
            else d in ctl.computers && q.name in LambdaNames(ctl.computers[d])
  {
    var ann := ctl.announced;
    assert Exact(ctl.net.tables[ctl.routers[r]], ann, r);
    assert ExactKey(ctl.net.tables[ctl.routers[r]], ann, r, (q.name, d));
    if d in Served(ann, r, q.name) {
      assert MayServe(ctl.topology, ctl.objective, ctl.computers, ctl.routers, ctl.routerAddresses.Keys, r, q.name, d);
    } else {
      HomesAreKnown(ctl.topology, ctl.objective, ctl.computers, ctl.routers, ctl.routerAddresses.Keys, ann);
    }
  }

  /** A client may enter at any known router. */
  lemma EveryRouterKnowsTheLambda(ctl: Controller, r: Endpoint, l: Lambda, provider: Endpoint)
    requires ctl.Inv() && r in ctl.routers && provider in ctl.computers && l in LambdaNames(ctl.computers[provider])
    ensures ctl.routers[r] in ctl.net.tables
    ensures exists d :: Picks(ctl.net.tables[ctl.routers[r]], Request(l, false, 0), d)
  {
    assert ctl.Reached(provider);
    var h :| provider in Served(ctl.announced, h, l);
    var t := ctl.net.tables[ctl.routers[r]];
    var d := if h == r then provider else h;
    assert Exact(t, ctl.announced, r);
    assert ExactKey(t, ctl.announced, r, (l, d));
    assert Picks(t, Request(l, false, 0), d);
  }

  // --- a router that purges a destination and reports it to the controller ---

  /** What is in the tables belongs there, though something may be missing. */
  ghost predicate NothingWrong(t: RouterTables, ann: Announced, r: Endpoint) {
    forall k: Key | k in t.overall || k in t.final :: ExactKey(t, ann, r, k)
  }

  /** Router r needs the entry (l, d): d is a computer it serves, or another home of the lambda. */
  ghost predicate CalledFor(ann: Announced, r: Endpoint, l: Lambda, d: Endpoint) {
    d in Served(ann, r, l) || (d != r && Served(ann, d, l) != {})
  }

  lemma PresentIsCalledFor(t: RouterTables, ann: Announced, r: Endpoint, l: Lambda, d: Endpoint)
    requires NothingWrong(t, ann, r)
    ensures (l, d) in t.overall || (l, d) in t.final ==> CalledFor(ann, r, l, d)
    ensures (l, d) in t.final ==> d in Served(ann, r, l)
  {
    if (l, d) in t.overall || (l, d) in t.final {
      assert ExactKey(t, ann, r, (l, d));
    }
  }

  /** Tables from which an entry has been purged are exact if and only if they were before and the entry was not called for. */
  lemma PurgedIsExactIff(t: RouterTables, ann: Announced, r: Endpoint, l: Lambda, d: Endpoint)
    requires NothingWrong(t, ann, r)
    ensures Exact(Apply(t, Remove(l, d)), ann, r) <==> Exact(t, ann, r) && !CalledFor(ann, r, l, d)
  {
    var after := Apply(t, Remove(l, d));
    PresentIsCalledFor(t, ann, r, l, d);
    if Exact(after, ann, r) {
      assert ExactKey(after, ann, r, (l, d));
      assert after.overall == t.overall && after.final == t.final;
    }
    if Exact(t, ann, r) && !CalledFor(ann, r, l, d) {
      assert ExactKey(t, ann, r, (l, d));
      assert after.overall == t.overall && after.final == t.final;
    }
  }

  /** Once a home has been purged, clients at router r still get somewhere if and only if r or another router is home of the lambda. */
  lemma PurgedStillOffersIff(t: RouterTables, ann: Announced, r: Endpoint, l: Lambda, d: Endpoint)
    requires Exact(t, ann, r) && d != r && forall h :: d !in Served(ann, h, l)
    ensures (exists x :: Picks(Apply(t, Remove(l, d)), Request(l, false, 0), x)) <==> exists h :: h != d && Served(ann, h, l) != {}
  {
    var (after, q) := (Apply(t, Remove(l, d)), Request(l, false, 0));
    if x :| Picks(after, q, x) {
      assert ExactKey(t, ann, r, (l, x));
      if x in Served(ann, r, l) {
        assert Served(ann, r, l) != {};
      }
    }
    if h :| h != d && Served(ann, h, l) != {} {
      var c :| c in Served(ann, h, l);
      var x := if h == r then c else h;
      assert ExactKey(t, ann, r, (l, x));
      assert Picks(after, q, x);
    }
  }

  /** No router serves d. */
  ghost predicate Unserved(ann: Announced, d: Endpoint) {
    forall r, m :: d !in Served(ann, r, m)
  }

  /** All tables are exact, but for entries that may be missing at the router with server e. */
  ghost predicate Lean(routers: map<Endpoint, Endpoint>, tables: map<Endpoint, RouterTables>, ann: Announced, e: Endpoint) {
    forall r | r in routers ::
      routers[r] in tables && (if routers[r] == e then NothingWrong(tables[e], ann, r) else Exact(tables[routers[r]], ann, r))
  }

  lemma ExactIsLean(routers: map<Endpoint, Endpoint>, tables: map<Endpoint, RouterTables>, ann: Announced, e: Endpoint)
    requires AllExact(routers, tables, ann)
    ensures Lean(routers, tables, ann, e)
  {
    forall r | r in routers && routers[r] == e ensures NothingWrong(tables[e], ann, r) {
      assert Exact(tables[e], ann, r);
    }
  }

  lemma PurgeKeepsLean(routers: map<Endpoint, Endpoint>, tables: map<Endpoint, RouterTables>, ann: Announced, e: Endpoint, l: Lambda, d: Endpoint)
    requires Lean(routers, tables, ann, e) && e in tables
    ensures Lean(routers, tables[e := Apply(tables[e], Remove(l, d))], ann, e)
  {
    hide Exact;
    var after := Apply(tables[e], Remove(l, d));
    forall r | r in routers && routers[r] == e ensures NothingWrong(after, ann, r) {
      forall k: Key | k in after.overall || k in after.final ensures ExactKey(after, ann, r, k) {
        assert ExactKey(tables[e], ann, r, k);
      }
    }
  }

  /** A destination that lean tables offer is called for; a relayed request is offered served ones only. */
  lemma PickedIsCalledFor(t: RouterTables, ann: Announced, r: Endpoint, q: Request, d: Endpoint)
    requires NothingWrong(t, ann, r) && Picks(t, q, d)
    ensures CalledFor(ann, r, q.name, d) && (q.forward ==> d in Served(ann, r, q.name))
  {
    PresentIsCalledFor(t, ann, r, q.name, d);
  }

  /** After the purge of an offered destination all tables are exact if and only if no known router has server e. */
  lemma PurgedLeanIsExactIff(routers: map<Endpoint, Endpoint>, tables: map<Endpoint, RouterTables>, ann: Announced, e: Endpoint, q: Request, d: Endpoint)
    requires Lean(routers, tables, ann, e) && e in tables && Picks(tables[e], q, d)
    ensures AllExact(routers, tables[e := Apply(tables[e], Remove(q.name, d))], ann) <==> e !in routers.Values
  {
    hide Exact, NothingWrong, Picks, CalledFor, Apply;
    var after := tables[e := Apply(tables[e], Remove(q.name, d))];
    if r :| r in routers && routers[r] == e {
      PickedIsCalledFor(tables[e], ann, r, q, d);
      PurgedIsExactIff(tables[e], ann, r, q.name, d);
      assert !Exact(after[routers[r]], ann, r);
    }
  }

  /**
   * A destination that has failed is purged by the router with server e, and then reported as a
   * computer to be removed. If the controller serves it, everything is rebuilt exactly, whatever
   * the purge has left; if not, only this router's tables differ from before.
   */
  method Report(ctl: Controller, e: Endpoint, l: Lambda, d: Endpoint)
    requires ctl.Steady() && e in ctl.net.servers
    modifies ctl, ctl.net
    ensures ctl.Steady() && ctl.computers == old(ctl.computers) - {d} && ctl.routers.Keys <= old(ctl.routers).Keys
    ensures !Unserved(old(ctl.announced), d) ==> ctl.Inv()
    ensures Unserved(old(ctl.announced), d) ==>
      ctl.routers == old(ctl.routers) && ctl.announced == old(ctl.announced) &&
      ctl.net.tables == old(ctl.net.tables)[e := Apply(old(ctl.net.tables)[e], Remove(l, d))]
  {
    hide DistinctRoles, InverseAddresses, RightAnswers, AllExact, AllSound, Covered, InverseIndex, Apply;
    ctl.net.Purge(e, l, d);
    ctl.RemoveComputer(d);
    SurvivorsAreKnown(old(ctl.routers), old(ctl.net.failures), ctl.routers, ctl.net.failures);
  }

  /** A failed computer is gone for the controller; any other destination leaves one entry less to try. */
  lemma FewerEntries(t: RouterTables, q: Request, d: Endpoint)
    requires Picks(t, q, d)
    ensures |Selected(Apply(t, Remove(q.name, d)), q)| < |Selected(t, q)|
  {
    var (m, n) := (Selected(t, q), Selected(Apply(t, Remove(q.name, d)), q));
    assert n == m - {(q.name, d)};
    assert n.Keys == m.Keys - {(q.name, d)};
    assert |n.Keys| == |m.Keys| - 1;
  }

  lemma UnknownIsNotServed(ctl: Controller, d: Endpoint)
    requires ctl.Steady() && d !in ctl.computers
    ensures Unserved(ctl.announced, d)
  {
    hide MayServe;
    NotServed(ctl.topology, ctl.objective, ctl.computers, ctl.routers, ctl.routerAddresses.Keys, ctl.announced, d);
  }

  /** Computers are served, routers are not, and a home is a known router. */
  lemma ServedOrRouter(ctl: Controller, d: Endpoint)
    requires ctl.Steady()
    ensures d in ctl.routers ==> Unserved(ctl.announced, d)
    ensures forall l | Served(ctl.announced, d, l) != {} :: d in ctl.routers
  {
    hide MayServe, DistinctRoles, AllSound;
    if d in ctl.routers {
      NoRouterIsServed(ctl.topology, ctl.objective, ctl.net.servers, ctl.computers, ctl.routers, ctl.routerAddresses.Keys, ctl.announced, d);
    }
    HomesAreKnown(ctl.topology, ctl.objective, ctl.computers, ctl.routers, ctl.routerAddresses.Keys, ctl.announced);
  }

  /** At a known router a destination that is not served is another known router, and the request is not a relayed one. */
  lemma UnservedIsRouter(ctl: Controller, e: Endpoint, q: Request, d: Endpoint)
    requires ctl.Steady() && Lean(ctl.routers, ctl.net.tables, ctl.announced, e) && e in ctl.net.tables
    requires Picks(ctl.net.tables[e], q, d) && Unserved(ctl.announced, d) && e in ctl.routers.Values
    ensures d in ctl.routers && !q.forward
  {
    hide Controller.Steady, Picks, NothingWrong, Exact;
    ServedOrRouter(ctl, d);
    var r :| r in ctl.routers && ctl.routers[r] == e;
    PickedIsCalledFor(ctl.net.tables[e], ctl.announced, r, q, d);
  }

  /** Whether a failure leaves exact tables: no known router has server e, or the report got through and was not about a router. */
  ghost predicate Mended(routers: map<Endpoint, Endpoint>, e: Endpoint, reached: bool, d: Endpoint) {
    e !in routers.Values || (reached && d !in routers)
  }

  /**
   * A failed destination is purged and, unless the controller cannot be reached, reported to it.
   * There is a computer less to try then, or an entry less.
   */
  method GiveUpOn(ctl: Controller, e: Endpoint, q: Request, d: Endpoint, reached: bool)
    requires ctl.Steady() && e in ctl.net.servers && e in ctl.net.tables && Picks(ctl.net.tables[e], q, d)
    modifies ctl, ctl.net
    ensures ctl.Steady() && e in ctl.net.tables && ctl.computers == if reached then old(ctl.computers) - {d} else old(ctl.computers)
    ensures old(Lean(ctl.routers, ctl.net.tables, ctl.announced, e)) ==> Lean(ctl.routers, ctl.net.tables, ctl.announced, e)
    ensures old(Lean(ctl.routers, ctl.net.tables, ctl.announced, e)) ==> (ctl.InStep() <==> Mended(ctl.routers, e, reached, d))
    ensures old(Lean(ctl.routers, ctl.net.tables, ctl.announced, e)) && q.forward && reached ==> ctl.InStep()
    ensures if reached && d in old(ctl.computers) then |ctl.computers| < |old(ctl.computers)|
            else ctl.computers == old(ctl.computers) && |Selected(ctl.net.tables[e], q)| < |Selected(old(ctl.net.tables)[e], q)|
  {
    hide Controller.Steady, AllExact, Lean, Apply, Unserved, Picks, Selected;
    FewerEntries(ctl.net.tables[e], q, d);
    OneLess(ctl.computers, d);
    ServedOrRouter(ctl, d);
    ghost var lean := Lean(ctl.routers, ctl.net.tables, ctl.announced, e);
    if lean {
      PurgeKeepsLean(ctl.routers, ctl.net.tables, ctl.announced, e, q.name, d);
      PurgedLeanIsExactIff(ctl.routers, ctl.net.tables, ctl.announced, e, q, d);
      if Unserved(ctl.announced, d) && e in ctl.routers.Values { UnservedIsRouter(ctl, e, q, d); }
    }
    if reached {
      if d !in ctl.computers { UnknownIsNotServed(ctl, d); }
      ghost var served := !Unserved(ctl.announced, d);
      Report(ctl, e, q.name, d);
      if served { ExactIsLean(ctl.routers, ctl.net.tables, ctl.announced, e); }
    } else {
      PurgeOnly(ctl, e, q.name, d);
    }
    TablesThere(ctl, e);
  }

  /** The router changes its own tables, and the controller does not hear of it. */
  method PurgeOnly(ctl: Controller, e: Endpoint, l: Lambda, d: Endpoint)
    requires ctl.Steady() && e in ctl.net.servers
    modifies ctl.net
    ensures ctl.Steady() && e in old(ctl.net.tables) && ctl.net.tables == old(ctl.net.tables)[e := Apply(old(ctl.net.tables)[e], Remove(l, d))]
  {
    hide DistinctRoles, InverseAddresses, RightAnswers, AllSound, Covered, InverseIndex, Apply;
    ctl.net.Purge(e, l, d);
  }

  /**
   * Tables that were exact are exact after these failures if and only if there is none, or the last
   * one has left exact tables; for a relayed request it is enough that it was reported.
   */
  ghost predicate Outcome(exact: bool, routers: map<Endpoint, Endpoint>, e: Endpoint, q: Request, failed: seq<Endpoint>, reaches: nat -> bool) {
    (exact <==> failed == [] || Mended(routers, e, reaches(|failed| - 1), failed[|failed| - 1])) &&
    (q.forward && (failed == [] || reaches(|failed| - 1)) ==> exact)
  }

  lemma FirstOutcome(routers: map<Endpoint, Endpoint>, e: Endpoint, q: Request, reaches: nat -> bool)
    ensures Outcome(true, routers, e, q, [], reaches)
  {}

  lemma NextOutcome(exact: bool, routers: map<Endpoint, Endpoint>, e: Endpoint, q: Request, failed: seq<Endpoint>, reaches: nat -> bool, d: Endpoint)
    requires exact <==> Mended(routers, e, reaches(|failed|), d)
    requires q.forward && reaches(|failed|) ==> exact
    ensures Outcome(exact, routers, e, q, failed + [d], reaches)
  {
    assert (failed + [d])[|failed|] == d;
  }

  /**
   * The whole loop at the router with server e, towards a controller that hears of the n-th
   * failure when reaches(n): it ends although every rebuild may install destinations again,
   * since a computer that is reported is removed for good. It gives up only when the request has
   * looped or no destination is left.
   */
  method ProcessAndReport(ctl: Controller, e: Endpoint, q: Request, replies: nat -> bool, reaches: nat -> bool)
      returns (r: Result<Endpoint>, failed: seq<Endpoint>)
    requires ctl.Steady() && e in ctl.net.servers
    modifies ctl, ctl.net
    ensures ctl.Steady() && e in ctl.net.tables
    ensures old(ctl.Inv()) ==> Outcome(ctl.Inv(), ctl.routers, e, q, failed, reaches)
    ensures AllFail(replies, |failed|) && Removed(old(ctl.computers), ctl.computers, failed, reaches)
    ensures r.Ok? ==> replies(|failed|) && Picks(ctl.net.tables[e], q, r.value)
    ensures r.Err? ==> q.hops > 254 || forall d :: !Picks(ctl.net.tables[e], q, d)
  {
    hide Controller.Steady, Controller.InStep, AllFail, Apply, Unserved, Selected, Picks, Removed, Lean, Outcome;
    failed := [];
    FirstOutcome(ctl.routers, e, q, reaches);
    NoFailureYet(replies);
    NoneRemoved(ctl.computers, reaches);
    TablesThere(ctl, e);
    ghost var exact := ctl.Inv();
    if exact { InvIsLean(ctl, e); }
    while true
      invariant ctl.Steady() && e in ctl.net.servers && e in ctl.net.tables
      invariant exact ==> Lean(ctl.routers, ctl.net.tables, ctl.announced, e) && Outcome(ctl.InStep(), ctl.routers, e, q, failed, reaches)
      invariant AllFail(replies, |failed|) && Removed(old(ctl.computers), ctl.computers, failed, reaches)
      decreases |ctl.computers|, |Selected(ctl.net.tables[e], q)|
    {
      if q.hops > 254 { return Err("loop detected"), failed; }
      var table := Selected(ctl.net.tables[e], q);
      if k :| k in table && k.0 == q.name {
        var d := k.1;
        IsPicked(ctl.net.tables[e], q, d);
        if replies(|failed|) { return Ok(d), failed; }
        OneMoreFailure(replies, |failed|);
        OneMoreRemoved(old(ctl.computers), ctl.computers, failed, reaches, d);
        GiveUpOn(ctl, e, q, d, reaches(|failed|));
        if exact { NextOutcome(ctl.InStep(), ctl.routers, e, q, failed, reaches, d); }
        failed := failed + [d];
      } else {
        forall d ensures !Picks(ctl.net.tables[e], q, d) { IsPicked(ctl.net.tables[e], q, d); }
        return Err("no destinations"), failed;
      }
    }
  }

  lemma InvIsLean(ctl: Controller, e: Endpoint)
    requires ctl.Inv()
    ensures Lean(ctl.routers, ctl.net.tables, ctl.announced, e)
  {
    ExactIsLean(ctl.routers, ctl.net.tables, ctl.announced, e);
  }

  /** The failure of c has been reported. */
  ghost predicate Reported(failed: seq<Endpoint>, reaches: nat -> bool, c: Endpoint) {
    exists i: nat :: i < |failed| && failed[i] == c && reaches(i)
  }

  /** Exactly the computers reported as failed are gone. */
  ghost predicate Removed<T(!new)>(all: map<Endpoint, T>, now: map<Endpoint, T>, failed: seq<Endpoint>, reaches: nat -> bool) {
    forall c :: (c in now <==> c in all && !Reported(failed, reaches, c)) && (c in now ==> now[c] == all[c])
  }

  lemma NoneRemoved<T(!new)>(m: map<Endpoint, T>, reaches: nat -> bool)
    ensures Removed(m, m, [], reaches)
  {}

  lemma OneMoreRemoved<T(!new)>(all: map<Endpoint, T>, now: map<Endpoint, T>, failed: seq<Endpoint>, reaches: nat -> bool, d: Endpoint)
    requires Removed(all, now, failed, reaches)
    ensures Removed(all, if reaches(|failed|) then now - {d} else now, failed + [d], reaches)
  {
    var more := failed + [d];
    forall c ensures Reported(more, reaches, c) <==> Reported(failed, reaches, c) || (c == d && reaches(|failed|)) {
      if i: nat :| i < |failed| && failed[i] == c && reaches(i) {
        assert more[i] == c;
      }
      if c == d && reaches(|failed|) {
        assert more[|failed|] == c;
      }
    }
    hide Reported;
  }

  lemma IsPicked(t: RouterTables, q: Request, d: Endpoint)
    ensures Picks(t, q, d) <==> (q.name, d) in Selected(t, q)
  {}

  lemma TablesThere(ctl: Controller, e: Endpoint)
    requires ctl.Steady() && e in ctl.net.servers
    ensures e in ctl.net.tables
  {}

  lemma OneLess<T>(m: map<Endpoint, T>, d: Endpoint)
    ensures if d in m then |m - {d}| < |m| else m - {d} == m
  {
    if d in m {
      assert (m - {d}).Keys == m.Keys - {d};
      assert |(m - {d}).Keys| == |m.Keys| - 1;
    }
  }
}
