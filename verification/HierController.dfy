/** The controller with hierarchical routing: every router's forwarding tables are kept in step
    with the announced computers, whichever calls towards the routers fail. */
module HierController {
  import opened Lists
  import opened Wrappers
  import opened StringOrder
  import opened NetworkTopology
  import opened ForwardingTables
  import opened Announcements

  /** One entry of a ContainerList. */
  datatype Container = Container(name: string, processor: string, lambda: Lambda, numWorkers: nat)

  function LambdaNames(cs: seq<Container>): (ls: seq<Lambda>)
    ensures |ls| == |cs| && forall i | 0 <= i < |cs| :: ls[i] == cs[i].lambda
  {
    seq(|cs|, i requires 0 <= i < |cs| => cs[i].lambda)
  }

  /** Position of the first colon, or |s| if there is none. */
  function FirstColon(s: string): (i: nat)
    ensures i <= |s| && (i < |s| ==> s[i] == ':') && forall j | 0 <= j < i :: s[j] != ':'
  {
    if s == [] || s[0] == ':' then 0 else 1 + FirstColon(s[1..])
  }

  /** The address part of address:port; None stands for the invalid end-point exception. */
  function AddressOf(e: Endpoint): Option<string> {
    var i := FirstColon(e);
    if i == |e| || i == 0 || i == |e| - 1 then None else Some(e[..i])
  }

  lemma {:induction false} FirstColonIs(a: string, port: string)
    requires ':' !in a
    ensures FirstColon(a + ":" + port) == |a| && FirstColon(a) == |a|
  {
    if a != [] {
      FirstColonIs(a[1..], port);
      assert (a + ":" + port)[1..] == a[1..] + ":" + port;
    }
  }

  /** An end-point has the address before its first colon, if neither the address nor the port is empty, and none without a colon. */
  lemma AddressOfIs(a: string, port: string)
    requires ':' !in a
    ensures AddressOf(a + ":" + port) == if a != [] && port != [] then Some(a) else None
    ensures AddressOf(a) == None
  {
    FirstColonIs(a, port);
    assert (a + ":" + port)[..|a|] == a;
  }

  /** The routers' forwarding table servers, as seen through the installer calls. Whether the n-th
      call succeeds, and what a failed call leaves behind, is given by arbitrary functions.
      A call to an end-point that is not a forwarding table server always fails. */
  class Network {
    const servers: set<Endpoint>
    const answers: nat -> bool
    const garbled: nat -> RouterTables
    var calls: nat
    var tables: map<Endpoint, RouterTables>
    var failures: seq<Endpoint>

    ghost predicate Valid()
      reads this
    {
      tables.Keys == servers && "" !in servers
    }

    constructor (tables: map<Endpoint, RouterTables>, answers: nat -> bool, garbled: nat -> RouterTables)
      requires "" !in tables
      ensures Valid() && failures == [] && this.tables == tables
    {
      this.servers := tables.Keys;
      this.answers := answers;
      this.garbled := garbled;
      this.calls := 0;
      this.tables := tables;
      this.failures := [];
    }

    ghost predicate Delivers(e: Endpoint)
      reads this
    {
      e in servers && answers(calls)
    }

    method Send(e: Endpoint, update: RouterTables -> RouterTables) returns (ok: bool)
      requires Valid()
      modifies this
      ensures Valid() && calls == old(calls) + 1
      ensures ok == old(Delivers(e))
      ensures ok ==> tables == old(tables)[e := update(old(tables)[e])] && failures == old(failures)
      ensures !ok ==> failures == old(failures) + [e]
                      && forall x | x in tables && x != e :: tables[x] == old(tables)[x]
    {
      ok := e in servers && answers(calls);
      if ok {
        tables := tables[e := update(tables[e])];
      } else {
        if e in servers {
          tables := tables[e := garbled(calls)];
        }
        failures := failures + [e];
      }
      calls := calls + 1;
    }

    method ChangeRoutes(e: Endpoint, lambdas: seq<Lambda>, d: Endpoint, f: bool) returns (ok: bool)
      requires Valid()
      modifies this
      ensures Valid() && (ok ==> e in servers)
      ensures ok ==> tables == old(tables)[e := ChangeAll(old(tables)[e], lambdas, d, f)] && failures == old(failures)
      ensures !ok ==> failures == old(failures) + [e]
                      && forall x | x in tables && x != e :: tables[x] == old(tables)[x]
    {
      ok := Send(e, t => ChangeAll(t, lambdas, d, f));
    }

    method RemoveRoutes(e: Endpoint, d: Endpoint, l: Lambda) returns (ok: bool)
      requires Valid()
      modifies this
      ensures Valid() && (ok ==> e in servers)
      ensures ok ==> tables == old(tables)[e := Apply(old(tables)[e], Remove(l, d))] && failures == old(failures)
      ensures !ok ==> failures == old(failures) + [e]
                      && forall x | x in tables && x != e :: tables[x] == old(tables)[x]
    {
      ok := Send(e, t => Apply(t, Remove(l, d)));
    }

    method FlushRoutes(e: Endpoint) returns (ok: bool)
      requires Valid()
      modifies this
      ensures Valid() && (ok ==> e in servers)
      ensures ok ==> tables == old(tables)[e := NoRoutes] && failures == old(failures)
      ensures !ok ==> failures == old(failures) + [e]
                      && forall x | x in tables && x != e :: tables[x] == old(tables)[x]
    {
      ok := Send(e, t => Apply(t, Flush));
    }

    /** A router removes a destination from its own tables. */
    method Purge(e: Endpoint, l: Lambda, d: Endpoint)
      requires Valid() && e in servers
      modifies this`tables
      ensures Valid() && tables == old(tables)[e := Apply(old(tables)[e], Remove(l, d))]
    {
      tables := tables[e := Apply(tables[e], Remove(l, d))];
    }
  }

  /** The routers left of rs once those with a failed call have been dropped. */
  function Survivors(rs: map<Endpoint, Endpoint>, failed: seq<Endpoint>): map<Endpoint, Endpoint> {
    map r | r in rs && r !in failed && rs[r] !in failed :: rs[r]
  }

  /** Between two points of a run, exactly the routers with a failed call have been dropped.
      The logs are those of the failed calls at either point. */
  ghost predicate LostOnly(rs: map<Endpoint, Endpoint>, log: seq<Endpoint>, rs': map<Endpoint, Endpoint>, log': seq<Endpoint>) {
    log <= log' && rs' == Survivors(rs, log'[|log|..])
  }

  lemma LogGrows(rs: map<Endpoint, Endpoint>, log: seq<Endpoint>, rs': map<Endpoint, Endpoint>, log': seq<Endpoint>)
    requires LostOnly(rs, log, rs', log')
    ensures log <= log'
  {
  }

  lemma LostNone(rs: map<Endpoint, Endpoint>, log: seq<Endpoint>)
    ensures LostOnly(rs, log, rs, log)
  {
    assert log[|log|..] == [];
  }

  lemma LostOne(rs: map<Endpoint, Endpoint>, log: seq<Endpoint>, e: Endpoint)
    ensures LostOnly(rs, log, Survivors(rs, [e]), log + [e])
  {
    assert (log + [e])[|log|..] == [e];
  }

  lemma LostThen(rs0: map<Endpoint, Endpoint>, log0: seq<Endpoint>, rs1: map<Endpoint, Endpoint>, log1: seq<Endpoint>,
                 rs2: map<Endpoint, Endpoint>, log2: seq<Endpoint>)
    requires LostOnly(rs0, log0, rs1, log1) && LostOnly(rs1, log1, rs2, log2)
    ensures LostOnly(rs0, log0, rs2, log2)
    ensures rs2.Keys <= rs0.Keys
  {
    var (f1, f2) := (log1[|log0|..], log2[|log1|..]);
    assert log2[|log0|..] == f1 + f2;
    assert Survivors(Survivors(rs0, f1), f2) == Survivors(rs0, f1 + f2);
  }

  /** A router whose call has been logged as failed is gone at the end. */
  lemma LostIsGone(rs: map<Endpoint, Endpoint>, log: seq<Endpoint>, r: Endpoint, rs': map<Endpoint, Endpoint>, log': seq<Endpoint>)
    requires LostOnly(rs, log, rs', log') && log + [r] <= log'
    ensures r !in rs'
  {
    assert log'[|log|..][0] == r;
  }

  lemma SurvivorsAreKnown(rs: map<Endpoint, Endpoint>, log: seq<Endpoint>, rs': map<Endpoint, Endpoint>, log': seq<Endpoint>)
    requires LostOnly(rs, log, rs', log')
    ensures rs'.Keys <= rs.Keys
  {
  }

  lemma {:induction false} FewerKeys(a: set<Endpoint>, b: set<Endpoint>)
    requires a <= b
    ensures |a| <= |b|
  {
    if a != {} {
      var x :| x in a;
      FewerKeys(a - {x}, b - {x});
    }
  }

  /** An entry of the list of removals to be sent: the router to be blamed if the call fails,
      the end-point called, the destination and the lambda to be removed. */
  datatype RemoveElem = RemoveElem(processor: Endpoint, server: Endpoint, edgeServer: Endpoint, lambda: Lambda)

  // --- what the fields of the controller must satisfy, as statements about values ---

  ghost predicate Located(t: Topology, e: Endpoint) {
    AddressOf(e).Some? && AddressOf(e).value in t.names
  }

  /** End-points play one role each: computer, router, or forwarding table server of one router. */
  ghost predicate DistinctRoles(t: Topology, servers: set<Endpoint>, computers: map<Endpoint, seq<Container>>,
                                routers: map<Endpoint, Endpoint>) {
    && (forall r | r in routers :: Located(t, r) && r !in computers && r !in servers && r !in routers.Values)
    && (forall r, s | r in routers && s in routers && routers[r] == routers[s] :: r == s)
    && (forall c | c in computers :: Located(t, c))
  }

  /** The map from addresses to routers is the inverse of AddressOf on the known routers. */
  ghost predicate InverseAddresses(t: Topology, routers: map<Endpoint, Endpoint>, addresses: map<string, seq<Endpoint>>) {
    && (forall r | r in routers :: AddressOf(r).Some? && AddressOf(r).value in addresses && r in addresses[AddressOf(r).value])
    && (forall a | a in addresses :: addresses[a] != [] && a in t.names && NoDuplicates(addresses[a]))
    && (forall a, r | a in addresses && r in addresses[a] :: r in routers && AddressOf(r) == Some(a))
  }

  /** Every known router has a forwarding table server. */
  ghost predicate Connected(routers: map<Endpoint, Endpoint>, servers: set<Endpoint>) {
    forall r | r in routers :: routers[r] in servers
  }

  lemma OneServerEach(t: Topology, servers: set<Endpoint>, computers: map<Endpoint, seq<Container>>, routers: map<Endpoint, Endpoint>, h: Endpoint)
    requires DistinctRoles(t, servers, computers, routers) && h in routers
    ensures forall r | r in routers && r != h :: routers[r] != routers[h]
  {}

  lemma NothingToChange(tables: map<Endpoint, RouterTables>, d: Endpoint)
    ensures forall e | e in tables :: ChangeAll(tables[e], [], d, false) == tables[e]
  {}

  ghost predicate NoDuplicates(q: seq<Endpoint>) {
    forall i, j | 0 <= i < j < |q| :: q[i] != q[j]
  }

  /** Every cached answer of FindClosest is still right. */
  ghost predicate RightAnswers(t: Topology, o: Objective, addresses: set<string>, closest: map<string, string>) {
    forall a | a in closest :: IsClosest(t, o, addresses, a, closest[a])
  }

  /** Every known router holds exactly the entries that follow from what has been announced. */
  ghost predicate AllExact(routers: map<Endpoint, Endpoint>, tables: map<Endpoint, RouterTables>, ann: Announced) {
    forall r | r in routers :: routers[r] in tables && Exact(tables[routers[r]], ann, r)
  }

  /** r may be home of c for l: c offers l, and r is a known router at the address closest to c. */
  ghost predicate MayServe(t: Topology, o: Objective, computers: map<Endpoint, seq<Container>>,
                           routers: map<Endpoint, Endpoint>, addresses: set<string>, r: Endpoint, l: Lambda, c: Endpoint) {
    && r in routers && c in computers && l in LambdaNames(computers[c])
    && AddressOf(c).Some? && AddressOf(r).Some?
    && IsClosest(t, o, addresses, AddressOf(c).value, AddressOf(r).value)
  }

  ghost predicate AllSound(t: Topology, o: Objective, computers: map<Endpoint, seq<Container>>,
                           routers: map<Endpoint, Endpoint>, addresses: set<string>, ann: Announced) {
    && NoEmptySets(ann)
    && forall r, l, c | c in Served(ann, r, l) :: MayServe(t, o, computers, routers, addresses, r, l, c)
  }

  /** Every lambda of c is announced on some router. */
  ghost predicate Covered(computers: map<Endpoint, seq<Container>>, ann: Announced, c: Endpoint) {
    c in computers ==> forall l | l in LambdaNames(computers[c]) :: exists r :: c in Served(ann, r, l)
  }

  /** theLambdas is the inverse index of theComputers. */
  ghost predicate InverseIndex(lambdas: map<Lambda, set<Endpoint>>, computers: map<Endpoint, seq<Container>>) {
    && (forall l | l in lambdas :: lambdas[l] != {})
    && (forall l, c :: Indexes(lambdas, l, c) <==> (c in computers && l in LambdaNames(computers[c])))
  }

  ghost predicate Indexes(lambdas: map<Lambda, set<Endpoint>>, l: Lambda, c: Endpoint) {
    l in lambdas && c in lambdas[l]
  }

  /** One more computer for a lambda. */
  function Indexed(lambdas: map<Lambda, set<Endpoint>>, l: Lambda, c: Endpoint): map<Lambda, set<Endpoint>> {
    lambdas[l := (if l in lambdas then lambdas[l] else {}) + {c}]
  }

  /** One less; a lambda without computers goes away. */
  function Unindexed(lambdas: map<Lambda, set<Endpoint>>, l: Lambda, c: Endpoint): map<Lambda, set<Endpoint>> {
    if l !in lambdas then lambdas
    else
      var rest := lambdas[l] - {c};
      if rest == {} then lambdas - {l} else lambdas[l := rest]
  }

  lemma IndexStep(lambdas: map<Lambda, set<Endpoint>>, l: Lambda, c: Endpoint)
    requires forall m | m in lambdas :: lambdas[m] != {}
    ensures forall m | m in Indexed(lambdas, l, c) :: Indexed(lambdas, l, c)[m] != {}
    ensures forall m, x :: Indexes(Indexed(lambdas, l, c), m, x) <==> Indexes(lambdas, m, x) || (x == c && m == l)
  {}

  lemma UnindexStep(lambdas: map<Lambda, set<Endpoint>>, l: Lambda, c: Endpoint)
    requires forall m | m in lambdas :: lambdas[m] != {}
    ensures forall m | m in Unindexed(lambdas, l, c) :: Unindexed(lambdas, l, c)[m] != {}
    ensures forall m, x :: Indexes(Unindexed(lambdas, l, c), m, x) <==> Indexes(lambdas, m, x) && !(x == c && m == l)
  {
    if l in lambdas {
      var rest := lambdas[l] - {c};
      assert forall x | x in lambdas[l] :: x == c || x in rest;
    }
  }

  // --- announcing a computer keeps them ---

  lemma SoundAfter(t: Topology, o: Objective, computers: map<Endpoint, seq<Container>>, routers: map<Endpoint, Endpoint>,
                   addresses: set<string>, ann: Announced, h: Endpoint, c: Endpoint)
    requires AllSound(t, o, computers, routers, addresses, ann) && c in computers
    requires forall l | l in LambdaNames(computers[c]) :: MayServe(t, o, computers, routers, addresses, h, l, c)
    ensures AllSound(t, o, computers, routers, addresses, PutAll(ann, h, LambdaNames(computers[c]), c))
  {
    hide MayServe;
    var offered := LambdaNames(computers[c]);
    PutAllNoEmptySets(ann, h, offered, c);
    forall r, l, x | x in Served(PutAll(ann, h, offered, c), r, l)
      ensures MayServe(t, o, computers, routers, addresses, r, l, x)
    {
      PutAllServed(ann, h, offered, c, r, l);
    }
  }

  lemma CoveredAfter(computers: map<Endpoint, seq<Container>>, ann: Announced, h: Endpoint, c: Endpoint, x: Endpoint)
    requires c in computers && (x == c || Covered(computers, ann, x))
    ensures Covered(computers, PutAll(ann, h, LambdaNames(computers[c]), c), x)
  {
    var offered := LambdaNames(computers[c]);
    if x in computers {
      forall l | l in LambdaNames(computers[x]) ensures exists r :: x in Served(PutAll(ann, h, offered, c), r, l) {
        var r := if x == c then h else var r :| x in Served(ann, r, l); r;
        PutAllServed(ann, h, offered, c, r, l);
      }
    }
  }

  /** The tables once the home router and all the others have accepted their changes. */
  lemma ExactAfter(routers: map<Endpoint, Endpoint>, ann: Announced, tables: map<Endpoint, RouterTables>,
                   after: map<Endpoint, RouterTables>, h: Endpoint, offered: seq<Lambda>, c: Endpoint, novel: seq<Lambda>)
    requires AllExact(routers, tables, ann) && h in routers
    requires forall r, l :: h !in Served(ann, r, l)
    requires Novel(ann, h, offered, novel)
    requires forall r | r in routers :: routers[r] in after
    requires forall r | r in routers ::
               after[routers[r]] == if r == h then ChangeAll(tables[routers[r]], offered, c, true)
                                    else ChangeAll(tables[routers[r]], novel, h, false)
    ensures AllExact(routers, after, PutAll(ann, h, offered, c))
  {
    hide Exact, Novel;
    forall r | r in routers ensures Exact(after[routers[r]], PutAll(ann, h, offered, c), r) {
      if r == h {
        HomeStaysExact(tables[routers[r]], ann, h, offered, c);
      } else {
        OtherStaysExact(tables[routers[r]], ann, h, offered, novel, c, r);
      }
    }
  }

  lemma NothingAnnouncedAnywhere(t: Topology, o: Objective, computers: map<Endpoint, seq<Container>>,
                                 routers: map<Endpoint, Endpoint>, addresses: set<string>, tables: map<Endpoint, RouterTables>)
    requires forall r | r in routers :: routers[r] in tables && tables[routers[r]] == NoRoutes
    ensures AllExact(routers, tables, map[]) && AllSound(t, o, computers, routers, addresses, map[])
  {
    forall r | r in routers ensures Exact(tables[routers[r]], map[], r) {
      NothingAnnounced(r);
    }
  }

  /** Only computers are listed as served. */
  lemma NoRouterIsServed(t: Topology, o: Objective, servers: set<Endpoint>, computers: map<Endpoint, seq<Container>>,
                         routers: map<Endpoint, Endpoint>, addresses: set<string>, ann: Announced, h: Endpoint)
    requires DistinctRoles(t, servers, computers, routers) && AllSound(t, o, computers, routers, addresses, ann)
    requires h in routers
    ensures forall r, l :: h !in Served(ann, r, l)
  {
  }

  /** A known router has an address, and a non-empty address map has a known router. */
  lemma RoutersHaveAddresses(t: Topology, routers: map<Endpoint, Endpoint>, addresses: map<string, seq<Endpoint>>)
    requires InverseAddresses(t, routers, addresses)
    ensures addresses == map[] <==> routers == map[]
  {
    if addresses != map[] {
      var a :| a in addresses;
      var r := addresses[a][0];
      assert r in addresses[a];
      assert r in routers;
    }
    if routers != map[] {
      var r :| r in routers;
      assert AddressOf(r).value in addresses;
    }
  }

  lemma AddressesAreKnown(t: Topology, routers: map<Endpoint, Endpoint>, addresses: map<string, seq<Endpoint>>)
    requires t.Valid() && InverseAddresses(t, routers, addresses)
    ensures Known(t, Sorted(addresses.Keys)) && |Sorted(addresses.Keys)| == |addresses.Keys|
  {
  }

  lemma RouterIsAtItsAddress(t: Topology, routers: map<Endpoint, Endpoint>, addresses: map<string, seq<Endpoint>>, r: Endpoint)
    requires InverseAddresses(t, routers, addresses) && r in routers
    ensures AddressOf(r).Some? && AddressOf(r).value in addresses
    ensures r in addresses[AddressOf(r).value] && NoDuplicates(addresses[AddressOf(r).value])
  {
  }

  /** Erasing router r, where q is what is left at its address. */
  lemma ForgetKeepsInverse(t: Topology, routers: map<Endpoint, Endpoint>, addresses: map<string, seq<Endpoint>>,
                           r: Endpoint, q: seq<Endpoint>)
    requires InverseAddresses(t, routers, addresses) && r in routers
    requires NoDuplicates(q) && forall x :: x in q <==> x in addresses[AddressOf(r).value] && x != r
    ensures var a := AddressOf(r).value;
            InverseAddresses(t, routers - {r}, if q == [] then addresses - {a} else addresses[a := q])
  {
    hide NoDuplicates;
    var a := AddressOf(r).value;
    var (routers', addresses') := (routers - {r}, if q == [] then addresses - {a} else addresses[a := q]);
    forall x | x in routers'
      ensures AddressOf(x).Some? && AddressOf(x).value in addresses' && x in addresses'[AddressOf(x).value]
    {
      if AddressOf(x).value == a { assert x in q; }
    }
    forall b, x | b in addresses' && x in addresses'[b] ensures x in routers' && AddressOf(x) == Some(b) {
      assert x in addresses[b];
    }
  }

  lemma ForgetKeepsRoles(t: Topology, servers: set<Endpoint>, computers: map<Endpoint, seq<Container>>,
                         routers: map<Endpoint, Endpoint>, r: Endpoint)
    requires DistinctRoles(t, servers, computers, routers)
    ensures DistinctRoles(t, servers, computers, routers - {r})
  {
  }

  lemma DropIsSurvivors(t: Topology, servers: set<Endpoint>, computers: map<Endpoint, seq<Container>>,
                        routers: map<Endpoint, Endpoint>, r: Endpoint, e: Endpoint)
    requires DistinctRoles(t, servers, computers, routers) && r in routers && (e == r || e == routers[r])
    ensures Survivors(routers, [e]) == routers - {r}
  {
  }

  /** Adding a computer that is not a router changes nothing for the others. */
  lemma NewComputer(t: Topology, o: Objective, servers: set<Endpoint>, computers: map<Endpoint, seq<Container>>,
                    routers: map<Endpoint, Endpoint>, addresses: set<string>, ann: Announced, c: Endpoint, cs: seq<Container>)
    requires DistinctRoles(t, servers, computers, routers) && AllSound(t, o, computers, routers, addresses, ann)
    requires c !in computers && c !in routers && Located(t, c)
    ensures DistinctRoles(t, servers, computers[c := cs], routers)
    ensures AllSound(t, o, computers[c := cs], routers, addresses, ann)
    ensures forall x | x in computers && Covered(computers, ann, x) :: Covered(computers[c := cs], ann, x)
  {
    hide IsClosest;
  }

  /** Removing a computer that is announced nowhere changes nothing for the others. */
  lemma GoneComputer(t: Topology, o: Objective, computers: map<Endpoint, seq<Container>>,
                     routers: map<Endpoint, Endpoint>, addresses: set<string>, ann: Announced, c: Endpoint)
    requires AllSound(t, o, computers, routers, addresses, ann) && c in computers
    requires forall r, l | l in LambdaNames(computers[c]) :: c !in Served(ann, r, l)
    ensures AllSound(t, o, computers - {c}, routers, addresses, ann)
  {
    hide IsClosest;
  }

  lemma ServedAreOffered(t: Topology, o: Objective, computers: map<Endpoint, seq<Container>>,
                         routers: map<Endpoint, Endpoint>, addresses: set<string>, ann: Announced, c: Endpoint)
    requires AllSound(t, o, computers, routers, addresses, ann) && c in computers
    ensures forall r, l | c in Served(ann, r, l) :: l in LambdaNames(computers[c])
  {
    hide IsClosest;
  }

  lemma HomesAreKnown(t: Topology, o: Objective, computers: map<Endpoint, seq<Container>>,
                      routers: map<Endpoint, Endpoint>, addresses: set<string>, ann: Announced)
    requires AllSound(t, o, computers, routers, addresses, ann)
    ensures forall r, l | Served(ann, r, l) != {} :: r in routers
  {
    hide IsClosest;
    forall r, l | Served(ann, r, l) != {} ensures r in routers {
      var c :| c in Served(ann, r, l);
      assert MayServe(t, o, computers, routers, addresses, r, l, c);
    }
  }

  lemma HomeIsNoServer(t: Topology, servers: set<Endpoint>, computers: map<Endpoint, seq<Container>>,
                       routers: map<Endpoint, Endpoint>, h: Endpoint)
    requires DistinctRoles(t, servers, computers, routers) && h in routers
    ensures h !in servers
  {
  }

  ghost predicate SameTables(routers: map<Endpoint, Endpoint>, t: map<Endpoint, RouterTables>, t': map<Endpoint, RouterTables>) {
    forall r | r in routers :: routers[r] in t && routers[r] in t' && t'[routers[r]] == t[routers[r]]
  }

  lemma NoRouterNoTable(t: map<Endpoint, RouterTables>, t': map<Endpoint, RouterTables>)
    ensures SameTables(map[], t, t')
  {
  }

  ghost predicate OneRouterPerAddress(routers: map<Endpoint, Endpoint>) {
    forall r, s | r in routers && s in routers && AddressOf(r) == AddressOf(s) :: r == s
  }

  /** With one router per address, the home drawn now is the one a covered computer already has. */
  lemma HomeIsUnique(t: Topology, o: Objective, computers: map<Endpoint, seq<Container>>, routers: map<Endpoint, Endpoint>,
                     addresses: set<string>, ann: Announced, c: Endpoint, h: Endpoint)
    requires AllSound(t, o, computers, routers, addresses, ann) && OneRouterPerAddress(routers)
    requires c in computers && Covered(computers, ann, c)
    requires forall l | l in LambdaNames(computers[c]) :: MayServe(t, o, computers, routers, addresses, h, l, c)
    ensures forall l | l in LambdaNames(computers[c]) :: c in Served(ann, h, l)
  {
    hide IsClosest;
    forall l | l in LambdaNames(computers[c]) ensures c in Served(ann, h, l) {
      var r :| c in Served(ann, r, l);
      ClosestIsUnique(t, o, addresses, AddressOf(c).value, AddressOf(r).value, AddressOf(h).value);
    }
  }

  /** Announcing a covered computer again changes no table. */
  lemma SameAgain(t: Topology, o: Objective, computers: map<Endpoint, seq<Container>>, routers: map<Endpoint, Endpoint>, addresses: set<string>,
                  ann: Announced, tables: map<Endpoint, RouterTables>, after: map<Endpoint, RouterTables>, h: Endpoint, c: Endpoint, novel: seq<Lambda>)
    requires AllSound(t, o, computers, routers, addresses, ann) && OneRouterPerAddress(routers) && AllExact(routers, tables, ann)
    requires c in computers && Covered(computers, ann, c) && h in routers && Novel(ann, h, LambdaNames(computers[c]), novel)
    requires forall l | l in LambdaNames(computers[c]) :: MayServe(t, o, computers, routers, addresses, h, l, c)
    requires forall r | r in routers :: routers[r] in after
    requires forall r | r in routers ::
               after[routers[r]] == if r == h then ChangeAll(tables[routers[r]], LambdaNames(computers[c]), c, true)
                                    else ChangeAll(tables[routers[r]], novel, h, false)
    ensures SameTables(routers, tables, after)
  {
    hide AllSound, OneRouterPerAddress, Covered, MayServe, Novel, Exact, LambdaNames;
    HomeIsUnique(t, o, computers, routers, addresses, ann, c, h);
    Reannounce(tables[routers[h]], ann, h, LambdaNames(computers[c]), c, novel);
  }

  lemma NotServed(t: Topology, o: Objective, computers: map<Endpoint, seq<Container>>,
                  routers: map<Endpoint, Endpoint>, addresses: set<string>, ann: Announced, c: Endpoint)
    requires AllSound(t, o, computers, routers, addresses, ann) && c !in computers
    ensures forall r, l :: c !in Served(ann, r, l)
  {
    hide IsClosest;
  }

  lemma FewerComputers(t: Topology, servers: set<Endpoint>, computers: map<Endpoint, seq<Container>>,
                       routers: map<Endpoint, Endpoint>, c: Endpoint)
    requires DistinctRoles(t, servers, computers, routers)
    ensures DistinctRoles(t, servers, computers - {c}, routers)
  {
  }

  lemma CoveredWithout(computers: map<Endpoint, seq<Container>>, ann: Announced, c: Endpoint, x: Endpoint)
    requires Covered(computers, ann, x) && x != c
    ensures Covered(computers - {c}, ann, x)
  {
  }

  lemma NewRouterRoles(t: Topology, servers: set<Endpoint>, computers: map<Endpoint, seq<Container>>,
                       routers: map<Endpoint, Endpoint>, r: Endpoint, e: Endpoint)
    requires DistinctRoles(t, servers, computers, routers) && MayJoin(t, servers, computers, routers, r, e)
    ensures DistinctRoles(t, servers, computers, routers[r := e])
  {
    hide Located;
    var routers' := routers[r := e];
    assert routers'.Values <= routers.Values + {e};
  }

  function Lodgers(addresses: map<string, seq<Endpoint>>, a: string): seq<Endpoint> {
    if a in addresses then addresses[a] else []
  }

  lemma NewRouterAddress(t: Topology, routers: map<Endpoint, Endpoint>, addresses: map<string, seq<Endpoint>>,
                         r: Endpoint, e: Endpoint)
    requires InverseAddresses(t, routers, addresses) && r !in routers && Located(t, r)
    ensures var a := AddressOf(r).value;
            InverseAddresses(t, routers[r := e], addresses[a := Lodgers(addresses, a) + [r]])
  {
    hide AddressOf, NoDuplicates;
    var a := AddressOf(r).value;
    var q := Lodgers(addresses, a) + [r];
    Appended(Lodgers(addresses, a), r);
    var (routers', addresses') := (routers[r := e], addresses[a := q]);
    forall x | x in routers'
      ensures AddressOf(x).Some? && AddressOf(x).value in addresses' && x in addresses'[AddressOf(x).value]
    {
    }
  }

  lemma Appended(q: seq<Endpoint>, r: Endpoint)
    requires (q == [] || NoDuplicates(q)) && r !in q
    ensures NoDuplicates(q + [r])
  {
  }

  /** A router that may be announced: new, placed in the topology, with end-points used by nobody else. */
  ghost predicate MayJoin(t: Topology, servers: set<Endpoint>, computers: map<Endpoint, seq<Container>>,
                          routers: map<Endpoint, Endpoint>, r: Endpoint, e: Endpoint) {
    && r !in routers && Located(t, r) && r !in computers && r !in servers && r !in routers.Values
    && e != r && e !in routers && e !in routers.Values
  }

  lemma StartRecord(ann: Announced, h: Endpoint, c: Endpoint)
    ensures PutAll(ann, h, [], c) == (if h in ann then ann else ann[h := map[]]) && Novel(ann, h, [], [])
  {}

  /** A lambda is new at its home when the computer is the first one there. */
  lemma RecordStep(ann: Announced, h: Endpoint, offered: seq<Lambda>, i: nat, c: Endpoint, novel: seq<Lambda>, first: bool)
    requires i < |offered| && Novel(ann, h, offered[..i], novel)
    requires var present := Served(PutAll(ann, h, offered[..i], c), h, offered[i]); first == (c !in present && |present + {c}| == 1)
    ensures PutAll(ann, h, offered[..i + 1], c) == Put(PutAll(ann, h, offered[..i], c), h, offered[i], c)
    ensures Novel(ann, h, offered[..i + 1], if first then novel + [offered[i]] else novel)
  {
    var l := offered[i];
    NextPrefix(offered, i);
    assert offered[..i + 1][..i] == offered[..i];
    PutAllServed(ann, h, offered[..i], c, h, l);
    var present := Served(PutAll(ann, h, offered[..i], c), h, l);
    if first {
      assert |present| == 0;
    }
  }

  class Controller {
    const topology: Topology
    const objective: Objective
    const net: Network

    // EdgeController
    var computers: map<Endpoint, seq<Container>>
    var lambdas: map<Lambda, set<Endpoint>>
    var routers: map<Endpoint, Endpoint>

    // EdgeControllerHier
    var routerAddresses: map<string, seq<Endpoint>>
    var closest: map<string, string>
    var announced: Announced
    var forwarding: map<Endpoint, Endpoint>

    /** Holds between any two statements that call a router. */
    ghost predicate Structure()
      reads this, net
    {
      && net.Valid() && topology.Valid() && routers == forwarding
      && DistinctRoles(topology, net.servers, computers, routers)
      && InverseAddresses(topology, routers, routerAddresses)
      && RightAnswers(topology, objective, routerAddresses.Keys, closest)
    }

    /** The announcements match the computers, and every known router has been reached before. */
    ghost predicate Sound()
      reads this
    {
      && AllSound(topology, objective, computers, routers, routerAddresses.Keys, announced)
      && Connected(routers, net.servers)
    }

    /** The tables match the announcements. */
    ghost predicate InStep()
      reads this, net
    {
      AllExact(routers, net.tables, announced)
    }

    ghost predicate Reached(c: Endpoint)
      reads this
    {
      routers != map[] ==> Covered(computers, announced, c)
    }

    /** Holds between any two calls of the public methods, even if a router has changed its own tables. */
    ghost predicate Steady()
      reads this, net
    {
      && Structure() && Sound() && InverseIndex(lambdas, computers)
      && forall c | c in computers :: Reached(c)
    }

    /** Holds between any two calls of the public methods if no router has. */
    ghost predicate Inv()
      reads this, net
    {
      Steady() && InStep()
    }

    constructor (topology: Topology, objective: Objective, net: Network)
      requires topology.Valid() && net.Valid()
      ensures Inv() && routers == map[] && computers == map[]
      ensures this.topology == topology && this.objective == objective && this.net == net
    {
      this.topology := topology;
      this.objective := objective;
      this.net := net;
      this.computers := map[];
      this.lambdas := map[];
      this.routers := map[];
      this.routerAddresses := map[];
      this.closest := map[];
      this.announced := map[];
      this.forwarding := map[];
    }

    // --- choosing the home router ---

    /** The cost of reaching all the other routers from r: the largest distance and the sum. */
    method Reach(r: string, q: seq<string>) returns (far: real, sum: real)
      requires Known(topology, q) && r in topology.names && q != []
      ensures far == Farthest(topology, r, q) && sum == Spread(topology, r, q)
    {
      far, sum := Hops(topology, r, q[0]), 0.0;
      for i := 0 to |q|
        invariant i > 0 ==> far == Farthest(topology, r, q[..i])
        invariant i == 0 ==> far == Hops(topology, r, q[0])
        invariant sum == Spread(topology, r, q[..i])
      {
        assert q[..i + 1][..i] == q[..i];
        var d := Hops(topology, r, q[i]);
        far := Larger(far, d);
        sum := sum + d;
      }
      assert q[..|q|] == q;
    }

    method Rate(r: string, q: seq<string>, c: string) returns (score: real)
      requires Known(topology, q) && r in topology.names && c in topology.names && q != []
      ensures score == Score(topology, objective, q, c, r)
    {
      var far, sum := Reach(r, q);
      hide Farthest, Spread, Times, Hops;
      var d := Hops(topology, r, c);
      var maxCost, avgCost := d + far, Affine(topology.NumNodes(), d, sum);
      match objective
      case MinMax => score := Times(Omega(topology), maxCost) + avgCost;
      case MinAvg => score := maxCost + Times(Omega(topology), avgCost);
    }

    /** std::min_element over the ratings: the first position holding the least one. */
    method FirstMinimum(q: seq<string>, c: string) returns (k: nat)
      requires Known(topology, q) && c in topology.names && q != []
      ensures k < |q| && IsFirstMinimum(topology, objective, q, c, k)
    {
      hide Score;
      k := 0;
      var best := Rate(q[0], q, c);
      for i := 1 to |q|
        invariant k < i && best == Score(topology, objective, q, c, q[k])
        invariant forall j | 0 <= j < i ::
                    best < Score(topology, objective, q, c, q[j])
                    || (best == Score(topology, objective, q, c, q[j]) && k <= j)
      {
        var score := Rate(q[i], q, c);
        if score < best {
          k, best := i, score;
        }
      }
    }

    method FindClosest(c: string) returns (a: string)
      requires Structure() && c in topology.names && routers != map[]
      modifies this`closest
      ensures Structure()
      ensures IsClosest(topology, objective, routerAddresses.Keys, c, a)
    {
      hide IsFirstMinimum, IsClosest, Sorted, Known, DistinctRoles, InverseAddresses;
      if c in closest { return closest[c]; }
      RoutersHaveAddresses(topology, routers, routerAddresses);
      AddressesAreKnown(topology, routers, routerAddresses);
      var q := Sorted(routerAddresses.Keys);
      var k := FirstMinimum(q, c);
      FirstMinimumIsClosest(topology, objective, routerAddresses.Keys, c, k);
      a := q[k];
      closest := closest[c := a];
    }

    /** Any of the routers at that address, since the source draws one at random. */
    method RouterEndpoint(a: string) returns (r: Endpoint)
      requires InverseAddresses(topology, routers, routerAddresses) && a in routerAddresses
      ensures r in routers && AddressOf(r) == Some(a)
    {
      var q := routerAddresses[a];
      if |q| == 1 { return q[0]; }
      var i :| 0 <= i < |q|;
      return q[i];
    }

    method HomeRouter(c: Endpoint) returns (h: Endpoint)
      requires Structure() && c in computers && routers != map[]
      modifies this`closest
      ensures Structure() && h in routers
      ensures forall l | l in LambdaNames(computers[c]) ::
                MayServe(topology, objective, computers, routers, routerAddresses.Keys, h, l, c)
    {
      hide Score;
      var home := FindClosest(AddressOf(c).value);
      h := RouterEndpoint(home);
    }

    // --- calls towards the routers, up to the first that fails ---

    method FlushAll() returns (failed: Option<Endpoint>)
      requires Structure()
      modifies net
      ensures Structure()
      ensures failed.None? ==> net.failures == old(net.failures)
                               && forall r | r in routers :: routers[r] in net.tables && net.tables[routers[r]] == NoRoutes
      ensures failed.Some? ==> failed.value in routers && net.failures == old(net.failures) + [routers[failed.value]]
    {
      hide DistinctRoles, InverseAddresses, RightAnswers;
      var todo := forwarding.Keys;
      while todo != {}
        invariant Structure() && todo <= forwarding.Keys && net.failures == old(net.failures)
        invariant forall r | r in forwarding && r !in todo ::
                    forwarding[r] in net.tables && net.tables[forwarding[r]] == NoRoutes
        decreases |todo|
      {
        var r :| r in todo;
        OneServerEach(topology, net.servers, computers, routers, r);
        var ok := net.FlushRoutes(forwarding[r]);
        if !ok { return Some(r); }
        todo := todo - {r};
      }
      return None;
    }

    /** Notes c under its home router; returns the lambdas that no computer of that router offered before. */
    method Record(h: Endpoint, offered: seq<Lambda>, c: Endpoint) returns (novel: seq<Lambda>)
      modifies this`announced
      ensures announced == PutAll(old(announced), h, offered, c)
      ensures Novel(old(announced), h, offered, novel)
    {
      hide Put, PutAll, Served, Novel;
      novel := [];
      StartRecord(announced, h, c);
      if h !in announced {
        announced := announced[h := map[]];
      }
      for i := 0 to |offered|
        invariant announced == PutAll(old(announced), h, offered[..i], c)
        invariant Novel(old(announced), h, offered[..i], novel)
      {
        var l := offered[i];
        var present := Served(announced, h, l);
        var inserted := c !in present;
        RecordStep(old(announced), h, offered, i, c, novel, inserted && |present + {c}| == 1);
        announced := Put(announced, h, l, c);
        if inserted && |present + {c}| == 1 {
          novel := novel + [l];
        }
      }
      assert offered[..|offered|] == offered;
    }

    method Notify(h: Endpoint, novel: seq<Lambda>) returns (failed: Option<Endpoint>)
      requires Structure() && h in routers && forall r | r in routers :: routers[r] in net.tables
      modifies net
      ensures Structure()
      ensures failed.None? ==> net.failures == old(net.failures)
      ensures failed.None? ==> forall r | r in routers ::
                net.tables[routers[r]] == if r == h then old(net.tables)[routers[r]]
                                          else ChangeAll(old(net.tables)[routers[r]], novel, h, false)
      ensures failed.Some? ==> failed.value in routers && net.failures == old(net.failures) + [routers[failed.value]]
    {
      hide DistinctRoles, InverseAddresses, RightAnswers, ChangeAll;
      NothingToChange(net.tables, h);
      var todo := routers.Keys;
      while todo != {}
        invariant Structure() && todo <= routers.Keys && net.failures == old(net.failures)
        invariant forall r | r in routers ::
                    net.tables[routers[r]] == if r == h || r in todo then old(net.tables)[routers[r]]
                                              else ChangeAll(old(net.tables)[routers[r]], novel, h, false)
        decreases |todo|
      {
        var r :| r in todo;
        todo := todo - {r};
        OneServerEach(topology, net.servers, computers, routers, r);
        if r == h || novel == [] { continue; }
        var ok := net.ChangeRoutes(routers[r], novel, h, false);
        if !ok { return Some(r); }
      }
      return None;
    }

    method Publish(c: Endpoint) returns (failed: Option<Endpoint>)
      requires Structure() && Sound() && c in computers && routers != map[]
      modifies this`closest, this`announced, net
      ensures Structure()
      ensures failed.Some? ==> failed.value in routers && net.failures == old(net.failures) + [routers[failed.value]]
      ensures failed.None? ==> net.failures == old(net.failures) && Sound() && (old(InStep()) ==> InStep())
      ensures failed.None? ==> forall x | x == c || old(Reached(x)) :: Reached(x)
      ensures failed.None? && OneRouterPerAddress(routers) && old(Reached(c)) && old(InStep()) ==>
                SameTables(routers, old(net.tables), net.tables)
    {
      hide DistinctRoles, InverseAddresses, RightAnswers, AllSound, AllExact, MayServe, Exact, Covered, Novel, OneRouterPerAddress, LambdaNames, PutAll, ChangeAll, SameTables;
      var h := HomeRouter(c);
      var offered := LambdaNames(computers[c]);
      var server := if h in routers then routers[h] else "";
      ghost var before, tables := announced, net.tables;
      OneServerEach(topology, net.servers, computers, routers, h);
      if server != "" {
        var ok := net.ChangeRoutes(server, offered, c, true);
        if !ok { return Some(h); }
      }
      var novel := Record(h, offered, c);
      failed := Notify(h, novel);
      if failed.None? {
        SoundAfter(topology, objective, computers, routers, routerAddresses.Keys, before, h, c);
        forall x | x == c || old(Reached(x)) ensures Reached(x) {
          CoveredAfter(computers, before, h, c, x);
        }
        if old(InStep()) {
          NoRouterIsServed(topology, objective, net.servers, computers, routers, routerAddresses.Keys, before, h);
          ExactAfter(routers, before, tables, net.tables, h, offered, c, novel);
          if OneRouterPerAddress(routers) && old(Reached(c)) {
            SameAgain(topology, objective, computers, routers, routerAddresses.Keys, before, tables, net.tables, h, c, novel);
          }
        }
      }
    }

    /** Erases r from the maps of the controller, and the cache if its address is now free. */
    method Forget(r: Endpoint)
      requires Structure() && r in routers
      modifies this`routers, this`forwarding, this`routerAddresses, this`closest
      ensures Structure() && routers == old(routers) - {r}
    {
      hide IsClosest, InverseAddresses, DistinctRoles, NoDuplicates, AddressOf;
      RouterIsAtItsAddress(topology, routers, routerAddresses, r);
      var a := AddressOf(r).value;
      var q := Without(routerAddresses[a], r);
      ForgetKeepsInverse(topology, routers, routerAddresses, r, q);
      ForgetKeepsRoles(topology, net.servers, computers, routers, r);
      routers := routers - {r};
      if q == [] {
        routerAddresses := routerAddresses - {a};
        closest := map[];
      } else {
        routerAddresses := routerAddresses[a := q];
        assert routerAddresses.Keys == old(routerAddresses.Keys);
      }
      forwarding := forwarding - {r};
    }

    /** Erases the first occurrence of r. */
    static method Without(all: seq<Endpoint>, r: Endpoint) returns (q: seq<Endpoint>)
      requires r in all && NoDuplicates(all)
      ensures NoDuplicates(q) && forall x :: x in q <==> x in all && x != r
    {
      var i := 0;
      while all[i] != r
        invariant 0 <= i < |all| && r in all[i..]
        decreases |all| - i
      {
        i := i + 1;
      }
      q := all[..i] + all[i + 1..];
      assert all == all[..i] + [r] + all[i + 1..];
    }

    // --- the mutual recursion: a failed call removes its router and resets all the others ---

    /** In Reset, where this runs again for computers that a nested Reset has already announced,
        a run without failures then leaves every table as the nested one built it. */
    method PrivateAnnounceComputer(c: Endpoint, ghost done: set<Endpoint>)
      requires Structure() && Sound() && c in computers && done <= computers.Keys
      requires forall x | x in done :: Reached(x)
      modifies this`routers, this`forwarding, this`routerAddresses, this`closest, this`announced, net
      ensures Structure() && Sound() && (old(InStep()) || net.failures != old(net.failures) ==> InStep())
      ensures forall x | x in done + {c} :: Reached(x)
      ensures LostOnly(old(routers), old(net.failures), routers, net.failures)
      ensures net.failures == old(net.failures) && OneRouterPerAddress(routers) && old(Reached(c)) && old(InStep()) ==>
                SameTables(routers, old(net.tables), net.tables)
      decreases |routers|, 2
    {
      RoutersHaveAddresses(topology, routers, routerAddresses);
      hide DistinctRoles, InverseAddresses, RightAnswers, AllExact, AllSound, Covered, LostOnly, Survivors, SameTables, OneRouterPerAddress;
      LostNone(routers, net.failures);
      if routerAddresses == map[] {
        NoRouterNoTable(net.tables, net.tables);
        return;
      }
      var failed := Publish(c);
      if failed.Some? {
        Drop(failed.value, old(net.failures), routers[failed.value]);
      }
    }

    /** A call to router r, the last one logged, has just failed. */
    method Drop(r: Endpoint, ghost log: seq<Endpoint>, e: Endpoint)
      requires Structure() && r in routers
      requires (e == r || e == routers[r]) && net.failures == log + [e]
      modifies this`routers, this`forwarding, this`routerAddresses, this`closest, this`announced, net
      ensures Structure() && Sound() && InStep()
      ensures forall x | x in computers :: Reached(x)
      ensures LostOnly(old(routers), log, routers, net.failures) && log + [e] <= net.failures
      decreases |routers|, 1
    {
      hide InverseAddresses, RightAnswers, AllExact, AllSound, Covered, LostOnly, Survivors, SameTables, OneRouterPerAddress;
      DropIsSurvivors(topology, net.servers, computers, routers, r, e);
      LostOne(routers, log, e);
      RemoveRouter(r);
      LogGrows(old(routers) - {r}, old(net.failures), routers, net.failures);
      LostThen(old(routers), log, old(routers) - {r}, old(net.failures), routers, net.failures);
    }

    method RemoveRouter(r: Endpoint)
      requires Structure() && r in routers
      modifies this`routers, this`forwarding, this`routerAddresses, this`closest, this`announced, net
      ensures Structure() && Sound() && InStep()
      ensures forall x | x in computers :: Reached(x)
      ensures LostOnly(old(routers) - {r}, old(net.failures), routers, net.failures)
      decreases |routers|, 0
    {
      Forget(r);
      Reset();
    }

    method Reset()
      requires Structure()
      modifies this`routers, this`forwarding, this`routerAddresses, this`closest, this`announced, net
      ensures Structure() && Sound() && InStep()
      ensures forall x | x in computers :: Reached(x)
      ensures LostOnly(old(routers), old(net.failures), routers, net.failures)
      decreases |routers|, 3
    {
      hide Controller.Structure, Controller.Sound, Controller.InStep, Controller.Reached, LostOnly, SameTables, OneRouterPerAddress;
      var failed := StartOver();
      if failed.Some? {
        Drop(failed.value, old(net.failures), routers[failed.value]);
        return;
      }
      LostNone(routers, net.failures);
      var todo := computers.Keys;
      ghost var done: set<Endpoint> := {};
      while todo != {}
        invariant Structure() && Sound() && InStep()
        invariant done + todo == computers.Keys && forall x | x in done :: Reached(x)
        invariant LostOnly(old(routers), old(net.failures), routers, net.failures)
        invariant routers.Keys <= old(routers.Keys)
        decreases |todo|
      {
        var c :| c in todo;
        FewerKeys(routers.Keys, old(routers.Keys));
        ghost var (rs, log) := (routers, net.failures);
        PrivateAnnounceComputer(c, done);
        LostThen(old(routers), old(net.failures), rs, log, routers, net.failures);
        done := done + {c};
        todo := todo - {c};
      }
    }

    /** All tables are flushed and nothing is announced, up to the first call that fails. */
    method StartOver() returns (failed: Option<Endpoint>)
      requires Structure()
      modifies this`announced, net
      ensures Structure()
      ensures failed.None? ==> Sound() && InStep() && net.failures == old(net.failures)
      ensures failed.Some? ==> failed.value in routers && net.failures == old(net.failures) + [routers[failed.value]]
    {
      hide DistinctRoles, InverseAddresses, RightAnswers, AllExact, AllSound;
      failed := FlushAll();
      if failed.None? {
        announced := map[];
        NothingAnnouncedAnywhere(topology, objective, computers, routers, routerAddresses.Keys, net.tables);
      }
    }

    // --- removing a computer ---

    /** Withdraws c from the announcements, one home per lambda, and lists the removals to be sent.
        The first removal of each lambda goes to the home router; the source passes its lambda
        end-point where the end-point of its forwarding table server is meant. */
    method Withdraw(c: Endpoint, offered: seq<Lambda>) returns (elems: seq<RemoveElem>)
      requires forall r, l | Served(announced, r, l) != {} :: r in forwarding
      modifies this`announced
      ensures forall r, l :: Served(old(announced), r, l) - {c} <= Served(announced, r, l) <= Served(old(announced), r, l)
      ensures elems == [] ==> announced == old(announced)
      ensures elems == [] ==> forall r, l | l in offered :: c !in Served(announced, r, l)
      ensures elems != [] ==> elems[0].server == elems[0].processor && elems[0].processor in forwarding
                              && exists l | l in offered :: c in Served(old(announced), elems[0].processor, l)
    {
      elems := [];
      for i := 0 to |offered|
        invariant forall r, l :: Served(old(announced), r, l) - {c} <= Served(announced, r, l) <= Served(old(announced), r, l)
        invariant elems == [] ==> announced == old(announced)
        invariant elems == [] ==> forall r, l | l in offered[..i] :: c !in Served(announced, r, l)
        invariant elems != [] ==> elems[0].server == elems[0].processor && elems[0].processor in forwarding
                                  && exists l | l in offered :: c in Served(old(announced), elems[0].processor, l)
      {
        var l := offered[i];
        if r :| r in announced && c in Served(announced, r, l) {
          elems := elems + [RemoveElem(r, r, c, l)];
          if announced[r][l] == {c} {
            var others := OtherRouters(r, l);
            elems := elems + others;
          }
          announced := Take(announced, r, l, c);
        }
      }
    }

    method OtherRouters(r: Endpoint, l: Lambda) returns (elems: seq<RemoveElem>)
      ensures forall e :: e in elems <==> exists s :: s in forwarding && s != r && e == RemoveElem(s, forwarding[s], r, l)
    {
      elems := [];
      var todo := forwarding.Keys;
      while todo != {}
        invariant todo <= forwarding.Keys
        invariant forall e :: e in elems <==>
                    exists s :: s in forwarding && s !in todo && s != r && e == RemoveElem(s, forwarding[s], r, l)
        decreases |todo|
      {
        var s :| s in todo;
        if s != r {
          elems := elems + [RemoveElem(s, forwarding[s], r, l)];
        }
        todo := todo - {s};
      }
    }

    /** Sends the removals in order; returns the position of the first that fails, or their number. */
    method SendRemovals(elems: seq<RemoveElem>) returns (k: nat)
      requires Structure()
      modifies net
      ensures Structure() && k <= |elems|
      ensures forall i | 0 <= i < k :: elems[i].server in net.servers
      ensures k < |elems| ==> net.failures == old(net.failures) + [elems[k].server]
      ensures elems == [] ==> net.failures == old(net.failures) && net.tables == old(net.tables)
    {
      k := 0;
      while k < |elems|
        invariant Structure() && 0 <= k <= |elems| && net.failures == old(net.failures)
        invariant forall i | 0 <= i < k :: elems[i].server in net.servers
        invariant k == 0 ==> net.tables == old(net.tables)
      {
        var ok := net.RemoveRoutes(elems[k].server, elems[k].edgeServer, elems[k].lambda);
        if !ok { return k; }
        k := k + 1;
      }
    }

    method PrivateRemoveComputer(c: Endpoint, offered: seq<Lambda>, ghost cs: seq<Container>)
      requires Structure() && c !in computers && offered == LambdaNames(cs)
      requires AllSound(topology, objective, computers[c := cs], routers, routerAddresses.Keys, announced) && Connected(routers, net.servers)
      requires forall x | x in computers :: Reached(x)
      modifies this`routers, this`forwarding, this`routerAddresses, this`closest, this`announced, net
      ensures Structure() && Sound() && (old(InStep()) || net.failures != old(net.failures) ==> InStep())
      ensures forall x | x in computers :: Reached(x)
      ensures LostOnly(old(routers), old(net.failures), routers, net.failures)
      ensures (forall r, l :: c !in Served(old(announced), r, l)) ==>
                routers == old(routers) && announced == old(announced) && net.tables == old(net.tables) && net.failures == old(net.failures)
      ensures (exists r, l :: c in Served(old(announced), r, l)) ==>
                exists h, l :: c in Served(old(announced), h, l) && h in old(routers) && h !in routers
    {
      hide InverseAddresses, RightAnswers, AllExact, Covered, MayServe, LostOnly, LambdaNames;
      LostNone(routers, net.failures);
      ServedAreOffered(topology, objective, computers[c := cs], routers, routerAddresses.Keys, announced, c);
      ghost var before := announced;
      assert forall r, l | Served(announced, r, l) != {} :: r in routers by {
        HomesAreKnown(topology, objective, computers[c := cs], routers, routerAddresses.Keys, announced);
      }
      hide AllSound;
      var elems := Withdraw(c, offered);
      var k := SendRemovals(elems);
      if elems == [] {
        GoneComputer(topology, objective, computers[c := cs], routers, routerAddresses.Keys, announced, c);
        assert computers[c := cs] - {c} == computers;
      } else {
        var h := elems[0].processor;
        HomeIsNoServer(topology, net.servers, computers, routers, h);
        assert k == 0;
        Drop(h, old(net.failures), h);
        LostIsGone(old(routers), old(net.failures), h, routers, net.failures);
      }
    }

    // --- the index of lambdas ---

    method Index(c: Endpoint, offered: seq<Lambda>)
      requires forall l | l in lambdas :: lambdas[l] != {}
      modifies this`lambdas
      ensures forall l | l in lambdas :: lambdas[l] != {}
      ensures forall l, x :: Indexes(lambdas, l, x) <==> Indexes(old(lambdas), l, x) || (x == c && l in offered)
    {
      hide Indexes, Indexed, Unindexed;
      for i := 0 to |offered|
        invariant forall l | l in lambdas :: lambdas[l] != {}
        invariant forall l, x :: Indexes(lambdas, l, x) <==> Indexes(old(lambdas), l, x) || (x == c && l in offered[..i])
      {
        NextPrefix(offered, i);
        IndexStep(lambdas, offered[i], c);
        lambdas := Indexed(lambdas, offered[i], c);
      }
      assert offered[..|offered|] == offered;
    }

    method Unindex(c: Endpoint, offered: seq<Lambda>)
      requires forall l | l in lambdas :: lambdas[l] != {}
      modifies this`lambdas
      ensures forall l | l in lambdas :: lambdas[l] != {}
      ensures forall l, x :: Indexes(lambdas, l, x) <==> Indexes(old(lambdas), l, x) && !(x == c && l in offered)
    {
      hide Indexes, Indexed, Unindexed;
      for i := 0 to |offered|
        invariant forall l | l in lambdas :: lambdas[l] != {}
        invariant forall l, x :: Indexes(lambdas, l, x) <==> Indexes(old(lambdas), l, x) && !(x == c && l in offered[..i])
      {
        NextPrefix(offered, i);
        UnindexStep(lambdas, offered[i], c);
        lambdas := Unindexed(lambdas, offered[i], c);
      }
      assert offered[..|offered|] == offered;
    }

    // --- the public interface ---

    /** Removing a computer that some router serves costs a home router of it, since the removal
        is sent to that router's lambda end-point and fails; the rest is rebuilt exactly. */
    method RemoveComputer(c: Endpoint)
      requires Steady()
      modifies this, net
      ensures Steady() && computers == old(computers) - {c}
      ensures old(InStep()) || net.failures != old(net.failures) ==> Inv()
      ensures LostOnly(old(routers), old(net.failures), routers, net.failures)
      ensures (forall r, l :: c !in Served(old(announced), r, l)) ==>
                routers == old(routers) && announced == old(announced) && net.tables == old(net.tables) && net.failures == old(net.failures)
      ensures (exists r, l :: c in Served(old(announced), r, l)) ==>
                exists h, l :: c in Served(old(announced), h, l) && h in old(routers) && h !in routers
    {
      hide DistinctRoles, InverseAddresses, RightAnswers, AllExact, AllSound, Covered, LostOnly, LambdaNames;
      LostNone(routers, net.failures);
      if c !in computers {
        NotServed(topology, objective, computers, routers, routerAddresses.Keys, announced, c);
        assert computers - {c} == computers;
        return;
      }
      var cs := computers[c];
      var offered := LambdaNames(cs);
      FewerComputers(topology, net.servers, computers, routers, c);
      forall x | x in computers && x != c ensures routers != map[] ==> Covered(computers - {c}, announced, x) {
        if routers != map[] { CoveredWithout(computers, announced, c, x); }
      }
      assert computers == (computers - {c})[c := cs];
      computers := computers - {c};
      Unindex(c, offered);
      PrivateRemoveComputer(c, offered, cs);
    }

    method AddComputer(c: Endpoint, cs: seq<Container>)
      requires Steady() && Located(topology, c) && c !in routers && c !in computers
      modifies this, net
      ensures Steady() && computers == old(computers)[c := cs]
      ensures old(InStep()) || net.failures != old(net.failures) ==> Inv()
      ensures LostOnly(old(routers), old(net.failures), routers, net.failures)
    {
      hide DistinctRoles, InverseAddresses, RightAnswers, AllExact, AllSound, Covered, LostOnly, LambdaNames, SameTables;
      NewComputer(topology, objective, net.servers, computers, routers, routerAddresses.Keys, announced, c, cs);
      ghost var others := computers.Keys;
      computers := computers[c := cs];
      Index(c, LambdaNames(cs));
      PrivateAnnounceComputer(c, others);
    }

    /** Announcing a computer, new or with other containers than before. */
    method AnnounceComputer(c: Endpoint, cs: seq<Container>)
      requires Steady() && Located(topology, c) && c !in routers
      modifies this, net
      ensures Steady() && computers == old(computers)[c := cs]
      ensures old(InStep()) || net.failures != old(net.failures) ==> Inv()
      ensures LostOnly(old(routers), old(net.failures), routers, net.failures)
    {
      hide Controller.Steady, Controller.InStep, LostOnly;
      LostNone(routers, net.failures);
      if c in computers {
        if computers[c] == cs { return; }
        RemoveComputer(c);
        SurvivorsAreKnown(old(routers), old(net.failures), routers, net.failures);
      }
      ghost var (rs, log) := (routers, net.failures);
      AddComputer(c, cs);
      LostThen(old(routers), old(net.failures), rs, log, routers, net.failures);
    }

    /** Announcing a router that is not known yet. */
    method AnnounceRouter(r: Endpoint, e: Endpoint)
      requires Steady() && MayJoin(topology, net.servers, computers, routers, r, e)
      modifies this, net
      ensures Inv() && computers == old(computers)
      ensures LostOnly(old(routers)[r := e], old(net.failures), routers, net.failures)
    {
      hide DistinctRoles, InverseAddresses, IsClosest, AllExact, AllSound, Covered, LostOnly;
      NewRouterRoles(topology, net.servers, computers, routers, r, e);
      NewRouterAddress(topology, routers, routerAddresses, r, e);
      routers := routers[r := e];
      var a := AddressOf(r).value;
      if a !in routerAddresses {
        closest := map[];
      }
      routerAddresses := routerAddresses[a := Lodgers(routerAddresses, a) + [r]];
      assert a in old(routerAddresses) ==> routerAddresses.Keys == old(routerAddresses.Keys);
      forwarding := forwarding[r := e];
      Reset();
    }

    // --- what the invariant means ---

    /** With one router per address, every (lambda, computer) pair is listed under exactly one router. */
    lemma ExactlyOneHome(c: Endpoint, l: Lambda)
      requires Inv() && routers != map[] && c in computers && l in LambdaNames(computers[c])
      requires OneRouterPerAddress(routers)
      ensures exists h :: h in routers && forall r :: c in Served(announced, r, l) <==> r == h
    {
      hide IsClosest;
      assert Reached(c);
      var h :| c in Served(announced, h, l);
      forall r | c in Served(announced, r, l) ensures r == h {
        ClosestIsUnique(topology, objective, routerAddresses.Keys, AddressOf(c).value,
                        AddressOf(r).value, AddressOf(h).value);
      }
    }
  }

  /** The home of a computer is the only one that can be drawn if and only if no other router is at its address. */
  lemma HomeIsForcedIff(t: Topology, o: Objective, computers: map<Endpoint, seq<Container>>, routers: map<Endpoint, Endpoint>,
                        addresses: set<string>, ann: Announced, h: Endpoint, l: Lambda, c: Endpoint)
    requires AllSound(t, o, computers, routers, addresses, ann) && c in Served(ann, h, l)
    ensures (forall r | MayServe(t, o, computers, routers, addresses, r, l, c) :: r == h) <==>
            (forall r | r in routers && AddressOf(r) == AddressOf(h) :: r == h)
  {
    hide IsClosest;
    assert MayServe(t, o, computers, routers, addresses, h, l, c);
    if forall r | r in routers && AddressOf(r) == AddressOf(h) :: r == h {
      forall r | MayServe(t, o, computers, routers, addresses, r, l, c) ensures r == h {
        ClosestIsUnique(t, o, addresses, AddressOf(c).value, AddressOf(r).value, AddressOf(h).value);
      }
    }
    if forall r | MayServe(t, o, computers, routers, addresses, r, l, c) :: r == h {
      forall r | r in routers && AddressOf(r) == AddressOf(h) ensures r == h {
        assert MayServe(t, o, computers, routers, addresses, r, l, c);
      }
    }
  }

  /** Otherwise the outer loop of Reset, resuming after a nested one, may draw a second router for a
      computer that has a home: it then has two, and all announcements and tables are as they should be. */
  lemma TwoHomes(t: Topology, o: Objective, servers: set<Endpoint>, computers: map<Endpoint, seq<Container>>, routers: map<Endpoint, Endpoint>,
                 addresses: set<string>, ann: Announced, tables: map<Endpoint, RouterTables>, after: map<Endpoint, RouterTables>,
                 c: Endpoint, l: Lambda, h: Endpoint, second: Endpoint, novel: seq<Lambda>)
    requires DistinctRoles(t, servers, computers, routers) && AllSound(t, o, computers, routers, addresses, ann) && AllExact(routers, tables, ann)
    requires c in Served(ann, h, l) && second != h && second in routers && AddressOf(second) == AddressOf(h)
    requires c in computers && Novel(ann, second, LambdaNames(computers[c]), novel)
    requires forall r | r in routers :: routers[r] in after
    requires forall r | r in routers ::
               after[routers[r]] == if r == second then ChangeAll(tables[routers[r]], LambdaNames(computers[c]), c, true)
                                    else ChangeAll(tables[routers[r]], novel, second, false)
    ensures MayServe(t, o, computers, routers, addresses, second, l, c)
    ensures var next := PutAll(ann, second, LambdaNames(computers[c]), c);
            && AllSound(t, o, computers, routers, addresses, next) && AllExact(routers, after, next)
            && c in Served(next, h, l) && c in Served(next, second, l)
  {
    assert MayServe(t, o, computers, routers, addresses, h, l, c);
    hide IsClosest, Exact, Novel, NoEmptySets;
    forall x | x in LambdaNames(computers[c]) ensures MayServe(t, o, computers, routers, addresses, second, x, c) {}
    SoundAfter(t, o, computers, routers, addresses, ann, second, c);
    NoRouterIsServed(t, o, servers, computers, routers, addresses, ann, second);
    ExactAfter(routers, ann, tables, after, second, LambdaNames(computers[c]), c, novel);
    PutAllServed(ann, second, LambdaNames(computers[c]), c, h, l);
    PutAllServed(ann, second, LambdaNames(computers[c]), c, second, l);
  }

  // --- the smallest network in which it happens: one node with two routers and a computer ---

  function OneNode(): Topology { Topology(map["n" := 0], [0.0]) }
  function TwoOnIt(): map<Endpoint, Endpoint> { map["n:1" := "n:2", "n:3" := "n:4"] }
  function OneComputer(): map<Endpoint, seq<Container>> { map["n:5" := [Container("k", "p", "f", 1)]] }
  function AtTheFirst(): Announced { map["n:1" := map["f" := {"n:5"}]] }
  function BothTables(): map<Endpoint, RouterTables> {
    map["n:2" := RouterTables(map[("f", "n:5") := true], map[("f", "n:5") := true]),
        "n:4" := RouterTables(map[("f", "n:1") := false], map[])]
  }

  lemma AddressOnNode(e: Endpoint)
    requires |e| == 3 && e[0] == 'n' && e[1] == ':'
    ensures AddressOf(e) == Some("n")
  {
    assert FirstColon(e[1..]) == 0;
    assert e[..1] == "n";
  }

  lemma OnlyAddressIsClosest()
    ensures IsClosest(OneNode(), MinMax, {"n"}, "n", "n")
  {
    var q := Sorted({"n"});
    assert |OneNode().names.Keys| == 1;
    LeqTotal("n", "n");
    assert forall x | x in q :: x == "n";
  }

  lemma SmallestNetworkHasRoles()
    ensures DistinctRoles(OneNode(), {"n:2", "n:4"}, OneComputer(), TwoOnIt())
  {
    hide AddressOf;
    AddressOnNode("n:1");
    AddressOnNode("n:3");
    AddressOnNode("n:5");
  }

  lemma ServedAtTheFirst()
    ensures forall r, l :: Served(AtTheFirst(), r, l) == if r == "n:1" && l == "f" then {"n:5"} else {}
  {}

  lemma SmallestNetworkIsSound()
    ensures LambdaNames(OneComputer()["n:5"]) == ["f"]
    ensures AllSound(OneNode(), MinMax, OneComputer(), TwoOnIt(), {"n"}, AtTheFirst())
  {
    hide AddressOf, IsClosest, Served;
    AddressOnNode("n:1");
    AddressOnNode("n:5");
    OnlyAddressIsClosest();
    ServedAtTheFirst();
    assert LambdaNames(OneComputer()["n:5"]) == ["f"];
    assert MayServe(OneNode(), MinMax, OneComputer(), TwoOnIt(), {"n"}, "n:1", "f", "n:5");
  }

  lemma SmallestNetworkIsExact()
    ensures AllExact(TwoOnIt(), BothTables(), AtTheFirst())
  {
    hide Exact;
    FirstIsExact();
    OtherIsExact();
  }

  lemma FirstIsExact()
    ensures Exact(BothTables()["n:2"], AtTheFirst(), "n:1")
  {
    hide Served;
    ServedAtTheFirst();
  }

  lemma OtherIsExact()
    ensures Exact(BothTables()["n:4"], AtTheFirst(), "n:3")
  {
    hide Served;
    ServedAtTheFirst();
  }

  /** The computer on n:5 gets the homes n:1 and n:3, and every table is exact. */
  lemma TwoHomesOnOneNode()
    ensures var next := PutAll(AtTheFirst(), "n:3", ["f"], "n:5");
            var after := map["n:2" := ChangeAll(BothTables()["n:2"], ["f"], "n:3", false),
                             "n:4" := ChangeAll(BothTables()["n:4"], ["f"], "n:5", true)];
            && "n:5" in Served(AtTheFirst(), "n:1", "f") && "n:5" !in Served(AtTheFirst(), "n:3", "f")
            && MayServe(OneNode(), MinMax, OneComputer(), TwoOnIt(), {"n"}, "n:3", "f", "n:5")
            && AllSound(OneNode(), MinMax, OneComputer(), TwoOnIt(), {"n"}, next) && AllExact(TwoOnIt(), after, next)
            && "n:5" in Served(next, "n:1", "f") && "n:5" in Served(next, "n:3", "f")
  {
    hide AddressOf, MayServe, AllSound, DistinctRoles, AllExact, ChangeAll, Served, PutAll, AtTheFirst, LambdaNames;
    AddressOnNode("n:1");
    AddressOnNode("n:3");
    SmallestNetworkHasRoles();
    SmallestNetworkIsSound();
    SmallestNetworkIsExact();
    ServedAtTheFirst();
    var after := map["n:2" := ChangeAll(BothTables()["n:2"], ["f"], "n:3", false),
                     "n:4" := ChangeAll(BothTables()["n:4"], ["f"], "n:5", true)];
    TwoHomes(OneNode(), MinMax, {"n:2", "n:4"}, OneComputer(), TwoOnIt(), {"n"}, AtTheFirst(), BothTables(), after,
             "n:5", "f", "n:1", "n:3", ["f"]);
  }
}
