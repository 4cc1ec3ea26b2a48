/**
 * The balancing controller: every group of clients with one address and one lambda is given to a
 * least loaded computer that offers the lambda, biggest groups first.
 */
module Balancer {
  import opened Lists
  import opened LoadSharing
  import opened StringOrder
  import opened Wrappers

  datatype Group = Group(client: string, lambda: string)

  /** A row of the table of contexts, or of associations. */
  datatype Row = Row(client: string, lambda: string, server: string)

  datatype Counter = Counter(group: Group, count: nat)

  datatype Station = Station(endpoint: string, lambdas: set<string>, load: nat)

  /** The computers that offer a lambda, and the one that clients use by default. */
  datatype Desc = Desc(computers: set<string>, default: string)

  function GroupOf(row: Row): Group { Group(row.client, row.lambda) }

  function Clients(contexts: seq<Row>, g: Group): nat {
    if contexts == [] then 0
    else
      var last := |contexts| - 1;
      Clients(contexts[..last], g) + if GroupOf(contexts[last]) == g then 1 else 0
  }

  function Hosts(desc: map<string, Desc>, lambda: string): set<string> {
    if lambda in desc then desc[lambda].computers else {}
  }

  function Offers(desc: map<string, Desc>, e: string): set<string> {
    set l | l in desc && e in desc[l].computers
  }

  // --- counting the groups ---

  predicate Counted(counts: map<string, map<string, nat>>, contexts: seq<Row>) {
    (forall l | l in counts :: forall c | c in counts[l] :: counts[l][c] == Clients(contexts, Group(c, l)) > 0) &&
    forall r | r in contexts :: r.lambda in counts && r.client in counts[r.lambda]
  }

  lemma {:induction false} ClientsAppend(contexts: seq<Row>, r: Row, g: Group)
    ensures Clients(contexts + [r], g) == Clients(contexts, g) + if GroupOf(r) == g then 1 else 0
  {
    assert (contexts + [r])[..|contexts|] == contexts;
  }

  lemma {:induction false} ClientsOf(contexts: seq<Row>, g: Group)
    ensures Clients(contexts, g) > 0 <==> exists r | r in contexts :: GroupOf(r) == g
  {
    if contexts != [] {
      var front := contexts[..|contexts| - 1];
      ClientsOf(front, g);
      assert contexts == front + [contexts[|contexts| - 1]];
    }
  }

  method Count(contexts: seq<Row>) returns (counts: map<string, map<string, nat>>)
    ensures Counted(counts, contexts)
  {
    counts := map[];
    for i := 0 to |contexts|
      invariant Counted(counts, contexts[..i])
    {
      var r := contexts[i];
      assert contexts[..i + 1] == contexts[..i] + [r];
      forall g ensures Clients(contexts[..i + 1], g) == Clients(contexts[..i], g) + if GroupOf(r) == g then 1 else 0 {
        ClientsAppend(contexts[..i], r, g);
      }
      ClientsOf(contexts[..i], GroupOf(r));
      var inner := if r.lambda in counts then counts[r.lambda] else map[];
      var n := if r.client in inner then inner[r.client] else 0;
      counts := counts[r.lambda := inner[r.client := n + 1]];
    }
    assert contexts[..|contexts|] == contexts;
  }

  ghost predicate OnePerGroup(list: seq<Counter>) {
    forall i, j | 0 <= i < j < |list| :: list[i].group != list[j].group
  }

  ghost predicate SortedDown(list: seq<Counter>) {
    forall i, j | 0 <= i < j < |list| :: list[i].count >= list[j].count
  }

  lemma InsertKeepsOrder(list: seq<Counter>, i: nat, c: Counter)
    requires i <= |list| && SortedDown(list) && OnePerGroup(list) && forall d | d in list :: d.group != c.group
    requires forall j | 0 <= j < i :: list[j].count >= c.count
    requires forall j | i <= j < |list| :: list[j].count < c.count
    ensures SortedDown(Insert(list, i, c)) && OnePerGroup(Insert(list, i, c))
  {
    hide Insert;
  }

  /** A stable insertion into a list in descending order: after the counters that are as high. */
  method InsertDown(list: seq<Counter>, c: Counter) returns (r: seq<Counter>)
    requires SortedDown(list) && OnePerGroup(list) && forall d | d in list :: d.group != c.group
    ensures SortedDown(r) && OnePerGroup(r) && forall d :: d in r <==> d in list || d == c
  {
    hide Insert, OnePerGroup;
    var i := |list|;
    while i > 0 && list[i - 1].count < c.count
      invariant 0 <= i <= |list| && forall j | i <= j < |list| :: list[j].count < c.count
    {
      i := i - 1;
    }
    InsertKeepsOrder(list, i, c);
    InsertMembers(list, i, c);
    r := Insert(list, i, c);
  }

  /** The counters of one lambda are added to the list. */
  method AddCounters(list: seq<Counter>, lambda: string, counts: map<string, nat>, ghost contexts: seq<Row>, ghost done: set<Group>)
      returns (r: seq<Counter>)
    requires SortedDown(list) && OnePerGroup(list) && ListOf(list, done, contexts)
    requires forall c | c in counts :: counts[c] == Clients(contexts, Group(c, lambda)) && Group(c, lambda) !in done
    ensures SortedDown(r) && OnePerGroup(r)
    ensures ListOf(r, done + (set c | c in counts :: Group(c, lambda)), contexts)
  {
    hide SortedDown, OnePerGroup, Clients, ListOf, Sorted;
    var clients := Sorted(counts.Keys);
    r := list;
    ghost var now := done;
    for j := 0 to |clients|
      invariant SortedDown(r) && OnePerGroup(r) && ListOf(r, now, contexts)
      invariant forall g :: g in now <==> g in done || (g.lambda == lambda && g.client in clients[..j])
    {
      var g := Group(clients[j], lambda);
      var c := Counter(g, counts[clients[j]]);
      ghost var before := r;
      assert forall d | d in r :: d.group != g by { NotListed(r, now, contexts, g); }
      r := InsertDown(r, c);
      ListGrows(before, now, contexts, c, r);
      now := now + {g};
      NextPrefix(clients, j);
    }
    assert now == done + set c | c in counts :: Group(c, lambda);
  }

  lemma NotListed(list: seq<Counter>, done: set<Group>, contexts: seq<Row>, g: Group)
    requires ListOf(list, done, contexts) && g !in done
    ensures forall d | d in list :: d.group != g
  {}

  lemma ListGrows(list: seq<Counter>, done: set<Group>, contexts: seq<Row>, c: Counter, r: seq<Counter>)
    requires ListOf(list, done, contexts) && c.group !in done && c.count == Clients(contexts, c.group)
    requires forall d :: d in r <==> d in list || d == c
    ensures ListOf(r, done + {c.group}, contexts)
  {
    hide Clients;
  }

  /** All the groups, in descending order of the number of clients. */
  method Counters(contexts: seq<Row>) returns (list: seq<Counter>)
    ensures SortedDown(list) && OnePerGroup(list)
    ensures forall c: Counter :: c in list <==> c.count == Clients(contexts, c.group) > 0
  {
    hide SortedDown, OnePerGroup, Clients, Sorted;
    var counts := Count(contexts);
    list := [];
    var lambdas := Sorted(counts.Keys);
    ghost var done: set<Group> := {};
    assert SortedDown(list) && OnePerGroup(list) by { Nothing(); }
    for i := 0 to |lambdas|
      invariant SortedDown(list) && OnePerGroup(list) && ListOf(list, done, contexts)
      invariant forall g :: g in done <==> g.lambda in lambdas[..i] && g.client in counts[g.lambda]
    {
      var l := lambdas[i];
      list := AddCounters(list, l, counts[l], contexts, done);
      done := done + set c | c in counts[l] :: Group(c, l);
      NextPrefix(lambdas, i);
    }
    assert lambdas[..|lambdas|] == lambdas;
    forall g ensures g in done <==> Clients(contexts, g) > 0 {
      ClientsOf(contexts, g);
    }
  }

  lemma Nothing()
    ensures SortedDown([]) && OnePerGroup([])
  {}

  ghost predicate ListOf(list: seq<Counter>, done: set<Group>, contexts: seq<Row>) {
    forall c :: c in list <==> c.group in done && c.count == Clients(contexts, c.group)
  }

  // --- the computers ---

  ghost predicate Endpoints(cs: seq<Station>) {
    forall i, j | 0 <= i < j < |cs| :: cs[i].endpoint != cs[j].endpoint
  }

  /** The listed computers offer exactly these (lambda, end-point) pairs. */
  ghost predicate Knows(cs: seq<Station>, pairs: set<(string, string)>) {
    (forall c | c in cs :: c.lambdas != {} && forall l :: l in c.lambdas <==> (l, c.endpoint) in pairs) &&
    forall p | p in pairs :: Listed(cs, p.1)
  }

  ghost predicate Listed(cs: seq<Station>, e: string) {
    exists c :: c in cs && c.endpoint == e
  }

  ghost predicate Unloaded(cs: seq<Station>) {
    forall c | c in cs :: c.load == 0
  }

  /** A computer offers one more lambda; a new computer goes to the end of the list. */
  method Offer(cs: seq<Station>, lambda: string, e: string, ghost pairs: set<(string, string)>) returns (r: seq<Station>)
    requires Endpoints(cs) && Unloaded(cs) && Knows(cs, pairs)
    ensures Endpoints(r) && Unloaded(r) && Knows(r, pairs + {(lambda, e)})
  {
    var i := 0;
    while i < |cs| && cs[i].endpoint != e
      invariant i <= |cs| && forall j | 0 <= j < i :: cs[j].endpoint != e
    {
      i := i + 1;
    }
    r := if i == |cs| then cs + [Station(e, {lambda}, 0)] else cs[i := cs[i].(lambdas := cs[i].lambdas + {lambda})];
    OfferKnows(cs, i, lambda, e, pairs, r);
  }

  lemma OfferKnows(cs: seq<Station>, i: nat, lambda: string, e: string, pairs: set<(string, string)>, r: seq<Station>)
    requires Endpoints(cs) && Knows(cs, pairs)
    requires i <= |cs| && (forall j | 0 <= j < i :: cs[j].endpoint != e) && (i < |cs| ==> cs[i].endpoint == e)
    requires r == if i == |cs| then cs + [Station(e, {lambda}, 0)] else cs[i := cs[i].(lambdas := cs[i].lambdas + {lambda})]
    ensures Knows(r, pairs + {(lambda, e)})
  {
    var all := pairs + {(lambda, e)};
    forall c | c in r ensures c.lambdas != {} && forall l :: l in c.lambdas <==> (l, c.endpoint) in all {
      var k :| 0 <= k < |r| && r[k] == c;
      if k < |cs| {
        assert cs[k] in cs;
      } else {
        assert !Listed(cs, e);
      }
    }
    forall p | p in all ensures Listed(r, p.1) {
      if p.1 == e {
        assert r[i] in r;
      } else {
        var c :| c in cs && c.endpoint == p.1;
        var k :| 0 <= k < |cs| && cs[k] == c;
        assert r[k] == c;
      }
    }
  }

  /** The pairs of the lambdas in a set. */
  ghost function Pairs(desc: map<string, Desc>, ls: set<string>): set<(string, string)>
    requires ls <= desc.Keys
  {
    set l, e | l in ls && e in desc[l].computers :: (l, e)
  }

  method OfferAll(cs: seq<Station>, lambda: string, es: set<string>, ghost pairs: set<(string, string)>) returns (r: seq<Station>)
    requires Endpoints(cs) && Unloaded(cs) && Knows(cs, pairs)
    ensures Endpoints(r) && Unloaded(r) && Knows(r, pairs + set e | e in es :: (lambda, e))
  {
    hide Endpoints, Unloaded, Knows, Sorted;
    var list := Sorted(es);
    r := cs;
    ghost var now := pairs;
    for j := 0 to |list|
      invariant Endpoints(r) && Unloaded(r) && Knows(r, now)
      invariant forall p :: p in now <==> p in pairs || (p.0 == lambda && p.1 in list[..j])
    {
      r := Offer(r, lambda, list[j], now);
      now := now + {(lambda, list[j])};
      NextPrefix(list, j);
    }
    assert now == pairs + set e | e in es :: (lambda, e);
  }

  /** The computers found in the descriptors, with the lambdas they offer and no load. */
  method Stations(desc: map<string, Desc>) returns (cs: seq<Station>)
    ensures Endpoints(cs) && Unloaded(cs) && Knows(cs, Pairs(desc, desc.Keys))
  {
    hide Endpoints, Unloaded, Knows, Pairs, Sorted;
    var lambdas := Sorted(desc.Keys);
    cs := [];
    ghost var done: set<string> := {};
    NoStations(desc);
    for i := 0 to |lambdas|
      invariant done <= desc.Keys && (forall l :: l in done <==> l in lambdas[..i])
      invariant Endpoints(cs) && Unloaded(cs) && Knows(cs, Pairs(desc, done))
    {
      var l := lambdas[i];
      cs := OfferAll(cs, l, desc[l].computers, Pairs(desc, done));
      MorePairs(desc, done, l);
      done := done + {l};
      NextPrefix(lambdas, i);
    }
    assert done == desc.Keys;
  }

  lemma MorePairs(desc: map<string, Desc>, done: set<string>, l: string)
    requires done <= desc.Keys && l in desc
    ensures Pairs(desc, done + {l}) == Pairs(desc, done) + set e | e in desc[l].computers :: (l, e)
  {}

  lemma NoStations(desc: map<string, Desc>)
    ensures Endpoints([]) && Unloaded([]) && Knows([], Pairs(desc, {}))
  {}

  // --- one group after the other ---

  ghost predicate ByLoad(cs: seq<Station>) {
    forall i, j | 0 <= i < j < |cs| :: cs[i].load <= cs[j].load
  }

  ghost predicate Moved(cs: seq<Station>, c: Station, count: nat, r: seq<Station>) {
    forall x :: x in r <==> (x in cs && x.endpoint != c.endpoint) || x == c.(load := c.load + count)
  }

  /** The list with entry i erased, and put back at j with a higher load. */
  function Move(cs: seq<Station>, i: nat, j: nat, count: nat): seq<Station>
    requires i <= j < |cs|
  {
    Insert(Erase(cs, i), j, cs[i].(load := cs[i].load + count))
  }

  lemma MoveAt(cs: seq<Station>, i: nat, j: nat, count: nat)
    requires i <= j < |cs|
    ensures |Move(cs, i, j, count)| == |cs|
    ensures forall k | 0 <= k < |cs| ::
      Move(cs, i, j, count)[k] == if k < i || k > j then cs[k] else if k < j then cs[k + 1] else cs[i].(load := cs[i].load + count)
  {
    hide Insert, Erase;
  }

  lemma MoveKeepsOrder(cs: seq<Station>, i: nat, j: nat, count: nat)
    requires i <= j < |cs| && ByLoad(cs)
    requires forall k | i < k <= j :: cs[k].load < cs[i].load + count
    requires j + 1 < |cs| ==> cs[j + 1].load >= cs[i].load + count
    ensures ByLoad(Move(cs, i, j, count))
  {
    MoveAt(cs, i, j, count);
    var r := Move(cs, i, j, count);
    hide Move, Insert, Erase;
    forall a, b | 0 <= a < b < |r| ensures r[a].load <= r[b].load {}
  }

  lemma MoveKeepsEndpoints(cs: seq<Station>, i: nat, j: nat, count: nat)
    requires i <= j < |cs| && Endpoints(cs)
    ensures Endpoints(Move(cs, i, j, count))
  {
    MoveAt(cs, i, j, count);
    var r := Move(cs, i, j, count);
    hide Move, Insert, Erase;
    forall a, b | 0 <= a < b < |r| ensures r[a].endpoint != r[b].endpoint {}
  }

  lemma EraseApart(cs: seq<Station>, i: nat)
    requires i < |cs| && Endpoints(cs)
    ensures forall k | 0 <= k < |Erase(cs, i)| :: Erase(cs, i)[k].endpoint != cs[i].endpoint
  {
    hide Erase;
  }

  lemma MoveMembers(cs: seq<Station>, i: nat, j: nat, count: nat)
    requires i <= j < |cs| && Endpoints(cs)
    ensures Moved(cs, cs[i], count, Move(cs, i, j, count))
  {
    hide Insert, Erase, Endpoints;
    var rest := Erase(cs, i);
    EraseMembers(cs, i);
    EraseApart(cs, i);
    InsertMembers(rest, j, cs[i].(load := cs[i].load + count));
    assert forall x | x in rest :: x.endpoint != cs[i].endpoint;
  }

  /** The group goes to the first computer in the list that offers its lambda, which is moved up. */
  method Place(cs: seq<Station>, lambda: string, count: nat) returns (r: seq<Station>, chosen: Option<Station>)
    requires ByLoad(cs) && Endpoints(cs)
    ensures ByLoad(r) && Endpoints(r)
    ensures chosen.None? ==> r == cs && forall c | c in cs :: lambda !in c.lambdas
    ensures chosen.Some? ==>
      var c := chosen.value;
      c in cs && lambda in c.lambdas && Moved(cs, c, count, r) &&
      forall x | x in cs && lambda in x.lambdas :: c.load <= x.load
  {
    hide Insert, Erase, Endpoints, Move, Moved;
    var i := 0;
    while i < |cs| && lambda !in cs[i].lambdas
      invariant i <= |cs| && forall k | 0 <= k < i :: lambda !in cs[k].lambdas
    {
      i := i + 1;
    }
    if i == |cs| {
      return cs, None;
    }
    var load := cs[i].load + count;
    var j := i;
    while j + 1 < |cs| && cs[j + 1].load < load
      invariant i <= j < |cs| && forall k | i < k <= j :: cs[k].load < load
    {
      j := j + 1;
    }
    MoveKeepsOrder(cs, i, j, count);
    MoveKeepsEndpoints(cs, i, j, count);
    MoveMembers(cs, i, j, count);
    return Move(cs, i, j, count), Some(cs[i]);
  }

  // --- the whole table ---

  function Servers(rows: seq<Row>): (to: seq<string>)
    ensures |to| == |rows| && forall k | 0 <= k < |rows| :: to[k] == rows[k].server
  {
    seq(|rows|, k requires 0 <= k < |rows| => rows[k].server)
  }

  function Weights(contexts: seq<Row>, rows: seq<Row>): (ws: seq<nat>)
    ensures |ws| == |rows| && forall k | 0 <= k < |rows| :: ws[k] == Clients(contexts, GroupOf(rows[k]))
  {
    seq(|rows|, k requires 0 <= k < |rows| => Clients(contexts, GroupOf(rows[k])))
  }

  /** The clients that the first rows give to a computer. */
  function LoadOf(contexts: seq<Row>, rows: seq<Row>, e: string): nat {
    Load(Weights(contexts, rows), Servers(rows), e)
  }

  /** Row k goes to a least loaded computer among those that offer its lambda. */
  ghost predicate LeastLoaded(contexts: seq<Row>, desc: map<string, Desc>, rows: seq<Row>, k: nat)
    requires k < |rows|
  {
    rows[k].server in Hosts(desc, rows[k].lambda) &&
    forall e | e in Hosts(desc, rows[k].lambda) :: LoadOf(contexts, rows[..k], rows[k].server) <= LoadOf(contexts, rows[..k], e)
  }

  ghost predicate HasRow(rows: seq<Row>, g: Group) {
    exists k :: 0 <= k < |rows| && GroupOf(rows[k]) == g
  }

  ghost predicate OneRowEach(rows: seq<Row>) {
    forall i, j | 0 <= i < j < |rows| :: GroupOf(rows[i]) != GroupOf(rows[j])
  }

  /** What the table promises. */
  ghost predicate Balanced(contexts: seq<Row>, desc: map<string, Desc>, rows: seq<Row>) {
    OneRowEach(rows) &&
    (forall g :: HasRow(rows, g) <==> Clients(contexts, g) > 0 && Hosts(desc, g.lambda) != {}) &&
    Descending(Weights(contexts, rows)) &&
    forall k | 0 <= k < |rows| :: LeastLoaded(contexts, desc, rows, k)
  }

  ghost predicate Tracks(cs: seq<Station>, contexts: seq<Row>, rows: seq<Row>) {
    forall c | c in cs :: c.load == LoadOf(contexts, rows, c.endpoint)
  }

  lemma RowsAppend(contexts: seq<Row>, rows: seq<Row>, row: Row, e: string)
    ensures Weights(contexts, rows + [row]) == Weights(contexts, rows) + [Clients(contexts, GroupOf(row))]
    ensures Servers(rows + [row]) == Servers(rows) + [row.server]
    ensures LoadOf(contexts, rows + [row], e)
         == LoadOf(contexts, rows, e) + if e == row.server then Clients(contexts, GroupOf(row)) else 0
  {
    OneMore(Weights(contexts, rows), Servers(rows), Clients(contexts, GroupOf(row)), row.server, e);
    assert Weights(contexts, rows + [row]) == Weights(contexts, rows) + [Clients(contexts, GroupOf(row))];
    assert Servers(rows + [row]) == Servers(rows) + [row.server];
  }

  lemma RowsPrefix(contexts: seq<Row>, rows: seq<Row>, k: nat)
    requires k <= |rows|
    ensures Weights(contexts, rows[..k]) == Weights(contexts, rows)[..k]
    ensures Servers(rows[..k]) == Servers(rows)[..k]
  {}

  lemma MovedTracks(cs: seq<Station>, c: Station, contexts: seq<Row>, rows: seq<Row>, row: Row, r: seq<Station>)
    requires Tracks(cs, contexts, rows) && c in cs && row.server == c.endpoint
    requires Moved(cs, c, Clients(contexts, GroupOf(row)), r)
    ensures Tracks(r, contexts, rows + [row])
  {
    hide LoadOf, Clients;
    forall x | x in r ensures x.load == LoadOf(contexts, rows + [row], x.endpoint) {
      RowsAppend(contexts, rows, row, x.endpoint);
    }
  }

  lemma MovedKnows(cs: seq<Station>, c: Station, count: nat, pairs: set<(string, string)>, r: seq<Station>)
    requires Knows(cs, pairs) && c in cs && Moved(cs, c, count, r)
    ensures Knows(r, pairs)
  {
    forall p | p in pairs ensures Listed(r, p.1) {
      var x :| x in cs && x.endpoint == p.1;
      assert if x.endpoint == c.endpoint then c.(load := c.load + count) in r else x in r;
    }
  }

  lemma HostsListed(cs: seq<Station>, desc: map<string, Desc>, l: string, e: string)
    requires Knows(cs, Pairs(desc, desc.Keys))
    ensures e in Hosts(desc, l) <==> exists c :: c in cs && c.endpoint == e && l in c.lambdas
  {
    if e in Hosts(desc, l) {
      assert (l, e) in Pairs(desc, desc.Keys);
      var c :| c in cs && c.endpoint == (l, e).1;
      assert l in c.lambdas;
    }
    if c :| c in cs && c.endpoint == e && l in c.lambdas {
      assert (l, c.endpoint) in Pairs(desc, desc.Keys);
    }
  }

  ghost predicate InList(list: seq<Counter>, n: nat, g: Group)
    requires n <= |list|
  {
    exists i :: 0 <= i < n && list[i].group == g
  }

  ghost predicate LambdaInList(list: seq<Counter>, n: nat, l: string)
    requires n <= |list|
  {
    exists i :: 0 <= i < n && list[i].group.lambda == l
  }

  ghost predicate Requested(contexts: seq<Row>, l: string) {
    exists r | r in contexts :: r.lambda == l
  }

  /** What holds after the first n groups. */
  ghost predicate Progress(contexts: seq<Row>, desc: map<string, Desc>, list: seq<Counter>, n: nat, rows: seq<Row>)
    requires n <= |list|
  {
    OneRowEach(rows) &&
    (forall g :: HasRow(rows, g) <==> InList(list, n, g) && Hosts(desc, g.lambda) != {}) &&
    Descending(Weights(contexts, rows)) &&
    (forall k, m | 0 <= k < |rows| && n <= m < |list| :: Weights(contexts, rows)[k] >= list[m].count) &&
    forall k | 0 <= k < |rows| :: LeastLoaded(contexts, desc, rows, k)
  }

  lemma Skip(contexts: seq<Row>, desc: map<string, Desc>, list: seq<Counter>, n: nat, rows: seq<Row>)
    requires n < |list| && Progress(contexts, desc, list, n, rows) && Hosts(desc, list[n].group.lambda) == {}
    ensures Progress(contexts, desc, list, n + 1, rows)
  {
    hide LeastLoaded, OneRowEach, HasRow, Weights, Hosts, Clients;
    forall g ensures InList(list, n + 1, g) <==> InList(list, n, g) || g == list[n].group {}
  }

  lemma Serve(contexts: seq<Row>, desc: map<string, Desc>, list: seq<Counter>, n: nat, rows: seq<Row>, row: Row)
    requires n < |list| && Progress(contexts, desc, list, n, rows) && SortedDown(list) && OnePerGroup(list)
    requires GroupOf(row) == list[n].group && list[n].count == Clients(contexts, GroupOf(row))
    requires row.server in Hosts(desc, row.lambda)
    requires forall e | e in Hosts(desc, row.lambda) :: LoadOf(contexts, rows, row.server) <= LoadOf(contexts, rows, e)
    ensures Progress(contexts, desc, list, n + 1, rows + [row])
  {
    hide LoadOf, Clients;
    var more := rows + [row];
    ServeRows(desc, list, n, rows, row);
    RowsAppend(contexts, rows, row, row.server);
    forall k | 0 <= k < |more| ensures LeastLoaded(contexts, desc, more, k) {
      assert more[..k] == rows[..k];
      if k < |rows| {
        assert LeastLoaded(contexts, desc, rows, k);
      } else {
        assert rows[..k] == rows;
      }
    }
  }

  lemma ServeRows(desc: map<string, Desc>, list: seq<Counter>, n: nat, rows: seq<Row>, row: Row)
    requires n < |list| && OneRowEach(rows) && OnePerGroup(list) && GroupOf(row) == list[n].group
    requires forall g :: HasRow(rows, g) <==> InList(list, n, g) && Hosts(desc, g.lambda) != {}
    requires Hosts(desc, row.lambda) != {}
    ensures OneRowEach(rows + [row])
    ensures forall g :: HasRow(rows + [row], g) <==> InList(list, n + 1, g) && Hosts(desc, g.lambda) != {}
  {
    hide Hosts;
    var more := rows + [row];
    assert !InList(list, n, GroupOf(row));
    assert !HasRow(rows, GroupOf(row));
    forall g ensures HasRow(more, g) <==> HasRow(rows, g) || g == GroupOf(row) {
      if HasRow(rows, g) {
        var k :| 0 <= k < |rows| && GroupOf(rows[k]) == g;
        assert more[k] == rows[k];
      }
      assert more[|rows|] == row;
    }
    forall g ensures InList(list, n + 1, g) <==> InList(list, n, g) || g == list[n].group {}
  }

  /**
   * The associations for the active clients: one row for every group some computer can serve,
   * with the lambdas that no computer serves on the side.
   */
  method Table(contexts: seq<Row>, desc: map<string, Desc>) returns (rows: seq<Row>, unserved: set<string>)
    ensures Balanced(contexts, desc, rows)
    ensures forall l :: l in unserved <==> Hosts(desc, l) == {} && Requested(contexts, l)
  {
    hide Balanced, Progress, Clients, Hosts, LoadOf, Endpoints, Knows, OnePerGroup, SortedDown, Pairs, Moved, ByLoad, Tracks, InList;
    var list := Counters(contexts);
    var cs := Stations(desc);
    rows, unserved := [], {};
    ghost var pairs := Pairs(desc, desc.Keys);
    Start(contexts, desc, list, cs);
    for n := 0 to |list|
      invariant Progress(contexts, desc, list, n, rows)
      invariant ByLoad(cs) && Endpoints(cs) && Knows(cs, pairs) && Tracks(cs, contexts, rows)
      invariant forall l :: l in unserved <==> Hosts(desc, l) == {} && LambdaInList(list, n, l)
    {
      var group := list[n].group;
      assert list[n] in list;
      var before := cs;
      var chosen;
      cs, chosen := Place(cs, group.lambda, list[n].count);
      if chosen.None? {
        Nowhere(before, desc, group.lambda);
        Skip(contexts, desc, list, n, rows);
        unserved := unserved + {group.lambda};
      } else {
        var row := Row(group.client, group.lambda, chosen.value.endpoint);
        LeastHost(before, desc, contexts, rows, group.lambda, chosen.value);
        Serve(contexts, desc, list, n, rows, row);
        MovedTracks(before, chosen.value, contexts, rows, row, cs);
        MovedKnows(before, chosen.value, list[n].count, pairs, cs);
        rows := rows + [row];
      }
    }
    Finish(contexts, desc, list, rows);
    forall l ensures Requested(contexts, l) <==> LambdaInList(list, |list|, l) {
      LambdasListed(contexts, list, l);
    }
  }

  lemma Start(contexts: seq<Row>, desc: map<string, Desc>, list: seq<Counter>, cs: seq<Station>)
    requires Unloaded(cs)
    ensures Progress(contexts, desc, list, 0, []) && ByLoad(cs) && Tracks(cs, contexts, [])
  {}

  lemma Nowhere(cs: seq<Station>, desc: map<string, Desc>, l: string)
    requires Knows(cs, Pairs(desc, desc.Keys)) && forall c | c in cs :: l !in c.lambdas
    ensures Hosts(desc, l) == {}
  {
    hide Knows, Hosts, Pairs;
    forall e ensures e !in Hosts(desc, l) { HostsListed(cs, desc, l, e); }
  }

  lemma LeastHost(cs: seq<Station>, desc: map<string, Desc>, contexts: seq<Row>, rows: seq<Row>, l: string, c: Station)
    requires Knows(cs, Pairs(desc, desc.Keys)) && Tracks(cs, contexts, rows)
    requires c in cs && l in c.lambdas && forall x | x in cs && l in x.lambdas :: c.load <= x.load
    ensures c.endpoint in Hosts(desc, l)
    ensures forall e | e in Hosts(desc, l) :: LoadOf(contexts, rows, c.endpoint) <= LoadOf(contexts, rows, e)
  {
    hide Knows, Hosts, Pairs, LoadOf;
    HostsListed(cs, desc, l, c.endpoint);
    forall e | e in Hosts(desc, l) ensures LoadOf(contexts, rows, c.endpoint) <= LoadOf(contexts, rows, e) {
      HostsListed(cs, desc, l, e);
    }
  }

  lemma Finish(contexts: seq<Row>, desc: map<string, Desc>, list: seq<Counter>, rows: seq<Row>)
    requires Progress(contexts, desc, list, |list|, rows)
    requires forall c: Counter :: c in list <==> c.count == Clients(contexts, c.group) > 0
    ensures Balanced(contexts, desc, rows)
  {
    hide Clients, LeastLoaded, Weights, OneRowEach, HasRow, Hosts;
    forall g ensures InList(list, |list|, g) <==> Clients(contexts, g) > 0 {
      assert Clients(contexts, g) > 0 <==> Counter(g, Clients(contexts, g)) in list;
    }
  }

  lemma LambdasListed(contexts: seq<Row>, list: seq<Counter>, l: string)
    requires forall c: Counter :: c in list <==> c.count == Clients(contexts, c.group) > 0
    ensures Requested(contexts, l) <==> LambdaInList(list, |list|, l)
  {
    hide Clients;
    if r :| r in contexts && r.lambda == l {
      ClientsOf(contexts, GroupOf(r));
      assert Counter(GroupOf(r), Clients(contexts, GroupOf(r))) in list;
    }
    if i :| 0 <= i < |list| && list[i].group.lambda == l {
      assert list[i] in list;
      ClientsOf(contexts, list[i].group);
    }
  }

  // --- what the table achieves ---

  /** The contexts whose lambda is offered by some computer. */
  function Served(contexts: seq<Row>, desc: map<string, Desc>): nat {
    if contexts == [] then 0
    else
      var last := |contexts| - 1;
      Served(contexts[..last], desc) + if Hosts(desc, contexts[last].lambda) != {} then 1 else 0
  }

  lemma {:induction false} TotalRaised(ws: seq<nat>, k: nat)
    requires k < |ws|
    ensures Total(ws[k := ws[k] + 1]) == Total(ws) + 1
  {
    var (up, last) := (ws[k := ws[k] + 1], |ws| - 1);
    if k < last {
      TotalRaised(ws[..last], k);
      assert up[..last] == ws[..last][k := ws[k] + 1];
    } else {
      assert up[..last] == ws[..last];
    }
  }

  lemma {:induction false} NoWeight(rows: seq<Row>)
    ensures Total(Weights([], rows)) == 0
  {
    if rows != [] {
      var last := |rows| - 1;
      NoWeight(rows[..last]);
      RowsPrefix([], rows, last);
    }
  }

  /** One more context weighs on the row of its group. */
  lemma WeightsRaised(contexts: seq<Row>, r: Row, rows: seq<Row>)
    requires OneRowEach(rows)
    ensures Total(Weights(contexts + [r], rows)) == Total(Weights(contexts, rows)) + if HasRow(rows, GroupOf(r)) then 1 else 0
  {
    hide Total, Clients;
    var (ws, up) := (Weights(contexts, rows), Weights(contexts + [r], rows));
    forall g ensures Clients(contexts + [r], g) == Clients(contexts, g) + if GroupOf(r) == g then 1 else 0 {
      ClientsAppend(contexts, r, g);
    }
    if HasRow(rows, GroupOf(r)) {
      var k :| 0 <= k < |rows| && GroupOf(rows[k]) == GroupOf(r);
      TotalRaised(ws, k);
      assert up == ws[k := ws[k] + 1];
    } else {
      assert up == ws;
    }
  }

  lemma {:induction false} WeightsAddUp(contexts: seq<Row>, desc: map<string, Desc>, rows: seq<Row>)
    requires OneRowEach(rows)
    requires forall r | r in contexts :: HasRow(rows, GroupOf(r)) <==> Hosts(desc, r.lambda) != {}
    ensures Total(Weights(contexts, rows)) == Served(contexts, desc)
  {
    if contexts == [] {
      NoWeight(rows);
    } else {
      hide Total, Hosts, Clients, HasRow, OneRowEach, Weights;
      var (front, last) := (contexts[..|contexts| - 1], contexts[|contexts| - 1]);
      assert contexts == front + [last];
      WeightsAddUp(front, desc, rows);
      WeightsRaised(front, last, rows);
    }
  }

  /** No client that can be served is lost: the loads of the computers add up to their number. */
  lemma LoadIsConserved(contexts: seq<Row>, desc: map<string, Desc>, rows: seq<Row>, es: seq<string>)
    requires Balanced(contexts, desc, rows)
    requires Distinct(es) && forall l :: forall e | e in Hosts(desc, l) :: e in es
    ensures SumLoads(Weights(contexts, rows), Servers(rows), es) == Served(contexts, desc)
  {
    hide Clients, LoadOf, Hosts;
    LoadsAddUp(Weights(contexts, rows), Servers(rows), es) by {
      forall k | 0 <= k < |rows| ensures Servers(rows)[k] in es {
        assert LeastLoaded(contexts, desc, rows, k);
      }
    }
    WeightsAddUp(contexts, desc, rows) by {
      forall r | r in contexts ensures HasRow(rows, GroupOf(r)) <==> Hosts(desc, r.lambda) != {} {
        ClientsOf(contexts, GroupOf(r));
      }
    }
  }

  /**
   * When every requested lambda is offered by the same m computers, no computer gets more than
   * 4/3 - 1/(3m) times the highest load b of any other way to give the same groups to them.
   */
  lemma TableIsNearBest(contexts: seq<Row>, desc: map<string, Desc>, rows: seq<Row>, es: seq<string>, other: seq<string>, b: nat, e: string)
    requires Balanced(contexts, desc, rows)
    requires Distinct(es) && forall r | r in contexts :: Hosts(desc, r.lambda) == set x | x in es
    requires |other| == |rows| && Among(other, es) && forall x | x in es :: Load(Weights(contexts, rows), other, x) <= b
    requires e in es
    ensures 3 * |es| * LoadOf(contexts, rows, e) <= (4 * |es| - 1) * b
  {
    hide Clients, Load, Hosts;
    var (ws, to) := (Weights(contexts, rows), Servers(rows));
    forall k | 0 <= k < |ws| ensures GreedyAt(ws, to, es, k) {
      assert LeastLoaded(contexts, desc, rows, k);
      assert HasRow(rows, GroupOf(rows[k]));
      ClientsOf(contexts, GroupOf(rows[k]));
      RowsPrefix(contexts, rows, k);
      forall x | x in es ensures Load(ws[..k], to[..k], to[k]) <= Load(ws[..k], to[..k], x) {
        assert LoadOf(contexts, rows[..k], rows[k].server) <= LoadOf(contexts, rows[..k], x);
      }
    }
    GreedyIsNearBest(ws, to, other, es, b, e);
  }

  // --- the descriptors ---

  ghost predicate Coherent(desc: map<string, Desc>, proxy: map<string, string>) {
    desc.Keys == proxy.Keys && forall l | l in desc :: desc[l].default == proxy[l] && proxy[l] in desc[l].computers
  }

  /** The controller and the default associations that it has installed in the proxy. */
  class Controller {
    var desc: map<string, Desc>
    var proxy: map<string, string>

    ghost predicate Valid()
      reads this
    {
      Coherent(desc, proxy)
    }

    constructor ()
      ensures Valid() && desc == map[]
    {
      desc, proxy := map[], map[];
    }

    /** The proxy hears of the first computer of a lambda only. */
    method AddComputer(e: string, lambdas: seq<string>)
      requires Valid()
      modifies this
      ensures Valid()
      ensures forall l :: AddedAt(old((desc, proxy)), (desc, proxy), e, l, l in lambdas)
    {
      hide Coherent, AddedFor, AddedAt;
      ghost var m := (desc, proxy);
      NothingYet(m, e);
      for i := 0 to |lambdas|
        invariant Valid() && AddedFor(m, (desc, proxy), e, lambdas[..i])
      {
        var l := lambdas[i];
        OneAdded(m, (desc, proxy), e, lambdas, i);
        PlusOneIsCoherent((desc, proxy), e, l);
        if l in desc {
          desc := desc[l := desc[l].(computers := desc[l].computers + {e})];
        } else {
          desc := desc[l := Desc({e}, e)];
          proxy := proxy[l := e];
        }
      }
      AllAdded(m, (desc, proxy), e, lambdas);
    }

    /** A lambda without computers goes away; one that has lost its default gets the first that is left. */
    method DelComputer(e: string, lambdas: seq<string>)
      requires Valid()
      modifies this
      ensures Valid()
      ensures forall l :: LostAt(old((desc, proxy)), (desc, proxy), e, l, l in lambdas)
    {
      hide Coherent, LostFor, LostAt, Least;
      ghost var m := (desc, proxy);
      NothingYet(m, e);
      for i := 0 to |lambdas|
        invariant Valid() && LostFor(m, (desc, proxy), e, lambdas[..i])
      {
        var l := lambdas[i];
        OneLost(m, (desc, proxy), e, lambdas, i);
        MinusOneIsCoherent((desc, proxy), e, l);
        if l in desc && e in desc[l].computers {
          var rest := desc[l].computers - {e};
          if desc[l].default != e {
            desc := desc[l := desc[l].(computers := rest)];
          } else if rest == {} {
            desc := desc - {l};
            proxy := proxy - {l};
          } else {
            desc := desc[l := Desc(rest, Least(rest))];
            proxy := proxy[l := Least(rest)];
          }
        }
      }
      AllLost(m, (desc, proxy), e, lambdas);
    }
  }

  // --- one computer more or less, for several lambdas ---

  /** The descriptors and the defaults. */
  type Maps = (map<string, Desc>, map<string, string>)

  function PlusOne(m: Maps, e: string, l: string): Maps {
    var (desc, proxy) := m;
    if l in desc then (desc[l := desc[l].(computers := desc[l].computers + {e})], proxy)
    else (desc[l := Desc({e}, e)], proxy[l := e])
  }

  function MinusOne(m: Maps, e: string, l: string): Maps {
    var (desc, proxy) := m;
    if l !in desc || e !in desc[l].computers then m
    else
      var rest := desc[l].computers - {e};
      if desc[l].default != e then (desc[l := desc[l].(computers := rest)], proxy)
      else if rest == {} then (desc - {l}, proxy - {l})
      else (desc[l := Desc(rest, Least(rest))], proxy[l := Least(rest)])
  }

  /** Nothing changes for another lambda. */
  predicate SameFor(m: Maps, n: Maps, k: string) {
    (k in m.0 <==> k in n.0) && (k in m.1 <==> k in n.1) && (k in m.0 ==> m.0[k] == n.0[k]) && (k in m.1 ==> m.1[k] == n.1[k])
  }

  lemma OthersStay(m: Maps, e: string, l: string, k: string)
    requires k != l
    ensures SameFor(m, PlusOne(m, e, l), k) && SameFor(m, MinusOne(m, e, l), k)
  {
    hide Least;
  }

  lemma PlusOneIsCoherent(m: Maps, e: string, l: string)
    requires Coherent(m.0, m.1)
    ensures Coherent(PlusOne(m, e, l).0, PlusOne(m, e, l).1)
  {}

  lemma MinusOneIsCoherent(m: Maps, e: string, l: string)
    requires Coherent(m.0, m.1)
    ensures Coherent(MinusOne(m, e, l).0, MinusOne(m, e, l).1)
  {}

  /** What has become of lambda l since e has been added, for it or not. */
  predicate AddedAt(m: Maps, n: Maps, e: string, l: string, added: bool) {
    && Hosts(n.0, l) == Hosts(m.0, l) + (if added then {e} else {})
    && (l in n.1 <==> l in m.1 || added)
    && (l in n.1 ==> n.1[l] == if l in m.1 then m.1[l] else e)
  }

  /** The same since e has been taken away: where it was the default, the first computer that is left is. */
  predicate LostAt(m: Maps, n: Maps, e: string, l: string, lost: bool) {
    && Hosts(n.0, l) == Hosts(m.0, l) - (if lost then {e} else {})
    && (l in n.1 <==> Hosts(n.0, l) != {})
    && (l in n.1 ==> l in m.1 && n.1[l] == if lost && m.1[l] == e then Least(Hosts(n.0, l)) else m.1[l])
  }

  ghost predicate AddedFor(m: Maps, n: Maps, e: string, lambdas: seq<string>) {
    forall l :: AddedAt(m, n, e, l, l in lambdas)
  }

  ghost predicate LostFor(m: Maps, n: Maps, e: string, lambdas: seq<string>) {
    forall l :: LostAt(m, n, e, l, l in lambdas)
  }

  lemma NothingYet(m: Maps, e: string)
    requires Coherent(m.0, m.1)
    ensures AddedFor(m, m, e, []) && LostFor(m, m, e, [])
  {
    hide Least;
  }

  lemma OneAdded(m: Maps, n: Maps, e: string, lambdas: seq<string>, i: nat)
    requires Coherent(n.0, n.1) && i < |lambdas| && AddedFor(m, n, e, lambdas[..i])
    ensures var next := i + 1; AddedFor(m, PlusOne(n, e, lambdas[i]), e, lambdas[..next])
  {
    hide PlusOne, AddedAt;
    var (l, next) := (lambdas[i], i + 1);
    assert lambdas[..next] == lambdas[..i] + [l];
    forall k ensures AddedAt(m, PlusOne(n, e, l), e, k, k in lambdas[..next]) {
      assert AddedAt(m, n, e, k, k in lambdas[..i]);
      if k == l {
        AddedHere(m, n, e, l, l in lambdas[..i]);
      } else {
        OthersStay(n, e, l, k);
        AddedThere(m, n, PlusOne(n, e, l), e, k, k in lambdas[..i]);
      }
    }
  }

  lemma AddedHere(m: Maps, n: Maps, e: string, l: string, added: bool)
    requires Coherent(n.0, n.1) && AddedAt(m, n, e, l, added)
    ensures AddedAt(m, PlusOne(n, e, l), e, l, true)
  {}

  lemma AddedThere(m: Maps, n: Maps, n': Maps, e: string, l: string, added: bool)
    requires AddedAt(m, n, e, l, added) && SameFor(n, n', l)
    ensures AddedAt(m, n', e, l, added)
  {}

  lemma OneLost(m: Maps, n: Maps, e: string, lambdas: seq<string>, i: nat)
    requires Coherent(n.0, n.1) && i < |lambdas| && LostFor(m, n, e, lambdas[..i])
    ensures var next := i + 1; LostFor(m, MinusOne(n, e, lambdas[i]), e, lambdas[..next])
  {
    hide MinusOne, LostAt;
    var (l, next) := (lambdas[i], i + 1);
    assert lambdas[..next] == lambdas[..i] + [l];
    forall k ensures LostAt(m, MinusOne(n, e, l), e, k, k in lambdas[..next]) {
      assert LostAt(m, n, e, k, k in lambdas[..i]);
      if k == l {
        LostHere(m, n, e, l, l in lambdas[..i]);
      } else {
        OthersStay(n, e, l, k);
        LostThere(m, n, MinusOne(n, e, l), e, k, k in lambdas[..i]);
      }
    }
  }

  lemma LostHere(m: Maps, n: Maps, e: string, l: string, lost: bool)
    requires Coherent(n.0, n.1) && LostAt(m, n, e, l, lost)
    ensures LostAt(m, MinusOne(n, e, l), e, l, true)
  {
    hide Least;
  }

  lemma LostThere(m: Maps, n: Maps, n': Maps, e: string, l: string, lost: bool)
    requires LostAt(m, n, e, l, lost) && SameFor(n, n', l)
    ensures LostAt(m, n', e, l, lost)
  {
    hide Least;
  }

  lemma AllAdded(m: Maps, n: Maps, e: string, lambdas: seq<string>)
    requires AddedFor(m, n, e, lambdas[..|lambdas|])
    ensures forall l :: AddedAt(m, n, e, l, l in lambdas)
  {
    assert lambdas[..|lambdas|] == lambdas;
    hide AddedAt;
  }

  lemma AllLost(m: Maps, n: Maps, e: string, lambdas: seq<string>)
    requires LostFor(m, n, e, lambdas[..|lambdas|])
    ensures forall l :: LostAt(m, n, e, l, l in lambdas)
  {
    assert lambdas[..|lambdas|] == lambdas;
    hide LostAt;
  }
}
