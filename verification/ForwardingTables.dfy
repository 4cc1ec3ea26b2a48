/** Forwarding tables: the objects that a router keeps, the server that configures
    them, and the values that the rest of the model uses to speak about them. */
module ForwardingTables {
  import opened Wrappers

  type Lambda = string
  type Endpoint = string

  /** A (lambda, destination) pair; a table maps it to the final flag. */
  type Key = (Lambda, Endpoint)
  type Table = map<Key, bool>

  /** The two tables of an edge router: all the destinations, and the final ones only. */
  datatype RouterTables = RouterTables(overall: Table, final: Table)

  const NoRoutes := RouterTables(map[], map[])

  datatype Command =
    | Flush
    | Change(lambda: Lambda, destination: Endpoint, isFinal: bool)
    | Remove(lambda: Lambda, destination: Endpoint)

  function Apply(t: RouterTables, c: Command): RouterTables {
    match c
    case Flush => NoRoutes
    case Change(l, d, f) => RouterTables(t.overall[(l, d) := f], if f then t.final[(l, d) := f] else t.final)
    case Remove(l, d) => RouterTables(t.overall - {(l, d)}, t.final - {(l, d)})
  }

  /** The same destination and flag for several lambdas, one command after the other. */
  function ChangeAll(t: RouterTables, lambdas: seq<Lambda>, d: Endpoint, f: bool): RouterTables {
    if lambdas == [] then t
    else Apply(ChangeAll(t, lambdas[..|lambdas| - 1], d, f), Change(lambdas[|lambdas| - 1], d, f))
  }

  /** A batch of changes touches exactly the keys it names, whatever their order and multiplicity. */
  lemma {:induction false} ChangeAllContents(t: RouterTables, lambdas: seq<Lambda>, d: Endpoint, f: bool, k: Key)
    ensures var r := ChangeAll(t, lambdas, d, f);
            var named := k.1 == d && k.0 in lambdas;
            && (k in r.overall <==> k in t.overall || named)
            && (k in r.overall ==> r.overall[k] == if named then f else t.overall[k])
            && (k in r.final <==> k in t.final || (named && f))
            && (k in r.final ==> r.final[k] == if named && f then f else t.final[k])
  {
    if lambdas != [] {
      var front := lambdas[..|lambdas| - 1];
      assert lambdas == front + [lambdas[|lambdas| - 1]];
      ChangeAllContents(t, front, d, f, k);
    }
  }

  /** Destinations listed for a lambda. */
  ghost predicate Offers(t: Table, l: Lambda, d: Endpoint) { (l, d) in t }

  type Rows = map<Lambda, map<Endpoint, bool>>

  /** The rows of a table as one map on (lambda, destination) pairs. */
  ghost function Flat(t: Rows): (m: Table)
    ensures forall k: Key :: k in m <==> k.0 in t && k.1 in t[k.0]
    ensures forall k: Key :: k in m ==> m[k] == t[k.0][k.1]
  {
    var keys := set l, d | l in t && d in t[l] :: (l, d);
    map k: Key | k in keys :: t[k.0][k.1]
  }

  lemma FlatPut(t: Rows, l: Lambda, d: Endpoint, f: bool)
    requires l in t
    ensures Flat(t[l := t[l][d := f]]) == Flat(t)[(l, d) := f]
  {
    hide Flat;
    var t' := t[l := t[l][d := f]];
    forall k: Key ensures k in Flat(t') <==> k in Flat(t)[(l, d) := f] {
      assert k.0 != l ==> k.0 in t' ==> t'[k.0] == t[k.0];
    }
  }

  lemma FlatNewRow(t: Rows, l: Lambda)
    requires l !in t
    ensures Flat(t[l := map[]]) == Flat(t)
  {
    hide Flat;
  }

  lemma FlatDrop(t: Rows, l: Lambda, d: Endpoint)
    requires l in t
    ensures Flat(t[l := t[l] - {d}]) == Flat(t) - {(l, d)}
    ensures t[l] - {d} == map[] ==> Flat(t - {l}) == Flat(t) - {(l, d)}
  {
    hide Flat;
    var row := t[l] - {d};
    forall k: Key ensures k in Flat(t[l := row]) <==> k in Flat(t) - {(l, d)} {
      assert k.0 == l ==> (k.1 in row <==> k.1 in t[l] && k.1 != d);
    }
    if row == map[] {
      forall k: Key ensures k in Flat(t - {l}) <==> k in Flat(t) - {(l, d)} {
        assert k.1 !in row;
      }
    }
  }

  class ForwardingTable {
    var table: Rows

    ghost function View(): Table
      reads this
    {
      Flat(table)
    }

    constructor ()
      ensures View() == map[] && table == map[]
    {
      table := map[];
    }

    /** A negative weight is refused at once; a null weight or an empty destination only after
        the row of the lambda has been created, which leaves a row without destinations. */
    method Change(l: Lambda, d: Endpoint, weight: real, f: bool) returns (ok: bool)
      modifies this
      ensures ok == (weight > 0.0 && d != "")
      ensures View() == if ok then old(View())[(l, d) := f] else old(View())
      ensures table.Keys == old(table.Keys) + if weight < 0.0 then {} else {l}
    {
      if weight < 0.0 { return false; }
      if l !in table {
        FlatNewRow(table, l);
        table := table[l := map[]];
      }
      if d == "" || weight <= 0.0 { return false; }
      FlatPut(table, l, d, f);
      table := table[l := table[l][d := f]];
      return true;
    }

    /** Removing the last destination of a lambda removes its row. */
    method Remove(l: Lambda, d: Endpoint)
      modifies this
      ensures View() == old(View()) - {(l, d)}
      ensures forall x | x in table :: x in old(table)
      ensures l in table ==> table[l] != map[]
    {
      if l in table {
        var row := table[l] - {d};
        FlatDrop(table, l, d);
        table := if row == map[] then table - {l} else table[l := row];
      }
    }

    method RemoveLambda(l: Lambda)
      modifies this
      ensures table == old(table) - {l}
      ensures View() == map k | k in old(View()) && k.0 != l :: old(View())[k]
    {
      table := table - {l};
    }

    /** Whatever the policy of the entry, the destination returned is a listed one;
        None stands for the NoDestinations exception. */
    method Lookup(l: Lambda) returns (r: Option<Endpoint>)
      ensures r.None? <==> forall d :: !Offers(View(), l, d)
      ensures r.Some? ==> Offers(View(), l, r.value)
    {
      if l !in table || table[l] == map[] { return None; }
      var d :| d in table[l];
      assert Offers(View(), l, d);
      return Some(d);
    }
  }

  /** ForwardingTableServer with the overall and the final table of an edge router. */
  class DualTableServer {
    const overall: ForwardingTable
    const final: ForwardingTable

    constructor (overall: ForwardingTable, final: ForwardingTable)
      ensures this.overall == overall && this.final == final
    {
      this.overall := overall;
      this.final := final;
    }

    ghost function Tables(): RouterTables
      reads this, overall, final
    {
      RouterTables(overall.View(), final.View())
    }

    /** One configuration message. Errors raised by a table are reported in the reply text only,
        which no client reads, so the call succeeds even when nothing has changed. */
    method Configure(c: Command, weight: real) returns (reply: string)
      requires overall != final
      modifies overall, final
      ensures reply == "OK" <==> !(c.Change? && (weight <= 0.0 || c.destination == ""))
      ensures Tables() == if reply == "OK" then Apply(old(Tables()), c) else old(Tables())
    {
      reply := "OK";
      match c {
        case Flush =>
          FlushTable(overall);
          FlushTable(final);
        case Change(l, d, f) =>
          var ok := overall.Change(l, d, weight, f);
          if !ok { return "Error"; }
          if f {
            ok := final.Change(l, d, weight, f);
          }
        case Remove(l, d) =>
          overall.Remove(l, d);
          final.Remove(l, d);
      }
    }

    static method FlushTable(t: ForwardingTable)
      modifies t
      ensures t.View() == map[]
    {
      var lambdas := t.table.Keys;
      while lambdas != {}
        invariant t.table.Keys == lambdas
        decreases |lambdas|
      {
        var l :| l in lambdas;
        t.RemoveLambda(l);
        lambdas := lambdas - {l};
      }
      assert t.table == map[];
    }
  }
}
