/** What the hierarchical controller has announced: for every router, the lambdas reached
    through it and the computers offering them; and what a router's tables must then hold. */
module Announcements {
  import opened ForwardingTables

  type Announced = map<Endpoint, map<Lambda, set<Endpoint>>>

  /** The computers offering l whose home is r. */
  function Served(ann: Announced, r: Endpoint, l: Lambda): set<Endpoint> {
    if r in ann && l in ann[r] then ann[r][l] else {}
  }

  /** No lambda is kept with an empty set of computers. */
  ghost predicate NoEmptySets(ann: Announced) {
    forall r, l | r in ann && l in ann[r] :: ann[r][l] != {}
  }

  function Put(ann: Announced, h: Endpoint, l: Lambda, c: Endpoint): Announced {
    var row := if h in ann then ann[h] else map[];
    ann[h := row[l := Served(ann, h, l) + {c}]]
  }

  function PutAll(ann: Announced, h: Endpoint, lambdas: seq<Lambda>, c: Endpoint): Announced {
    if lambdas == [] then (if h in ann then ann else ann[h := map[]])
    else Put(PutAll(ann, h, lambdas[..|lambdas| - 1], c), h, lambdas[|lambdas| - 1], c)
  }

  lemma {:induction false} PutAllServed(ann: Announced, h: Endpoint, lambdas: seq<Lambda>, c: Endpoint, r: Endpoint, l: Lambda)
    ensures Served(PutAll(ann, h, lambdas, c), r, l)
            == Served(ann, r, l) + if r == h && l in lambdas then {c} else {}
  {
    if lambdas != [] {
      var front := lambdas[..|lambdas| - 1];
      assert lambdas == front + [lambdas[|lambdas| - 1]];
      PutAllServed(ann, h, front, c, r, l);
      PutAllServed(ann, h, front, c, h, lambdas[|lambdas| - 1]);
    }
  }

  lemma {:induction false} PutAllNoEmptySets(ann: Announced, h: Endpoint, lambdas: seq<Lambda>, c: Endpoint)
    requires NoEmptySets(ann)
    ensures NoEmptySets(PutAll(ann, h, lambdas, c))
  {
    if lambdas != [] {
      PutAllNoEmptySets(ann, h, lambdas[..|lambdas| - 1], c);
    }
  }

  /** Withdraws c from its home r for lambda l; neither empty sets nor empty rows are kept. */
  function Take(ann: Announced, r: Endpoint, l: Lambda, c: Endpoint): (ann': Announced)
    requires c in Served(ann, r, l)
    ensures forall s, m :: Served(ann', s, m) == Served(ann, s, m) - if s == r && m == l then {c} else {}
  {
    var rest := ann[r][l] - {c};
    if rest != {} then ann[r := ann[r][l := rest]]
    else if ann[r] - {l} != map[] then ann[r := ann[r] - {l}]
    else
      assert forall m | m in ann[r] :: m == l || m in ann[r] - {l};
      ann - {r}
  }

  /** Router r must know of key (l, d) exactly when d is a computer homed on r that offers l,
      as a final destination, or d is another router that is home to l, as an intermediate one. */
  ghost predicate ExactKey(t: RouterTables, ann: Announced, r: Endpoint, k: Key) {
    var home := k.1 in Served(ann, r, k.0);
    var via := k.1 != r && Served(ann, k.1, k.0) != {};
    && (k in t.overall <==> home || via)
    && (k in t.overall ==> t.overall[k] == home)
    && (k in t.final <==> home)
    && (k in t.final ==> t.final[k])
  }

  ghost predicate Exact(t: RouterTables, ann: Announced, r: Endpoint) {
    forall k: Key :: ExactKey(t, ann, r, k)
  }

  lemma NothingAnnounced(r: Endpoint)
    ensures Exact(NoRoutes, map[], r)
  {
  }

  /** Installing a computer as final destination on its home router. */
  lemma HomeStaysExact(t: RouterTables, ann: Announced, h: Endpoint, lambdas: seq<Lambda>, c: Endpoint)
    requires Exact(t, ann, h)
    ensures Exact(ChangeAll(t, lambdas, c, true), PutAll(ann, h, lambdas, c), h)
  {
    forall k: Key ensures ExactKey(ChangeAll(t, lambdas, c, true), PutAll(ann, h, lambdas, c), h, k) {
      assert ExactKey(t, ann, h, k);
      ChangeAllContents(t, lambdas, c, true, k);
      PutAllServed(ann, h, lambdas, c, h, k.0);
      PutAllServed(ann, h, lambdas, c, k.1, k.0);
    }
  }

  /** The lambdas of a batch that the home router did not announce before. */
  ghost predicate Novel(ann: Announced, h: Endpoint, lambdas: seq<Lambda>, novel: seq<Lambda>) {
    forall l :: l in novel <==> l in lambdas && Served(ann, h, l) == {}
  }

  /** Installing the home router as intermediate destination, for the novel lambdas only, on another router. */
  lemma OtherStaysExact(t: RouterTables, ann: Announced, h: Endpoint, lambdas: seq<Lambda>, novel: seq<Lambda>,
                        c: Endpoint, r: Endpoint)
    requires Exact(t, ann, r) && r != h && Novel(ann, h, lambdas, novel)
    requires forall l :: h !in Served(ann, r, l)
    ensures Exact(ChangeAll(t, novel, h, false), PutAll(ann, h, lambdas, c), r)
  {
    forall k: Key ensures ExactKey(ChangeAll(t, novel, h, false), PutAll(ann, h, lambdas, c), r, k) {
      assert ExactKey(t, ann, r, k);
      ChangeAllContents(t, novel, h, false, k);
      PutAllServed(ann, h, lambdas, c, r, k.0);
      PutAllServed(ann, h, lambdas, c, k.1, k.0);
    }
  }

  lemma HasMember(q: seq<Lambda>)
    ensures q == [] || exists l :: l in q
  {
    if q != [] {
      assert q[0] in q;
    }
  }

  /** Announcing again a computer under its home: nothing is novel, and nothing changes. */
  lemma Reannounce(t: RouterTables, ann: Announced, h: Endpoint, lambdas: seq<Lambda>, c: Endpoint, novel: seq<Lambda>)
    requires Exact(t, ann, h) && Novel(ann, h, lambdas, novel)
    requires forall l | l in lambdas :: c in Served(ann, h, l)
    ensures novel == [] && ChangeAll(t, lambdas, c, true) == t
    ensures forall r, l :: Served(PutAll(ann, h, lambdas, c), r, l) == Served(ann, r, l)
  {
    HasMember(novel);
    var t' := ChangeAll(t, lambdas, c, true);
    forall k: Key
      ensures k in t'.overall <==> k in t.overall
      ensures k in t.overall ==> t'.overall[k] == t.overall[k]
      ensures k in t'.final <==> k in t.final
      ensures k in t.final ==> t'.final[k] == t.final[k]
    {
      assert ExactKey(t, ann, h, k);
      ChangeAllContents(t, lambdas, c, true, k);
    }
    assert t'.overall == t.overall && t'.final == t.final;
    forall r, l ensures Served(PutAll(ann, h, lambdas, c), r, l) == Served(ann, r, l) {
      PutAllServed(ann, h, lambdas, c, r, l);
    }
  }
}
