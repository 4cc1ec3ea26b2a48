/** Many workflows at once: they share the table of invocations of each computer, whose keys are
    strings made of a function index and the unique identifier of the workflow. */
module WorkflowSystem {
  import opened Dags
  import opened Workflow

  // --- the keys ---

  function Digit(n: nat): char
    requires n < 10
  {
    '0' + n as char
  }

  /** std::to_string of an index. */
  function Decimal(n: nat): string {
    if n < 10 then [Digit(n)] else Decimal(n / 10) + [Digit(n % 10)]
  }

  function Value(s: string): int {
    if s == [] then 0 else 10 * Value(s[..|s| - 1]) + (s[|s| - 1] as int - '0' as int)
  }

  lemma {:induction false} ValueOfDecimal(n: nat)
    ensures Value(Decimal(n)) == n
  {
    if n < 10 {
      assert Decimal(n)[..0] == [];
    } else {
      ValueOfDecimal(n / 10);
      assert Decimal(n)[..|Decimal(n)| - 1] == Decimal(n / 10);
    }
  }

  lemma {:induction false} NoDashInDecimal(n: nat)
    ensures '-' !in Decimal(n)
  {
    if n >= 10 {
      NoDashInDecimal(n / 10);
    }
  }

  function MakeHash(f: nat, uuid: string): string {
    Decimal(f) + "-" + uuid
  }

  lemma SplitAtDash(x: string, u: string, y: string, v: string)
    requires '-' !in x && '-' !in y && x + "-" + u == y + "-" + v
    ensures x == y && u == v
  {
    var (a, b) := (x + "-" + u, y + "-" + v);
    assert a[|x|] == '-' && b[|y|] == '-';
    assert forall i | 0 <= i < |x| :: a[i] == x[i] && a[i] in x;
    assert forall i | 0 <= i < |y| :: b[i] == y[i] && b[i] in y;
    assert |x| == |y|;
    assert x == a[..|x|] && y == b[..|x|] && u == a[|x| + 1..] && v == b[|x| + 1..];
  }

  /** Two requests have the same key only if they are for the same function of the same workflow. */
  lemma HashIsInjective(f: nat, u: string, g: nat, v: string)
    requires MakeHash(f, u) == MakeHash(g, v)
    ensures f == g && u == v
  {
    NoDashInDecimal(f);
    NoDashInDecimal(g);
    SplitAtDash(Decimal(f), u, Decimal(g), v);
    ValueOfDecimal(f);
    ValueOfDecimal(g);
  }

  // --- the shared table ---

  type Table = map<string, nat>

  /** checkPreconditions for a DAG: the table left, and whether the request is to be executed. */
  function Check(table: Table, d: Successors, names: nat, f: nat, uuid: string): (Table, bool) {
    if names <= 1 || f == 0 || Expected(d, f) == 1 then (table, true)
    else
      var key := MakeHash(f, uuid);
      var actual := (if key in table then table[key] else 0) + 1;
      if actual == Expected(d, f) then (table - {key}, true) else (table[key := actual], false)
  }

  /** The workflows, by unique identifier, and where each of their functions is executed: all the
      invocations of one function of one workflow reach the same computer. */
  datatype Setup = Setup(dags: map<string, Successors>, place: (string, nat) -> nat)

  ghost predicate WellFormedSetup(p: Setup) {
    forall u | u in p.dags :: WellFormed(p.dags[u])
  }

  /** The counters of the flows are not used: they are in the tables of the computers. */
  datatype System = System(flows: map<string, Flow>, tables: map<nat, Table>)

  function TableAt(s: System, node: nat): Table { if node in s.tables then s.tables[node] else map[] }

  function Initial(p: Setup): System { System(map u | u in p.dags :: NewFlow, map[]) }

  predicate SysEnabled(p: Setup, s: System, u: string, a: Action) {
    u in p.dags && u in s.flows && Enabled(p.dags[u], s.flows[u], a)
  }

  function SysNext(p: Setup, s: System, u: string, a: Action): System
    requires SysEnabled(p, s, u, a)
  {
    var (d, w) := (p.dags[u], s.flows[u]);
    if a.Deliver? then
      var node := p.place(u, a.f);
      var (table, ready) := Check(TableAt(s, node), d, |d| + 1, a.f, u);
      var w' := w.(transit := w.transit - multiset{a.f});
      System(s.flows[u := if ready then w'.(queue := w.queue + multiset{a.f}, passed := w.passed + {a.f}) else w'],
             s.tables[node := table])
    else s.(flows := s.flows[u := Next(d, w, a)])
  }

  // --- each workflow sees its own counters only ---

  ghost function Counters(p: Setup, s: System, u: string): map<nat, nat>
    requires u in p.dags
  {
    map f: nat | f in Below(|p.dags[u]| + 1) && MakeHash(f, u) in TableAt(s, p.place(u, f))
      :: TableAt(s, p.place(u, f))[MakeHash(f, u)]
  }

  /** Workflow u of the system, with its counters, as if it were alone. */
  ghost function Local(p: Setup, s: System, u: string): Flow
    requires u in p.dags && u in s.flows
  {
    s.flows[u].(counter := Counters(p, s, u))
  }

  /** A delivery to u changes one entry at most, the one of the function delivered to. */
  lemma OtherKeysKept(p: Setup, s: System, u: string, a: Action, v: string, f: nat)
    requires SysEnabled(p, s, u, a) && a.Deliver? && (v != u || f != a.f)
    ensures var (t, t') := (TableAt(s, p.place(v, f)), TableAt(SysNext(p, s, u, a), p.place(v, f)));
            && (MakeHash(f, v) in t' <==> MakeHash(f, v) in t)
            && (MakeHash(f, v) in t ==> t'[MakeHash(f, v)] == t[MakeHash(f, v)])
  {
    if MakeHash(f, v) == MakeHash(a.f, u) { HashIsInjective(f, v, a.f, u); }
    hide Expected, MakeHash, Next;
  }

  lemma DeliverSparesOthers(p: Setup, s: System, u: string, a: Action, v: string)
    requires SysEnabled(p, s, u, a) && a.Deliver? && v in p.dags && v != u
    ensures Counters(p, SysNext(p, s, u, a), v) == Counters(p, s, v)
  {
    hide MakeHash, SysNext, TableAt;
    forall f: nat
      ensures var (t, t') := (TableAt(s, p.place(v, f)), TableAt(SysNext(p, s, u, a), p.place(v, f)));
              && (MakeHash(f, v) in t' <==> MakeHash(f, v) in t)
              && (MakeHash(f, v) in t ==> t'[MakeHash(f, v)] == t[MakeHash(f, v)])
    {
      OtherKeysKept(p, s, u, a, v, f);
    }
  }

  /** And changes that one as Arrive says. */
  lemma DeliverCounts(p: Setup, s: System, u: string, a: Action)
    requires WellFormedSetup(p) && SysEnabled(p, s, u, a) && a.Deliver? && a.f <= |p.dags[u]|
    ensures Counters(p, SysNext(p, s, u, a), u) == Arrive(p.dags[u], Counters(p, s, u), a.f).0
    ensures Check(TableAt(s, p.place(u, a.f)), p.dags[u], |p.dags[u]| + 1, a.f, u).1
            == Arrive(p.dags[u], Counters(p, s, u), a.f).1
  {
    hide Expected, MakeHash, WellFormed, Next, SysNext, TableAt, Counters, Arrive, Check;
    var (s', g) := (SysNext(p, s, u, a), a.f);
    forall f: nat ensures SameCount(p, s, u, f) && SameCount(p, s', u, f) { CountersAt(p, s, u, f); CountersAt(p, s', u, f); }
    forall f: nat | f != g
      ensures var (t, t') := (TableAt(s, p.place(u, f)), TableAt(s', p.place(u, f)));
              && (MakeHash(f, u) in t' <==> MakeHash(f, u) in t)
              && (MakeHash(f, u) in t ==> t'[MakeHash(f, u)] == t[MakeHash(f, u)])
    {
      OtherKeysKept(p, s, u, a, u, f);
    }
    DeliveredTable(p, s, u, a);
    assert SameCount(p, s, u, g) && SameCount(p, s', u, g);
    forall f: nat | f != g
      ensures (f in Counters(p, s', u) <==> f in Counters(p, s, u)) && (f in Counters(p, s, u) ==> Counters(p, s', u)[f] == Counters(p, s, u)[f])
    {
      assert SameCount(p, s, u, f) && SameCount(p, s', u, f);
    }
    HasSuccessors(p.dags[u]);
    CheckArrives(TableAt(s, p.place(u, g)), p.dags[u], g, u, Counters(p, s, u), Counters(p, s', u));
  }

  lemma HasSuccessors(d: Successors)
    requires WellFormed(d)
    ensures |d| > 0
  {}

  /** The check of the shared table is the arrival at the counters of the workflow. */
  lemma CheckArrives(t: Table, d: Successors, f: nat, u: string, c: map<nat, nat>, next: map<nat, nat>)
    requires |d| > 0 && (f in c <==> MakeHash(f, u) in t) && (f in c ==> c[f] == t[MakeHash(f, u)])
    requires var t' := Check(t, d, |d| + 1, f, u).0; (f in next <==> MakeHash(f, u) in t') && (f in next ==> next[f] == t'[MakeHash(f, u)])
    requires forall x: nat | x != f :: (x in next <==> x in c) && (x in c ==> next[x] == c[x])
    ensures next == Arrive(d, c, f).0 && Check(t, d, |d| + 1, f, u).1 == Arrive(d, c, f).1
  {
    hide MakeHash, Expected;
    forall x: nat ensures (x in next <==> x in Arrive(d, c, f).0) && (x in next ==> next[x] == Arrive(d, c, f).0[x]) {}
  }

  /** The counter of a function is the entry of its key. */
  ghost predicate SameCount(p: Setup, s: System, u: string, f: nat)
    requires u in p.dags
  {
    var (t, c) := (TableAt(s, p.place(u, f)), Counters(p, s, u));
    (f in c <==> f <= |p.dags[u]| && MakeHash(f, u) in t) && (f in c ==> c[f] == t[MakeHash(f, u)])
  }

  lemma CountersAt(p: Setup, s: System, u: string, f: nat)
    requires u in p.dags
    ensures SameCount(p, s, u, f)
  {
    hide MakeHash, TableAt;
  }

  lemma DeliveredTable(p: Setup, s: System, u: string, a: Action)
    requires SysEnabled(p, s, u, a) && a.Deliver?
    ensures TableAt(SysNext(p, s, u, a), p.place(u, a.f)) == Check(TableAt(s, p.place(u, a.f)), p.dags[u], |p.dags[u]| + 1, a.f, u).0
  {
    hide Check, Next, Enabled;
  }

  lemma OthersIgnoreCounters(d: Successors, w: Flow, a: Action, counter: map<nat, nat>)
    requires Enabled(d, w, a) && !a.Deliver?
    ensures Enabled(d, w.(counter := counter), a)
    ensures Next(d, w.(counter := counter), a) == Next(d, w, a).(counter := counter)
  {
    hide Arrive, Onward, Target, IsEdge, Next, Enabled;
    if a.Begin? || a.Run? || a.Throw? {
      FunctionIgnoresCounters(d, w, a, counter);
    } else if a.Complete? {
      CompleteIgnoresCounters(d, w, a, counter);
    } else {
      EdgeIgnoresCounters(d, w, a, counter);
    }
  }

  lemma FunctionIgnoresCounters(d: Successors, w: Flow, a: Action, counter: map<nat, nat>)
    requires Enabled(d, w, a) && (a.Begin? || a.Run? || a.Throw?)
    ensures Enabled(d, w.(counter := counter), a) && Next(d, w.(counter := counter), a) == Next(d, w, a).(counter := counter)
  {
    hide Arrive, Onward, Target, IsEdge;
  }

  lemma CompleteIgnoresCounters(d: Successors, w: Flow, a: Action, counter: map<nat, nat>)
    requires Enabled(d, w, a) && a.Complete?
    ensures Enabled(d, w.(counter := counter), a) && Next(d, w.(counter := counter), a) == Next(d, w, a).(counter := counter)
  {
    hide Arrive, Onward, Target, IsEdge;
    var (f, v) := (a.f, w.(counter := counter));
    var done := w.(running := w.running - multiset{f}, done := w.done + {f});
    assert v.(running := v.running - multiset{f}, done := v.done + {f}) == done.(counter := counter);
    if f == |d| {
      assert Next(d, w, a) == done.(callbacks := w.callbacks + 1);
      assert Next(d, v, a) == done.(counter := counter, callbacks := w.callbacks + 1);
    } else if f < |d| && d[f] != [] {
      assert Next(d, w, a) == done.(sending := w.sending + multiset{(f, 0)});
      assert Next(d, v, a) == done.(counter := counter, sending := w.sending + multiset{(f, 0)});
    } else {
      assert Next(d, w, a) == done;
      assert Next(d, v, a) == done.(counter := counter);
    }
  }

  lemma EdgeIgnoresCounters(d: Successors, w: Flow, a: Action, counter: map<nat, nat>)
    requires Enabled(d, w, a) && (a.Invoke? || a.Lose? || a.Stop?)
    ensures Enabled(d, w.(counter := counter), a) && Next(d, w.(counter := counter), a) == Next(d, w, a).(counter := counter)
  {
    hide Arrive, Onward, Target, IsEdge;
  }

  /** A step of u is a step of u alone, and no step at all for the others. */
  lemma StepProjects(p: Setup, s: System, u: string, a: Action, v: string)
    requires WellFormedSetup(p) && SysEnabled(p, s, u, a) && Inv(p.dags[u], Local(p, s, u))
    requires v in p.dags && v in s.flows
    ensures Enabled(p.dags[u], Local(p, s, u), a) && v in SysNext(p, s, u, a).flows
    ensures Local(p, SysNext(p, s, u, a), v) == if v == u then Next(p.dags[u], Local(p, s, u), a) else Local(p, s, v)
  {
    hide Counters, Inv, WellFormed, Arrive, Check, TableAt;
    if a.Deliver? {
      assert Enabled(p.dags[u], Local(p, s, u), a);
      NotYetPassed(p.dags[u], Local(p, s, u), a.f);
      DeliverCounts(p, s, u, a);
      if v != u {
        DeliverSparesOthers(p, s, u, a, v);
      }
    } else {
      OthersIgnoreCounters(p.dags[u], s.flows[u], a, Counters(p, s, u));
      hide Next, Enabled;
      SameTables(p, s, SysNext(p, s, u, a), v);
    }
  }

  lemma SameTables(p: Setup, s: System, s': System, v: string)
    requires s.tables == s'.tables && v in p.dags
    ensures Counters(p, s, v) == Counters(p, s', v)
  {
  }

  // --- runs ---

  type Event = (string, Action)

  ghost predicate SysReaches(p: Setup, s: System, events: seq<Event>, s': System)
    decreases |events|
  {
    if events == [] then s' == s
    else
      && SysEnabled(p, s, events[0].0, events[0].1)
      && SysReaches(p, SysNext(p, s, events[0].0, events[0].1), events[1..], s')
  }

  /** The steps of one workflow. */
  function Own(events: seq<Event>, u: string): seq<Action> {
    if events == [] then []
    else (if events[0].0 == u then [events[0].1] else []) + Own(events[1..], u)
  }

  /** Every entry of a table belongs to a function of some workflow that is executed there. */
  ghost predicate OwnedKeys(p: Setup, s: System) {
    forall node, key | node in s.tables && key in s.tables[node] :: Owned(p, node, key)
  }

  ghost predicate Owned(p: Setup, node: nat, key: string) {
    exists u, f: nat :: u in p.dags && f <= |p.dags[u]| && key == MakeHash(f, u) && p.place(u, f) == node
  }

  ghost predicate SysInv(p: Setup, s: System) {
    && s.flows.Keys == p.dags.Keys && OwnedKeys(p, s)
    && forall u | u in p.dags :: Inv(p.dags[u], Local(p, s, u))
  }

  lemma InitialInv(p: Setup)
    requires WellFormedSetup(p)
    ensures SysInv(p, Initial(p))
    ensures forall u | u in p.dags :: Local(p, Initial(p), u) == NewFlow
  {
    hide WellFormed, Inv;
    forall u | u in p.dags
      ensures Local(p, Initial(p), u) == NewFlow && Inv(p.dags[u], Local(p, Initial(p), u))
    {
      assert Counters(p, Initial(p), u) == map[];
      NewFlowInv(p.dags[u]);
    }
  }

  lemma CheckKeys(table: Table, d: Successors, names: nat, f: nat, uuid: string)
    ensures forall key | key in Check(table, d, names, f, uuid).0 :: key in table || key == MakeHash(f, uuid)
  {
  }

  lemma StepKeepsOwned(p: Setup, s: System, u: string, a: Action)
    requires WellFormedSetup(p) && SysInv(p, s) && SysEnabled(p, s, u, a)
    ensures OwnedKeys(p, SysNext(p, s, u, a))
  {
    hide Check, MakeHash, WellFormed, Inv, Counters, Next, Owned;
    if a.Deliver? {
      NotYetPassed(p.dags[u], Local(p, s, u), a.f);
      var node := p.place(u, a.f);
      OwnedByDefinition(p, u, a.f);
      CheckKeys(TableAt(s, node), p.dags[u], |p.dags[u]| + 1, a.f, u);
    }
  }

  lemma OwnedByDefinition(p: Setup, u: string, f: nat)
    requires u in p.dags && f <= |p.dags[u]|
    ensures Owned(p, p.place(u, f), MakeHash(f, u))
  {
  }

  lemma StepKeepsSysInv(p: Setup, s: System, u: string, a: Action)
    requires WellFormedSetup(p) && SysInv(p, s) && SysEnabled(p, s, u, a)
    ensures SysInv(p, SysNext(p, s, u, a))
  {
    hide Inv, WellFormed, OwnedKeys, Next, Local, SysNext;
    StepKeepsOwned(p, s, u, a);
    SameFlows(p, s, u, a);
    forall v | v in p.dags
      ensures v in SysNext(p, s, u, a).flows && Inv(p.dags[v], Local(p, SysNext(p, s, u, a), v))
    {
      StepProjects(p, s, u, a, v);
      if v == u {
        StepKeepsInv(p.dags[u], Local(p, s, u), a);
      }
    }
  }

  lemma SameFlows(p: Setup, s: System, u: string, a: Action)
    requires SysEnabled(p, s, u, a)
    ensures SysNext(p, s, u, a).flows.Keys == s.flows.Keys
  {
    hide Next, Check;
  }

  /** Interleaving changes nothing: seen from one workflow, a run of the system is a run of that
      workflow alone, made of its own steps. All that holds of one workflow then holds of each. */
  lemma {:induction false} RunsProject(p: Setup, s: System, events: seq<Event>, s': System, v: string)
    requires WellFormedSetup(p) && SysInv(p, s) && SysReaches(p, s, events, s') && v in p.dags
    ensures SysInv(p, s') && Reaches(p.dags[v], Local(p, s, v), Own(events, v), Local(p, s', v))
    decreases |events|
  {
    hide Inv, WellFormed, OwnedKeys, Next, Local, SysNext;
    if events != [] {
      var (u, a) := events[0];
      var next := SysNext(p, s, u, a);
      StepProjects(p, s, u, a, v);
      StepKeepsSysInv(p, s, u, a);
      RunsProject(p, next, events[1..], s', v);
      if u == v {
        assert Own(events, v) == [a] + Own(events[1..], v);
        assert Own(events, v)[1..] == Own(events[1..], v);
      } else {
        assert Own(events, v) == Own(events[1..], v);
      }
    }
  }

  /** Workflows never meet: each function of each runs once at most and after its predecessors, and
      once all of them have completed without failures the tables of all the computers are empty. */
  lemma WorkflowsDoNotInterfere(p: Setup, events: seq<Event>, s: System, u: string)
    requires WellFormedSetup(p) && SysReaches(p, Initial(p), events, s) && u in p.dags
    ensures u in s.flows && forall f: nat :: s.flows[u].ran[f] <= 1
    ensures forall e: Edge | IsEdge(p.dags[u], e) && Target(p.dags[u], e) in s.flows[u].ran :: e.0 in s.flows[u].done
    ensures forall f | f in Counters(p, s, u) :: 0 < Counters(p, s, u)[f] < Expected(p.dags[u], f)
    ensures Quiescent(s.flows[u]) && !s.flows[u].failed ==>
              s.flows[u].callbacks == 1 && forall f: nat | f <= |p.dags[u]| :: s.flows[u].ran[f] == 1
    ensures (forall v | v in s.flows :: Quiescent(s.flows[v]) && !s.flows[v].failed) ==>
              forall node | node in s.tables :: s.tables[node] == map[]
  {
    hide Inv, WellFormed, Expected, MakeHash, Next;
    InitialInv(p);
    RunsProject(p, Initial(p), events, s, u);
    EveryRunIsSafe(p.dags[u], Own(events, u), Local(p, s, u));
    if Quiescent(s.flows[u]) && !s.flows[u].failed {
      WithoutFailuresAllRunOnce(p.dags[u], Own(events, u), Local(p, s, u));
    }
    if forall v | v in s.flows :: Quiescent(s.flows[v]) && !s.flows[v].failed {
      forall node | node in s.tables ensures s.tables[node] == map[] {
        EmptyAtTheEnd(p, events, s, node);
      }
    }
  }

  lemma EmptyAtTheEnd(p: Setup, events: seq<Event>, s: System, node: nat)
    requires WellFormedSetup(p) && SysReaches(p, Initial(p), events, s) && node in s.tables && SysInv(p, s)
    requires forall v | v in s.flows :: Quiescent(s.flows[v]) && !s.flows[v].failed
    ensures s.tables[node] == map[]
  {
    hide Inv, WellFormed, Expected, MakeHash, Next;
    InitialInv(p);
    if key :| key in s.tables[node] {
      assert Owned(p, node, key);
      var u, f: nat :| u in p.dags && f <= |p.dags[u]| && key == MakeHash(f, u) && p.place(u, f) == node;
      CountersListKeys(p, s, u, f);
      RunsProject(p, Initial(p), events, s, u);
      WithoutFailuresAllRunOnce(p.dags[u], Own(events, u), Local(p, s, u));
    }
  }

  lemma CountersListKeys(p: Setup, s: System, u: string, f: nat)
    requires u in p.dags && f <= |p.dags[u]| && p.place(u, f) in s.tables && MakeHash(f, u) in s.tables[p.place(u, f)]
    ensures f in Counters(p, s, u)
  {
    hide MakeHash;
  }
}
