/** The asynchronous part of an edge computer: which requests are queued for execution. */
module EdgeComputer {
  import opened Dags
  import opened Workflow
  import opened WorkflowSystem

  /** The fields of rpc::LambdaRequest that decide what happens to it. A DAG has names - 1 lists of successors. */
  datatype Request = Request(
    chain: seq<string>,
    names: seq<string>,
    successors: Successors,
    next: nat,
    uuid: string,
    callback: string,
    dry: bool)

  predicate LastFunction(q: Request) {
    || (|q.chain| == 0 && |q.names| == 0)
    || (|q.chain| >= 1 && q.next == |q.chain| - 1)
    || (|q.names| > 1 && q.next == |q.successors|)
  }

  /** In a well-formed DAG the last function is the one without successors; the exception is a DAG
      of one function, which has no last one: its callback is never called. */
  lemma LastOfDag(q: Request)
    requires q.chain == [] && |q.names| == |q.successors| + 1
    ensures LastFunction(q) <==> |q.names| > 1 && q.next == |q.names| - 1
  {
  }

  /** Why a request is refused, if it is. */
  predicate Refused(q: Request) {
    || (|q.chain| > 0 && |q.names| > 0)
    || ((|q.chain| > 1 || |q.names| > 1) && q.callback == "")
    || (|q.chain| > 0 && q.next >= |q.chain|)
    || (|q.names| > 1 && q.uuid == "")
  }

  /** A plain request is never refused; one of a chain has to be within it, and one of a workflow of several
      functions needs someone to call back, and a DAG also an identifier. */
  lemma RefusedByKind(q: Request)
    ensures q.chain == [] && q.names == [] ==> !Refused(q)
    ensures q.names == [] ==> (Refused(q) <==> q.chain != [] && (q.next >= |q.chain| || (|q.chain| > 1 && q.callback == "")))
    ensures q.chain == [] ==> (Refused(q) <==> |q.names| > 1 && (q.callback == "" || q.uuid == ""))
    ensures q.chain != [] && q.names != [] ==> Refused(q)
  {
  }

  /** A plain request, and a function of a chain, waits for no other invocation. */
  lemma PlainIsReady(table: Table, q: Request)
    requires |q.names| <= 1
    ensures Check(table, q.successors, |q.names|, q.next, q.uuid) == (table, true)
  {
  }

  /** A plain request is its own last function; a chain has one, the last of its functions. */
  lemma LastOfChain(q: Request)
    requires q.names == [] && (q.chain == [] || q.next < |q.chain|)
    ensures LastFunction(q) <==> q.chain == [] || q.next + 1 == |q.chain|
  {
  }

  datatype Reply = Error | Estimate | Queued | Executed

  class Computer {
    const asynchronous: bool
    var invocations: Table
    var queue: seq<Request>

    constructor (asynchronous: bool)
      ensures invocations == map[] && queue == []
    {
      this.asynchronous := asynchronous;
      invocations := map[];
      queue := [];
    }

    static method CountExpected(d: Successors, f: nat) returns (n: nat)
      ensures n == Expected(d, f)
    {
      n := 0;
      for i := 0 to |d|
        invariant n == Expected(d[..i], f)
      {
        assert d[..i + 1][..i] == d[..i];
        for k := 0 to |d[i]|
          invariant n == Expected(d[..i], f) + Occurrences(d[i][..k], f)
        {
          assert d[i][..k + 1][..k] == d[i][..k];
          if d[i][k] == f { n := n + 1; }
        }
        assert d[i][..|d[i]|] == d[i];
      }
      assert d[..|d|] == d;
    }

    method CheckPreconditions(q: Request) returns (ready: bool)
      modifies this`invocations
      ensures (invocations, ready) == Check(old(invocations), q.successors, |q.names|, q.next, q.uuid)
    {
      if |q.names| <= 1 || q.next == 0 { return true; }
      var expected := CountExpected(q.successors, q.next);
      if expected == 1 { return true; }
      var key := MakeHash(q.next, q.uuid);
      if key !in invocations {
        invocations := invocations[key := 0];
      }
      invocations := invocations[key := invocations[key] + 1];
      assert invocations == old(invocations)[key := invocations[key]];
      if invocations[key] == expected {
        invocations := invocations - {key};
        assert invocations == old(invocations) - {key};
        return true;
      }
      return false;
    }

    /** A request with a callback is answered at once; it is queued when its preconditions hold,
        so the first N - 1 of the N invocations of a join are absorbed by the table. */
    method Process(q: Request) returns (r: Reply)
      modifies this
      ensures r.Queued? <==> !Refused(q) && !q.dry && q.callback != "" && asynchronous
      ensures r.Queued? ==>
                var (table, ready) := Check(old(invocations), q.successors, |q.names|, q.next, q.uuid);
                invocations == table && queue == old(queue) + if ready then [q] else []
      ensures !r.Queued? ==> invocations == old(invocations) && queue == old(queue)
      ensures r.Error? <==> Refused(q) || (!q.dry && q.callback != "" && !asynchronous)
    {
      if Refused(q) { return Error; }
      if q.dry { return Estimate; }
      if q.callback == "" { return Executed; }
      if !asynchronous { return Error; }
      var ready := CheckPreconditions(q);
      if ready {
        queue := queue + [q];
      }
      return Queued;
    }
  }

  /** The computer that executes function f of workflow u holds its table of invocations. */
  ghost predicate Holds(table: Table, p: Setup, s: System, u: string, f: nat) {
    table == TableAt(s, p.place(u, f))
  }

  /** A request of a workflow in the system, as it arrives. */
  ghost predicate IsInvocation(q: Request, p: Setup, u: string, f: nat) {
    u in p.dags && q.successors == p.dags[u] && |q.names| == |q.successors| + 1 && q.next == f && q.uuid == u && u != "" &&
    q.chain == [] && q.callback != "" && !q.dry
  }

  /**
   * A delivery in the system of workflows is a call of Process on the computer that it reaches:
   * an asynchronous one ends with the table of the next state, and has queued the request exactly
   * when the function has passed its join there; all other tables and workflows are the same. Any
   * other computer answers with an error, and changes nothing.
   */
  method DeliverTo(c: Computer, q: Request, ghost p: Setup, ghost s: System, ghost u: string, ghost f: nat) returns (r: Reply, ghost next: System)
    requires WellFormedSetup(p) && SysEnabled(p, s, u, Deliver(f)) && IsInvocation(q, p, u, f) && Holds(c.invocations, p, s, u, f)
    modifies c
    ensures next == SysNext(p, s, u, Deliver(f))
    ensures r == if c.asynchronous then Queued else Error
    ensures r.Error? ==> c.invocations == old(c.invocations) && c.queue == old(c.queue)
    ensures r.Queued? ==> Holds(c.invocations, p, next, u, f) && u in next.flows
    ensures r.Queued? ==> c.queue == old(c.queue) + (if next.flows[u].queue == s.flows[u].queue then [] else [q])
    ensures r.Queued? ==> (next.flows[u].queue != s.flows[u].queue <==> next.flows[u].queue == s.flows[u].queue + multiset{f})
    ensures (forall v | v in s.flows && v != u :: v in next.flows && next.flows[v] == s.flows[v])
    ensures forall node | node != p.place(u, f) :: TableAt(next, node) == TableAt(s, node)
  {
    hide Check, WellFormed;
    next := SysNext(p, s, u, Deliver(f));
    ghost var w := s.flows[u];
    assert (w.queue + multiset{f})[f] != w.queue[f];
    r := c.Process(q);
  }
}
