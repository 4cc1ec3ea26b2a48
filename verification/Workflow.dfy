/** One DAG workflow: invocations travel between computers, join at the functions with several
    predecessors, are executed, and invoke their successors; any of this may fail. */
module Workflow {
  import opened Dags
  import opened Sums

  /** transit, queue, running and sending are where an invocation can be; counter is the part of
      theInvocations that belongs to this workflow. The rest is history: which functions have passed
      their preconditions, have been run, have completed or thrown, which edges have been followed,
      which were refused (lost) and at which the call threw (stopped). */
  datatype Flow = Flow(
    transit: multiset<nat>,
    counter: map<nat, nat>,
    queue: multiset<nat>,
    running: multiset<nat>,
    sending: multiset<Edge>,
    started: bool,
    passed: set<nat>,
    ran: multiset<nat>,
    done: set<nat>,
    thrown: set<nat>,
    edges: set<Edge>,
    failed: bool,
    callbacks: nat,
    lost: set<Edge>,
    stopped: set<Edge>)

  const NewFlow := Flow(multiset{}, map[], multiset{}, multiset{}, multiset{}, false, {}, multiset{}, {}, {}, {}, false, 0, {}, {})

  datatype Action =
    | Begin             // the client invokes function 0
    | Deliver(f: nat)   // an invocation reaches the computer: checkPreconditions
    | Run(f: nat)       // a worker pops it
    | Complete(f: nat)  // blockingExecution returns
    | Throw(f: nat)     // or throws: the invocation is dropped
    | Invoke(e: Edge)   // the next successor is invoked
    | Lose(e: Edge)     // the next successor refuses the invocation: logged only
    | Stop(e: Edge)     // the call throws: the remaining successors are not invoked

  function Count(counter: map<nat, nat>, f: nat): nat { if f in counter then counter[f] else 0 }

  /** checkPreconditions on the counters of one workflow: the counters left, and whether f may run. */
  function Arrive(d: Successors, counter: map<nat, nat>, f: nat): (map<nat, nat>, bool) {
    if f == 0 || Expected(d, f) == 1 then (counter, true)
    else
      var actual := Count(counter, f) + 1;
      if actual == Expected(d, f) then (counter - {f}, true) else (counter[f := actual], false)
  }

  predicate Enabled(d: Successors, w: Flow, a: Action) {
    match a
    case Begin => !w.started
    case Deliver(f) => f in w.transit
    case Run(f) => f in w.queue
    case Complete(f) => f in w.running
    case Throw(f) => f in w.running
    case Invoke(e) => e in w.sending && IsEdge(d, e)
    case Lose(e) => e in w.sending && IsEdge(d, e)
    case Stop(e) => e in w.sending && IsEdge(d, e)
  }

  /** What is left to send once edge e has been dealt with. */
  function Onward(d: Successors, e: Edge): multiset<Edge>
    requires IsEdge(d, e)
  {
    if e.1 + 1 < |d[e.0]| then multiset{(e.0, e.1 + 1)} else multiset{}
  }

  function Next(d: Successors, w: Flow, a: Action): Flow
    requires Enabled(d, w, a)
  {
    match a
    case Begin => w.(started := true, transit := w.transit + multiset{0})
    case Deliver(f) =>
      var (counter, ready) := Arrive(d, w.counter, f);
      var w' := w.(transit := w.transit - multiset{f}, counter := counter);
      if ready then w'.(queue := w.queue + multiset{f}, passed := w.passed + {f}) else w'
    case Run(f) =>
      w.(queue := w.queue - multiset{f}, running := w.running + multiset{f}, ran := w.ran + multiset{f})
    case Complete(f) =>
      var w' := w.(running := w.running - multiset{f}, done := w.done + {f});
      if f == |d| then w'.(callbacks := w.callbacks + 1)
      else if f < |d| && d[f] != [] then w'.(sending := w.sending + multiset{(f, 0)})
      else w'
    case Throw(f) => w.(running := w.running - multiset{f}, thrown := w.thrown + {f}, failed := true)
    case Invoke(e) =>
      w.(sending := w.sending - multiset{e} + Onward(d, e), transit := w.transit + multiset{Target(d, e)}, edges := w.edges + {e})
    case Lose(e) => w.(sending := w.sending - multiset{e} + Onward(d, e), failed := true, lost := w.lost + {e})
    case Stop(e) => w.(sending := w.sending - multiset{e}, failed := true, stopped := w.stopped + {e})
  }

  function One(b: bool): nat { if b then 1 else 0 }

  // --- the inductive invariant ---

  /** A function that has passed is queued or has run, once; one that has run is running, done or thrown. */
  ghost predicate OnceOnly(queue: multiset<nat>, ran: multiset<nat>, running: multiset<nat>,
                           passed: set<nat>, done: set<nat>, thrown: set<nat>) {
    forall f: nat ::
      && queue[f] + ran[f] == One(f in passed)
      && running[f] + One(f in done) + One(f in thrown) == ran[f]
  }

  /** Every edge followed into f is an invocation still in transit or one that has been counted. */
  ghost predicate AccountedFor(d: Successors, transit: multiset<nat>, counter: map<nat, nat>,
                               passed: set<nat>, edges: set<Edge>, f: nat) {
    && |edges * EdgesTo(d, f)| == transit[f] + (if f in passed then Expected(d, f) else Count(counter, f))
    && (if f in passed then f !in counter else Count(counter, f) < Expected(d, f))
    && (f in counter ==> counter[f] > 0)
  }

  ghost predicate Accounted(d: Successors, transit: multiset<nat>, counter: map<nat, nat>,
                            passed: set<nat>, edges: set<Edge>, started: bool) {
    && transit[0] + One(0 in passed) == One(started)
    && (forall f | f in transit || f in counter || f in passed :: f <= |d|)
    && 0 !in counter
    && (forall f: nat | 0 < f <= |d| :: AccountedFor(d, transit, counter, passed, edges, f))
  }

  /** A completed function has one successor at most to invoke next. */
  ghost predicate OneAtATime(d: Successors, sending: multiset<Edge>, done: set<nat>) {
    && (forall e | e in sending :: sending[e] == 1 && IsEdge(d, e) && e.0 in done)
    && (forall e, k | e in sending && k in sending && e.0 == k.0 :: e == k)
  }

  /** Those invoked so far come before it. */
  ghost predicate Behind(d: Successors, sending: multiset<Edge>, edges: set<Edge>, done: set<nat>) {
    && (forall e | e in edges :: IsEdge(d, e) && e.0 in done)
    && (forall e, k | e in edges && k in sending && e.0 == k.0 :: e.1 < k.1)
  }

  /** And those not invoked come after it. */
  ghost predicate NothingSkipped(d: Successors, sending: multiset<Edge>, edges: set<Edge>, done: set<nat>) {
    forall e: Edge | IsEdge(d, e) && e.0 in done && e !in edges :: StillToSend(sending, e)
  }

  ghost predicate InOrder(d: Successors, sending: multiset<Edge>, edges: set<Edge>, done: set<nat>, failed: bool) {
    && OneAtATime(d, sending, done)
    && Behind(d, sending, edges, done)
    && (!failed ==> NothingSkipped(d, sending, edges, done))
  }

  ghost predicate StillToSend(sending: multiset<Edge>, e: Edge) {
    exists k: Edge :: k in sending && k.0 == e.0 && k.1 <= e.1
  }

  ghost predicate Inv(d: Successors, w: Flow) {
    && OnceOnly(w.queue, w.ran, w.running, w.passed, w.done, w.thrown)
    && Accounted(d, w.transit, w.counter, w.passed, w.edges, w.started)
    && InOrder(d, w.sending, w.edges, w.done, w.failed)
    && w.callbacks == One(|d| in w.done)
    && (w.thrown != {} ==> w.failed)
  }

  lemma NewFlowInv(d: Successors)
    requires WellFormed(d)
    ensures Inv(d, NewFlow)
  {
    forall f: nat | 0 < f <= |d|
      ensures AccountedFor(d, NewFlow.transit, NewFlow.counter, NewFlow.passed, NewFlow.edges, f)
    {
      ExpectedIsEdgeCount(d, f);
    }
  }

  lemma {:induction false} SubsetSize<T>(a: set<T>, b: set<T>)
    requires a <= b
    ensures |a| <= |b| && (|a| == |b| ==> a == b)
  {
    if a != {} {
      var x :| x in a;
      SubsetSize(a - {x}, b - {x});
    }
  }

  /** An invocation in transit never finds its function already past its preconditions. */
  lemma NotYetPassed(d: Successors, w: Flow, f: nat)
    requires Inv(d, w) && f in w.transit
    ensures f !in w.passed && f <= |d|
  {
    hide OnceOnly, InOrder;
    if 0 < f <= |d| {
      assert AccountedFor(d, w.transit, w.counter, w.passed, w.edges, f);
      ExpectedIsEdgeCount(d, f);
      SubsetSize(w.edges * EdgesTo(d, f), EdgesTo(d, f));
    }
  }

  lemma BeginKeeps(d: Successors, w: Flow)
    requires Inv(d, w) && !w.started
    ensures Inv(d, Next(d, w, Begin))
  {
    hide OnceOnly, InOrder;
    var w' := Next(d, w, Begin);
    forall f: nat | 0 < f <= |d| ensures AccountedFor(d, w'.transit, w.counter, w.passed, w.edges, f) {
      assert AccountedFor(d, w.transit, w.counter, w.passed, w.edges, f);
    }
  }

  lemma DeliverAccounts(d: Successors, transit: multiset<nat>, counter: map<nat, nat>, passed: set<nat>,
                        edges: set<Edge>, f: nat, g: nat)
    requires f in transit && f !in passed && AccountedFor(d, transit, counter, passed, edges, g)
    ensures var (counter', ready) := Arrive(d, counter, f);
            AccountedFor(d, transit - multiset{f}, counter', if ready then passed + {f} else passed, edges, g) || g == 0
  {
    hide EdgesTo, Expected;
  }

  lemma DeliverKeeps(d: Successors, w: Flow, f: nat)
    requires Inv(d, w) && f in w.transit
    ensures Inv(d, Next(d, w, Deliver(f)))
  {
    hide OnceOnly, InOrder, AccountedFor, EdgesTo, Expected;
    NotYetPassed(d, w, f);
    DeliverKeepsOnce(d, w, f);
    forall g: nat | 0 < g <= |d| && AccountedFor(d, w.transit, w.counter, w.passed, w.edges, g)
      ensures var w' := Next(d, w, Deliver(f)); AccountedFor(d, w'.transit, w'.counter, w'.passed, w.edges, g)
    {
      DeliverAccounts(d, w.transit, w.counter, w.passed, w.edges, f, g);
    }
  }

  lemma DeliverKeepsOnce(d: Successors, w: Flow, f: nat)
    requires Inv(d, w) && f in w.transit && f !in w.passed
    ensures var w' := Next(d, w, Deliver(f)); OnceOnly(w'.queue, w'.ran, w'.running, w'.passed, w'.done, w'.thrown)
  {
    hide Accounted, InOrder;
  }

  lemma RunKeeps(d: Successors, w: Flow, f: nat)
    requires Inv(d, w) && f in w.queue
    ensures Inv(d, Next(d, w, Run(f)))
  {
    hide Accounted, InOrder;
  }

  lemma TurnComes(d: Successors, sending: multiset<Edge>, edges: set<Edge>, done: set<nat>, f: nat)
    requires NothingSkipped(d, sending, edges, done) && f < |d| && d[f] != []
    ensures NothingSkipped(d, sending + multiset{(f, 0)}, edges, done + {f})
  {
    var (sending', done') := (sending + multiset{(f, 0)}, done + {f});
    forall e: Edge | IsEdge(d, e) && e.0 in done' && e !in edges ensures StillToSend(sending', e) {
      if e.0 == f {
        assert (f, 0) in sending';
      } else {
        assert StillToSend(sending, e);
        var k :| k in sending && k.0 == e.0 && k.1 <= e.1;
        assert k in sending';
      }
    }
  }

  /** Function f completes: it is now its turn to invoke its successors. */
  lemma CompleteOrders(d: Successors, sending: multiset<Edge>, edges: set<Edge>, done: set<nat>, failed: bool, f: nat)
    requires InOrder(d, sending, edges, done, failed) && f !in done && f < |d| && d[f] != []
    ensures InOrder(d, sending + multiset{(f, 0)}, edges, done + {f}, failed)
  {
    hide NothingSkipped;
    if !failed {
      TurnComes(d, sending, edges, done, f);
    }
  }

  lemma CompleteLast(d: Successors, sending: multiset<Edge>, edges: set<Edge>, done: set<nat>, failed: bool)
    requires InOrder(d, sending, edges, done, failed)
    ensures InOrder(d, sending, edges, done + {|d|}, failed)
  {
  }

  lemma CompleteKeeps(d: Successors, w: Flow, f: nat)
    requires WellFormed(d) && Inv(d, w) && f in w.running
    ensures Inv(d, Next(d, w, Complete(f)))
  {
    hide Accounted, InOrder, OnceOnly, Next;
    RunningIsKnown(d, w, f);
    CompletedOnce(w.queue, w.ran, w.running, w.passed, w.done, w.thrown, f);
    CompleteLeaves(d, w, f);
    if f < |d| {
      CompleteOrders(d, w.sending, w.edges, w.done, w.failed, f);
    } else {
      CompleteLast(d, w.sending, w.edges, w.done, w.failed);
    }
  }

  lemma CompletedOnce(queue: multiset<nat>, ran: multiset<nat>, running: multiset<nat>,
                      passed: set<nat>, done: set<nat>, thrown: set<nat>, f: nat)
    requires OnceOnly(queue, ran, running, passed, done, thrown) && f in running
    ensures OnceOnly(queue, ran, running - multiset{f}, passed, done + {f}, thrown)
  {
  }

  lemma CompleteLeaves(d: Successors, w: Flow, f: nat)
    requires f in w.running
    ensures Next(d, w, Complete(f)) == w.(
      running := w.running - multiset{f}, done := w.done + {f},
      sending := if f < |d| && d[f] != [] then w.sending + multiset{(f, 0)} else w.sending,
      callbacks := if f == |d| then w.callbacks + 1 else w.callbacks)
  {
    hide Arrive, Onward, Target, IsEdge;
  }

  lemma RunningIsKnown(d: Successors, w: Flow, f: nat)
    requires Inv(d, w) && f in w.running
    ensures f in w.passed && f !in w.done && f <= |d|
  {
    hide InOrder, AccountedFor;
  }

  lemma ThrowKeeps(d: Successors, w: Flow, f: nat)
    requires Inv(d, w) && f in w.running
    ensures Inv(d, Next(d, w, Throw(f)))
  {
    hide Accounted;
  }

  /** Dealing with edge e and moving on to the next successor, or giving up on the rest. */
  lemma MoveOnOne(d: Successors, sending: multiset<Edge>, done: set<nat>, e: Edge)
    requires OneAtATime(d, sending, done) && e in sending
    ensures OneAtATime(d, sending - multiset{e} + Onward(d, e), done) && OneAtATime(d, sending - multiset{e}, done)
  {
  }

  lemma MoveOnBehind(d: Successors, sending: multiset<Edge>, edges: set<Edge>, done: set<nat>, e: Edge)
    requires OneAtATime(d, sending, done) && Behind(d, sending, edges, done) && e in sending
    ensures Behind(d, sending - multiset{e} + Onward(d, e), edges + {e}, done) && Behind(d, sending - multiset{e}, edges, done)
    ensures e !in edges
  {
  }

  lemma MoveOnAll(d: Successors, sending: multiset<Edge>, edges: set<Edge>, done: set<nat>, e: Edge)
    requires NothingSkipped(d, sending, edges, done) && e in sending && IsEdge(d, e)
    ensures NothingSkipped(d, sending - multiset{e} + Onward(d, e), edges + {e}, done)
  {
    var sending' := sending - multiset{e} + Onward(d, e);
    forall x: Edge | IsEdge(d, x) && x.0 in done && x !in edges + {e} ensures StillToSend(sending', x) {
      assert StillToSend(sending, x);
      var k :| k in sending && k.0 == x.0 && k.1 <= x.1;
      if k == e {
        assert (e.0, e.1 + 1) in sending';
      } else {
        assert k in sending';
      }
    }
  }

  lemma BehindLess(d: Successors, sending: multiset<Edge>, edges: set<Edge>, done: set<nat>, e: Edge)
    requires Behind(d, sending, edges + {e}, done)
    ensures Behind(d, sending, edges, done)
  {
  }

  lemma EdgesToContains(d: Successors, f: nat, e: Edge)
    ensures e in EdgesTo(d, f) <==> IsEdge(d, e) && Target(d, e) == f
  {
  }

  lemma InvokeAccounts(d: Successors, transit: multiset<nat>, counter: map<nat, nat>, passed: set<nat>,
                       edges: set<Edge>, e: Edge, f: nat)
    requires IsEdge(d, e) && e !in edges && AccountedFor(d, transit, counter, passed, edges, f)
    ensures AccountedFor(d, transit + multiset{Target(d, e)}, counter, passed, edges + {e}, f)
  {
    EdgesToContains(d, f, e);
    hide Expected, EdgesTo;
    if f == Target(d, e) {
      assert (edges + {e}) * EdgesTo(d, f) == edges * EdgesTo(d, f) + {e};
    } else {
      assert (edges + {e}) * EdgesTo(d, f) == edges * EdgesTo(d, f);
    }
  }

  lemma InvokeKeeps(d: Successors, w: Flow, e: Edge)
    requires WellFormed(d) && Inv(d, w) && e in w.sending && IsEdge(d, e)
    ensures Inv(d, Next(d, w, Invoke(e)))
  {
    hide OnceOnly, Accounted, InOrder;
    InvokeOrders(d, w, e);
    InvokeAccountsAll(d, w, e);
  }

  lemma InvokeOrders(d: Successors, w: Flow, e: Edge)
    requires WellFormed(d) && InOrder(d, w.sending, w.edges, w.done, w.failed) && e in w.sending && IsEdge(d, e)
    ensures InOrder(d, w.sending - multiset{e} + Onward(d, e), w.edges + {e}, w.done, w.failed) && e !in w.edges
  {
    assert e !in w.edges;
    hide OneAtATime, Behind, NothingSkipped, WellFormed;
    MoveOnOne(d, w.sending, w.done, e);
    MoveOnBehind(d, w.sending, w.edges, w.done, e);
    if !w.failed {
      MoveOnAll(d, w.sending, w.edges, w.done, e);
    }
  }

  lemma InvokeAccountsAll(d: Successors, w: Flow, e: Edge)
    requires WellFormed(d) && Accounted(d, w.transit, w.counter, w.passed, w.edges, w.started) && IsEdge(d, e) && e !in w.edges
    ensures Accounted(d, w.transit + multiset{Target(d, e)}, w.counter, w.passed, w.edges + {e}, w.started)
  {
    hide AccountedFor;
    forall f: nat | 0 < f <= |d| && AccountedFor(d, w.transit, w.counter, w.passed, w.edges, f)
      ensures AccountedFor(d, w.transit + multiset{Target(d, e)}, w.counter, w.passed, w.edges + {e}, f)
    {
      InvokeAccounts(d, w.transit, w.counter, w.passed, w.edges, e, f);
    }
  }

  lemma GiveUpKeeps(d: Successors, w: Flow, a: Action)
    requires Inv(d, w) && Enabled(d, w, a) && (a.Lose? || a.Stop?)
    ensures Inv(d, Next(d, w, a))
  {
    hide OnceOnly, Accounted, OneAtATime, Behind;
    MoveOnOne(d, w.sending, w.done, a.e);
    MoveOnBehind(d, w.sending, w.edges, w.done, a.e);
    BehindLess(d, w.sending - multiset{a.e} + Onward(d, a.e), w.edges, w.done, a.e);
  }

  lemma StepKeepsInv(d: Successors, w: Flow, a: Action)
    requires WellFormed(d) && Inv(d, w) && Enabled(d, w, a)
    ensures Inv(d, Next(d, w, a))
  {
    match a {
      case Begin => BeginKeeps(d, w);
      case Deliver(f) => DeliverKeeps(d, w, f);
      case Run(f) => RunKeeps(d, w, f);
      case Complete(f) => CompleteKeeps(d, w, f);
      case Throw(f) => ThrowKeeps(d, w, f);
      case Invoke(e) => InvokeKeeps(d, w, e);
      case Lose(_) => GiveUpKeeps(d, w, a);
      case Stop(_) => GiveUpKeeps(d, w, a);
    }
  }

  // --- runs ---

  ghost predicate Reaches(d: Successors, w: Flow, actions: seq<Action>, w': Flow)
    decreases |actions|
  {
    if actions == [] then w' == w
    else Enabled(d, w, actions[0]) && Reaches(d, Next(d, w, actions[0]), actions[1..], w')
  }

  lemma {:induction false} RunKeepsInv(d: Successors, w: Flow, actions: seq<Action>, w': Flow)
    requires WellFormed(d) && Inv(d, w) && Reaches(d, w, actions, w')
    ensures Inv(d, w')
    decreases |actions|
  {
    if actions != [] {
      hide Inv, WellFormed;
      StepKeepsInv(d, w, actions[0]);
      RunKeepsInv(d, Next(d, w, actions[0]), actions[1..], w');
    }
  }

  /** All the invocations of a function that has passed have been made, so its predecessors are done. */
  lemma PassedMeansInvoked(d: Successors, w: Flow, f: nat)
    requires Inv(d, w) && f in w.passed && 0 < f
    ensures w.transit[f] == 0 && EdgesTo(d, f) <= w.edges
    ensures forall e: Edge | IsEdge(d, e) && Target(d, e) == f :: e in w.edges && e.0 in w.done
  {
    hide OnceOnly, OneAtATime, NothingSkipped;
    assert AccountedFor(d, w.transit, w.counter, w.passed, w.edges, f);
    ExpectedIsEdgeCount(d, f);
    SubsetSize(w.edges * EdgesTo(d, f), EdgesTo(d, f));
    forall e: Edge | IsEdge(d, e) && Target(d, e) == f ensures e in w.edges && e.0 in w.done {
      assert e in EdgesTo(d, f);
    }
  }

  /** An invocation that is delivered although the call then throws, so that the remaining successors are not
      invoked, is made of these steps too. */
  lemma DeliveredThenThrown(d: Successors, w: Flow, e: Edge) returns (actions: seq<Action>, w': Flow)
    requires Enabled(d, w, Invoke(e))
    ensures Reaches(d, w, actions, w')
    ensures w' == w.(transit := w.transit + multiset{Target(d, e)}, edges := w.edges + {e}, sending := w.sending - multiset{e}, failed := w'.failed, stopped := w'.stopped)
    ensures w'.stopped == if Onward(d, e) == multiset{} then w.stopped else w.stopped + {(e.0, e.1 + 1)}
  {
    hide Arrive, Enabled, Next, Onward, Target;
    var v := Next(d, w, Invoke(e));
    InvokeMovesOn(d, w, e);
    if Onward(d, e) == multiset{} {
      actions, w' := [Invoke(e)], v;
      assert actions[1..] == [];
      assert Reaches(d, v, [], w');
    } else {
      var g := (e.0, e.1 + 1);
      StopEndsIt(d, w, v, e, g);
      actions, w' := [Invoke(e), Stop(g)], Next(d, v, Stop(g));
      assert actions[1..] == [Stop(g)] && [Stop(g)][1..] == [];
      assert Reaches(d, Next(d, v, Stop(g)), [], w');
      assert Reaches(d, v, [Stop(g)], w');
    }
  }

  lemma InvokeMovesOn(d: Successors, w: Flow, e: Edge)
    requires Enabled(d, w, Invoke(e))
    ensures IsEdge(d, e) && (Onward(d, e) != multiset{} ==> Onward(d, e) == multiset{(e.0, e.1 + 1)} && IsEdge(d, (e.0, e.1 + 1)))
    ensures Next(d, w, Invoke(e)) ==
      w.(transit := w.transit + multiset{Target(d, e)}, edges := w.edges + {e}, sending := w.sending - multiset{e} + Onward(d, e))
    ensures w.sending - multiset{e} + multiset{} == w.sending - multiset{e}
  {
    hide Arrive, Target;
  }

  lemma StopEndsIt(d: Successors, w: Flow, v: Flow, e: Edge, g: Edge)
    requires v.sending == w.sending - multiset{e} + multiset{g} && IsEdge(d, g)
    ensures Enabled(d, v, Stop(g)) && Next(d, v, Stop(g)) == v.(sending := w.sending - multiset{e}, failed := true, stopped := v.stopped + {g})
  {
    hide Arrive, Target, Onward;
    assert w.sending - multiset{e} + multiset{g} - multiset{g} == w.sending - multiset{e};
  }

  /** Safety of every run, whatever the interleaving and the failures: no function runs twice, none
      runs before all its predecessors have completed, and the callback fires once at most. */
  lemma EveryRunIsSafe(d: Successors, actions: seq<Action>, w: Flow)
    requires WellFormed(d) && Reaches(d, NewFlow, actions, w)
    ensures forall f: nat :: w.ran[f] <= 1
    ensures forall e: Edge | IsEdge(d, e) && (Target(d, e) in w.queue || Target(d, e) in w.ran) :: e.0 in w.done && w.ran[e.0] == 1
    ensures w.callbacks <= 1 && (w.callbacks == 1 <==> |d| in w.done)
    ensures forall f | f in w.counter :: 0 < f <= |d| && 0 < w.counter[f] < Expected(d, f)
  {
    NewFlowInv(d);
    RunKeepsInv(d, NewFlow, actions, w);
    hide InOrder, AccountedFor;
    forall e: Edge | IsEdge(d, e) && (Target(d, e) in w.queue || Target(d, e) in w.ran)
      ensures e.0 in w.done && w.ran[e.0] == 1
    {
      PassedMeansInvoked(d, w, Target(d, e));
    }
    forall f | f in w.counter ensures 0 < f <= |d| && 0 < w.counter[f] < Expected(d, f) {
      CountersStayBelow(d, w, f);
    }
  }

  lemma CountersStayBelow(d: Successors, w: Flow, f: nat)
    requires Inv(d, w) && f in w.counter
    ensures 0 < f <= |d| && 0 < w.counter[f] < Expected(d, f)
  {
    hide OnceOnly, InOrder, EdgesTo, Expected;
    assert AccountedFor(d, w.transit, w.counter, w.passed, w.edges, f);
  }

  ghost predicate Bounded(rank: seq<nat>, b: nat) { forall i | 0 <= i < |rank| :: rank[i] <= b }

  lemma {:induction false} HasBound(rank: seq<nat>) returns (b: nat)
    ensures Bounded(rank, b)
  {
    if rank == [] { return 0; }
    var m := HasBound(rank[..|rank| - 1]);
    b := m + rank[|rank| - 1];
    forall i | 0 <= i < |rank| ensures rank[i] <= b {
      if i < |rank| - 1 { assert rank[..|rank| - 1][i] == rank[i]; }
    }
  }

  /** Every function leads to the last one, so the last one comes after all the others. */
  lemma {:induction false} DoneBeforeLast(d: Successors, w: Flow, rank: seq<nat>, b: nat, f: nat)
    requires WellFormed(d) && Inv(d, w) && Ranks(d, rank) && Bounded(rank, b) && |d| in w.done && f <= |d|
    ensures f in w.done
    decreases b - rank[f]
  {
    if f < |d| {
      assert IsEdge(d, (f, 0));
      var g := Target(d, (f, 0));
      DoneBeforeLast(d, w, rank, b, g);
      assert g in w.passed by { hide InOrder, Accounted; assert w.ran[g] == 1; }
      PassedMeansInvoked(d, w, g);
    }
  }

  /** The callback fires only after every function has run. */
  lemma CallbackComesLast(d: Successors, actions: seq<Action>, w: Flow, f: nat)
    requires WellFormed(d) && Reaches(d, NewFlow, actions, w) && w.callbacks > 0 && f <= |d|
    ensures f in w.done && w.ran[f] == 1
  {
    NewFlowInv(d);
    RunKeepsInv(d, NewFlow, actions, w);
    var rank :| Ranks(d, rank);
    var b := HasBound(rank);
    DoneBeforeLast(d, w, rank, b, f);
    hide InOrder, Accounted;
  }

  /** Nothing left to deliver, to run or to invoke. */
  predicate Quiescent(w: Flow) {
    w.started && |w.transit| == |w.queue| == |w.running| == |w.sending| == 0
  }

  lemma {:induction false} DoneInTheEnd(d: Successors, w: Flow, rank: seq<nat>, f: nat)
    requires WellFormed(d) && Inv(d, w) && Ranks(d, rank) && Quiescent(w) && !w.failed && f <= |d|
    ensures f in w.done && w.ran[f] == 1 && f !in w.counter
    decreases rank[f]
  {
    hide Behind, OneAtATime;
    assert forall x: nat :: w.transit[x] == w.queue[x] == w.running[x] == 0;
    if f > 0 {
      assert AccountedFor(d, w.transit, w.counter, w.passed, w.edges, f);
      ExpectedIsEdgeCount(d, f);
      forall e | e in EdgesTo(d, f) ensures e in w.edges {
        DoneInTheEnd(d, w, rank, e.0);
        assert e !in w.edges ==> StillToSend(w.sending, e);
      }
      assert w.edges * EdgesTo(d, f) == EdgesTo(d, f);
    }
    assert f in w.passed;
    assert w.ran[f] == 1;
  }

  /** If nothing fails, then once nothing is left to do every function has run exactly once, the
      callback has fired exactly once and no counter is left behind. */
  lemma WithoutFailuresAllRunOnce(d: Successors, actions: seq<Action>, w: Flow)
    requires WellFormed(d) && Reaches(d, NewFlow, actions, w) && Quiescent(w) && !w.failed
    ensures forall f: nat | f <= |d| :: w.ran[f] == 1 && f in w.done
    ensures w.callbacks == 1 && w.counter == map[]
  {
    NewFlowInv(d);
    RunKeepsInv(d, NewFlow, actions, w);
    var rank :| Ranks(d, rank);
    forall f: nat | f <= |d| ensures w.ran[f] == 1 && f in w.done && f !in w.counter {
      DoneInTheEnd(d, w, rank, f);
    }
    hide InOrder, OnceOnly, AccountedFor;
    assert forall f :: f !in w.counter;
  }

  // --- every run ends ---

  function Fanout(d: Successors, f: nat): nat { if f < |d| then |d[f]| else 0 }

  ghost function Unpassed(d: Successors, passed: set<nat>): multiset<nat> {
    multiset(Below(|d| + 1) - passed)
  }

  ghost function Below(n: nat): (s: set<nat>)
    ensures forall f: nat :: f in s <==> f < n
  {
    if n == 0 then {} else Below(n - 1) + {n - 1}
  }

  ghost function ToPass(d: Successors): nat -> nat { f => 2 * Fanout(d, f) + 4 }
  ghost function ToRun(d: Successors): nat -> nat { f => 2 * Fanout(d, f) + 3 }
  ghost function ToComplete(d: Successors): nat -> nat { f => 2 * Fanout(d, f) + 2 }
  ghost function ToSend(d: Successors): Edge -> nat {
    (e: Edge) => if e.1 < Fanout(d, e.0) then 2 * (Fanout(d, e.0) - e.1) + 1 else 1
  }

  /** An upper bound on the steps that remain. */
  ghost function Work(d: Successors, w: Flow): nat {
    SumOver(Unpassed(d, w.passed), ToPass(d)) + SumOver(w.queue, ToRun(d)) + SumOver(w.running, ToComplete(d))
    + SumOver(w.sending, ToSend(d)) + |w.transit| + if w.started then 0 else 2
  }

  lemma PassedLess(d: Successors, passed: set<nat>, f: nat)
    requires f !in passed && f <= |d|
    ensures SumOver(Unpassed(d, passed), ToPass(d)) == SumOver(Unpassed(d, passed + {f}), ToPass(d)) + 2 * Fanout(d, f) + 4
  {
    TakeOut(Unpassed(d, passed), ToPass(d), f);
    assert Unpassed(d, passed) - multiset{f} == Unpassed(d, passed + {f});
  }

  lemma QueueTotal(d: Successors, queue: multiset<nat>, f: nat)
    ensures SumOver(queue + multiset{f}, ToRun(d)) == SumOver(queue, ToRun(d)) + 2 * Fanout(d, f) + 3
    ensures f in queue ==> SumOver(queue, ToRun(d)) == SumOver(queue - multiset{f}, ToRun(d)) + 2 * Fanout(d, f) + 3
  {
    PutIn(queue, ToRun(d), f);
    if f in queue { TakeOut(queue, ToRun(d), f); }
  }

  lemma RunningTotal(d: Successors, running: multiset<nat>, f: nat)
    ensures SumOver(running + multiset{f}, ToComplete(d)) == SumOver(running, ToComplete(d)) + 2 * Fanout(d, f) + 2
    ensures f in running ==> SumOver(running, ToComplete(d)) == SumOver(running - multiset{f}, ToComplete(d)) + 2 * Fanout(d, f) + 2
  {
    PutIn(running, ToComplete(d), f);
    if f in running { TakeOut(running, ToComplete(d), f); }
  }

  lemma SendingTotal(d: Successors, sending: multiset<Edge>, e: Edge)
    requires IsEdge(d, e)
    ensures SumOver(sending + multiset{e}, ToSend(d)) == SumOver(sending, ToSend(d)) + 2 * (|d[e.0]| - e.1) + 1
    ensures e in sending ==> SumOver(sending, ToSend(d)) == SumOver(sending - multiset{e}, ToSend(d)) + 2 * (|d[e.0]| - e.1) + 1
  {
    PutIn(sending, ToSend(d), e);
    if e in sending { TakeOut(sending, ToSend(d), e); }
  }

  lemma SentLess(d: Successors, sending: multiset<Edge>, e: Edge)
    requires e in sending && IsEdge(d, e)
    ensures SumOver(sending - multiset{e} + Onward(d, e), ToSend(d)) + 1 < SumOver(sending, ToSend(d))
    ensures SumOver(sending - multiset{e}, ToSend(d)) < SumOver(sending, ToSend(d))
  {
    hide SumOver, ToSend;
    SendingTotal(d, sending, e);
    if e.1 + 1 < |d[e.0]| {
      var next: Edge := (e.0, e.1 + 1);
      SendingTotal(d, sending - multiset{e}, next);
    } else {
      assert sending - multiset{e} + Onward(d, e) == sending - multiset{e};
    }
  }

  lemma DeliverReducesWork(d: Successors, w: Flow, f: nat)
    requires Inv(d, w) && f in w.transit
    ensures Work(d, Next(d, w, Deliver(f))) < Work(d, w)
  {
    hide Inv, SumOver, Expected, ToPass, ToRun, ToComplete, ToSend, Unpassed;
    NotYetPassed(d, w, f);
    PassedLess(d, w.passed, f);
    QueueTotal(d, w.queue, f);
  }

  lemma FunctionReducesWork(d: Successors, w: Flow, a: Action)
    requires Enabled(d, w, a) && (a.Run? || a.Complete? || a.Throw?)
    ensures Work(d, Next(d, w, a)) < Work(d, w)
  {
    hide SumOver, ToPass, ToRun, ToComplete, ToSend, Unpassed;
    QueueTotal(d, w.queue, a.f);
    RunningTotal(d, w.running, a.f);
    if a.f < |d| && d[a.f] != [] {
      SendingTotal(d, w.sending, (a.f, 0));
    }
  }

  lemma EdgeReducesWork(d: Successors, w: Flow, a: Action)
    requires Enabled(d, w, a) && (a.Invoke? || a.Lose? || a.Stop?)
    ensures Work(d, Next(d, w, a)) < Work(d, w)
  {
    hide SumOver, ToPass, ToRun, ToComplete, ToSend, Unpassed;
    SentLess(d, w.sending, a.e);
  }

  /** Every step brings the end of the workflow closer. */
  lemma StepReducesWork(d: Successors, w: Flow, a: Action)
    requires Inv(d, w) && Enabled(d, w, a)
    ensures Work(d, Next(d, w, a)) < Work(d, w)
  {
    if a.Deliver? {
      DeliverReducesWork(d, w, a.f);
    } else if a.Run? || a.Complete? || a.Throw? {
      FunctionReducesWork(d, w, a);
    } else if !a.Begin? {
      EdgeReducesWork(d, w, a);
    }
  }

  /** A workflow takes a bounded number of steps, and until nothing is left to do it can take another. */
  lemma {:induction false} RunsEnd(d: Successors, w: Flow, actions: seq<Action>, w': Flow)
    requires WellFormed(d) && Inv(d, w) && Reaches(d, w, actions, w')
    ensures |actions| + Work(d, w') <= Work(d, w)
    ensures Quiescent(w') || exists a :: Enabled(d, w', a)
    decreases |actions|
  {
    if actions == [] {
      CanStep(d, w);
    } else {
      hide Inv, WellFormed, Work;
      StepReducesWork(d, w, actions[0]);
      StepKeepsInv(d, w, actions[0]);
      RunsEnd(d, Next(d, w, actions[0]), actions[1..], w');
    }
  }

  lemma CanStep(d: Successors, w: Flow)
    requires Inv(d, w)
    ensures Quiescent(w) || exists a :: Enabled(d, w, a)
  {
    hide OnceOnly, Accounted, Behind, NothingSkipped;
    if !w.started {
      assert Enabled(d, w, Begin);
    } else if f :| f in w.transit {
      assert Enabled(d, w, Deliver(f));
    } else if f :| f in w.queue {
      assert Enabled(d, w, Run(f));
    } else if f :| f in w.running {
      assert Enabled(d, w, Complete(f));
    } else if e :| e in w.sending {
      assert Enabled(d, w, Invoke(e));
    }
  }
}
