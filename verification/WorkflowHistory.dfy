/** What became of every edge of a workflow: followed, refused, given up, or still to come. */
module WorkflowHistory {
  import opened Dags
  import opened Workflow

  /** At edge e the function had given up, or before it. */
  ghost predicate GivenUp(stopped: set<Edge>, e: Edge) {
    exists k: Edge :: k in stopped && k.0 == e.0 && k.1 <= e.1
  }

  /** No successor of a completed function is forgotten, whatever fails. */
  ghost predicate NoneForgotten(d: Successors, w: Flow) {
    forall e: Edge | IsEdge(d, e) && e.0 in w.done ::
      e in w.edges || e in w.lost || StillToSend(w.sending, e) || GivenUp(w.stopped, e)
  }

  /** The successors that refused come before the one to invoke next, and were not invoked. */
  ghost predicate LostBehind(d: Successors, w: Flow) {
    Behind(d, w.sending, w.lost, w.done) && w.lost !! w.edges
  }

  /** A function that gave up invokes nothing from there on. */
  ghost predicate StoppedIsFinal(d: Successors, w: Flow) {
    && (forall k | k in w.stopped :: IsEdge(d, k) && k.0 in w.done)
    && (forall k, e | k in w.stopped && e in w.sending :: k.0 != e.0)
    && (forall k, e | k in w.stopped && e in w.edges + w.lost && k.0 == e.0 :: e.1 < k.1)
    && (forall k, e | k in w.stopped && e in w.stopped && k.0 == e.0 :: e == k)
  }

  /** A failure is a refused invocation, a call that threw or a function that threw. */
  ghost predicate FailureHasCause(w: Flow) {
    w.failed <==> w.lost != {} || w.stopped != {} || w.thrown != {}
  }

  ghost predicate History(d: Successors, w: Flow) {
    NoneForgotten(d, w) && LostBehind(d, w) && StoppedIsFinal(d, w) && FailureHasCause(w)
  }

  // --- steps that concern no edge ---

  /** What a step other than Complete, Invoke, Lose and Stop leaves alone. */
  lemma Elsewhere(d: Successors, w: Flow, a: Action)
    requires Enabled(d, w, a) && !a.Complete? && !a.Invoke? && !a.Lose? && !a.Stop?
    ensures var w' := Next(d, w, a);
            && w'.sending == w.sending && w'.edges == w.edges && w'.lost == w.lost && w'.stopped == w.stopped && w'.done == w.done
            && ((w'.thrown == w.thrown && w'.failed == w.failed) || (w'.thrown != {} && w'.failed))
  {
    hide Arrive, Onward, Target, IsEdge;
    match a {
      case Begin =>
      case Deliver(f) => DeliverLeaves(d, w, f);
      case Run(_) =>
      case Throw(f) => assert f in Next(d, w, a).thrown;
    }
  }

  lemma DeliverLeaves(d: Successors, w: Flow, f: nat)
    requires f in w.transit
    ensures var w' := Next(d, w, Deliver(f));
            w' == w.(transit := w'.transit, counter := w'.counter, queue := w'.queue, passed := w'.passed)
  {
    hide Arrive, Onward, Target, IsEdge;
  }

  lemma ElsewhereKeeps(d: Successors, w: Flow, a: Action)
    requires History(d, w) && Enabled(d, w, a) && !a.Complete? && !a.Invoke? && !a.Lose? && !a.Stop?
    ensures History(d, Next(d, w, a))
  {
    hide Enabled, Next, Behind;
    Elsewhere(d, w, a);
  }

  // --- a function completes ---

  lemma CompleteForgetsNone(d: Successors, w: Flow, f: nat)
    requires NoneForgotten(d, w) && Enabled(d, w, Complete(f))
    ensures NoneForgotten(d, Next(d, w, Complete(f)))
  {
    hide Next;
    CompleteLeaves(d, w, f);
    var w' := Next(d, w, Complete(f));
    forall e: Edge | IsEdge(d, e) && e.0 in w'.done
      ensures e in w'.edges || e in w'.lost || StillToSend(w'.sending, e) || GivenUp(w'.stopped, e)
    {
      if e.0 == f {
        assert (f, 0) in w'.sending;
      } else if StillToSend(w.sending, e) {
        var k :| k in w.sending && k.0 == e.0 && k.1 <= e.1;
        assert k in w'.sending;
      }
    }
  }

  lemma CompleteKeeps(d: Successors, w: Flow, f: nat)
    requires Inv(d, w) && History(d, w) && f in w.running
    ensures History(d, Next(d, w, Complete(f)))
  {
    hide Next, Inv, NoneForgotten;
    RunningIsKnown(d, w, f);
    CompleteForgetsNone(d, w, f);
    CompleteLeaves(d, w, f);
  }

  // --- an edge is dealt with ---

  lemma EdgeLeaves(d: Successors, w: Flow, a: Action)
    requires Enabled(d, w, a) && (a.Invoke? || a.Lose? || a.Stop?)
    ensures var w' := Next(d, w, a);
            && w'.sending == (if a.Stop? then w.sending - multiset{a.e} else w.sending - multiset{a.e} + Onward(d, a.e))
            && w'.edges == (if a.Invoke? then w.edges + {a.e} else w.edges)
            && w'.lost == (if a.Lose? then w.lost + {a.e} else w.lost)
            && w'.stopped == (if a.Stop? then w.stopped + {a.e} else w.stopped)
            && w'.done == w.done && w'.thrown == w.thrown && w'.failed == (w.failed || !a.Invoke?)
  {
    hide Arrive, Onward;
  }

  /** Where the turn of edge e was to come, it comes at the successor after the one dealt with. */
  lemma TurnMovesOn(d: Successors, sending: multiset<Edge>, done: Edge, e: Edge)
    requires IsEdge(d, done) && IsEdge(d, e) && StillToSend(sending, e)
    ensures e == done || (done.0 == e.0 && done.1 <= e.1) || StillToSend(sending - multiset{done}, e)
    ensures e == done || StillToSend(sending - multiset{done} + Onward(d, done), e)
  {
    var k :| k in sending && k.0 == e.0 && k.1 <= e.1;
    if k == done {
      if e != done { assert (k.0, k.1 + 1) in sending - multiset{done} + Onward(d, done); }
    } else {
      assert k in sending - multiset{done} && k in sending - multiset{done} + Onward(d, done);
    }
  }

  lemma EdgeForgetsNone(d: Successors, w: Flow, a: Action)
    requires NoneForgotten(d, w) && Enabled(d, w, a) && (a.Invoke? || a.Lose? || a.Stop?)
    ensures NoneForgotten(d, Next(d, w, a))
  {
    hide Next, StillToSend, Onward, IsEdge;
    EdgeLeaves(d, w, a);
    var w' := Next(d, w, a);
    forall e: Edge | IsEdge(d, e) && e.0 in w'.done
      ensures e in w'.edges || e in w'.lost || StillToSend(w'.sending, e) || GivenUp(w'.stopped, e)
    {
      if StillToSend(w.sending, e) {
        TurnMovesOn(d, w.sending, a.e, e);
        if a.Stop? { assert a.e in w'.stopped; }
      } else if GivenUp(w.stopped, e) {
        var k :| k in w.stopped && k.0 == e.0 && k.1 <= e.1;
        assert k in w'.stopped;
      }
    }
  }

  /** The edge dealt with had not been dealt with before. */
  lemma EdgeIsNew(d: Successors, w: Flow, e: Edge)
    requires Inv(d, w) && LostBehind(d, w) && e in w.sending
    ensures OneAtATime(d, w.sending, w.done) && Behind(d, w.sending, w.edges, w.done)
    ensures IsEdge(d, e) && e.0 in w.done && e !in w.edges && e !in w.lost
  {
    hide OnceOnly, Accounted, NothingSkipped;
  }

  lemma EdgeLostBehind(d: Successors, w: Flow, a: Action)
    requires Inv(d, w) && LostBehind(d, w) && Enabled(d, w, a) && (a.Invoke? || a.Lose? || a.Stop?)
    ensures LostBehind(d, Next(d, w, a))
  {
    hide Next, OneAtATime, Behind, Inv, Onward;
    EdgeIsNew(d, w, a.e);
    EdgeLeaves(d, w, a);
    MoveOnBehind(d, w.sending, w.lost, w.done, a.e);
    BehindLess(d, w.sending - multiset{a.e} + Onward(d, a.e), w.lost, w.done, a.e);
  }

  lemma EdgeIsFinal(d: Successors, w: Flow, a: Action)
    requires Inv(d, w) && LostBehind(d, w) && StoppedIsFinal(d, w) && Enabled(d, w, a) && (a.Invoke? || a.Lose? || a.Stop?)
    ensures StoppedIsFinal(d, Next(d, w, a))
  {
    hide Next, Inv, OneAtATime, Behind, Onward;
    EdgeIsNew(d, w, a.e);
    EdgeLeaves(d, w, a);
    SendingAfter(d, w, a);
    EdgesBefore(d, w, a.e);
    FinalAfter(d, w, Next(d, w, a), a.e, a.Stop?);
  }

  lemma FinalAfter(d: Successors, w: Flow, w': Flow, e: Edge, stop: bool)
    requires StoppedIsFinal(d, w) && w'.done == w.done && e in w.sending && IsEdge(d, e) && e.0 in w.done
    requires forall x | x in w'.sending :: (x in w.sending && x.0 != e.0) || (x.0 == e.0 && !stop)
    requires forall x | x in w.edges + w.lost && x.0 == e.0 :: x.1 < e.1
    requires forall x | x in w'.edges + w'.lost :: x in w.edges + w.lost || (x == e && !stop)
    requires w'.stopped == if stop then w.stopped + {e} else w.stopped
    ensures StoppedIsFinal(d, w')
  {
    hide IsEdge;
  }

  lemma SendingAfter(d: Successors, w: Flow, a: Action)
    requires OneAtATime(d, w.sending, w.done) && Enabled(d, w, a) && (a.Invoke? || a.Lose? || a.Stop?)
    ensures forall x | x in Next(d, w, a).sending :: (x in w.sending && x.0 != a.e.0) || (x.0 == a.e.0 && !a.Stop?)
  {
    hide Next;
    EdgeLeaves(d, w, a);
  }

  lemma EdgesBefore(d: Successors, w: Flow, e: Edge)
    requires Inv(d, w) && LostBehind(d, w) && e in w.sending
    ensures forall x | x in w.edges + w.lost && x.0 == e.0 :: x.1 < e.1
  {
    hide OnceOnly, Accounted, NothingSkipped, OneAtATime;
  }

  lemma EdgeKeeps(d: Successors, w: Flow, a: Action)
    requires Inv(d, w) && History(d, w) && Enabled(d, w, a) && (a.Invoke? || a.Lose? || a.Stop?)
    ensures History(d, Next(d, w, a))
  {
    hide Next, Inv, NoneForgotten, LostBehind, StoppedIsFinal;
    EdgeForgetsNone(d, w, a);
    EdgeLostBehind(d, w, a);
    EdgeIsFinal(d, w, a);
    EdgeLeaves(d, w, a);
  }

  lemma StepKeepsHistory(d: Successors, w: Flow, a: Action)
    requires Inv(d, w) && History(d, w) && Enabled(d, w, a)
    ensures History(d, Next(d, w, a))
  {
    hide Next, Inv, History;
    if a.Complete? {
      CompleteKeeps(d, w, a.f);
    } else if a.Invoke? || a.Lose? || a.Stop? {
      EdgeKeeps(d, w, a);
    } else {
      ElsewhereKeeps(d, w, a);
    }
  }

  lemma {:induction false} RunKeepsHistory(d: Successors, w: Flow, actions: seq<Action>, w': Flow)
    requires WellFormed(d) && Inv(d, w) && History(d, w) && Reaches(d, w, actions, w')
    ensures Inv(d, w') && History(d, w')
    decreases |actions|
  {
    if actions != [] {
      hide Inv, History, WellFormed;
      StepKeepsInv(d, w, actions[0]);
      StepKeepsHistory(d, w, actions[0]);
      RunKeepsHistory(d, Next(d, w, actions[0]), actions[1..], w');
    }
  }

  /**
   * In every reachable state, whatever failed: each successor of a completed function has been invoked,
   * or has refused, or its turn is still to come, or the function gave up at it or before it; a function
   * that gave up invokes nothing more; and the workflow has failed exactly when one of these things happened.
   */
  lemma ReachableForgetsNone(d: Successors, actions: seq<Action>, w: Flow)
    requires WellFormed(d) && Reaches(d, NewFlow, actions, w)
    ensures History(d, w)
  {
    NewFlowInv(d);
    RunKeepsHistory(d, NewFlow, actions, w);
  }

  /** The history tells what happened in the run, and nothing else. */
  lemma {:induction false} HistoryIsOfTheRun(d: Successors, w: Flow, actions: seq<Action>, w': Flow, e: Edge)
    requires Reaches(d, w, actions, w')
    ensures e in w'.edges <==> e in w.edges || Invoke(e) in actions
    ensures e in w'.lost <==> e in w.lost || Lose(e) in actions
    ensures e in w'.stopped <==> e in w.stopped || Stop(e) in actions
    decreases |actions|
  {
    if actions != [] {
      var a := actions[0];
      assert actions == [a] + actions[1..];
      HistoryIsOfTheRun(d, Next(d, w, a), actions[1..], w', e);
      hide Next, Enabled;
      OneStepOfHistory(d, w, a);
    }
  }

  lemma OneStepOfHistory(d: Successors, w: Flow, a: Action)
    requires Enabled(d, w, a)
    ensures var w' := Next(d, w, a);
            && w'.edges == (if a.Invoke? then w.edges + {a.e} else w.edges)
            && w'.lost == (if a.Lose? then w.lost + {a.e} else w.lost)
            && w'.stopped == (if a.Stop? then w.stopped + {a.e} else w.stopped)
  {
    hide Next, Onward;
    if a.Complete? {
      CompleteLeaves(d, w, a.f);
    } else if a.Invoke? || a.Lose? || a.Stop? {
      EdgeLeaves(d, w, a);
    } else {
      Elsewhere(d, w, a);
    }
  }

  // --- what has happened once nothing is left to do ---

  /** One refusal, or one function that throws, takes nothing from the other branches: exactly the successors
      that refused, and those from where the function gave up, are not invoked. */
  lemma QuiescentFollowsAllOthers(d: Successors, actions: seq<Action>, w: Flow, e: Edge)
    requires WellFormed(d) && Reaches(d, NewFlow, actions, w) && Quiescent(w) && IsEdge(d, e)
    ensures e in w.edges <==> e.0 in w.done && e !in w.lost && !GivenUp(w.stopped, e)
  {
    NewFlowInv(d);
    RunKeepsHistory(d, NewFlow, actions, w);
    hide Accounted, OnceOnly;
    if GivenUp(w.stopped, e) {
      var k :| k in w.stopped && k.0 == e.0 && k.1 <= e.1;
    }
  }

  /** The first function has run, and every other one exactly when all its predecessors have invoked it; it has
      then completed or thrown. */
  lemma QuiescentRanIff(d: Successors, actions: seq<Action>, w: Flow, f: nat)
    requires WellFormed(d) && Reaches(d, NewFlow, actions, w) && Quiescent(w) && 0 < f <= |d|
    ensures w.ran[f] == 1 <==> EdgesTo(d, f) <= w.edges
    ensures w.ran[f] == 1 <==> forall e: Edge | IsEdge(d, e) && Target(d, e) == f ::
      e.0 in w.done && e !in w.lost && !GivenUp(w.stopped, e)
    ensures w.ran[0] == 1 && (w.ran[f] == 1 <==> f in w.done + w.thrown)
  {
    NewFlowInv(d);
    RunKeepsInv(d, NewFlow, actions, w);
    QuiescentPassed(d, w, f);
    forall e: Edge | IsEdge(d, e) && Target(d, e) == f
      ensures e in EdgesTo(d, f)
      ensures e in w.edges <==> e.0 in w.done && e !in w.lost && !GivenUp(w.stopped, e)
    {
      hide Inv, GivenUp;
      QuiescentFollowsAllOthers(d, actions, w, e);
    }
    hide Inv, GivenUp;
    assert forall e | e in EdgesTo(d, f) :: IsEdge(d, e) && Target(d, e) == f;
  }

  lemma QuiescentPassed(d: Successors, w: Flow, f: nat)
    requires WellFormed(d) && Inv(d, w) && Quiescent(w) && 0 < f <= |d|
    ensures w.ran[f] == 1 <==> EdgesTo(d, f) <= w.edges
    ensures w.ran[0] == 1 && (w.ran[f] == 1 <==> f in w.done + w.thrown)
  {
    hide InOrder;
    assert w.transit[f] == w.queue[f] == w.running[f] == 0 && w.transit[0] == w.queue[0] == 0;
    assert AccountedFor(d, w.transit, w.counter, w.passed, w.edges, f);
    ExpectedIsEdgeCount(d, f);
    SubsetSize(w.edges * EdgesTo(d, f), EdgesTo(d, f));
    assert EdgesTo(d, f) <= w.edges <==> w.edges * EdgesTo(d, f) == EdgesTo(d, f);
  }
}
