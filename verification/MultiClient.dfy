/** EdgeClientMulti as a transition system: any number of calling threads, one executor per
    destination and the clean-up consumer, passing messages through FIFO queues. */
module MultiClient {
  import opened Wrappers

  datatype Response = Response(ok: bool, output: string)

  /** What an executor pushes: its index, the response (None after an exception), and the request it ran. */
  datatype MessageOut = MessageOut(index: nat, response: Option<Response>, request: nat)

  /** Where a calling thread is inside RunLambda. */
  datatype Caller =
    | Out
    | Acquired
    | Chosen(selected: set<nat>)
    | Sending(selected: set<nat>, toSend: set<nat>)
    | Collecting(selected: set<nat>, pending: set<nat>)
    | Failed(selected: set<nat>, last: Option<Response>)
    | Got(selected: set<nat>, pending: set<nat>, index: nat, response: Response)
    | Recording(selected: set<nat>, index: nat, response: Response, request: nat)
  {
    /** Between popping the go-ahead and passing it on. */
    predicate Holds() { !Out? && !Recording? }
  }

  /** What RunLambda returned: an OK response with its responder, or the failure of all destinations. */
  datatype Return =
    | Good(request: nat, selected: set<nat>, responder: nat, response: Response)
    | Bad(request: nat, selected: set<nat>, last: Option<Response>)

  /** Requests are numbered in the order in which thePendingRequest is replaced; pendingRequest is the
      live one. The answers of the executors and the results returned are kept as history; so are, by
      request, the primary when its destinations were chosen and the responses its caller has popped. */
  datatype State = State(
    primary: nat,
    queueIn: seq<seq<nat>>,
    executors: seq<Option<nat>>,
    queueOut: seq<MessageOut>,
    goAheads: nat,
    consumerQueue: seq<set<nat>>,
    consumer: Option<set<nat>>,
    pendingRequest: nat,
    callers: seq<Caller>,
    answers: map<(nat, nat), Option<Response>>,
    returned: seq<Return>,
    chosen: map<nat, nat>,
    popped: map<nat, seq<nat>>)
  {
    function N(): nat { |executors| }

    predicate WellFormed() {
      |executors| > 0 && |queueIn| == |executors| && primary < |executors|
    }
  }

  ghost predicate Init(s: State) {
    && s.WellFormed() && s.primary == 0
    && (forall i | 0 <= i < s.N() :: s.queueIn[i] == [] && s.executors[i].None?)
    && s.queueOut == [] && s.goAheads == 1 && s.consumerQueue == [] && s.consumer.None?
    && (forall t | 0 <= t < |s.callers| :: s.callers[t].Out?)
    && s.answers == map[] && s.returned == [] && s.chosen == map[] && s.popped == map[]
  }

  datatype Action =
    | Acquire(t: nat)                  // the go-ahead is popped
    | Choose(t: nat, extra: set<nat>)  // secondary(), plus the primary
    | Store(t: nat)                    // thePendingRequest is replaced
    | Send(t: nat, i: nat)             // one request is queued
    | Start(i: nat)                    // an executor pops a request
    | Finish(i: nat, response: Option<Response>) // and pushes what came out of it
    | Collect(t: nat)                  // the caller pops a response
    | GiveUp(t: nat)                   // all failed: return the go-ahead and an error
    | PassOn(t: nat)                   // one succeeded: the go-ahead is returned or left to the consumer
    | Record(t: nat)                   // the responder becomes the primary
    | Take                             // the consumer pops a set of pending executors
    | Drain                            // and one of their responses
    | Release                          // until none is left

  predicate Enabled(s: State, a: Action)
    requires s.WellFormed()
  {
    match a
    case Acquire(t) => t < |s.callers| && s.callers[t].Out? && s.goAheads > 0
    case Choose(t, extra) => t < |s.callers| && s.callers[t].Acquired? && forall i | i in extra :: i < s.N()
    case Store(t) => t < |s.callers| && s.callers[t].Chosen?
    case Send(t, i) => t < |s.callers| && s.callers[t].Sending? && i in s.callers[t].toSend && i < s.N()
    case Start(i) => i < s.N() && s.executors[i].None? && s.queueIn[i] != []
    case Finish(i, _) => i < s.N() && s.executors[i].Some?
    case Collect(t) => t < |s.callers| && s.callers[t].Collecting? && s.queueOut != []
    case GiveUp(t) => t < |s.callers| && s.callers[t].Failed?
    case PassOn(t) => t < |s.callers| && s.callers[t].Got?
    case Record(t) => t < |s.callers| && s.callers[t].Recording? && s.callers[t].index < s.N()
    case Take => s.consumer.None? && s.consumerQueue != []
    case Drain => s.consumer.Some? && s.consumer.value != {} && s.queueOut != []
    case Release => s.consumer == Some({})
  }

  function At(s: State, t: nat, c: Caller): State
    requires t < |s.callers|
  {
    s.(callers := s.callers[t := c])
  }

  function PoppedFor(s: State, request: nat): seq<nat> {
    if request in s.popped then s.popped[request] else []
  }

  function Next(s: State, a: Action): State
    requires s.WellFormed() && Enabled(s, a)
  {
    match a
    case Acquire(t) => At(s, t, Acquired).(goAheads := s.goAheads - 1)
    case Choose(t, extra) => At(s, t, Chosen(extra + {s.primary})).(chosen := s.chosen[s.pendingRequest + 1 := s.primary])
    case Store(t) =>
      var selected := s.callers[t].selected;
      At(s, t, Sending(selected, selected)).(pendingRequest := s.pendingRequest + 1, popped := s.popped[s.pendingRequest + 1 := []])
    case Send(t, i) =>
      var Sending(selected, toSend) := s.callers[t];
      var rest := toSend - {i};
      At(s, t, if rest == {} then Collecting(selected, selected) else Sending(selected, rest))
        .(queueIn := s.queueIn[i := s.queueIn[i] + [s.pendingRequest]])
    case Start(i) =>
      s.(executors := s.executors[i := Some(s.queueIn[i][0])], queueIn := s.queueIn[i := s.queueIn[i][1..]])
    case Finish(i, response) =>
      var request := s.executors[i].value;
      s.(executors := s.executors[i := None],
         queueOut := s.queueOut + [MessageOut(i, response, request)],
         answers := s.answers[(request, i) := response])
    case Collect(t) =>
      var Collecting(selected, pending) := s.callers[t];
      var m := s.queueOut[0];
      var rest := pending - {m.index};
      At(s, t, if m.response.Some? && m.response.value.ok then Got(selected, rest, m.index, m.response.value)
               else if rest == {} then Failed(selected, m.response)
               else Collecting(selected, rest)).(queueOut := s.queueOut[1..], popped := s.popped[m.request := PoppedFor(s, m.request) + [m.index]])
    case GiveUp(t) =>
      var Failed(selected, last) := s.callers[t];
      At(s, t, Out).(goAheads := s.goAheads + 1, returned := s.returned + [Bad(s.pendingRequest, selected, last)])
    case PassOn(t) =>
      var Got(selected, pending, index, response) := s.callers[t];
      var s' := At(s, t, Recording(selected, index, response, s.pendingRequest));
      if pending == {} then s'.(goAheads := s.goAheads + 1) else s'.(consumerQueue := s.consumerQueue + [pending])
    case Record(t) =>
      var Recording(selected, index, response, request) := s.callers[t];
      At(s, t, Out).(primary := index, returned := s.returned + [Good(request, selected, index, response)])
    case Take => s.(consumer := Some(s.consumerQueue[0]), consumerQueue := s.consumerQueue[1..])
    case Drain =>
      s.(consumer := Some(s.consumer.value - {s.queueOut[0].index}), queueOut := s.queueOut[1..])
    case Release => s.(consumer := None, goAheads := s.goAheads + 1)
  }

  // --- the inductive invariant ---

  /** Who is responsible for the requests in progress. */
  datatype Owner = Nobody | Calling(t: nat) | InTransit | Consumer

  /** The go-ahead is in exactly one place. */
  ghost predicate OneGoAhead(s: State, o: Owner) {
    && s.goAheads == (if o.Nobody? then 1 else 0)
    && |s.consumerQueue| == (if o.InTransit? then 1 else 0)
    && (s.consumer.Some? <==> o.Consumer?)
    && (o.Calling? ==> o.t < |s.callers|)
    && (forall t | 0 <= t < |s.callers| :: s.callers[t].Holds() <==> o == Calling(t))
  }

  /** The executors that have been given the current request and whose response nobody has popped yet. */
  function Outstanding(s: State, o: Owner): set<nat>
    requires OneGoAhead(s, o)
  {
    match o
    case Nobody => {}
    case Calling(t) =>
      (match s.callers[t]
       case Sending(selected, toSend) => selected - toSend
       case Collecting(_, pending) => pending
       case Got(_, pending, _, _) => pending
       case _ => {})
    case InTransit => s.consumerQueue[0]
    case Consumer => s.consumer.value
  }

  ghost predicate Replied(s: State, i: nat) { i in Indices(s.queueOut) }

  /** The executors with a response in the queue. */
  ghost function Indices(q: seq<MessageOut>): set<nat> {
    set k | 0 <= k < |q| :: q[k].index
  }

  ghost predicate DistinctIndices(q: seq<MessageOut>) {
    forall j, k | 0 <= j < k < |q| :: q[j].index != q[k].index
  }

  lemma Pushed(q: seq<MessageOut>, m: MessageOut)
    requires DistinctIndices(q)
    ensures Indices(q + [m]) == Indices(q) + {m.index}
    ensures m.index !in Indices(q) ==> DistinctIndices(q + [m])
  {
    var q' := q + [m];
    forall i ensures i in Indices(q') <==> i in Indices(q) + {m.index} {
      if i in Indices(q) {
        var k :| 0 <= k < |q| && q[k].index == i;
        assert q'[k].index == i;
      }
      assert q'[|q|].index == m.index;
    }
  }

  lemma Popped(q: seq<MessageOut>)
    requires DistinctIndices(q) && q != []
    ensures DistinctIndices(q[1..]) && Indices(q[1..]) == Indices(q) - {q[0].index}
    ensures q[0].index in Indices(q)
  {
    forall i | i in Indices(q) && i != q[0].index ensures i in Indices(q[1..]) {
      var k :| 0 <= k < |q| && q[k].index == i;
      assert q[1..][k - 1].index == i;
    }
  }

  /** An outstanding executor is in exactly one of three places, any other in none, and everything
      in flight belongs to the live request. */
  ghost predicate Busy(s: State, i: nat, outstanding: set<nat>)
    requires s.WellFormed() && i < s.N()
  {
    var queued := s.queueIn[i] != [];
    var running := s.executors[i].Some?;
    && (queued ==> s.queueIn[i] == [s.pendingRequest])
    && (running ==> s.executors[i] == Some(s.pendingRequest))
    && !(queued && running) && !(queued && Replied(s, i)) && !(running && Replied(s, i))
    && (i in outstanding <==> queued || running || Replied(s, i))
    && (queued || running ==> (s.pendingRequest, i) !in s.answers)
  }

  ghost predicate InFlight(s: State, o: Owner)
    requires s.WellFormed() && OneGoAhead(s, o)
  {
    && (forall i | i in Outstanding(s, o) :: i < s.N())
    && (forall i | 0 <= i < s.N() :: Busy(s, i, Outstanding(s, o)))
    && DistinctIndices(s.queueOut)
    && (forall k | 0 <= k < |s.queueOut| :: Honest(s, s.queueOut[k]))
  }

  /** A queued response is what its executor answered to the live request. */
  ghost predicate Honest(s: State, m: MessageOut) {
    && m.index < s.N() && m.request == s.pendingRequest
    && (m.request, m.index) in s.answers && s.answers[(m.request, m.index)] == m.response
  }

  ghost predicate AnsweredOk(s: State, request: nat, i: nat, r: Response) {
    (request, i) in s.answers && s.answers[(request, i)] == Some(r) && r.ok
  }

  ghost predicate AnsweredBadly(s: State, request: nat, i: nat) {
    (request, i) in s.answers && (s.answers[(request, i)].None? || !s.answers[(request, i)].value.ok)
  }

  /** What a caller has seen so far is what the executors answered. */
  ghost predicate Truthful(s: State, c: Caller) {
    match c
    case Out => true
    case Acquired => true
    case Chosen(selected) => selected != {} && forall i | i in selected :: i < s.N()
    case Sending(selected, toSend) =>
      && toSend != {} && toSend <= selected && (forall i | i in selected :: i < s.N())
      && (forall i | i in toSend :: (s.pendingRequest, i) !in s.answers)
    case Collecting(selected, pending) =>
      pending != {} && pending <= selected && forall i | i in selected - pending :: AnsweredBadly(s, s.pendingRequest, i)
    case Failed(selected, last) => selected != {} && forall i | i in selected :: AnsweredBadly(s, s.pendingRequest, i)
    case Got(selected, pending, index, response) =>
      && index in selected && index !in pending && pending <= selected && index < s.N()
      && AnsweredOk(s, s.pendingRequest, index, response)
    case Recording(selected, index, response, request) =>
      index in selected && index < s.N() && AnsweredOk(s, request, index, response)
  }

  /** RunLambda returned an error only if all the destinations selected failed, and an OK response
      only if the executor named as responder gave it to that very request. */
  ghost predicate Justified(s: State, r: Return) {
    match r
    case Good(request, selected, responder, response) => responder in selected && AnsweredOk(s, request, responder, response)
    case Bad(request, selected, _) => selected != {} && forall i | i in selected :: AnsweredBadly(s, request, i)
  }

  ghost predicate InvFor(s: State, o: Owner) {
    && s.WellFormed() && OneGoAhead(s, o) && InFlight(s, o)
    && (forall k | k in s.answers :: k.0 <= s.pendingRequest)
    && (forall t | 0 <= t < |s.callers| :: Truthful(s, s.callers[t]))
    && (forall k | 0 <= k < |s.returned| :: Justified(s, s.returned[k]))
    && (o.InTransit? ==> s.consumerQueue[0] != {})
  }

  ghost predicate Inv(s: State) { exists o :: InvFor(s, o) }

  lemma InitInv(s: State)
    requires Init(s)
    ensures Inv(s)
  {
    assert InvFor(s, Nobody);
  }

  /** Who owns the requests after a step. */
  function Handover(s: State, a: Action, o: Owner): Owner
    requires s.WellFormed() && Enabled(s, a)
  {
    match a
    case Acquire(t) => Calling(t)
    case GiveUp(_) => Nobody
    case PassOn(t) => if s.callers[t].pending == {} then Nobody else InTransit
    case Take => Consumer
    case Release => Nobody
    case _ => o
  }

  /** The next response in the queue comes from an outstanding executor. */
  lemma FrontIsOutstanding(s: State, o: Owner)
    requires s.WellFormed() && OneGoAhead(s, o) && InFlight(s, o) && s.queueOut != []
    ensures s.queueOut[0].index in Outstanding(s, o)
  {
    Popped(s.queueOut);
    assert Honest(s, s.queueOut[0]);
    assert Busy(s, s.queueOut[0].index, Outstanding(s, o));
  }

  /** With nothing outstanding, all the queues are empty and all the executors idle. */
  lemma Quiet(s: State, o: Owner)
    requires s.WellFormed() && OneGoAhead(s, o) && InFlight(s, o) && Outstanding(s, o) == {}
    ensures s.queueOut == []
    ensures forall i | 0 <= i < s.N() :: s.queueIn[i] == [] && s.executors[i].None?
  {
    if s.queueOut != [] {
      FrontIsOutstanding(s, o);
    }
    forall i | 0 <= i < s.N() ensures s.queueIn[i] == [] && s.executors[i].None? {
      assert Busy(s, i, {});
    }
  }

  lemma GoAheadKept(s: State, a: Action, o: Owner)
    requires InvFor(s, o) && Enabled(s, a)
    ensures Next(s, a).WellFormed() && OneGoAhead(Next(s, a), Handover(s, a, o))
  {
    hide InFlight, Justified, Truthful, OneGoAhead, Next, Enabled, Handover;
    if a.Start? || a.Finish? || a.Take? || a.Drain? || a.Release? {
      OtherGoAheadKept(s, a, o);
    } else if a.Acquire? || a.GiveUp? || a.PassOn? {
      HandoverKeepsGoAhead(s, a, o);
    } else {
      CallerKeepsGoAhead(s, a, o);
    }
  }

  lemma OtherGoAheadKept(s: State, a: Action, o: Owner)
    requires s.WellFormed() && OneGoAhead(s, o) && Enabled(s, a) && (a.Start? || a.Finish? || a.Take? || a.Drain? || a.Release?)
    ensures Next(s, a).WellFormed() && OneGoAhead(Next(s, a), Handover(s, a, o))
  {}

  lemma HandoverKeepsGoAhead(s: State, a: Action, o: Owner)
    requires s.WellFormed() && OneGoAhead(s, o) && Enabled(s, a) && (a.Acquire? || a.GiveUp? || a.PassOn?)
    ensures Next(s, a).WellFormed() && OneGoAhead(Next(s, a), Handover(s, a, o))
  {}

  lemma CallerKeepsGoAhead(s: State, a: Action, o: Owner)
    requires s.WellFormed() && OneGoAhead(s, o) && Enabled(s, a) && (a.Choose? || a.Store? || a.Send? || a.Collect? || a.Record?)
    ensures Next(s, a).WellFormed() && OneGoAhead(Next(s, a), Handover(s, a, o))
  {}

  /** Steps taken while nothing is outstanding. */
  lemma IdleKeepsFlights(s: State, a: Action, o: Owner)
    requires InvFor(s, o) && Enabled(s, a) && (a.Acquire? || a.Choose? || a.Store? || a.GiveUp? || a.Release?)
    ensures Next(s, a).WellFormed() && OneGoAhead(Next(s, a), Handover(s, a, o))
    ensures InFlight(Next(s, a), Handover(s, a, o))
  {
    hide Indices, DistinctIndices, Justified;
    GoAheadKept(s, a, o);
    Quiet(s, o);
    var (s', o') := (Next(s, a), Handover(s, a, o));
    forall i | 0 <= i < s.N() ensures Busy(s', i, Outstanding(s', o')) {
      assert Busy(s, i, Outstanding(s, o));
    }
  }

  /** Steps that only move the responsibility for what is outstanding. */
  lemma HandOverKeepsFlights(s: State, a: Action, o: Owner)
    requires InvFor(s, o) && Enabled(s, a) && (a.PassOn? || a.Record? || a.Take?)
    ensures Next(s, a).WellFormed() && OneGoAhead(Next(s, a), Handover(s, a, o))
    ensures InFlight(Next(s, a), Handover(s, a, o))
  {
    hide Indices, DistinctIndices, Justified;
    GoAheadKept(s, a, o);
    var (s', o') := (Next(s, a), Handover(s, a, o));
    forall i | 0 <= i < s.N() ensures Busy(s', i, Outstanding(s', o')) {
      assert Busy(s, i, Outstanding(s, o));
    }
    forall k | 0 <= k < |s'.queueOut| ensures Honest(s', s'.queueOut[k]) {
    }
    assert DistinctIndices(s'.queueOut);
    assert Outstanding(s', o') <= Outstanding(s, o);
  }

  /** A request is sent to an executor that had none outstanding. */
  lemma SendsToIdle(s: State, a: Action, o: Owner)
    requires InvFor(s, o) && Enabled(s, a) && a.Send?
    ensures Next(s, a).WellFormed() && OneGoAhead(Next(s, a), Handover(s, a, o))
    ensures a.i !in Outstanding(s, o) && Outstanding(Next(s, a), Handover(s, a, o)) == Outstanding(s, o) + {a.i}
    ensures (s.pendingRequest, a.i) !in s.answers && a.i < s.N()
  {
    hide Justified, InFlight;
    GoAheadKept(s, a, o);
    assert o == Calling(a.t);
    assert Truthful(s, s.callers[a.t]);
  }

  lemma SendKeepsFlights(s: State, a: Action, o: Owner)
    requires InvFor(s, o) && Enabled(s, a) && a.Send?
    ensures Next(s, a).WellFormed() && OneGoAhead(Next(s, a), Handover(s, a, o))
    ensures InFlight(Next(s, a), Handover(s, a, o))
  {
    hide Indices, DistinctIndices, Justified, Truthful, Outstanding, OneGoAhead;
    SendsToIdle(s, a, o);
    var (s', o') := (Next(s, a), Handover(s, a, o));
    forall i | 0 <= i < s.N() ensures Busy(s', i, Outstanding(s', o')) {
      assert Busy(s, i, Outstanding(s, o));
    }
    forall k | 0 <= k < |s'.queueOut| ensures Honest(s', s'.queueOut[k]) {
    }
    assert DistinctIndices(s'.queueOut);
  }

  lemma StartKeepsFlights(s: State, a: Action, o: Owner)
    requires InvFor(s, o) && Enabled(s, a) && a.Start?
    ensures Next(s, a).WellFormed() && OneGoAhead(Next(s, a), Handover(s, a, o))
    ensures InFlight(Next(s, a), Handover(s, a, o))
  {
    hide Indices, DistinctIndices, Justified;
    GoAheadKept(s, a, o);
    var (s', o') := (Next(s, a), Handover(s, a, o));
    forall i | 0 <= i < s.N() ensures Busy(s', i, Outstanding(s', o')) {
      assert Busy(s, i, Outstanding(s, o));
    }
    forall k | 0 <= k < |s'.queueOut| ensures Honest(s', s'.queueOut[k]) {
    }
    assert DistinctIndices(s'.queueOut);
    assert Outstanding(s', o') <= Outstanding(s, o);
  }

  lemma FinishKeepsFlights(s: State, a: Action, o: Owner)
    requires InvFor(s, o) && Enabled(s, a) && a.Finish?
    ensures Next(s, a).WellFormed() && OneGoAhead(Next(s, a), Handover(s, a, o))
    ensures InFlight(Next(s, a), Handover(s, a, o))
  {
    hide Indices, DistinctIndices, Justified;
    GoAheadKept(s, a, o);
    assert Busy(s, a.i, Outstanding(s, o));
    Pushed(s.queueOut, MessageOut(a.i, a.response, s.pendingRequest));
    var (s', o') := (Next(s, a), Handover(s, a, o));
    forall i | 0 <= i < s.N() ensures Busy(s', i, Outstanding(s', o')) {
      assert Busy(s, i, Outstanding(s, o));
    }
    forall k | 0 <= k < |s'.queueOut| ensures Honest(s', s'.queueOut[k]) {
    }
    assert DistinctIndices(s'.queueOut);
    assert Outstanding(s', o') <= Outstanding(s, o);
  }

  /** The owner of the requests pops a response. */
  lemma PopKeepsFlights(s: State, a: Action, o: Owner)
    requires InvFor(s, o) && Enabled(s, a) && (a.Collect? || a.Drain?)
    ensures Next(s, a).WellFormed() && OneGoAhead(Next(s, a), Handover(s, a, o))
    ensures InFlight(Next(s, a), Handover(s, a, o))
  {
    hide Indices, DistinctIndices, Justified;
    GoAheadKept(s, a, o);
    Popped(s.queueOut);
    var (s', o') := (Next(s, a), Handover(s, a, o));
    forall i | 0 <= i < s.N() ensures Busy(s', i, Outstanding(s', o')) {
      assert Busy(s, i, Outstanding(s, o));
    }
    forall k | 0 <= k < |s'.queueOut| ensures Honest(s', s'.queueOut[k]) {
    }
    assert DistinctIndices(s'.queueOut);
    assert Outstanding(s', o') <= Outstanding(s, o);
  }

  // --- what a step does to each part of the state ---

  lemma NextAnswers(s: State, a: Action)
    requires s.WellFormed() && Enabled(s, a)
    ensures Next(s, a).answers == if a.Finish? then s.answers[(s.executors[a.i].value, a.i) := a.response] else s.answers
    ensures Next(s, a).pendingRequest == s.pendingRequest + if a.Store? then 1 else 0
    ensures Next(s, a).N() == s.N()
  {}

  lemma NextReturned(s: State, a: Action)
    requires s.WellFormed() && Enabled(s, a)
    ensures !a.GiveUp? && !a.Record? ==> Next(s, a).returned == s.returned
    ensures a.GiveUp? ==> var c := s.callers[a.t]; Next(s, a).returned == s.returned + [Bad(s.pendingRequest, c.selected, c.last)]
    ensures a.Record? ==> var c := s.callers[a.t]; Next(s, a).returned == s.returned + [Good(c.request, c.selected, c.index, c.response)]
  {}

  lemma NextChosen(s: State, a: Action)
    requires s.WellFormed() && Enabled(s, a)
    ensures Next(s, a).chosen == if a.Choose? then s.chosen[s.pendingRequest + 1 := s.primary] else s.chosen
    ensures !a.Store? && !a.Collect? ==> Next(s, a).popped == s.popped
    ensures a.Store? ==> Next(s, a).popped == s.popped[s.pendingRequest + 1 := []]
    ensures a.Collect? ==> var m := s.queueOut[0]; Next(s, a).popped == s.popped[m.request := PoppedFor(s, m.request) + [m.index]]
  {}

  /** The history of answers only grows: an executor answers a request once. */
  lemma AnswersGrow(s: State, a: Action, o: Owner)
    requires InvFor(s, o) && Enabled(s, a)
    ensures forall k | k in s.answers :: k in Next(s, a).answers && Next(s, a).answers[k] == s.answers[k]
    ensures forall k | k in Next(s, a).answers :: k.0 <= Next(s, a).pendingRequest
    ensures forall k | k in Next(s, a).answers && k !in s.answers :: a.Finish? && k == (s.pendingRequest, a.i)
  {
    hide Indices, DistinctIndices, Justified, Truthful, Next, OneGoAhead, Outstanding;
    NextAnswers(s, a);
    if a.Finish? {
      assert Busy(s, a.i, Outstanding(s, o));
    }
  }

  lemma ReturnsStayJustified(s: State, a: Action, o: Owner)
    requires InvFor(s, o) && Enabled(s, a)
    ensures forall k | 0 <= k < |Next(s, a).returned| :: Justified(Next(s, a), Next(s, a).returned[k])
  {
    hide InFlight, Next, OneGoAhead;
    AnswersGrow(s, a, o);
    NextReturned(s, a);
    NextAnswers(s, a);
    var s' := Next(s, a);
    forall k | 0 <= k < |s'.returned| ensures Justified(s', s'.returned[k]) {
      if k < |s.returned| {
        assert Justified(s, s.returned[k]);
      } else {
        assert Truthful(s, s.callers[a.t]);
      }
    }
  }

  /** A caller that does not move keeps what it knows. */
  lemma BystanderStaysTruthful(s: State, a: Action, o: Owner, t: nat)
    requires InvFor(s, o) && Enabled(s, a) && t < |s.callers| && Next(s, a).callers[t] == s.callers[t]
    ensures Truthful(Next(s, a), s.callers[t])
  {
    hide InFlight, Justified, Truthful, Next, OneGoAhead;
    assert Truthful(s, s.callers[t]);
    AnswersGrow(s, a, o);
    if a.Finish? {
      FinishKeepsTruth(s, a, o, t);
    } else if a.Store? {
      StoreKeepsTruth(s, a, o, t);
    } else {
      SameRequest(s, a);
      SameTruth(s, Next(s, a), s.callers[t]);
    }
  }

  lemma SameRequest(s: State, a: Action)
    requires s.WellFormed() && Enabled(s, a) && !a.Finish? && !a.Store?
    ensures Next(s, a).answers == s.answers && Next(s, a).pendingRequest == s.pendingRequest && Next(s, a).N() == s.N()
  {}

  lemma SameTruth(s: State, s': State, c: Caller)
    requires Truthful(s, c) && s'.answers == s.answers && s'.pendingRequest == s.pendingRequest && s'.N() == s.N()
    ensures Truthful(s', c)
  {}

  /** When a request is replaced, no other caller is in the critical part. */
  lemma StoreKeepsTruth(s: State, a: Action, o: Owner, t: nat)
    requires InvFor(s, o) && Enabled(s, a) && a.Store? && t < |s.callers| && Next(s, a).callers[t] == s.callers[t]
    ensures Truthful(Next(s, a), s.callers[t])
  {
    hide InFlight, Justified;
    assert Truthful(s, s.callers[t]);
    assert o == Calling(a.t) && t != a.t;
  }

  /** An answer comes from an executor that nobody has still to send to. */
  lemma FinishKeepsTruth(s: State, a: Action, o: Owner, t: nat)
    requires InvFor(s, o) && Enabled(s, a) && a.Finish? && t < |s.callers|
    ensures Truthful(Next(s, a), s.callers[t])
  {
    hide Indices, DistinctIndices, Justified;
    assert Truthful(s, s.callers[t]);
    assert Busy(s, a.i, Outstanding(s, o));
  }

  lemma MoverStaysTruthful(s: State, a: Action, o: Owner)
    requires InvFor(s, o) && Enabled(s, a)
    requires a.Acquire? || a.Choose? || a.Store? || a.Send? || a.Collect? || a.GiveUp? || a.PassOn? || a.Record?
    ensures Truthful(Next(s, a), Next(s, a).callers[a.t])
  {
    hide Justified, InFlight, OneGoAhead;
    assert Truthful(s, s.callers[a.t]);
    if a.Collect? {
      hide Next, Truthful;
      CollectStaysTruthful(s, a, o);
    }
  }

  lemma CollectStaysTruthful(s: State, a: Action, o: Owner)
    requires InvFor(s, o) && Enabled(s, a) && a.Collect?
    ensures Truthful(Next(s, a), Next(s, a).callers[a.t])
  {
    hide Justified;
    assert Truthful(s, s.callers[a.t]);
    assert o == Calling(a.t);
    FrontIsOutstanding(s, o);
    assert Honest(s, s.queueOut[0]);
    hide InFlight, OneGoAhead, Outstanding;
    var m := s.queueOut[0];
    if !(m.response.Some? && m.response.value.ok) {
      var Collecting(selected, pending) := s.callers[a.t];
      forall i | i in selected && (i == m.index || i !in pending)
        ensures AnsweredBadly(Next(s, a), s.pendingRequest, i)
      {
        assert i != m.index ==> AnsweredBadly(s, s.pendingRequest, i);
      }
      assert forall i | i in selected :: i == m.index || i !in pending || i in pending - {m.index};
    }
  }

  lemma CallersStayTruthful(s: State, a: Action, o: Owner)
    requires InvFor(s, o) && Enabled(s, a)
    ensures forall t | 0 <= t < |Next(s, a).callers| :: Truthful(Next(s, a), Next(s, a).callers[t])
  {
    var s' := Next(s, a);
    forall t | 0 <= t < |s'.callers| ensures Truthful(s', s'.callers[t]) {
      if s'.callers[t] == s.callers[t] {
        BystanderStaysTruthful(s, a, o, t);
      } else {
        MoverStaysTruthful(s, a, o);
      }
    }
  }

  /** Every step keeps the invariant. */
  lemma StepKeepsInv(s: State, a: Action, o: Owner)
    requires InvFor(s, o) && Enabled(s, a)
    ensures InvFor(Next(s, a), Handover(s, a, o))
  {
    GoAheadKept(s, a, o);
    AnswersGrow(s, a, o);
    CallersStayTruthful(s, a, o);
    ReturnsStayJustified(s, a, o);
    hide InFlight, Truthful, Justified, OneGoAhead;
    match a {
      case Acquire(_) => IdleKeepsFlights(s, a, o);
      case Choose(_, _) => IdleKeepsFlights(s, a, o);
      case Store(_) => IdleKeepsFlights(s, a, o);
      case Send(_, _) => SendKeepsFlights(s, a, o);
      case Start(_) => StartKeepsFlights(s, a, o);
      case Finish(_, _) => FinishKeepsFlights(s, a, o);
      case Collect(_) => PopKeepsFlights(s, a, o);
      case GiveUp(_) => IdleKeepsFlights(s, a, o);
      case PassOn(_) => HandOverKeepsFlights(s, a, o);
      case Record(_) => HandOverKeepsFlights(s, a, o);
      case Take => HandOverKeepsFlights(s, a, o);
      case Drain => PopKeepsFlights(s, a, o);
      case Release => IdleKeepsFlights(s, a, o);
    }
  }

  // --- runs ---

  ghost predicate Reaches(s: State, actions: seq<Action>, s': State)
    decreases |actions|
  {
    s.WellFormed() &&
    if actions == [] then s' == s
    else Enabled(s, actions[0]) && Reaches(Next(s, actions[0]), actions[1..], s')
  }

  lemma {:induction false} RunKeepsInv(s: State, actions: seq<Action>, s': State)
    requires Inv(s) && Reaches(s, actions, s')
    ensures Inv(s')
    decreases |actions|
  {
    if actions != [] {
      var o :| InvFor(s, o);
      StepKeepsInv(s, actions[0], o);
      RunKeepsInv(Next(s, actions[0]), actions[1..], s');
    }
  }

  /** Nothing of an earlier request is left anywhere. */
  ghost predicate AllIdle(s: State)
    requires s.WellFormed()
  {
    s.queueOut == [] && forall i | 0 <= i < s.N() :: s.queueIn[i] == [] && s.executors[i].None?
  }

  /** What is promised of every reachable state, whatever the interleaving. */
  ghost predicate Safe(s: State) {
    && s.WellFormed()
    // there is at most one go-ahead, and only its holder is inside the critical part
    && s.goAheads <= 1
    && (forall t, u | 0 <= t < u < |s.callers| :: !(s.callers[t].Holds() && s.callers[u].Holds()))
    && (s.goAheads == 1 ==> forall t | 0 <= t < |s.callers| :: !s.callers[t].Holds())
    // whoever gets it finds everything idle, so thePendingRequest is replaced when nobody can read it
    && (s.goAheads == 1 ==> AllIdle(s))
    && (forall t | 0 <= t < |s.callers| && (s.callers[t].Acquired? || s.callers[t].Chosen?) :: AllIdle(s))
    // what an executor reads is the live request
    && (forall i | 0 <= i < s.N() :: s.executors[i].Some? ==> s.executors[i].value == s.pendingRequest)
    && (forall i | 0 <= i < s.N() :: forall r | r in s.queueIn[i] :: r == s.pendingRequest)
    // the response about to be popped is one the popper waits for, and answers its own request
    && (forall t | 0 <= t < |s.callers| && s.callers[t].Collecting? && s.queueOut != [] ::
          s.queueOut[0].index in s.callers[t].pending && s.queueOut[0].request == s.pendingRequest)
    && (s.consumer.Some? && s.queueOut != [] ==> s.queueOut[0].index in s.consumer.value)
    // and what has been returned is justified by what the executors answered
    && (forall k | 0 <= k < |s.returned| :: Justified(s, s.returned[k]))
  }

  lemma InvIsSafe(s: State, o: Owner)
    requires InvFor(s, o)
    ensures Safe(s)
  {
    hide Justified, Truthful, Indices, DistinctIndices;
    if Outstanding(s, o) == {} {
      Quiet(s, o);
    }
    if s.queueOut != [] {
      FrontIsOutstanding(s, o);
      assert Honest(s, s.queueOut[0]);
    }
    forall i | 0 <= i < s.N()
      ensures s.executors[i].Some? ==> s.executors[i].value == s.pendingRequest
      ensures forall r | r in s.queueIn[i] :: r == s.pendingRequest
    {
      assert Busy(s, i, Outstanding(s, o));
    }
  }

  /** Every state that the threads can reach is safe. */
  lemma ReachableIsSafe(s0: State, actions: seq<Action>, s: State)
    requires Init(s0) && Reaches(s0, actions, s)
    ensures Safe(s)
  {
    InitInv(s0);
    RunKeepsInv(s0, actions, s);
    var o :| InvFor(s, o);
    InvIsSafe(s, o);
  }

  // --- no deadlock, and the go-ahead comes back ---

  /** No call is in progress and the go-ahead is back. */
  predicate Settled(s: State) {
    s.goAheads == 1 && forall t | 0 <= t < |s.callers| :: s.callers[t].Out?
  }

  /** Somebody can move the executor i forward, or its response is there. */
  lemma ExecutorMoves(s: State, o: Owner, i: nat) returns (a: Action)
    requires InvFor(s, o) && i in Outstanding(s, o) && s.queueOut == []
    ensures Enabled(s, a) && !a.Acquire?
  {
    assert Busy(s, i, Outstanding(s, o));
    a := if s.executors[i].Some? then Finish(i, None) else Start(i);
  }

  lemma CanStep(s: State, o: Owner) returns (a: Action)
    requires InvFor(s, o) && !Settled(s)
    ensures Enabled(s, a) && !a.Acquire?
  {
    hide Justified, Indices, DistinctIndices;
    if t :| 0 <= t < |s.callers| && s.callers[t].Recording? {
      assert Truthful(s, s.callers[t]);
      return Record(t);
    }
    match o {
      case Calling(t) =>
        assert Truthful(s, s.callers[t]);
        match s.callers[t] {
          case Acquired => a := Choose(t, {});
          case Chosen(_) => a := Store(t);
          case Sending(_, toSend) =>
            var i :| i in toSend;
            a := Send(t, i);
          case Collecting(_, pending) =>
            if s.queueOut != [] { return Collect(t); }
            var i :| i in pending;
            a := ExecutorMoves(s, o, i);
          case Failed(_, _) => a := GiveUp(t);
          case Got(_, _, _, _) => a := PassOn(t);
        }
      case InTransit => a := Take;
      case Consumer =>
        if s.consumer.value == {} { return Release; }
        if s.queueOut != [] { return Drain; }
        var i :| i in s.consumer.value;
        a := ExecutorMoves(s, o, i);
    }
  }

  function Total(w: seq<nat>): nat {
    if w == [] then 0 else Total(w[..|w| - 1]) + w[|w| - 1]
  }

  lemma {:induction false} TotalUpdate(w: seq<nat>, i: nat, v: nat)
    requires i < |w|
    ensures Total(w[i := v]) + w[i] == Total(w) + v
  {
    var (front, last) := (w[..|w| - 1], |w| - 1);
    if i == last {
      assert w[i := v][..last] == front;
    } else {
      assert w[i := v][..last] == front[i := v];
      TotalUpdate(front, i, v);
    }
  }

  /** The steps still ahead of a caller, those of the executors excluded. */
  function CallerWork(c: Caller, n: nat): nat {
    match c
    case Out => 0
    case Acquired => 4 * n + 9
    case Chosen(selected) => 4 * |selected| + 8
    case Sending(_, toSend) => 4 * |toSend| + 7
    case Collecting(_, _) => 6
    case Failed(_, _) => 5
    case Got(_, _, _, _) => 5
    case Recording(_, _, _, _) => 1
  }

  function CallerWorks(s: State): seq<nat> {
    seq(|s.callers|, t requires 0 <= t < |s.callers| => CallerWork(s.callers[t], s.N()))
  }

  function ExecutorWorks(s: State): seq<nat>
    requires s.WellFormed()
  {
    seq(s.N(), i requires 0 <= i < s.N() => 3 * |s.queueIn[i]| + if s.executors[i].Some? then 2 else 0)
  }

  /** An upper bound on the steps that remain if nobody calls again. */
  function Work(s: State): nat
    requires s.WellFormed()
  {
    Total(CallerWorks(s)) + Total(ExecutorWorks(s)) + |s.queueOut|
    + 3 * |s.consumerQueue| + if s.consumer.Some? then 2 else 0
  }

  lemma {:induction false} FewerThan(x: set<nat>, n: nat)
    requires forall i | i in x :: i < n
    ensures |x| <= n
  {
    if n > 0 {
      FewerThan(x - {n - 1}, n - 1);
    } else {
      assert x == {};
    }
  }

  lemma CallerMoves(s: State, t: nat, c: Caller)
    requires t < |s.callers|
    ensures Total(CallerWorks(At(s, t, c))) + CallerWork(s.callers[t], s.N()) == Total(CallerWorks(s)) + CallerWork(c, s.N())
  {
    hide Total, CallerWork;
    var w := CallerWorks(s);
    assert CallerWorks(At(s, t, c)) == w[t := CallerWork(c, s.N())];
    TotalUpdate(w, t, CallerWork(c, s.N()));
  }

  lemma ExecutorChanges(s: State, s': State, i: nat)
    requires s.WellFormed() && s'.WellFormed() && s.N() == s'.N() && i < s.N()
    requires forall j | 0 <= j < s.N() && j != i :: s'.queueIn[j] == s.queueIn[j] && s'.executors[j] == s.executors[j]
    ensures Total(ExecutorWorks(s')) + ExecutorWorks(s)[i] == Total(ExecutorWorks(s)) + ExecutorWorks(s')[i]
  {
    hide Total;
    assert ExecutorWorks(s') == ExecutorWorks(s)[i := ExecutorWorks(s')[i]];
    TotalUpdate(ExecutorWorks(s), i, ExecutorWorks(s')[i]);
  }

  lemma ExecutorReducesWork(s: State, a: Action)
    requires s.WellFormed() && Enabled(s, a) && (a.Start? || a.Finish?)
    ensures Next(s, a).WellFormed() && Work(Next(s, a)) < Work(s)
  {
    hide Total, CallerWork;
    ExecutorChanges(s, Next(s, a), a.i);
    assert CallerWorks(Next(s, a)) == CallerWorks(s);
  }

  lemma ConsumerReducesWork(s: State, a: Action)
    requires s.WellFormed() && Enabled(s, a) && (a.Take? || a.Drain? || a.Release?)
    ensures Next(s, a).WellFormed() && Work(Next(s, a)) < Work(s)
  {
    hide Total, CallerWork;
    assert CallerWorks(Next(s, a)) == CallerWorks(s) && ExecutorWorks(Next(s, a)) == ExecutorWorks(s);
  }

  lemma SendReducesWork(s: State, a: Action)
    requires s.WellFormed() && Enabled(s, a) && a.Send?
    ensures Next(s, a).WellFormed() && Work(Next(s, a)) < Work(s)
  {
    hide Total;
    var s' := Next(s, a);
    CallerMoves(s, a.t, s'.callers[a.t]);
    assert CallerWorks(s') == CallerWorks(At(s, a.t, s'.callers[a.t]));
    ExecutorChanges(s, s', a.i);
  }

  /** The work of the caller that moves, with what it adds to the queues. */
  lemma CallerWorkDrops(s: State, a: Action)
    requires s.WellFormed() && Enabled(s, a)
    requires a.Choose? || a.Store? || a.Collect? || a.GiveUp? || a.PassOn? || a.Record?
    ensures var s' := Next(s, a);
            && s'.WellFormed() && s'.queueIn == s.queueIn && s'.executors == s.executors && s'.consumer == s.consumer
            && a.t < |s.callers| && s'.callers == s.callers[a.t := s'.callers[a.t]]
            && CallerWork(s'.callers[a.t], s.N()) + |s'.queueOut| + 3 * |s'.consumerQueue| < CallerWork(s.callers[a.t], s.N()) + |s.queueOut| + 3 * |s.consumerQueue|
  {
    hide CallerWork;
    if a.Choose? {
      FewerThan(a.extra + {s.primary}, s.N());
      CallerWorkIs(s.callers[a.t], s.N());
      CallerWorkIs(Chosen(a.extra + {s.primary}), s.N());
    } else {
      CallerWorkIs(s.callers[a.t], s.N());
      CallerWorkIs(Next(s, a).callers[a.t], s.N());
    }
  }

  /** The work of a caller, by where it is. */
  lemma CallerWorkIs(c: Caller, n: nat)
    ensures c.Out? ==> CallerWork(c, n) == 0
    ensures c.Acquired? ==> CallerWork(c, n) == 4 * n + 9
    ensures c.Chosen? ==> CallerWork(c, n) == 4 * |c.selected| + 8
    ensures c.Sending? ==> CallerWork(c, n) == 4 * |c.toSend| + 7
    ensures c.Collecting? ==> CallerWork(c, n) == 6
    ensures c.Failed? || c.Got? ==> CallerWork(c, n) == 5
    ensures c.Recording? ==> CallerWork(c, n) == 1
  {}

  lemma CallerReducesWork(s: State, a: Action)
    requires s.WellFormed() && Enabled(s, a)
    requires a.Choose? || a.Store? || a.Collect? || a.GiveUp? || a.PassOn? || a.Record?
    ensures Next(s, a).WellFormed() && Work(Next(s, a)) < Work(s)
  {
    hide Total, CallerWork, Next, Enabled;
    CallerWorkDrops(s, a);
    var s' := Next(s, a);
    CallerMoves(s, a.t, s'.callers[a.t]);
    assert CallerWorks(s') == CallerWorks(At(s, a.t, s'.callers[a.t]));
    assert ExecutorWorks(s') == ExecutorWorks(s);
  }

  /** Every step other than a new call brings the end closer. */
  lemma StepReducesWork(s: State, a: Action)
    requires s.WellFormed() && Enabled(s, a) && !a.Acquire?
    ensures Next(s, a).WellFormed() && Work(Next(s, a)) < Work(s)
  {
    if a.Start? || a.Finish? {
      ExecutorReducesWork(s, a);
    } else if a.Take? || a.Drain? || a.Release? {
      ConsumerReducesWork(s, a);
    } else if a.Send? {
      SendReducesWork(s, a);
    } else {
      CallerReducesWork(s, a);
    }
  }

  /** If nobody calls again, every run is at most Work(s) steps long, and as long as the system
      has not settled there is a next step: it always ends with the go-ahead back. */
  lemma {:induction false} RunsSettle(s: State, actions: seq<Action>, s': State)
    requires Inv(s) && Reaches(s, actions, s') && forall k | 0 <= k < |actions| :: !actions[k].Acquire?
    ensures s'.WellFormed() && |actions| + Work(s') <= Work(s)
    ensures Settled(s') || exists a :: Enabled(s', a) && !a.Acquire?
    decreases |actions|
  {
    var o :| InvFor(s, o);
    if actions == [] {
      if !Settled(s) {
        var a := CanStep(s, o);
      }
    } else {
      StepReducesWork(s, actions[0]);
      StepKeepsInv(s, actions[0], o);
      RunsSettle(Next(s, actions[0]), actions[1..], s');
    }
  }
}
