/** What RunLambda did for each request: whom it asked, whose answers it took, and what became of the primary. */
module MultiClientHistory {
  import opened Wrappers
  import opened MultiClient

  /** The primary at the time was among the destinations selected for a request. */
  ghost predicate Led(s: State, request: nat, selected: set<nat>) {
    request in s.chosen && s.chosen[request] in selected
  }

  ghost predicate AllBad(s: State, request: nat, q: seq<nat>) {
    forall k | 0 <= k < |q| :: AnsweredBadly(s, request, q[k])
  }

  ghost predicate Covers(q: seq<nat>, x: set<nat>) {
    forall i :: i in q <==> i in x
  }

  /** The fastest good answer was taken: all the answers popped before it were bad. */
  ghost predicate FirstGood(s: State, request: nat, selected: set<nat>, index: nat, response: Response) {
    var q := PoppedFor(s, request);
    && q != [] && q[|q| - 1] == index && AllBad(s, request, q[..|q| - 1])
    && index in selected && AnsweredOk(s, request, index, response)
  }

  /** All answers were bad, and the last one popped is what is returned. */
  ghost predicate LastBad(s: State, request: nat, selected: set<nat>, last: Option<Response>) {
    var q := PoppedFor(s, request);
    && q != [] && AllBad(s, request, q) && Covers(q, selected)
    && (request, q[|q| - 1]) in s.answers && s.answers[(request, q[|q| - 1])] == last
  }

  ghost predicate CallerDone(s: State, c: Caller) {
    match c
    case Out => true
    case Acquired => true
    case Chosen(selected) => Led(s, s.pendingRequest + 1, selected)
    case Sending(selected, _) => Led(s, s.pendingRequest, selected) && PoppedFor(s, s.pendingRequest) == []
    case Collecting(selected, pending) =>
      Led(s, s.pendingRequest, selected) && AllBad(s, s.pendingRequest, PoppedFor(s, s.pendingRequest))
      && Covers(PoppedFor(s, s.pendingRequest), selected - pending)
    case Failed(selected, last) => Led(s, s.pendingRequest, selected) && LastBad(s, s.pendingRequest, selected, last)
    case Got(selected, _, index, response) => Led(s, s.pendingRequest, selected) && FirstGood(s, s.pendingRequest, selected, index, response)
    case Recording(selected, index, response, request) =>
      request <= s.pendingRequest && Led(s, request, selected) && FirstGood(s, request, selected, index, response)
  }

  ghost predicate ReturnDone(s: State, r: Return) {
    r.request <= s.pendingRequest && Led(s, r.request, r.selected) &&
    match r
    case Good(request, selected, responder, response) => FirstGood(s, request, selected, responder, response)
    case Bad(request, selected, last) => LastBad(s, request, selected, last)
  }

  predicate InProgress(c: Caller) { c.Sending? || c.Collecting? || c.Failed? || c.Got? }

  /** As long as its caller is at work, the live request has no result. */
  ghost predicate LiveIsOpen(s: State) {
    forall t | 0 <= t < |s.callers| && InProgress(s.callers[t]) ::
      (forall k | 0 <= k < |s.returned| :: s.returned[k].request != s.pendingRequest) &&
      forall u | 0 <= u < |s.callers| && s.callers[u].Recording? :: s.callers[u].request != s.pendingRequest
  }

  /** The primary is the responder of the last good result, and the first destination before there is one. */
  function PrimaryAfter(returned: seq<Return>): nat {
    if returned == [] then 0
    else
      var last := returned[|returned| - 1];
      if last.Good? then last.responder else PrimaryAfter(returned[..|returned| - 1])
  }

  ghost predicate History(s: State) {
    && (forall t | 0 <= t < |s.callers| :: CallerDone(s, s.callers[t]))
    && (forall k | 0 <= k < |s.returned| :: ReturnDone(s, s.returned[k]))
    && LiveIsOpen(s) && s.primary == PrimaryAfter(s.returned)
  }

  lemma PrimaryNext(returned: seq<Return>, r: Return)
    ensures PrimaryAfter(returned + [r]) == if r.Good? then r.responder else PrimaryAfter(returned)
  {
    assert (returned + [r])[..|returned|] == returned;
  }

  // --- what is known about a request stays ---

  /** The answers to a request, its primary and its pops are the same in both states, or there are more answers. */
  ghost predicate Keeps(s: State, s': State, request: nat) {
    && (forall k | k in s.answers :: k in s'.answers && s'.answers[k] == s.answers[k])
    && (request in s.chosen ==> request in s'.chosen && s'.chosen[request] == s.chosen[request])
    && PoppedFor(s', request) == PoppedFor(s, request)
  }

  lemma KeptReturn(s: State, s': State, r: Return)
    requires ReturnDone(s, r) && Keeps(s, s', r.request) && s'.pendingRequest >= s.pendingRequest
    ensures ReturnDone(s', r)
  {}

  lemma KeptCaller(s: State, s': State, c: Caller)
    requires CallerDone(s, c) && s'.pendingRequest >= s.pendingRequest
    requires InProgress(c) ==> s'.pendingRequest == s.pendingRequest && Keeps(s, s', s.pendingRequest)
    requires c.Chosen? ==> s'.pendingRequest == s.pendingRequest && Keeps(s, s', s.pendingRequest + 1)
    requires c.Recording? ==> Keeps(s, s', c.request)
    ensures CallerDone(s', c)
  {}

  /** Whatever the step, what is known of closed requests is kept. */
  lemma StepKeepsClosed(s: State, a: Action, o: Owner, request: nat)
    requires InvFor(s, o) && Enabled(s, a) && request <= s.pendingRequest
    requires a.Collect? ==> request != s.pendingRequest
    ensures Next(s, a).WellFormed() && Next(s, a).pendingRequest >= s.pendingRequest && Keeps(s, Next(s, a), request)
  {
    hide InFlight, Justified, Truthful, OneGoAhead, Next;
    GoAheadKept(s, a, o);
    AnswersGrow(s, a, o);
    NextAnswers(s, a);
    NextChosen(s, a);
    if a.Collect? {
      LiveMessage(s, a, o);
    }
  }

  lemma LiveMessage(s: State, a: Action, o: Owner)
    requires InvFor(s, o) && Enabled(s, a) && a.Collect?
    ensures o == Calling(a.t) && s.queueOut[0].request == s.pendingRequest && s.queueOut[0].index in s.callers[a.t].pending
    ensures AnsweredWith(s, s.queueOut[0])
  {
    hide Justified;
    FrontIsOutstanding(s, o);
    assert Honest(s, s.queueOut[0]);
  }

  ghost predicate AnsweredWith(s: State, m: MessageOut) {
    (m.request, m.index) in s.answers && s.answers[(m.request, m.index)] == m.response
  }

  lemma StepKeepsAny(s: State, a: Action, o: Owner, request: nat)
    requires InvFor(s, o) && Enabled(s, a) && !a.Choose? && !a.Store? && !a.Collect?
    ensures Next(s, a).WellFormed() && Next(s, a).pendingRequest == s.pendingRequest && Keeps(s, Next(s, a), request)
  {
    hide InFlight, Justified, Truthful, OneGoAhead, Next;
    GoAheadKept(s, a, o);
    AnswersGrow(s, a, o);
    NextAnswers(s, a);
    NextChosen(s, a);
  }

  // --- results ---

  lemma ReturnsStayDone(s: State, a: Action, o: Owner, k: nat)
    requires InvFor(s, o) && History(s) && Enabled(s, a) && k < |Next(s, a).returned|
    ensures ReturnDone(Next(s, a), Next(s, a).returned[k])
  {
    hide InFlight, Justified, Truthful, Keeps, CallerDone, ReturnDone, OneGoAhead, Next;
    NextReturned(s, a);
    var s' := Next(s, a);
    if k < |s.returned| {
      KnownRequest(s, s.returned[k]);
      assert s'.returned[k] == s.returned[k];
      assert ReturnDone(s, s.returned[k]);
      if a.Collect? { assert InProgress(s.callers[a.t]); }
      StepKeepsClosed(s, a, o, s.returned[k].request);
      KeptReturn(s, s', s.returned[k]);
    } else {
      NewReturn(s, a, o);
    }
  }

  lemma KnownRequest(s: State, r: Return)
    requires ReturnDone(s, r)
    ensures r.request <= s.pendingRequest
  {}

  lemma NewReturn(s: State, a: Action, o: Owner)
    requires InvFor(s, o) && History(s) && Enabled(s, a) && (a.GiveUp? || a.Record?)
    ensures var q := Next(s, a).returned; |q| == |s.returned| + 1 && ReturnDone(Next(s, a), q[|s.returned|])
  {
    hide InFlight, Justified, Truthful, Led, FirstGood, LastBad, OneGoAhead;
    var (s', c) := (Next(s, a), s.callers[a.t]);
    assert CallerDone(s, c);
    var r := s'.returned[|s.returned|];
    StepKeepsAny(s, a, o, r.request);
    assert ReturnDone(s, r);
    KeptReturn(s, s', r);
  }

  // --- callers ---

  lemma BystanderStaysDone(s: State, a: Action, o: Owner, t: nat)
    requires InvFor(s, o) && History(s) && Enabled(s, a) && t < |s.callers| && !Moves(a, t)
    ensures CallerDone(Next(s, a), s.callers[t])
  {
    hide InFlight, Justified, Truthful, Keeps, Next;
    var (s', c) := (Next(s, a), s.callers[t]);
    assert CallerDone(s, c);
    if a.Choose? || a.Store? || a.Collect? {
      assert s.callers[a.t].Holds() && o == Calling(a.t) && !c.Holds();
      if c.Recording? {
        if a.Collect? { assert InProgress(s.callers[a.t]); }
        StepKeepsClosed(s, a, o, c.request);
      } else {
        StepKeepsPending(s, a);
      }
      KeptCaller(s, s', c);
    } else {
      StepKeepsAny(s, a, o, s.pendingRequest);
      StepKeepsAny(s, a, o, s.pendingRequest + 1);
      if c.Recording? { StepKeepsAny(s, a, o, c.request); }
      KeptCaller(s, s', c);
    }
  }

  lemma StepKeepsPending(s: State, a: Action)
    requires s.WellFormed() && Enabled(s, a)
    ensures Next(s, a).pendingRequest >= s.pendingRequest
  {}

  /** The caller that takes the step. */
  predicate Moves(a: Action, t: nat) {
    match a
    case Acquire(u) => u == t
    case Choose(u, _) => u == t
    case Store(u) => u == t
    case Send(u, _) => u == t
    case Collect(u) => u == t
    case GiveUp(u) => u == t
    case PassOn(u) => u == t
    case Record(u) => u == t
    case _ => false
  }

  lemma MoverStaysDone(s: State, a: Action, o: Owner, t: nat)
    requires InvFor(s, o) && History(s) && Enabled(s, a) && t < |s.callers| && Moves(a, t)
    ensures |Next(s, a).callers| == |s.callers| && CallerDone(Next(s, a), Next(s, a).callers[t])
  {
    hide InFlight, Justified, LiveIsOpen;
    assert CallerDone(s, s.callers[t]);
    if a.Collect? {
      CollectStaysDone(s, a, o);
    } else if a.PassOn? {
      StepKeepsAny(s, a, o, s.pendingRequest);
    }
  }

  /** One more answer has been taken: a good one is the first, and a bad one joins the others. */
  lemma OneMoreAnswer(s: State, s': State, selected: set<nat>, pending: set<nat>, m: MessageOut)
    requires s'.answers == s.answers && PoppedFor(s', m.request) == PoppedFor(s, m.request) + [m.index]
    requires AllBad(s, m.request, PoppedFor(s, m.request)) && Covers(PoppedFor(s, m.request), selected - pending)
    requires pending <= selected && m.index in pending && AnsweredWith(s, m)
    ensures m.response.Some? && m.response.value.ok ==> FirstGood(s', m.request, selected, m.index, m.response.value)
    ensures !(m.response.Some? && m.response.value.ok) ==>
      && AllBad(s', m.request, PoppedFor(s', m.request)) && Covers(PoppedFor(s', m.request), selected - (pending - {m.index}))
      && (pending == {m.index} ==> LastBad(s', m.request, selected, m.response))
  {
    var (q, p) := (PoppedFor(s, m.request), PoppedFor(s', m.request));
    assert p[..|p| - 1] == q;
  }

  lemma CollectStaysDone(s: State, a: Action, o: Owner)
    requires InvFor(s, o) && History(s) && Enabled(s, a) && a.Collect?
    ensures |Next(s, a).callers| == |s.callers| && CallerDone(Next(s, a), Next(s, a).callers[a.t])
  {
    hide InFlight, Justified, LiveIsOpen, OneGoAhead, AllBad, Covers, FirstGood, LastBad;
    LiveMessage(s, a, o);
    assert CallerDone(s, s.callers[a.t]) && Truthful(s, s.callers[a.t]);
    var Collecting(selected, pending) := s.callers[a.t];
    OneMoreAnswer(s, Next(s, a), selected, pending, s.queueOut[0]);
  }

  // --- the live request ---

  lemma LiveStaysOpen(s: State, a: Action, o: Owner)
    requires InvFor(s, o) && History(s) && Enabled(s, a)
    ensures LiveIsOpen(Next(s, a))
  {
    hide InFlight, Justified, Truthful, Led, FirstGood, LastBad, AllBad, Covers;
    var s' := Next(s, a);
    forall t | 0 <= t < |s'.callers| && InProgress(s'.callers[t])
      ensures forall k | 0 <= k < |s'.returned| :: s'.returned[k].request != s'.pendingRequest
      ensures forall u | 0 <= u < |s'.callers| && s'.callers[u].Recording? :: s'.callers[u].request != s'.pendingRequest
    {
      OpenFor(s, a, o, t);
    }
  }

  /** The requests of results and of callers about to return are not newer than the live one. */
  lemma NoneIsNewer(s: State)
    requires History(s)
    ensures forall k | 0 <= k < |s.returned| :: s.returned[k].request <= s.pendingRequest
    ensures forall u | 0 <= u < |s.callers| && s.callers[u].Recording? :: s.callers[u].request <= s.pendingRequest
  {
    hide Led, FirstGood, LastBad, AllBad, Covers, LiveIsOpen;
    forall k | 0 <= k < |s.returned| ensures s.returned[k].request <= s.pendingRequest { assert ReturnDone(s, s.returned[k]); }
    forall u | 0 <= u < |s.callers| && s.callers[u].Recording? ensures s.callers[u].request <= s.pendingRequest { assert CallerDone(s, s.callers[u]); }
  }

  lemma OpenFor(s: State, a: Action, o: Owner, t: nat)
    requires InvFor(s, o) && History(s) && Enabled(s, a) && t < |Next(s, a).callers| && InProgress(Next(s, a).callers[t])
    ensures var s' := Next(s, a);
            && (forall k | 0 <= k < |s'.returned| :: s'.returned[k].request != s'.pendingRequest)
            && forall u | 0 <= u < |s'.callers| && s'.callers[u].Recording? :: s'.callers[u].request != s'.pendingRequest
  {
    hide InFlight, Justified, Truthful, CallerDone, ReturnDone, Next;
    SameCallers(s, a);
    NoneIsNewer(s);
    NextAnswers(s, a);
    if a.Store? {
      StoreReturnsNothing(s, a);
    } else {
      StillInProgress(s, a, t);
      assert o == Calling(t);
      hide LiveIsOpen;
      NoneElse(s, a, o, t);
    }
  }

  lemma SameCallers(s: State, a: Action)
    requires s.WellFormed() && Enabled(s, a)
    ensures |Next(s, a).callers| == |s.callers|
  {}

  lemma StoreReturnsNothing(s: State, a: Action)
    requires s.WellFormed() && Enabled(s, a) && a.Store?
    ensures Next(s, a).returned == s.returned && |Next(s, a).callers| == |s.callers|
    ensures forall u | 0 <= u < |s.callers| && Next(s, a).callers[u].Recording? :: Next(s, a).callers[u] == s.callers[u]
  {}

  lemma StillInProgress(s: State, a: Action, t: nat)
    requires s.WellFormed() && Enabled(s, a) && !a.Store? && t < |Next(s, a).callers| && InProgress(Next(s, a).callers[t])
    ensures t < |s.callers| && InProgress(s.callers[t])
  {}

  /** A result that is new, or about to be returned, is not of the live request while its caller is at work. */
  lemma NoneElse(s: State, a: Action, o: Owner, t: nat)
    requires InvFor(s, o) && LiveIsOpen(s) && Enabled(s, a) && !a.Store? && t < |Next(s, a).callers| == |s.callers|
    requires InProgress(Next(s, a).callers[t]) && InProgress(s.callers[t]) && o == Calling(t)
    ensures var s' := Next(s, a);
            && (forall k | 0 <= k < |s'.returned| :: s'.returned[k].request != s.pendingRequest)
            && forall u | 0 <= u < |s'.callers| && s'.callers[u].Recording? :: s'.callers[u].request != s.pendingRequest
  {
    hide InFlight, Justified, Truthful;
    NextReturned(s, a);
  }

  // --- runs ---

  lemma StepKeepsHistory(s: State, a: Action, o: Owner)
    requires InvFor(s, o) && History(s) && Enabled(s, a)
    ensures History(Next(s, a))
  {
    hide InFlight, Justified, Truthful, OneGoAhead, CallerDone, ReturnDone, LiveIsOpen;
    var s' := Next(s, a);
    forall t | 0 <= t < |s'.callers| ensures CallerDone(s', s'.callers[t]) {
      if Moves(a, t) {
        MoverStaysDone(s, a, o, t);
      } else {
        assert s'.callers[t] == s.callers[t];
        BystanderStaysDone(s, a, o, t);
      }
    }
    forall k | 0 <= k < |s'.returned| ensures ReturnDone(s', s'.returned[k]) { ReturnsStayDone(s, a, o, k); }
    LiveStaysOpen(s, a, o);
    hide Next, Enabled;
    PrimaryStays(s, a);
  }

  lemma PrimaryStays(s: State, a: Action)
    requires s.WellFormed() && Enabled(s, a) && s.primary == PrimaryAfter(s.returned)
    ensures Next(s, a).primary == PrimaryAfter(Next(s, a).returned)
  {
    var s' := Next(s, a);
    if a.Record? || a.GiveUp? {
      PrimaryNext(s.returned, s'.returned[|s.returned|]);
    }
  }

  lemma {:induction false} RunKeepsHistory(s: State, actions: seq<Action>, s': State)
    requires Inv(s) && History(s) && Reaches(s, actions, s')
    ensures History(s')
    decreases |actions|
  {
    if actions != [] {
      var o :| InvFor(s, o);
      hide History;
      StepKeepsInv(s, actions[0], o);
      StepKeepsHistory(s, actions[0], o);
      RunKeepsHistory(Next(s, actions[0]), actions[1..], s');
    }
  }

  /**
   * In every reachable state: the primary at the time was among the destinations of every request;
   * a good result is the first good answer that was popped, and an error the last of all answers,
   * which were all bad; and the primary is the responder of the last good result.
   */
  lemma ReachableIsRecorded(s0: State, actions: seq<Action>, s: State)
    requires Init(s0) && Reaches(s0, actions, s)
    ensures History(s)
  {
    InitInv(s0);
    RunKeepsHistory(s0, actions, s);
  }
}
