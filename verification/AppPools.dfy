/**
 * The pool of applications that alternate between two states: each follows a list of periods,
 * and the next transitions are kept in a list in which every entry holds the time beyond the
 * entry before it.
 */
module AppPools {
  import opened Lists
  import opened Wrappers

  datatype Event = Event(app: nat, remaining: real)

  /** The time from now to the k-th transition and, before the first, none. */
  function Upto(q: seq<Event>, k: nat): real
    requires k <= |q|
  {
    if k == 0 then 0.0 else Upto(q, k - 1) + q[k - 1].remaining
  }

  /** Every transition with the time from now. */
  function Times(q: seq<Event>): (ts: seq<Event>)
    ensures |ts| == |q| && forall k | 0 <= k < |q| :: ts[k] == Event(q[k].app, Upto(q, k + 1))
  {
    seq(|q|, k requires 0 <= k < |q| => Event(q[k].app, Upto(q, k + 1)))
  }

  predicate NonNegative(q: seq<Event>) {
    forall k | 0 <= k < |q| :: q[k].remaining >= 0.0
  }

  /** Every one of n applications has one transition ahead. */
  ghost predicate OneEach(q: seq<Event>, n: nat) {
    |q| == n && (forall k | 0 <= k < |q| :: q[k].app < n) && forall i, k | 0 <= i < k < |q| :: q[i].app != q[k].app
  }

  lemma {:induction false} UptoSame(q: seq<Event>, r: seq<Event>, k: nat)
    requires k <= |q| && k <= |r| && forall i | 0 <= i < k :: q[i].remaining == r[i].remaining
    ensures Upto(q, k) == Upto(r, k)
  {
    if k > 0 {
      UptoSame(q, r, k - 1);
    }
  }

  lemma {:induction false} UptoGrows(q: seq<Event>, i: nat, k: nat)
    requires i <= k <= |q| && NonNegative(q)
    ensures Upto(q, i) <= Upto(q, k)
  {
    if i < k {
      UptoGrows(q, i, k - 1);
    }
  }

  // --- putting an application back ---

  /** The place of a transition: before all those at the same time or later. */
  function Place(ts: seq<Event>, time: real): (i: nat)
    ensures i <= |ts| && (forall k | 0 <= k < i :: ts[k].remaining < time) && (i < |ts| ==> time <= ts[i].remaining)
  {
    if ts == [] || time <= ts[0].remaining then 0
    else
      var i := Place(ts[1..], time);
      assert forall k | 0 < k < i + 1 :: ts[k] == ts[1..][k - 1];
      1 + i
  }

  lemma PlaceIsUnique(ts: seq<Event>, time: real, i: nat)
    requires i <= |ts| && (forall k | 0 <= k < i :: ts[k].remaining < time) && (i < |ts| ==> time <= ts[i].remaining)
    ensures i == Place(ts, time)
  {}

  function Enqueue(ts: seq<Event>, e: Event): seq<Event> {
    Insert(ts, Place(ts, e.remaining), e)
  }

  function Inserted(q: seq<Event>, i: nat, e: Event): (r: seq<Event>)
    requires i <= |q|
    ensures |r| == |q| + 1 && r[i] == e.(remaining := e.remaining - Upto(q, i))
    ensures forall k | 0 <= k < i :: r[k] == q[k]
    ensures i < |q| ==> r[i + 1] == q[i].(remaining := q[i].remaining - r[i].remaining)
    ensures forall k | i + 1 < k < |r| :: r[k] == q[k - 1]
  {
    var d := e.(remaining := e.remaining - Upto(q, i));
    var rest := if i < |q| then q[i := q[i].(remaining := q[i].remaining - d.remaining)] else q;
    Insert(rest, i, d)
  }

  lemma {:induction false} InsertedSums(q: seq<Event>, i: nat, e: Event, k: nat)
    requires i <= |q| && k <= |q| + 1
    ensures Upto(Inserted(q, i, e), k) == if k <= i then Upto(q, k) else if k == i + 1 then e.remaining else Upto(q, k - 1)
  {
    hide Inserted;
    var r := Inserted(q, i, e);
    if k <= i {
      UptoSame(q, r, k);
    } else {
      InsertedSums(q, i, e, k - 1);
    }
  }

  lemma InsertedAt(q: seq<Event>, i: nat, e: Event)
    requires i <= |q|
    ensures Times(Inserted(q, i, e)) == Insert(Times(q), i, e)
  {
    hide Upto, Inserted, Insert, Times;
    var (ts, next) := (Times(Inserted(q, i, e)), Insert(Times(q), i, e));
    forall k | 0 <= k < |ts| ensures ts[k] == next[k] {
      InsertedOne(q, i, e, k);
    }
  }

  lemma InsertedOne(q: seq<Event>, i: nat, e: Event, k: nat)
    requires i <= |q| && k <= |q|
    ensures Times(Inserted(q, i, e))[k] == if k < i then Times(q)[k] else if k == i then e else Times(q)[k - 1]
  {
    hide Upto, Inserted, Times;
    InsertedSums(q, i, e, k + 1);
  }

  /** No other transition changes its time, and no entry becomes negative. */
  lemma InsertedIsEnqueued(q: seq<Event>, i: nat, e: Event)
    requires i <= |q| && NonNegative(q) && e.remaining >= 0.0
    requires (forall k | 0 < k <= i :: Upto(q, k) < e.remaining) && (i < |q| ==> e.remaining <= Upto(q, i + 1))
    ensures Times(Inserted(q, i, e)) == Enqueue(Times(q), e) && NonNegative(Inserted(q, i, e))
  {
    InsertedAt(q, i, e);
    PlaceIsUnique(Times(q), e.remaining, i);
    assert Upto(q, i) <= e.remaining;
    assert i < |q| ==> Upto(q, i + 1) == Upto(q, i) + q[i].remaining;
    hide Inserted, Times, Upto;
  }

  /** The loop over the list that puts a transition back. */
  method PutBack(q: seq<Event>, e: Event) returns (r: seq<Event>)
    requires NonNegative(q) && e.remaining >= 0.0
    ensures NonNegative(r) && Times(r) == Enqueue(Times(q), e)
  {
    hide Times, Enqueue;
    var i := 0;
    var d := e;
    while i < |q| && d.remaining > q[i].remaining
      invariant i <= |q| && d == e.(remaining := e.remaining - Upto(q, i)) && d.remaining >= 0.0
      invariant forall k | 0 < k <= i :: Upto(q, k) < e.remaining
    {
      d := d.(remaining := d.remaining - q[i].remaining);
      i := i + 1;
    }
    InsertedIsEnqueued(q, i, e);
    r := if i < |q| then q[i := q[i].(remaining := q[i].remaining - d.remaining)] else q;
    r := Insert(r, i, d);
  }

  lemma {:induction false} UptoBehind(q: seq<Event>, k: nat)
    requires k < |q|
    ensures q[0].remaining + Upto(q[1..], k) == Upto(q, k + 1)
  {
    if k > 0 {
      UptoBehind(q, k - 1);
    } else {
      assert Upto(q, 0) == 0.0;
    }
  }

  function Earlier(ts: seq<Event>, shift: real): (r: seq<Event>)
    ensures |r| == |ts| && forall k | 0 <= k < |ts| :: r[k] == ts[k].(remaining := ts[k].remaining - shift)
  {
    seq(|ts|, k requires 0 <= k < |ts| => ts[k].(remaining := ts[k].remaining - shift))
  }

  lemma {:induction false} UptoEarlier(q: seq<Event>, time: real, k: nat)
    requires 0 < k <= |q|
    ensures Upto(q[0 := q[0].(remaining := q[0].remaining - time)], k) == Upto(q, k) - time
  {
    if k > 1 {
      UptoEarlier(q, time, k - 1);
    } else {
      assert Upto(q, 0) == Upto(q[0 := q[0].(remaining := q[0].remaining - time)], 0) == 0.0;
    }
  }

  /** Lowering the front brings all transitions nearer. */
  lemma FrontEarlier(q: seq<Event>, time: real)
    requires q != []
    ensures Times(q[0 := q[0].(remaining := q[0].remaining - time)]) == Earlier(Times(q), time)
  {
    hide Upto, Times, Earlier;
    var (ts, next) := (Times(q[0 := q[0].(remaining := q[0].remaining - time)]), Earlier(Times(q), time));
    forall k | 0 <= k < |ts| ensures ts[k] == next[k] { UptoEarlier(q, time, k + 1); }
  }

  lemma PopTimes(q: seq<Event>)
    requires q != []
    ensures Times(q[1..]) == Earlier(Times(q)[1..], q[0].remaining)
  {
    hide Upto, Times, Earlier;
    var (ts, next) := (Times(q[1..]), Earlier(Times(q)[1..], q[0].remaining));
    forall k | 0 <= k < |ts| ensures ts[k] == next[k] {
      UptoBehind(q, k + 1);
      assert Times(q)[1..][k] == Times(q)[k + 1];
    }
  }

  // --- membership ---

  lemma EnqueueApps(ts: seq<Event>, e: Event, n: nat)
    requires |ts| + 1 == n && e.app < n && (forall k | 0 <= k < |ts| :: ts[k].app < n && ts[k].app != e.app)
    requires forall i, k | 0 <= i < k < |ts| :: ts[i].app != ts[k].app
    ensures OneEach(Enqueue(ts, e), n)
  {
    hide Insert, Place;
  }

  lemma TimesApps(q: seq<Event>, n: nat)
    ensures OneEach(Times(q), n) <==> OneEach(q, n)
  {
    hide Upto, Times;
    if OneEach(Times(q), n) {
      forall k | 0 <= k < |q| ensures q[k].app == Times(q)[k].app {}
    }
  }

  lemma {:induction false} BackInPool(q: seq<Event>, e: Event, n: nat, r: seq<Event>)
    requires OneEach(q, n) && q != [] && e.app == q[0].app && Times(r) == Enqueue(Times(q[1..]), e)
    ensures OneEach(r, n)
  {
    hide Upto, Times, Enqueue;
    var rest := Times(q[1..]);
    forall k | 0 <= k < |rest| ensures rest[k].app == q[k + 1].app {}
    EnqueueApps(rest, e, n);
    TimesApps(r, n);
  }

  /** What Advance leaves: the application at the front comes back later than its period by the elapsed time. */
  ghost predicate Advanced(q: seq<Event>, period: real, r: seq<Event>) {
    q != [] && Times(r) == Enqueue(Earlier(Times(q)[1..], q[0].remaining), Event(q[0].app, q[0].remaining + period))
  }

  /** It comes back after its period if and only if no time had elapsed. */
  lemma BackOnTimeIff(q: seq<Event>, n: nat, period: real, r: seq<Event>)
    requires OneEach(q, n) && Advanced(q, period, r)
    ensures Event(q[0].app, period) in Times(r) <==> q[0].remaining == 0.0
  {
    hide Upto, Times, Earlier;
    var (rest, e) := (Earlier(Times(q)[1..], q[0].remaining), Event(q[0].app, q[0].remaining + period));
    InsertMembers(rest, Place(rest, e.remaining), e);
    forall k | 0 <= k < |rest| ensures rest[k].app != q[0].app {
      assert rest[k].app == q[k + 1].app;
    }
    hide Place, Insert;
    if Event(q[0].app, period) in Times(r) {
      assert Event(q[0].app, period) !in rest;
    }
  }

  /** Two applications with periods of two and three: after the first transition, its next one comes at four instead of two. */
  lemma BackTooLate()
    ensures var q := [Event(0, 2.0), Event(1, 1.0)];
            var r := [Event(1, 1.0), Event(0, 3.0)];
            Advanced(q, 2.0, r) && Event(0, 4.0) in Times(r) && Event(0, 2.0) !in Times(r)
  {
    var q := [Event(0, 2.0), Event(1, 1.0)];
    var r := [Event(1, 1.0), Event(0, 3.0)];
    assert Upto(q, 1) == 2.0 && Upto(q, 2) == 3.0 && Upto(r, 1) == 1.0 && Upto(r, 2) == 4.0;
    assert Times(q) == [Event(0, 2.0), Event(1, 3.0)] && Times(r) == [Event(1, 1.0), Event(0, 4.0)];
    assert Earlier(Times(q)[1..], 2.0) == [Event(1, 1.0)];
    assert Place([Event(1, 1.0)], 4.0) == 1;
  }

  // --- the first transitions ---

  predicate Ascending(q: seq<Event>) {
    forall i, k | 0 <= i < k < |q| :: q[i].remaining <= q[k].remaining
  }

  /** At the same time, in the order of the applications. */
  predicate Stable(q: seq<Event>) {
    forall i, k | 0 <= i < k < |q| && q[i].remaining == q[k].remaining :: q[i].app < q[k].app
  }

  ghost predicate Distinct(q: seq<Event>) {
    forall i, k | 0 <= i < k < |q| :: q[i].app != q[k].app
  }

  lemma InsertKeeps(q: seq<Event>, i: nat, e: Event)
    requires i <= |q| && Ascending(q) && Distinct(q) && Stable(q) && forall k | 0 <= k < |q| :: q[k].app < e.app
    requires (forall k | 0 <= k < i :: q[k].remaining <= e.remaining) && forall k | i <= k < |q| :: q[k].remaining > e.remaining
    ensures Ascending(Insert(q, i, e)) && Distinct(Insert(q, i, e)) && Stable(Insert(q, i, e))
  {
    hide Insert;
  }

  /** The transition of a further application: after all those at the same time. */
  method InsertLast(q: seq<Event>, e: Event) returns (r: seq<Event>)
    requires Ascending(q) && Distinct(q) && Stable(q) && forall k | 0 <= k < |q| :: q[k].app < e.app
    ensures Ascending(r) && Distinct(r) && Stable(r) && |r| == |q| + 1 && forall x :: x in r <==> x in q || x == e
  {
    hide Insert, Distinct, Stable;
    var i := |q|;
    while i > 0 && q[i - 1].remaining > e.remaining
      invariant 0 <= i <= |q| && forall k | i <= k < |q| :: q[k].remaining > e.remaining
    {
      i := i - 1;
    }
    InsertKeeps(q, i, e);
    InsertMembers(q, i, e);
    r := Insert(q, i, e);
  }

  /** One transition per application, by time, and by application at the same time. */
  method Sort(remaining: seq<real>) returns (q: seq<Event>)
    ensures Ascending(q) && Stable(q) && OneEach(q, |remaining|)
    ensures forall k | 0 <= k < |q| :: q[k].app < |remaining| && q[k].remaining == remaining[q[k].app]
  {
    hide Ascending, Stable;
    q := [];
    assert Ascending(q) && Stable(q) by { NothingToSort(); }
    for a := 0 to |remaining|
      invariant Ascending(q) && Distinct(q) && Stable(q) && |q| == a
      invariant forall x | x in q :: x.app < a && x.remaining == remaining[x.app]
    {
      q := InsertLast(q, Event(a, remaining[a]));
    }
  }

  lemma NothingToSort()
    ensures Ascending([]) && Stable([])
  {}

  /** What the constructor leaves at k: it subtracts what it has left at k - 1. */
  function Left(q: seq<Event>, k: nat): real
    requires k < |q|
  {
    if k == 0 then q[0].remaining else q[k].remaining - Left(q, k - 1)
  }

  lemma LeftStep(q: seq<Event>, k: nat)
    requires k < |q|
    ensures Left(q, k) == if k == 0 then q[0].remaining else q[k].remaining - Left(q, k - 1)
  {}

  lemma {:induction false} LeftIsWithin(q: seq<Event>, k: nat)
    requires k < |q| && Ascending(q) && NonNegative(q)
    ensures 0.0 <= Left(q, k) <= q[k].remaining
  {
    if k > 0 {
      LeftIsWithin(q, k - 1);
    }
  }

  /** The differences that the constructor takes never become negative. */
  method Differences(q: seq<Event>) returns (r: seq<Event>)
    requires q != [] && Ascending(q) && NonNegative(q)
    ensures |r| == |q| && NonNegative(r) && forall k | 0 <= k < |q| :: r[k] == Event(q[k].app, Left(q, k))
  {
    hide Left;
    LeftStep(q, 0);
    r := q;
    for i := 1 to |q|
      invariant |r| == |q| && forall k | i <= k < |q| :: r[k] == q[k]
      invariant forall k | 0 <= k < i && k < |q| :: r[k] == Event(q[k].app, Left(q, k))
    {
      LeftIsWithin(q, i - 1);
      LeftStep(q, i);
      assert r[i].remaining >= r[i - 1].remaining;
      r := r[i := r[i].(remaining := r[i].remaining - r[i - 1].remaining)];
    }
    forall k | 0 <= k < |q| ensures r[k].remaining >= 0.0 { LeftIsWithin(q, k); }
  }

  lemma {:induction false} LeftSums(q: seq<Event>, r: seq<Event>, k: nat)
    requires |r| == |q| && k < |q| && forall i | 0 <= i < |q| :: r[i] == Event(q[i].app, Left(q, i))
    ensures Upto(r, k + 1) == q[k].remaining + if k < 2 then 0.0 else Upto(r, k - 1)
  {
    if k > 0 {
      LeftSums(q, r, k - 1);
      assert Upto(r, k + 1) == Upto(r, k) + r[k].remaining;
      assert Upto(r, k) == Upto(r, k - 1) + r[k - 1].remaining;
      assert k < 2 ==> Upto(r, 0) == 0.0;
    } else {
      assert Upto(r, 1) == Upto(r, 0) + r[0].remaining;
    }
  }

  /** The list stands for the drawn periods exactly when all but the two longest are zero. */
  lemma DifferencesAreExact(q: seq<Event>, r: seq<Event>)
    requires NonNegative(q) && Ascending(q)
    requires |r| == |q| && forall i | 0 <= i < |q| :: r[i] == Event(q[i].app, Left(q, i))
    ensures Times(r) == q <==> forall k | 0 <= k < |q| - 2 :: q[k].remaining == 0.0
  {
    hide Left, Upto;
    if Times(r) == q {
      forall k | 0 <= k < |q| - 2 ensures q[k].remaining == 0.0 {
        LeftSums(q, r, k + 2);
        assert Times(r)[k + 2] == q[k + 2] && Times(r)[k] == q[k];
      }
    }
    if forall k | 0 <= k < |q| - 2 :: q[k].remaining == 0.0 {
      forall k | 0 <= k < |q| ensures Times(r)[k] == q[k] {
        ZeroUntil(q, r, k);
      }
    }
  }

  lemma {:induction false} ZeroUntil(q: seq<Event>, r: seq<Event>, k: nat)
    requires |r| == |q| && k < |q| && forall i | 0 <= i < |q| :: r[i] == Event(q[i].app, Left(q, i))
    requires forall i | 0 <= i < |q| - 2 :: q[i].remaining == 0.0
    ensures Upto(r, k + 1) == q[k].remaining
  {
    hide Left;
    LeftSums(q, r, k);
    if k >= 2 {
      ZeroUntil(q, r, k - 2);
    }
  }

  /** Three applications that should all change at time one: the last is made to wait for one more. */
  lemma ThirdApplicationIsLate()
    ensures var q := [Event(0, 1.0), Event(1, 1.0), Event(2, 1.0)];
            Ascending(q) && Times([Event(0, 1.0), Event(1, 0.0), Event(2, 1.0)])[2] == Event(2, 2.0) && Left(q, 2) == 1.0
  {
    var q := [Event(0, 1.0), Event(1, 1.0), Event(2, 1.0)];
    assert Left(q, 0) == 1.0 && Left(q, 1) == 0.0;
    var r := [Event(0, 1.0), Event(1, 0.0), Event(2, 1.0)];
    assert Upto(r, 1) == 1.0 && Upto(r, 2) == 1.0;
  }

  // --- periods ---

  predicate Periodic(p: seq<real>) {
    p != [] && |p| % 2 == 0 && forall k | 0 <= k < |p| :: p[k] >= 0.0
  }

  /** Lists of periods without the last one of an odd number. */
  function Trimmed(p: seq<real>): seq<real> {
    if |p| % 2 == 1 then p[..|p| - 1] else p
  }

  /** The lists that are kept of the first n. */
  ghost predicate Kept(kept: seq<seq<real>>, lists: seq<seq<real>>, n: nat, min: nat)
    requires n <= |lists|
  {
    (forall p | p in kept :: Periodic(p)) &&
    forall p :: p in kept <==> |p| >= min && TrimmedFrom(p, lists, n)
  }

  ghost predicate TrimmedFrom(p: seq<real>, lists: seq<seq<real>>, n: nat)
    requires n <= |lists|
  {
    exists k :: 0 <= k < n && p == Trimmed(lists[k])
  }

  lemma KeptMore(kept: seq<seq<real>>, lists: seq<seq<real>>, n: nat, min: nat)
    requires n < |lists| && min > 0 && Kept(kept, lists, n, min) && forall k | 0 <= k < |lists[n]| :: lists[n][k] >= 0.0
    ensures var p := Trimmed(lists[n]); Kept(if |p| >= min then kept + [p] else kept, lists, n + 1, min)
  {
    var p := Trimmed(lists[n]);
    assert |p| >= min ==> Periodic(p);
    hide Periodic, Trimmed;
    forall q ensures TrimmedFrom(q, lists, n + 1) <==> TrimmedFrom(q, lists, n) || q == p {}
  }

  /** Lists with enough periods, made even; refused when none is left. */
  method SelectPeriods(lists: seq<seq<real>>, min: nat) returns (r: Result<seq<seq<real>>>)
    requires forall i | 0 <= i < |lists| :: forall k | 0 <= k < |lists[i]| :: lists[i][k] >= 0.0
    ensures r.Ok? <==> min > 0 && exists i :: 0 <= i < |lists| && |Trimmed(lists[i])| >= min
    ensures r.Ok? ==> (forall p | p in r.value :: Periodic(p)) && forall p :: p in r.value <==> |p| >= min && TrimmedFrom(p, lists, |lists|)
  {
    hide Periodic, Trimmed, TrimmedFrom;
    if min == 0 {
      return Err("Invalid number of min periods, must be > 0");
    }
    var kept := [];
    NothingKept(lists, min);
    for i := 0 to |lists|
      invariant Kept(kept, lists, i, min)
    {
      KeptMore(kept, lists, i, min);
      var p := Trimmed(lists[i]);
      if |p| >= min {
        kept := kept + [p];
      }
    }
    SomeKept(kept, lists, min);
    if kept == [] {
      return Err("Empty app traces");
    }
    return Ok(kept);
  }

  lemma NothingKept(lists: seq<seq<real>>, min: nat)
    ensures Kept([], lists, 0, min)
  {}

  lemma SomeKept(kept: seq<seq<real>>, lists: seq<seq<real>>, min: nat)
    requires Kept(kept, lists, |lists|, min)
    ensures kept != [] <==> exists i :: 0 <= i < |lists| && |Trimmed(lists[i])| >= min
  {
    hide Periodic, Trimmed;
    if kept != [] {
      assert kept[0] in kept;
    }
    if i :| 0 <= i < |lists| && |Trimmed(lists[i])| >= min {
      assert TrimmedFrom(Trimmed(lists[i]), lists, |lists|);
    }
  }

  // --- the pool ---

  ghost predicate PoolOk(periods: seq<seq<real>>, which: seq<nat>, current: seq<nat>) {
    (forall p | p in periods :: Periodic(p)) && |current| == |which| &&
    forall a | 0 <= a < |which| :: which[a] < |periods| && current[a] < |periods[which[a]]|
  }

  /** The next period of an application, with wrap-around. */
  lemma Following(periods: seq<seq<real>>, which: seq<nat>, current: seq<nat>, a: nat)
    requires PoolOk(periods, which, current) && a < |which|
    ensures |current| == |which| && which[a] < |periods| && current[a] < |periods[which[a]]| && |periods[which[a]]| % 2 == 0
    ensures forall k | 0 <= k < |periods[which[a]]| :: periods[which[a]][k] >= 0.0
  {
    assert periods[which[a]] in periods;
  }

  lemma StaysInPool(periods: seq<seq<real>>, which: seq<nat>, current: seq<nat>, a: nat, k: nat)
    requires PoolOk(periods, which, current) && a < |which| && which[a] < |periods| && k < |periods[which[a]]|
    ensures |current| == |which| && PoolOk(periods, which, current[a := k])
  {}

  /** Applications begin with a period of even index. */
  predicate AtOffsets(current: seq<nat>, offsets: seq<nat>) {
    |current| == |offsets| && forall a | 0 <= a < |offsets| :: current[a] == 2 * offsets[a]
  }

  /** The applications by the end of the period in which they are born. */
  ghost predicate Drawn(q: seq<Event>, periods: seq<seq<real>>, which: seq<nat>, current: seq<nat>) {
    Ascending(q) && Stable(q) && OneEach(q, |which|) && PoolOk(periods, which, current) &&
    forall k | 0 <= k < |q| :: q[k].remaining == periods[which[q[k].app]][current[q[k].app]]
  }

  /** The list at the beginning: repeated differences of those times. */
  ghost predicate Opening(desc: seq<Event>, periods: seq<seq<real>>, which: seq<nat>, current: seq<nat>) {
    exists q: seq<Event> :: Drawn(q, periods, which, current) && |desc| == |q| && forall k | 0 <= k < |q| :: desc[k] == Event(q[k].app, Left(q, k))
  }

  lemma IsOpening(q: seq<Event>, desc: seq<Event>, periods: seq<seq<real>>, which: seq<nat>, current: seq<nat>, remaining: seq<real>)
    requires PoolOk(periods, which, current) && |remaining| == |which| && Ascending(q) && Stable(q) && OneEach(q, |which|)
    requires forall a | 0 <= a < |which| :: remaining[a] == periods[which[a]][current[a]]
    requires forall k | 0 <= k < |q| :: q[k].app < |which| && q[k].remaining == remaining[q[k].app]
    requires |desc| == |q| && forall k | 0 <= k < |q| :: desc[k] == Event(q[k].app, Left(q, k))
    ensures Opening(desc, periods, which, current)
  {
    hide Ascending, Stable, Left;
    assert Drawn(q, periods, which, current);
  }

  class AppPool {
    const periods: seq<seq<real>>
    const which: seq<nat>
    var current: seq<nat>
    var desc: seq<Event>

    ghost predicate Valid()
      reads this
    {
      PoolOk(periods, which, current) && which != [] && OneEach(desc, |which|) && NonNegative(desc)
    }

    /** The lists of periods and the offsets into them are drawn for every application. */
    constructor (periods: seq<seq<real>>, which: seq<nat>, offsets: seq<nat>)
      requires which != [] && |offsets| == |which| && forall p | p in periods :: Periodic(p)
      requires forall a | 0 <= a < |which| :: which[a] < |periods| && offsets[a] < |periods[which[a]]| / 2
      ensures Valid() && this.periods == periods && this.which == which
      ensures AtOffsets(current, offsets)
      ensures Opening(desc, periods, which, current)
    {
      this.periods, this.which := periods, which;
      var start := seq(|which|, a requires 0 <= a < |which| => 2 * offsets[a]);
      assert PoolOk(periods, which, start);
      current := start;
      var remaining := seq(|which|, a requires 0 <= a < |which| => periods[which[a]][start[a]]);
      assert forall a | 0 <= a < |remaining| :: remaining[a] >= 0.0 by {
        forall a | 0 <= a < |remaining| ensures remaining[a] >= 0.0 { assert periods[which[a]] in periods; }
      }
      var q := Sort(remaining);
      var r := Differences(q);
      desc := r;
      IsOpening(q, r, periods, which, start, remaining);
    }

    method Next() returns (time: real)
      requires Valid()
      ensures desc != [] && time == desc[0].remaining >= 0.0
    {
      time := desc[0].remaining;
    }

    /** Time goes by without a transition: every one comes nearer by it, though only the front is written. */
    method AdvanceClock(time: real)
      requires Valid() && 0.0 <= time <= desc[0].remaining
      modifies this`desc
      ensures Valid() && Times(desc) == Earlier(Times(old(desc)), time) && desc[1..] == old(desc)[1..]
    {
      FrontEarlier(desc, time);
      hide Times, Earlier;
      desc := desc[0 := desc[0].(remaining := desc[0].remaining - time)];
    }

    /**
     * The next application changes its state. The others keep their times; it comes back after
     * its next period and, once more, the time that has just gone by.
     */
    method Advance() returns (app: nat, elapsed: real)
      requires Valid()
      modifies this`desc, this`current
      ensures Valid() && app == old(desc)[0].app < |which| && elapsed == old(desc)[0].remaining >= 0.0
      ensures |current| == |old(current)| == |which| && current == old(current)[app := current[app]] && current[app] % 2 != old(current)[app] % 2
      ensures current[app] == if old(current)[app] + 1 == |periods[which[app]]| then 0 else old(current)[app] + 1
      ensures Advanced(old(desc), periods[which[app]][current[app]], desc)
    {
      hide Times, Enqueue, Earlier, Upto, PoolOk;
      var selected := desc[0];
      app, elapsed := selected.app, selected.remaining;
      Following(periods, which, current, app);
      var next := current[app] + 1;
      if next == |periods[which[app]]| {
        next := 0;
      }
      StaysInPool(periods, which, current, app, next);
      current := current[app := next];
      ghost var was := desc;
      PopTimes(was);
      var e := Event(app, elapsed + periods[which[app]][next]);
      desc := PutBack(desc[1..], e);
      BackInPool(was, e, |which|, desc);
    }
  }
}
