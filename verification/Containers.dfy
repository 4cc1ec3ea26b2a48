/**
 * Containers that share the memory of processors: what pushing, popping and advancing do to a
 * container and its processor, and what stays true of them together.
 */
module Containers {
  import opened Lists
  import opened Sums
  import opened RunQueue

  /** A container: active jobs in the order in which they end, and jobs that wait. */
  datatype Box = Box(active: seq<Job>, pending: seq<Job>, workers: nat)

  /** A processor, with the (id, memory) pairs of the tasks that it runs. */
  datatype Proc = Proc(total: u64, used: nat, running: nat, resident: set<(nat, nat)>)

  function Pair(j: Job): (nat, nat) { (j.id, j.memory) }

  function Pairs(js: seq<Job>): set<(nat, nat)> { set j | j in js :: Pair(j) }

  function Names(js: seq<Job>): set<nat> { set j | j in js :: j.id }

  function Ids(b: Box): set<nat> { Names(b.active) + Names(b.pending) }

  ghost function MemoryOf(x: (nat, nat)): nat { x.1 }

  /** The memory in use is that of the resident tasks, and so is their number. */
  ghost predicate ProcOk(p: Proc) {
    p.used == SumOver(multiset(p.resident), MemoryOf) && p.running == |p.resident| && p.used <= p.total
  }

  function Free(p: Proc): int { p.total - p.used }

  function Allocated(p: Proc, j: Job): Proc {
    Proc(p.total, p.used + j.memory, p.running + 1, p.resident + {Pair(j)})
  }

  function Released(p: Proc, j: Job): Proc
    requires j.memory <= p.used && p.running > 0
  {
    Proc(p.total, p.used - j.memory, p.running - 1, p.resident - {Pair(j)})
  }

  lemma AllocatedOk(p: Proc, j: Job)
    requires ProcOk(p) && Pair(j) !in p.resident && j.memory <= Free(p)
    ensures ProcOk(Allocated(p, j))
  {
    PutIn(multiset(p.resident), MemoryOf, Pair(j));
    assert multiset(p.resident + {Pair(j)}) == multiset(p.resident) + multiset{Pair(j)};
  }

  /** Memory that a resident task holds can be given back. */
  lemma ReleasedOk(p: Proc, j: Job)
    requires ProcOk(p) && Pair(j) in p.resident
    ensures j.memory <= p.used && p.running > 0 && ProcOk(Released(p, j))
  {
    TakeOut(multiset(p.resident), MemoryOf, Pair(j));
    assert multiset(p.resident - {Pair(j)}) == multiset(p.resident) - multiset{Pair(j)};
  }

  /** No memory is in use exactly when no resident task holds any. */
  lemma {:induction false} UnusedMemory(s: multiset<(nat, nat)>)
    ensures SumOver(s, MemoryOf) == 0 <==> forall x | x in s :: x.1 == 0
    decreases |s|
  {
    if s != multiset{} {
      var y := Pick(s);
      UnusedMemory(s - multiset{y});
      assert forall x | x in s :: x == y || x in s - multiset{y};
    }
  }

  /** "No memory used if and only if nothing runs" holds if and only if something that runs holds memory, or nothing runs. */
  lemma IdleProcessor(p: Proc)
    requires ProcOk(p)
    ensures (p.used == 0 <==> p.running == 0) <==> (p.running == 0 || exists x | x in p.resident :: x.1 > 0)
  {
    UnusedMemory(multiset(p.resident));
    if p.running == 0 {
      assert p.resident == {};
    }
  }

  // --- what a container keeps ---

  ghost predicate NoDups(js: seq<Job>) {
    forall i, k | 0 <= i < k < |js| :: js[i].id != js[k].id
  }

  /** Of the tasks of this container, the active ones and no others are resident. */
  ghost predicate Local(b: Box, p: Proc) {
    forall x: (nat, nat) | x.0 in Ids(b) :: x in p.resident <==> x in Pairs(b.active)
  }

  ghost predicate BoxOk(b: Box, p: Proc) {
    0 < b.workers && |b.active| <= b.workers && Ordered(b.active) &&
    NoDups(b.active) && NoDups(b.pending) && Names(b.active) !! Names(b.pending) &&
    (forall j | j in b.pending :: j.memory <= p.total) &&
    Local(b, p)
  }

  /** Nothing changes on the processor but for tasks with these ids. */
  ghost predicate Touches(p: Proc, q: Proc, ids: set<nat>) {
    p.total == q.total && forall x: (nat, nat) | x.0 !in ids :: x in p.resident <==> x in q.resident
  }

  /** A task of this container starts: it gets its memory and its place among the active ones. */
  function Started(b: Box, j: Job): Box {
    b.(active := Enqueue(b.active, j))
  }

  lemma EnqueueMembers(js: seq<Job>, j: Job)
    requires NoDups(js) && j.id !in Names(js)
    ensures NoDups(Enqueue(js, j)) && |Enqueue(js, j)| == |js| + 1
    ensures Names(Enqueue(js, j)) == Names(js) + {j.id} && Pairs(Enqueue(js, j)) == Pairs(js) + {Pair(j)}
  {
    var i := Place(js, j.left);
    hide Place, Insert;
    InsertMembers(js, i, j);
    var r := Insert(js, i, j);
    assert forall y :: y in r <==> y in js || y == j;
    NoDupsInsert(js, i, j);
  }

  /** Jobs that end at the same time stay in the order in which they came. */
  lemma EnqueueIsStable(js: seq<Job>, j: Job)
    requires Ordered(js)
    ensures Ordered(Enqueue(js, j))
    ensures forall k | 0 <= k < |js| && js[k].left <= j.left :: k < Place(js, j.left)
  {
    var i := Place(js, j.left);
    hide Place, Insert;
    var r := Insert(js, i, j);
    forall a, b | 0 <= a < b < |r| ensures r[a].left <= r[b].left {}
  }

  lemma NoDupsInsert(js: seq<Job>, i: nat, j: Job)
    requires i <= |js| && NoDups(js) && j.id !in Names(js)
    ensures NoDups(Insert(js, i, j))
  {
    hide Insert;
    assert forall k | 0 <= k < |js| :: js[k].id != j.id by {
      forall k | 0 <= k < |js| ensures js[k].id != j.id { assert js[k] in js; }
    }
    hide Names;
  }

  lemma PairsHaveNames(js: seq<Job>)
    ensures forall x | x in Pairs(js) :: x.0 in Names(js)
  {}

  lemma StartedLocal(b: Box, p: Proc, j: Job)
    requires Local(b, p) && NoDups(b.active) && j.id !in Ids(b) && forall x | x in p.resident :: x.0 != j.id
    ensures Local(Started(b, j), Allocated(p, j)) && Ids(Started(b, j)) == Ids(b) + {j.id}
  {
    hide Enqueue, Names, NoDups, Pairs;
    EnqueueMembers(b.active, j);
    PairsHaveNames(b.active);
    var (c, q) := (Started(b, j), Allocated(p, j));
    forall x: (nat, nat) | x.0 in Ids(c) ensures x in q.resident <==> x in Pairs(c.active) {
      assert x.0 == j.id || x.0 in Ids(b);
    }
  }

  lemma StartedOk(b: Box, p: Proc, j: Job)
    requires BoxOk(b, p) && ProcOk(p) && j.id !in Ids(b) && |b.active| < b.workers && j.memory <= Free(p)
    requires forall x | x in p.resident :: x.0 != j.id
    ensures BoxOk(Started(b, j), Allocated(p, j)) && ProcOk(Allocated(p, j))
    ensures Touches(p, Allocated(p, j), {j.id}) && Ids(Started(b, j)) == Ids(b) + {j.id}
  {
    hide Enqueue, Names, NoDups, Pairs, ProcOk, Ordered, Place, Local;
    EnqueueMembers(b.active, j);
    EnqueueIsStable(b.active, j);
    assert Pair(j).0 == j.id;
    AllocatedOk(p, j);
    StartedLocal(b, p, j);
  }

  /** The jobs that wait start in their order, until a worker or memory is missing. */
  function Fill(b: Box, p: Proc): (r: (Box, Proc))
    decreases |b.pending|
  {
    if b.pending == [] || |b.active| == b.workers || Free(p) < b.pending[0].memory then (b, p)
    else Fill(Started(b, b.pending[0]).(pending := b.pending[1..]), Allocated(p, b.pending[0]))
  }

  /** The first job that waits, taken out. */
  lemma Unqueued(b: Box, p: Proc)
    requires BoxOk(b, p) && b.pending != []
    ensures BoxOk(b.(pending := b.pending[1..]), p)
    ensures b.pending[0].id !in Ids(b.(pending := b.pending[1..])) && Ids(b) == Ids(b.(pending := b.pending[1..])) + {b.pending[0].id}
    ensures forall x | x in p.resident :: x.0 != b.pending[0].id
  {
    var (j, rest) := (b.pending[0], b.pending[1..]);
    assert b.pending == [j] + rest;
    assert Names(b.pending) == {j.id} + Names(rest);
    assert j.id !in Names(rest) by {
      forall y | y in rest ensures y.id != j.id {
        var k :| 0 <= k < |rest| && rest[k] == y;
        assert b.pending[k + 1] == y;
      }
    }
    assert j.id in Ids(b) && forall x | x in Pairs(b.active) :: x.0 in Names(b.active);
  }

  lemma {:induction false} FillOk(b: Box, p: Proc)
    requires BoxOk(b, p) && ProcOk(p)
    ensures BoxOk(Fill(b, p).0, Fill(b, p).1) && ProcOk(Fill(b, p).1)
    ensures Ids(Fill(b, p).0) == Ids(b) && Touches(p, Fill(b, p).1, Ids(b))
    decreases |b.pending|
  {
    if !(b.pending == [] || |b.active| == b.workers || Free(p) < b.pending[0].memory) {
      hide BoxOk, ProcOk, Ids, Started, Allocated;
      var (j, rest) := (b.pending[0], b.(pending := b.pending[1..]));
      Unqueued(b, p);
      Room(b, p);
      StartedOk(rest, p, j);
      StartedPending(rest, j);
      FillOk(Started(b, j).(pending := b.pending[1..]), Allocated(p, j));
    }
  }

  lemma Room(b: Box, p: Proc)
    requires BoxOk(b, p)
    ensures |b.active| <= b.workers && b.workers > 0
  {}

  lemma StartedPending(rest: Box, j: Job)
    ensures Started(rest, j).pending == rest.pending && Started(rest, j).workers == rest.workers
    ensures forall b: Box | b.active == rest.active && b.workers == rest.workers :: Started(b, j).(pending := rest.pending) == Started(rest, j)
  {}

  /** A container whose tasks are the only ones on the processor. */
  ghost predicate Alone(b: Box, p: Proc) {
    forall x | x in p.resident :: x.0 in Ids(b)
  }

  predicate NoStall(b: Box) {
    b.pending != [] ==> b.active != []
  }

  /** Without active tasks such a container has all the memory free. */
  lemma AllFree(b: Box, p: Proc)
    requires BoxOk(b, p) && ProcOk(p) && Alone(b, p) && b.active == []
    ensures Free(p) == p.total
  {
    assert p.resident == {};
    assert multiset(p.resident) == multiset{};
  }

  lemma {:induction false} FillDoesNotStall(b: Box, p: Proc)
    requires BoxOk(b, p) && ProcOk(p) && Alone(b, p)
    ensures NoStall(Fill(b, p).0) && Alone(Fill(b, p).0, Fill(b, p).1)
    decreases |b.pending|
  {
    if b.pending != [] {
      if |b.active| == b.workers || Free(p) < b.pending[0].memory {
        if b.active == [] { AllFree(b, p); }
      } else {
        hide BoxOk, ProcOk, Ids, Started, Allocated, NoStall;
        var (j, rest) := (b.pending[0], b.(pending := b.pending[1..]));
        Unqueued(b, p);
        Room(b, p);
        StartedOk(rest, p, j);
        StartedPending(rest, j);
        FillDoesNotStall(Started(b, j).(pending := b.pending[1..]), Allocated(p, j));
      }
    }
  }

  // --- push, pop, advance ---

  function Pushed(b: Box, p: Proc, j: Job): (Box, Proc) {
    if |b.active| == b.workers || Free(p) < j.memory then (b.(pending := b.pending + [j]), p)
    else (Started(b, j), Allocated(p, j))
  }

  lemma PushOk(b: Box, p: Proc, j: Job)
    requires BoxOk(b, p) && ProcOk(p) && j.memory <= p.total && j.id !in Ids(b)
    requires forall x | x in p.resident :: x.0 != j.id
    ensures BoxOk(Pushed(b, p, j).0, Pushed(b, p, j).1) && ProcOk(Pushed(b, p, j).1)
    ensures Ids(Pushed(b, p, j).0) == Ids(b) + {j.id} && Touches(p, Pushed(b, p, j).1, {j.id})
    ensures Alone(b, p) && NoStall(b) ==> NoStall(Pushed(b, p, j).0)
  {
    if |b.active| == b.workers || Free(p) < j.memory {
      hide ProcOk;
      Queued(b, p, j);
      if Alone(b, p) && b.active == [] { AllFree(b, p); }
    } else {
      StartedOk(b, p, j);
      assert |Started(b, j).active| > 0;
    }
  }

  lemma Queued(b: Box, p: Proc, j: Job)
    requires BoxOk(b, p) && j.memory <= p.total && j.id !in Ids(b)
    requires forall x | x in p.resident :: x.0 != j.id
    ensures BoxOk(b.(pending := b.pending + [j]), p) && Ids(b.(pending := b.pending + [j])) == Ids(b) + {j.id}
  {
    assert forall y :: y in b.pending + [j] <==> y in b.pending || y == j;
    assert forall k | 0 <= k < |b.pending| :: b.pending[k].id != j.id by {
      forall k | 0 <= k < |b.pending| ensures b.pending[k].id != j.id { assert b.pending[k] in b.pending; }
    }
    PairsHaveNames(b.active);
  }

  /**
   * A push overtakes a task that waits, which stays pending while the new one is active, exactly
   * when a worker and enough memory are free; otherwise the new one is behind all that wait.
   */
  lemma PushOvertakes(b: Box, p: Proc, j: Job, earlier: Job)
    requires BoxOk(b, p) && earlier in b.pending && j.id !in Ids(b)
    ensures var c := Pushed(b, p, j).0;
            && earlier in c.pending
            && (j in c.active <==> |b.active| < b.workers && j.memory <= Free(p))
            && (j !in c.active ==> c.pending == b.pending + [j] && c.active == b.active)
  {
    InsertMembers(b.active, Place(b.active, j.left), j);
    HasName(b.active, j);
  }

  lemma HasName(js: seq<Job>, j: Job)
    ensures j in js ==> j.id in Names(js)
  {}

  /** Where the tasks that wait are blocked by memory, it takes a smaller task to overtake the first of them. */
  lemma OvertakingIsSmaller(b: Box, p: Proc, j: Job)
    requires BoxOk(b, p) && b.pending != [] && j.id !in Ids(b) && Fill(b, p) == (b, p)
    ensures j in Pushed(b, p, j).0.active ==> j.memory < b.pending[0].memory && b.pending[0] in Pushed(b, p, j).0.pending
  {
    PushOvertakes(b, p, j, b.pending[0]);
    if |b.active| < b.workers && b.pending[0].memory <= Free(p) {
      StartedIsMore(b, p);
    }
  }

  lemma StartedIsMore(b: Box, p: Proc)
    requires b.pending != [] && |b.active| < b.workers && b.pending[0].memory <= Free(p)
    ensures |Fill(b, p).0.pending| < |b.pending|
  {
    FillPending(Started(b, b.pending[0]).(pending := b.pending[1..]), Allocated(p, b.pending[0]));
  }

  lemma {:induction false} FillPending(b: Box, p: Proc)
    ensures |Fill(b, p).0.pending| <= |b.pending|
    decreases |b.pending|
  {
    if !(b.pending == [] || |b.active| == b.workers || Free(p) < b.pending[0].memory) {
      FillPending(Started(b, b.pending[0]).(pending := b.pending[1..]), Allocated(p, b.pending[0]));
    }
  }

  /** Tasks pushed one after the other. */
  function Pushes(b: Box, p: Proc, js: seq<Job>): (Box, Proc)
    decreases |js|
  {
    if js == [] then (b, p)
    else
      var (c, q) := Pushed(b, p, js[0]);
      Pushes(c, q, js[1..])
  }

  lemma EnqueueFirst(j: Job)
    ensures Enqueue([], j) == [j]
  {}

  lemma EnqueueBefore(j: Job, k: Job)
    requires j.left > k.left
    ensures Enqueue([j], k) == [k, j]
  {}

  lemma PushStarts(b: Box, p: Proc, j: Job, c: Box, q: Proc)
    requires |b.active| < b.workers && j.memory <= Free(p) && c == b.(active := Enqueue(b.active, j))
    requires q == Proc(p.total, p.used + j.memory, p.running + 1, q.resident) && q.resident == p.resident + {Pair(j)}
    ensures Pushed(b, p, j) == (c, q)
  {}

  lemma PushWaits(b: Box, p: Proc, j: Job, c: Box)
    requires j.memory > Free(p) && c == b.(pending := b.pending + [j])
    ensures Pushed(b, p, j) == (c, p)
  {}

  lemma PushesOne(b: Box, p: Proc, js: seq<Job>, c: Box, q: Proc)
    requires js != [] && Pushed(b, p, js[0]) == (c, q)
    ensures Pushes(b, p, js) == Pushes(c, q, js[1..]) && Pushes(c, q, []) == (c, q)
  {}

  /** Three pushes to an empty container: the third task starts while the second, which came before, waits for memory. */
  lemma FirstComeIsNotServedFirst()
    ensures var (big, bigger, small) := (Job(0, 2, 9), Job(1, 3, 9), Job(2, 1, 5));
            Pushes(Box([], [], 3), Proc(4, 0, 0, {}), [big, bigger, small]) == (Box([small, big], [bigger], 3), Proc(4, 3, 2, {(0, 2), (2, 1)}))
  {
    hide Enqueue, Pushed, Pushes;
    var (big, bigger, small) := (Job(0, 2, 9), Job(1, 3, 9), Job(2, 1, 5));
    EnqueueFirst(big);
    EnqueueBefore(big, small);
    var (b, p) := (Box([], [], 3), Proc(4, 0, 0, {}));
    var (c, q) := (Box([big], [], 3), Proc(4, 2, 1, {(0, 2)}));
    var (d, r) := (Box([small, big], [bigger], 3), Proc(4, 3, 2, {(0, 2), (2, 1)}));
    PushStarts(b, p, big, c, q);
    PushWaits(c, q, bigger, c.(pending := [bigger]));
    PushStarts(c.(pending := [bigger]), q, small, d, r);
    PushesOne(b, p, [big, bigger, small], c, q);
    PushesOne(c, q, [bigger, small], c.(pending := [bigger]), q);
    PushesOne(c.(pending := [bigger]), q, [small], d, r);
    assert [big, bigger, small][1..] == [bigger, small] && [bigger, small][1..] == [small] && [small][1..] == [];
  }

  /** One push of a task without memory to an empty container: it runs, and no memory is in use. */
  lemma ZeroMemoryTaskRuns()
    ensures Pushes(Box([], [], 1), Proc(1, 0, 0, {}), [Job(0, 0, 1)]) == (Box([Job(0, 0, 1)], [], 1), Proc(1, 0, 1, {(0, 0)}))
  {
    hide Enqueue, Pushed, Pushes;
    var j := Job(0, 0, 1);
    EnqueueFirst(j);
    PushStarts(Box([], [], 1), Proc(1, 0, 0, {}), j, Box([j], [], 1), Proc(1, 0, 1, {(0, 0)}));
    PushesOne(Box([], [], 1), Proc(1, 0, 0, {}), [j], Box([j], [], 1), Proc(1, 0, 1, {(0, 0)}));
    assert [j][1..] == [];
  }

  function WithoutFront(b: Box): Box
    requires b.active != [] && Ordered(b.active)
  {
    b.(active := Lower(b.active[1..], b.active[0].left))
  }

  /** The front leaves and gives its memory back, then waiting tasks start. */
  function Popped(b: Box, p: Proc): (Box, Proc)
    requires b.active != [] && Ordered(b.active) && b.active[0].memory <= p.used && p.running > 0
  {
    Fill(WithoutFront(b), Released(p, b.active[0]))
  }

  /** Lists with the same tasks at the same places. */
  lemma SameMembers(js: seq<Job>, r: seq<Job>)
    requires |r| == |js| && forall k | 0 <= k < |js| :: r[k].id == js[k].id && r[k].memory == js[k].memory
    ensures Names(r) <= Names(js) && Pairs(r) <= Pairs(js)
  {
    forall j | j in r ensures Pair(j) in Pairs(js) && j.id in Names(js) {
      var k :| 0 <= k < |r| && r[k] == j;
      assert js[k] in js;
    }
  }

  lemma LowerKeepsOrder(js: seq<Job>, ops: nat)
    requires forall k | 0 <= k < |js| :: js[k].left >= ops
    ensures (NoDups(js) ==> NoDups(Lower(js, ops))) && (Ordered(js) ==> Ordered(Lower(js, ops)))
  {
    hide Lower;
  }

  lemma LowerMembers(js: seq<Job>, ops: nat)
    requires forall k | 0 <= k < |js| :: js[k].left >= ops
    ensures Names(Lower(js, ops)) == Names(js) && Pairs(Lower(js, ops)) == Pairs(js)
    ensures (NoDups(js) ==> NoDups(Lower(js, ops))) && (Ordered(js) ==> Ordered(Lower(js, ops)))
  {
    hide Lower, Names, Pairs, NoDups, Ordered;
    LowerKeepsOrder(js, ops);
    SameMembers(js, Lower(js, ops));
    SameMembers(Lower(js, ops), js);
  }

  lemma FrontOut(js: seq<Job>)
    requires js != [] && NoDups(js)
    ensures Names(js) == Names(js[1..]) + {js[0].id} && js[0].id !in Names(js[1..])
    ensures Pairs(js) == Pairs(js[1..]) + {Pair(js[0])} && forall x | x in Pairs(js[1..]) :: x.0 in Names(js[1..])
  {
    var rest := js[1..];
    assert js == [js[0]] + rest;
    forall y | y in rest ensures y.id != js[0].id {
      var k :| 0 <= k < |rest| && rest[k] == y;
      assert js[k + 1] == y;
    }
  }

  lemma WithoutFrontLocal(b: Box, p: Proc)
    requires BoxOk(b, p) && b.active != [] && b.active[0].memory <= p.used && p.running > 0
    ensures Pair(b.active[0]) in p.resident
    ensures Local(WithoutFront(b), Released(p, b.active[0]))
    ensures Ids(b) == Ids(WithoutFront(b)) + {b.active[0].id} && b.active[0].id !in Ids(WithoutFront(b))
    ensures Touches(p, Released(p, b.active[0]), {b.active[0].id})
  {
    hide NoDups, Names, Pairs, Lower;
    FrontOut(b.active);
    var j := b.active[0];
    assert Pair(j) in p.resident by { assert Pair(j).0 in Ids(b); }
    LowerMembers(b.active[1..], j.left);
  }

  /** What the front holds is on the processor. */
  lemma FrontIsResident(b: Box, p: Proc)
    requires BoxOk(b, p) && ProcOk(p) && b.active != []
    ensures Pair(b.active[0]) in p.resident && b.active[0].memory <= p.used && p.running > 0
    ensures ProcOk(Released(p, b.active[0]))
  {
    var j := b.active[0];
    assert j in b.active && Pair(j).0 in Ids(b);
    assert Pair(j) in p.resident;
    ReleasedOk(p, j);
  }

  lemma WithoutFrontOk(b: Box, p: Proc)
    requires BoxOk(b, p) && ProcOk(p) && b.active != []
    ensures Ordered(b.active) && b.active[0].memory <= p.used && p.running > 0
    ensures BoxOk(WithoutFront(b), Released(p, b.active[0])) && ProcOk(Released(p, b.active[0]))
    ensures Ids(b) == Ids(WithoutFront(b)) + {b.active[0].id} && b.active[0].id !in Ids(WithoutFront(b))
    ensures Touches(p, Released(p, b.active[0]), {b.active[0].id})
  {
    hide ProcOk, Names, Pairs, Lower, NoDups, Local, Touches;
    FrontIsResident(b, p);
    WithoutFrontLocal(b, p);
    FrontOut(b.active);
    TailKeeps(b.active);
    LowerMembers(b.active[1..], b.active[0].left);
  }

  lemma TailKeeps(js: seq<Job>)
    requires js != [] && NoDups(js) && Ordered(js)
    ensures NoDups(js[1..]) && Ordered(js[1..])
  {}

  lemma IsOrdered(b: Box, p: Proc)
    requires BoxOk(b, p)
    ensures Ordered(b.active)
  {}

  lemma FrontIsGone(b: Box, p: Proc)
    requires BoxOk(b, p) && b.active != [] && b.active[0].memory <= p.used && p.running > 0
    ensures forall x | x in Released(p, b.active[0]).resident :: x.0 != b.active[0].id
  {
    FrontOut(b.active);
    hide NoDups, Names, Pairs, Lower;
    assert b.active[0].id in Ids(b);
  }

  /** Popping never fails to free or to allocate memory. */
  lemma PopOk(b: Box, p: Proc)
    requires BoxOk(b, p) && ProcOk(p) && b.active != []
    ensures Ordered(b.active) && b.active[0].memory <= p.used && p.running > 0
    ensures BoxOk(Popped(b, p).0, Popped(b, p).1) && ProcOk(Popped(b, p).1)
    ensures Ids(b) == Ids(Popped(b, p).0) + {b.active[0].id} && b.active[0].id !in Ids(Popped(b, p).0)
    ensures Touches(p, Popped(b, p).1, Ids(b)) && forall x | x in Popped(b, p).1.resident :: x.0 != b.active[0].id
    ensures Alone(b, p) ==> NoStall(Popped(b, p).0)
  {
    hide BoxOk, ProcOk, Ids, Fill, Released, NoStall;
    IsOrdered(b, p);
    WithoutFrontOk(b, p);
    var (c, q) := (WithoutFront(b), Released(p, b.active[0]));
    FillOk(c, q);
    FrontIsGone(b, p);
    if Alone(b, p) {
      NotResident(b, p);
      FillDoesNotStall(c, q);
    }
  }

  lemma NotResident(b: Box, p: Proc)
    requires BoxOk(b, p) && ProcOk(p) && b.active != [] && Alone(b, p)
    requires b.active[0].memory <= p.used && p.running > 0
    ensures Alone(WithoutFront(b), Released(p, b.active[0]))
  {
    WithoutFrontOk(b, p);
    FrontOut(b.active);
    hide ProcOk, Names, NoDups;
  }

  function AdvancedBox(b: Box, ops: nat): Box
    requires Ordered(b.active)
  {
    if b.active == [] then b
    else b.(active := Lower(b.active, if b.active[0].left <= ops then b.active[0].left else ops))
  }

  lemma AdvanceOk(b: Box, p: Proc, ops: nat)
    requires BoxOk(b, p)
    ensures BoxOk(AdvancedBox(b, ops), p) && Ids(AdvancedBox(b, ops)) == Ids(b) && (NoStall(b) ==> NoStall(AdvancedBox(b, ops)))
  {
    if b.active != [] {
      LowerMembers(b.active, if b.active[0].left <= ops then b.active[0].left else ops);
      hide Names, Pairs, Lower, NoDups;
    }
  }

  /** Changes for other tasks do not concern this container. */
  lemma Untouched(b: Box, p: Proc, q: Proc, ids: set<nat>)
    requires BoxOk(b, p) && Touches(p, q, ids) && Ids(b) !! ids
    ensures BoxOk(b, q)
  {}

  function Size(b: Box): nat { |b.active| + |b.pending| }

  lemma {:induction false} FillKeepsSize(b: Box, p: Proc)
    ensures Size(Fill(b, p).0) == Size(b) && Fill(b, p).0.workers == b.workers
    decreases |b.pending|
  {
    if !(b.pending == [] || |b.active| == b.workers || Free(p) < b.pending[0].memory) {
      FillKeepsSize(Started(b, b.pending[0]).(pending := b.pending[1..]), Allocated(p, b.pending[0]));
    }
  }

  // --- which tasks a container holds ---

  function Jobs(b: Box): multiset<Job> { multiset(b.active) + multiset(b.pending) }

  /** The tasks with operations left, active or not. */
  function Unfinished(b: Box): set<Job> { set j | j in Jobs(b) && j.left > 0 }

  /** The first n of the tasks that wait have started. */
  ghost predicate StartedFirst(b: Box, c: Box, n: nat) {
    && n <= |b.pending| && c.pending == b.pending[n..] && c.workers == b.workers
    && multiset(c.active) == multiset(b.active) + multiset(b.pending[..n])
  }

  /** The next one that waits lacks a worker or memory. */
  predicate Stuck(c: Box, q: Proc) {
    c.pending == [] || |c.active| == c.workers || Free(q) < c.pending[0].memory
  }

  lemma OneMoreStarted(b: Box, c: Box, k: nat)
    requires b.pending != [] && StartedFirst(Started(b, b.pending[0]).(pending := b.pending[1..]), c, k)
    ensures StartedFirst(b, c, k + 1)
  {
    hide Place, Insert;
    var (j, rest) := (b.pending[0], b.pending[1..]);
    InsertMembers(b.active, Place(b.active, j.left), j);
    assert b.pending[..k + 1] == [j] + rest[..k];
    assert rest[k..] == b.pending[k + 1..];
  }

  /** The tasks that start are the first of those that wait, as many as there are workers and memory for. */
  lemma {:induction false} FillStartsInOrder(b: Box, p: Proc) returns (n: nat)
    ensures StartedFirst(b, Fill(b, p).0, n) && Stuck(Fill(b, p).0, Fill(b, p).1)
    decreases |b.pending|
  {
    n := 0;
    if !Stuck(b, p) {
      hide StartedFirst;
      var k := FillStartsInOrder(Started(b, b.pending[0]).(pending := b.pending[1..]), Allocated(p, b.pending[0]));
      OneMoreStarted(b, Fill(b, p).0, k);
      n := k + 1;
    }
  }

  lemma FillKeepsJobs(b: Box, p: Proc)
    ensures Jobs(Fill(b, p).0) == Jobs(b) && forall j | j in b.active :: j in Fill(b, p).0.active
  {
    var n := FillStartsInOrder(b, p);
    hide Fill;
    assert b.pending == b.pending[..n] + b.pending[n..];
    var c := Fill(b, p).0;
    forall j | j in b.active ensures j in c.active {
      assert j in multiset(c.active);
    }
  }

  lemma LowerByNone(js: seq<Job>)
    ensures Lower(js, 0) == js
  {}

  /** When a task that is complete leaves, all the others stay as they are. */
  lemma CompleteLeaves(b: Box, p: Proc)
    requires b.active != [] && Ordered(b.active) && b.active[0].memory <= p.used && p.running > 0 && b.active[0].left == 0
    ensures var c := Popped(b, p).0;
      && Jobs(b) == Jobs(c) + multiset{b.active[0]} && Unfinished(c) == Unfinished(b)
      && forall j | j in b.active[1..] :: j in c.active
  {
    hide Fill, Lower;
    var (front, rest) := (b.active[0], b.active[1..]);
    assert b.active == [front] + rest;
    LowerByNone(rest);
    FillKeepsJobs(WithoutFront(b), Released(p, front));
  }
}
