/**
 * The active tasks of a container: a list in which every task holds the operations it needs
 * beyond those of the task before it.
 */
module RunQueue {
  import opened Lists

  type u64 = x: int | 0 <= x < 0x1_0000_0000_0000_0000

  datatype Task = Task(id: nat, memory: u64, ops: u64)

  /** A task with all the operations that it still needs. */
  datatype Job = Job(id: nat, memory: u64, left: nat)

  /** The operations of the first k tasks. */
  function Upto(q: seq<Task>, k: nat): nat
    requires k <= |q|
  {
    if k == 0 then 0 else Upto(q, k - 1) + q[k - 1].ops
  }

  function Total(q: seq<Task>): nat { Upto(q, |q|) }

  /** What the list of differences stands for. */
  function Absolute(q: seq<Task>): (js: seq<Job>)
    ensures |js| == |q|
    ensures forall k | 0 <= k < |q| :: js[k] == Job(q[k].id, q[k].memory, Upto(q, k + 1))
  {
    seq(|q|, k requires 0 <= k < |q| => Job(q[k].id, q[k].memory, Upto(q, k + 1)))
  }

  function Whole(t: Task): Job { Job(t.id, t.memory, t.ops) }

  predicate Ordered(js: seq<Job>) {
    forall i, j | 0 <= i < j < |js| :: js[i].left <= js[j].left
  }

  /** The place of a new job: after all those that need as much or less. */
  function Place(js: seq<Job>, left: nat): (i: nat)
    ensures i <= |js| && (forall k | 0 <= k < i :: js[k].left <= left) && (i < |js| ==> js[i].left > left)
  {
    if js == [] || js[0].left > left then 0
    else
      var i := Place(js[1..], left);
      assert forall k | 0 < k < i + 1 :: js[k] == js[1..][k - 1];
      1 + i
  }

  lemma {:induction false} PlaceIsUnique(js: seq<Job>, left: nat, i: nat)
    requires i <= |js| && (forall k | 0 <= k < i :: js[k].left <= left) && (i < |js| ==> js[i].left > left)
    ensures i == Place(js, left)
  {}

  function Enqueue(js: seq<Job>, j: Job): seq<Job> {
    Insert(js, Place(js, j.left), j)
  }

  /** All the jobs, some operations later. */
  function Lower(js: seq<Job>, ops: nat): (r: seq<Job>)
    requires forall k | 0 <= k < |js| :: js[k].left >= ops
    ensures |r| == |js| && forall k | 0 <= k < |js| :: r[k] == js[k].(left := js[k].left - ops)
  {
    seq(|js|, k requires 0 <= k < |js| => js[k].(left := js[k].left - ops))
  }

  lemma {:induction false} UptoGrows(q: seq<Task>, i: nat, j: nat)
    requires i <= j <= |q|
    ensures Upto(q, i) <= Upto(q, j)
  {
    if i < j {
      UptoGrows(q, i, j - 1);
    }
  }

  /** Only the tasks in the sum matter. */
  lemma {:induction false} UptoSame(q: seq<Task>, r: seq<Task>, k: nat)
    requires k <= |q| && k <= |r| && forall n | 0 <= n < k :: q[n].ops == r[n].ops
    ensures Upto(q, k) == Upto(r, k)
  {
    if k > 0 {
      UptoSame(q, r, k - 1);
    }
  }

  /** The tasks are in the order in which they end. */
  lemma AbsoluteIsOrdered(q: seq<Task>)
    ensures Ordered(Absolute(q))
  {
    hide Upto;
    forall i, j | 0 <= i < j < |q| ensures Absolute(q)[i].left <= Absolute(q)[j].left { UptoGrows(q, i + 1, j + 1); }
  }

  /** The list determines the residuals and the residuals the list. */
  lemma AbsoluteIsInjective(q: seq<Task>, r: seq<Task>)
    requires Absolute(q) == Absolute(r)
    ensures q == r
  {
    assert |q| == |Absolute(q)| == |Absolute(r)| == |r|;
    forall k | 0 <= k < |q| ensures q[k] == r[k] {
      assert Absolute(q)[k] == Absolute(r)[k];
      if k > 0 {
        assert Absolute(q)[k - 1] == Absolute(r)[k - 1];
      }
      assert Upto(q, k + 1) == Upto(q, k) + q[k].ops && Upto(r, k + 1) == Upto(r, k) + r[k].ops;
      assert Upto(q, k) == Upto(r, k);
    }
  }

  // --- a task becomes active ---

  /** The new task goes to i, and the one behind it needs that much less. */
  function Inserted(q: seq<Task>, i: nat, t: Task): (r: seq<Task>)
    requires i <= |q| && Upto(q, i) <= t.ops && (i < |q| ==> t.ops <= Upto(q, i) + q[i].ops)
    ensures |r| == |q| + 1 && r[i] == t.(ops := t.ops - Upto(q, i))
    ensures forall k | 0 <= k < i :: r[k] == q[k]
    ensures i < |q| ==> r[i + 1] == q[i].(ops := q[i].ops - r[i].ops)
    ensures forall k | i + 1 < k < |r| :: r[k] == q[k - 1]
  {
    var d := t.(ops := t.ops - Upto(q, i));
    var rest := if i < |q| then q[i := q[i].(ops := q[i].ops - d.ops)] else q;
    Insert(rest, i, d)
  }

  /** The sums before, at and after the new task. */
  lemma {:induction false} InsertedSums(q: seq<Task>, i: nat, t: Task, k: nat)
    requires i <= |q| && Upto(q, i) <= t.ops && (i < |q| ==> t.ops <= Upto(q, i) + q[i].ops)
    requires k <= |q| + 1
    ensures Upto(Inserted(q, i, t), k) == if k <= i then Upto(q, k) else if k == i + 1 then t.ops else Upto(q, k - 1)
  {
    hide Inserted;
    var r := Inserted(q, i, t);
    if k <= i {
      UptoSame(q, r, k);
    } else {
      InsertedSums(q, i, t, k - 1);
    }
  }

  /** A new task changes none of those that are active already. */
  lemma InsertedIsEnqueued(q: seq<Task>, i: nat, t: Task)
    requires i <= |q| && Upto(q, i) <= t.ops && (i < |q| ==> t.ops < Upto(q, i + 1))
    ensures i < |q| ==> t.ops <= Upto(q, i) + q[i].ops
    ensures Absolute(Inserted(q, i, t)) == Enqueue(Absolute(q), Whole(t))
  {
    assert i < |q| ==> Upto(q, i + 1) == Upto(q, i) + q[i].ops;
    hide Upto, Inserted, Insert, Place, Absolute;
    var js := Absolute(q);
    assert forall k | 0 <= k < i :: js[k].left <= t.ops by {
      forall k | 0 <= k < i ensures js[k].left <= t.ops { UptoGrows(q, k + 1, i); }
    }
    PlaceIsUnique(js, t.ops, i);
    InsertedAt(q, i, t);
  }

  lemma InsertedOne(q: seq<Task>, i: nat, t: Task, k: nat)
    requires i <= |q| && Upto(q, i) <= t.ops && (i < |q| ==> t.ops <= Upto(q, i) + q[i].ops) && k <= |q|
    ensures Absolute(Inserted(q, i, t))[k] == if k < i then Absolute(q)[k] else if k == i then Whole(t) else Absolute(q)[k - 1]
  {
    hide Upto, Inserted, Absolute;
    InsertedSums(q, i, t, k + 1);
  }

  lemma InsertedAt(q: seq<Task>, i: nat, t: Task)
    requires i <= |q| && Upto(q, i) <= t.ops && (i < |q| ==> t.ops <= Upto(q, i) + q[i].ops)
    ensures Absolute(Inserted(q, i, t)) == Insert(Absolute(q), i, Whole(t))
  {
    hide Upto, Inserted, Insert, Absolute;
    var (js, next) := (Absolute(Inserted(q, i, t)), Insert(Absolute(q), i, Whole(t)));
    forall k | 0 <= k < |js| ensures js[k] == next[k] {
      InsertedOne(q, i, t, k);
    }
  }

  /** The loop over the active list, all in 64-bit numbers. */
  method MakeActive(q: seq<Task>, t: Task) returns (r: seq<Task>)
    requires Total(q) < 0x1_0000_0000_0000_0000
    ensures Absolute(r) == Enqueue(Absolute(q), Whole(t))
    ensures Total(r) == if Total(q) > t.ops then Total(q) else t.ops
  {
    hide Absolute, Enqueue;
    var i := 0;
    var sum: u64 := 0;
    while i < |q|
      invariant i <= |q| && sum == Upto(q, i) <= t.ops
      decreases |q| - i
    {
      UptoGrows(q, i + 1, |q|);
      var next: u64 := sum + q[i].ops;
      if next > t.ops {
        break;
      }
      sum, i := next, i + 1;
    }
    InsertedIsEnqueued(q, i, t);
    InsertedSums(q, i, t, |q| + 1);
    if i < |q| { UptoGrows(q, i + 1, |q|); }
    var task := t.(ops := t.ops - sum);
    r := q;
    if i < |r| {
      r := r[i := r[i].(ops := r[i].ops - task.ops)];
    }
    r := Insert(r, i, task);
  }

  // --- operations are done ---

  function Advanced(q: seq<Task>, ops: u64): seq<Task>
    requires q != [] && ops <= q[0].ops
  {
    q[0 := q[0].(ops := q[0].ops - ops)]
  }

  lemma {:induction false} FrontLowered(q: seq<Task>, ops: u64, k: nat)
    requires q != [] && ops <= q[0].ops && 0 < k <= |q|
    ensures Upto(Advanced(q, ops), k) + ops == Upto(q, k)
  {
    if k > 1 {
      FrontLowered(q, ops, k - 1);
    } else {
      assert Upto(Advanced(q, ops), 0) == Upto(q, 0);
    }
  }

  /** Lowering the front lowers every task by the same amount. */
  lemma FrontLowersAll(q: seq<Task>, ops: u64)
    requires q != [] && ops <= q[0].ops
    ensures forall j | 0 <= j < |q| :: Absolute(q)[j].left >= ops
    ensures Absolute(Advanced(q, ops)) == Lower(Absolute(q), ops)
    ensures Total(Advanced(q, ops)) <= Total(q)
  {
    hide Upto;
    FrontLowered(q, ops, |q|);
    forall j | 0 <= j < |q| ensures Absolute(q)[j].left == Absolute(Advanced(q, ops))[j].left + ops {
      FrontLowered(q, ops, j + 1);
    }
  }

  lemma {:induction false} UptoBehind(q: seq<Task>, k: nat)
    requires k < |q|
    ensures q[0].ops + Upto(q[1..], k) == Upto(q, k + 1)
  {
    if k > 0 {
      UptoBehind(q, k - 1);
    } else {
      assert Upto(q, 0) == 0;
    }
  }

  lemma LeftBehind(q: seq<Task>, j: nat)
    requires j < |q|
    ensures Absolute(q)[j].left == q[0].ops + Upto(q[1..], j)
  {
    hide Upto, Absolute;
    UptoBehind(q, j);
  }

  lemma NothingBefore(q: seq<Task>)
    ensures Upto(q, 0) == 0
  {}

  /** Taking the front out lowers every other task by what the front still needed. */
  lemma PopLowersAll(q: seq<Task>)
    requires q != []
    ensures forall j | 0 <= j < |q| :: Absolute(q)[j].left >= q[0].ops
    ensures Absolute(q[1..]) == Lower(Absolute(q)[1..], q[0].ops)
    ensures Whole(q[0]) == Absolute(q)[0]
    ensures Total(q[1..]) <= Total(q)
  {
    hide Upto, Absolute, Lower;
    NothingBefore(q[1..]);
    LeftBehind(q, 0);
    UptoBehind(q, |q| - 1);
    assert forall j | 0 <= j < |q| :: Absolute(q)[j].left >= q[0].ops by {
      forall j | 0 <= j < |q| ensures Absolute(q)[j].left >= q[0].ops { LeftBehind(q, j); }
    }
    assert forall j | 0 <= j < |q| - 1 :: Absolute(q[1..])[j] == Lower(Absolute(q)[1..], q[0].ops)[j] by {
      forall j | 0 <= j < |q| - 1 ensures Absolute(q[1..])[j] == Lower(Absolute(q)[1..], q[0].ops)[j] {
        LeftBehind(q, j + 1);
      }
    }
  }

  // --- the calendar ---

  /** Each job with the count of operations at which it ends, when now have been done. */
  function Calendar(js: seq<Job>, now: nat): (r: seq<Job>)
    ensures |r| == |js| && forall k | 0 <= k < |js| :: r[k] == js[k].(left := now + js[k].left)
  {
    seq(|js|, k requires 0 <= k < |js| => js[k].(left := now + js[k].left))
  }

  lemma {:induction false} PlaceShifted(js: seq<Job>, left: nat, now: nat)
    ensures Place(Calendar(js, now), now + left) == Place(js, left)
  {
    var cs := Calendar(js, now);
    var i := Place(cs, now + left);
    if js != [] && js[0].left <= left {
      assert cs[1..] == Calendar(js[1..], now);
      PlaceShifted(js[1..], left, now);
    }
  }

  lemma CalendarInsert(js: seq<Job>, now: nat, i: nat, j: Job)
    requires i <= |js|
    ensures Calendar(Insert(js, i, j), now) == Insert(Calendar(js, now), i, j.(left := now + j.left))
  {
    hide Insert, Calendar;
  }

  /** A new job is entered where it ends; doing operations changes no entry; the first entry leaves first. */
  lemma CalendarSteps(js: seq<Job>, now: nat, j: Job, ops: nat)
    requires forall k | 0 <= k < |js| :: js[k].left >= ops
    ensures Calendar(Enqueue(js, j), now) == Enqueue(Calendar(js, now), j.(left := now + j.left))
    ensures Calendar(Lower(js, ops), now + ops) == Calendar(js, now)
    ensures js != [] && js[0].left == ops ==> Calendar(Lower(js[1..], ops), now + ops) == Calendar(js, now)[1..]
  {
    hide Place, Insert, Calendar, Lower;
    PlaceShifted(js, j.left, now);
    CalendarInsert(js, now, Place(js, j.left), j);
  }
}
