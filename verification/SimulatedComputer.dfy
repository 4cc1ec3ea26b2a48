/** The simulated computer: processors, containers and the dispatching of completed tasks. */
module SimulatedComputer {
  import opened Lists
  import opened StringOrder
  import opened Wrappers
  import opened RunQueue
  import opened Containers
  import M = Machines

  // --- speed ---

  /** The operations per second that one of the running tasks gets. */
  function EquivalentSpeed(cores: nat, speed: real, running: nat): real
    requires running > 0
  {
    (if cores <= running then cores else running) as real * speed / running as real
  }

  function OpsToTime(cores: nat, speed: real, running: nat, ops: nat): real
    requires running > 0 ==> EquivalentSpeed(cores, speed, running) > 0.0
  {
    if running == 0 then 0.0 else ops as real / EquivalentSpeed(cores, speed, running)
  }

  /** Rounded to the nearest number of operations. */
  function TimeToOps(cores: nat, speed: real, running: nat, time: real): int {
    if running == 0 then 0 else (0.5 + time * EquivalentSpeed(cores, speed, running)).Floor
  }

  lemma SpeedIsPositive(cores: nat, speed: real, running: nat)
    requires cores > 0 && speed > 0.0 && running > 0
    ensures EquivalentSpeed(cores, speed, running) > 0.0
  {}

  /** A task that has a core to itself runs at the speed of the core; with more tasks than cores they share all cores
      evenly. So no task is faster than a core, and all together are as fast as the cores they can use. */
  lemma SpeedIsShared(cores: nat, speed: real, running: nat)
    requires running > 0 && speed > 0.0
    ensures running <= cores ==> EquivalentSpeed(cores, speed, running) == speed
    ensures running >= cores ==> running as real * EquivalentSpeed(cores, speed, running) == cores as real * speed
    ensures EquivalentSpeed(cores, speed, running) <= speed
    ensures running as real * EquivalentSpeed(cores, speed, running) <= cores as real * speed
  {
    if running <= cores {
      assert running as real * speed / running as real == speed;
      assert running as real * speed <= cores as real * speed;
    } else {
      assert running as real * (cores as real * speed / running as real) == cores as real * speed;
      assert cores as real * speed <= running as real * speed;
    }
  }

  /** One more task never makes the others faster. */
  lemma SpeedFalls(cores: nat, speed: real, running: nat, more: nat)
    requires 0 < running <= more && speed > 0.0
    ensures EquivalentSpeed(cores, speed, more) <= EquivalentSpeed(cores, speed, running)
  {
    SpeedIsShared(cores, speed, running);
    SpeedIsShared(cores, speed, more);
    var (v, v') := (EquivalentSpeed(cores, speed, running), EquivalentSpeed(cores, speed, more));
    SpeedIsNotNegative(cores, speed, more);
    hide EquivalentSpeed;
    if running >= cores {
      Inversely(running as real, more as real, v, v', cores as real * speed);
    }
  }

  lemma Inversely(x: real, y: real, v: real, w: real, c: real)
    requires 0.0 < x <= y && w >= 0.0 && x * v == c && y * w == c
    ensures w <= v
  {
    Scaled(x, y, w);
    Cancel(x, w, v);
  }

  lemma SpeedIsNotNegative(cores: nat, speed: real, running: nat)
    requires speed > 0.0 && running > 0
    ensures EquivalentSpeed(cores, speed, running) >= 0.0
  {}

  lemma Cancel(x: real, v: real, w: real)
    requires x > 0.0 && x * v <= x * w
    ensures v <= w
  {}

  /** The operations done are those of the time elapsed, to the nearest one; none without tasks. */
  lemma OpsAreNearest(cores: nat, speed: real, running: nat, time: real)
    ensures var ops := TimeToOps(cores, speed, running, time) as real;
            if running == 0 then ops == 0.0
            else ops - 0.5 <= time * EquivalentSpeed(cores, speed, running) < ops + 0.5
  {}

  /** What is left of a task after some time. */
  function OpsLeft(ops: nat, cores: nat, speed: real, running: nat, time: real): nat
    requires TimeToOps(cores, speed, running, time) >= 0
  {
    var done := TimeToOps(cores, speed, running, time);
    if ops <= done then 0 else ops - done
  }

  /** A task with a core to itself does speed operations per second; n times as many tasks as cores make it n times slower. */
  lemma OpsLeftIs(ops: nat, cores: nat, speed: real, running: nat, time: real, n: nat)
    requires cores > 0 && running > 0 && speed > 0.0 && time >= 0.0 && n > 0
    ensures TimeToOps(cores, speed, running, time) >= 0
    ensures running <= cores ==> OpsLeft(ops, cores, speed, running, time) == Larger(0, ops - (0.5 + time * speed).Floor)
    ensures running == n * cores ==> OpsLeft(ops, cores, speed, running, time) == Larger(0, ops - (0.5 + time * (speed / n as real)).Floor)
  {
    hide EquivalentSpeed;
    TimeIsNotLost(cores, speed, running, time);
    SpeedIsShared(cores, speed, running);
    if running == n * cores { SpeedIsEven(cores, speed, n); }
  }

  lemma SpeedIsEven(cores: nat, speed: real, n: nat)
    requires cores > 0 && speed > 0.0 && n > 0
    ensures n * cores > 0 && EquivalentSpeed(cores, speed, n * cores) == speed / n as real
  {
    AtLeastOnce(n, cores);
    SpeedIsShared(cores, speed, n * cores);
    hide EquivalentSpeed;
    Evenly(cores as real, n as real, speed, EquivalentSpeed(cores, speed, n * cores));
  }

  lemma AtLeastOnce(n: nat, cores: nat)
    requires n > 0
    ensures n * cores >= cores && (n * cores) as real == n as real * cores as real
  {}

  function Larger(x: int, y: int): int { if x >= y then x else y }

  lemma Evenly(cores: real, n: real, speed: real, v: real)
    requires cores > 0.0 && n > 0.0 && n * cores * v == cores * speed
    ensures v == speed / n
  {
    assert cores * (n * v - speed) == 0.0;
  }

  /** One task of 40 operations on four cores of speed 10 has 30 left after a second. */
  lemma OneOfFourCores()
    ensures TimeToOps(4, 10.0, 1, 1.0) == 10 && OpsLeft(40, 4, 10.0, 1, 1.0) == 30
    ensures TimeToOps(4, 10.0, 8, 1.0) == 5 && OpsLeft(40, 4, 10.0, 8, 1.0) == 35
  {}

  /** In the time that a task needs, exactly its operations are done; it needs none only without operations. */
  lemma OpsTimeRoundTrip(cores: nat, speed: real, running: nat, ops: nat)
    requires cores > 0 && speed > 0.0 && running > 0
    ensures EquivalentSpeed(cores, speed, running) > 0.0
    ensures TimeToOps(cores, speed, running, OpsToTime(cores, speed, running, ops)) == ops
    ensures OpsToTime(cores, speed, running, ops) == 0.0 <==> ops == 0
  {
    SpeedIsPositive(cores, speed, running);
    var v := EquivalentSpeed(cores, speed, running);
    hide EquivalentSpeed;
    Quotient(ops as real, v);
  }

  lemma Quotient(x: real, v: real)
    requires v > 0.0
    ensures x / v * v == x
    ensures x / v == 0.0 <==> x == 0.0
  {}

  lemma TimeIsNotLost(cores: nat, speed: real, running: nat, time: real)
    requires cores > 0 && speed > 0.0 && time >= 0.0
    ensures TimeToOps(cores, speed, running, time) >= 0
  {
    if running > 0 { SpeedIsPositive(cores, speed, running); }
  }

  // --- processors ---

  class Processor {
    const total: u64
    const speed: real
    const cores: nat
    var used: u64
    var running: nat
    ghost var resident: set<(nat, nat)>

    constructor (total: u64, speed: real, cores: nat)
      requires total > 0 && speed > 0.0 && cores > 0
      ensures View() == Proc(total, 0, 0, {}) && this.cores == cores && this.speed == speed
    {
      this.total, this.speed, this.cores := total, speed, cores;
      used, running, resident := 0, 0, {};
    }

    ghost function View(): Proc
      reads this
    {
      Proc(total, used, running, resident)
    }

    /** Fails exactly when the memory is not available. */
    method Allocate(size: u64, ghost id: nat) returns (ok: bool)
      requires used <= total
      modifies this
      ensures ok <==> size <= total - old(used)
      ensures View() == if ok then Allocated(old(View()), Job(id, size, 0)) else old(View())
    {
      ok := size <= total - used;
      if ok {
        used, running := used + size, running + 1;
        resident := resident + {(id, size)};
      }
    }

    /** Fails exactly when less memory is in use. */
    method Free(size: u64, ghost id: nat) returns (ok: bool)
      requires running > 0
      modifies this
      ensures ok <==> size <= old(used)
      ensures View() == if size <= old(used) then Released(old(View()), Job(id, size, 0)) else old(View())
    {
      ok := size <= used;
      if ok {
        used, running := used - size, running - 1;
        resident := resident - {(id, size)};
      }
    }
  }

  // --- containers ---

  function Wholes(q: seq<Task>): (js: seq<Job>)
    ensures |js| == |q| && forall k | 0 <= k < |q| :: js[k] == Whole(q[k])
  {
    seq(|q|, k requires 0 <= k < |q| => Whole(q[k]))
  }

  lemma WholesParts(q: seq<Task>, t: Task)
    ensures Wholes(q + [t]) == Wholes(q) + [Whole(t)]
    ensures q != [] ==> Wholes(q[1..]) == Wholes(q)[1..]
  {
    assert Wholes(q + [t]) == Wholes(q) + [Whole(t)];
    assert q != [] ==> Wholes(q[1..]) == Wholes(q)[1..];
  }

  lemma FillStep(b: Box, p: Proc)
    requires b.pending != [] && |b.active| != b.workers && Free(p) >= b.pending[0].memory
    ensures Fill(b, p) == Fill(Started(b, b.pending[0]).(pending := b.pending[1..]), Allocated(p, b.pending[0]))
  {}

  class Container {
    const processor: Processor
    const workers: nat
    var active: seq<Task>
    var pending: seq<Task>

    constructor (processor: Processor, workers: nat)
      requires workers > 0
      ensures this.processor == processor && this.workers == workers && active == [] && pending == []
    {
      this.processor, this.workers, active, pending := processor, workers, [], [];
    }

    ghost function View(): Box
      reads this
    {
      Box(Absolute(active), Wholes(pending), workers)
    }

    ghost predicate Valid()
      reads this, processor
    {
      Total(active) < 0x1_0000_0000_0000_0000 && BoxOk(View(), processor.View()) && ProcOk(processor.View()) &&
      processor.cores > 0 && processor.speed > 0.0
    }

    /** A new task becomes active or waits; it is refused if the processor can never hold it. */
    method Push(id: nat, memory: u64, ops: u64) returns (ok: bool)
      requires Valid() && id !in Ids(View()) && forall x | x in processor.resident :: x.0 != id
      modifies this, processor
      ensures Valid() && ok == (memory <= processor.total)
      ensures (View(), processor.View()) ==
        if ok then Pushed(old(View()), old(processor.View()), Job(id, memory, ops)) else (old(View()), old(processor.View()))
    {
      hide BoxOk, ProcOk, Ids, Enqueue, Absolute, Wholes;
      if memory > processor.total {
        return false;
      }
      ok := true;
      ghost var j := Job(id, memory, ops);
      PushOk(View(), processor.View(), j);
      assert processor.used <= processor.total by { Bounded(processor.View()); }
      var task := Task(id, memory, ops);
      WholesParts(pending, task);
      if |active| == workers || processor.total - processor.used < memory {
        pending := pending + [task];
      } else {
        var granted := processor.Allocate(memory, id);
        assert granted;
        active := MakeActive(active, task);
      }
    }

    /** The first task that waits starts; what the refill loop will end with stays the same. */
    method StartNext()
      requires Valid() && pending != [] && |active| != workers && processor.total - processor.used >= pending[0].memory
      modifies this, processor
      ensures Valid() && pending == old(pending)[1..]
      ensures Fill(View(), processor.View()) == old(Fill(View(), processor.View()))
    {
      hide BoxOk, ProcOk, Ids, Enqueue, Absolute, Wholes, Fill, Started;
      ghost var (c, q) := (View(), processor.View());
      assert processor.used <= processor.total by { Bounded(q); }
      WholesParts(pending, pending[0]);
      Unqueued(c, q);
      Containers.Room(c, q);
      StartedOk(c.(pending := c.pending[1..]), q, c.pending[0]);
      StartedPending(c.(pending := c.pending[1..]), c.pending[0]);
      FillStep(c, q);
      var next := pending[0];
      var granted := processor.Allocate(next.memory, next.id);
      assert granted;
      active := MakeActive(active, next);
      pending := pending[1..];
      assert View() == Started(c, c.pending[0]).(pending := c.pending[1..]) by { IsStarted(c, c.pending[0], View()); }
    }

    /** The front task leaves, then tasks that wait start; fails exactly when nothing is active. */
    method Pop() returns (r: Option<Task>)
      requires Valid()
      modifies this, processor
      ensures Valid() && r.None? == (old(active) == [])
      ensures r.None? ==> View() == old(View()) && processor.View() == old(processor.View())
      ensures r.Some? ==>
        r.value == old(active[0]) && BoxOk(old(View()), old(processor.View())) && ProcOk(old(processor.View())) &&
        Whole(r.value) == old(View()).active[0] && Ordered(old(View()).active) && r.value.memory <= old(processor.used) && old(processor.running) > 0 &&
        (View(), processor.View()) == Popped(old(View()), old(processor.View()))
    {
      hide BoxOk, ProcOk, Ids, Enqueue, Absolute, Wholes, Fill, Lower, Started;
      if active == [] {
        return None;
      }
      ghost var (b, p) := (View(), processor.View());
      IsOrdered(b, p);
      WithoutFrontOk(b, p);
      PopLowersAll(active);
      var task := active[0];
      active := active[1..];
      var freed := processor.Free(task.memory, task.id);
      assert freed;
      ghost var final := Fill(View(), processor.View());
      assert final == Popped(b, p);
      while pending != []
        invariant Valid() && Fill(View(), processor.View()) == final
        decreases |pending|
      {
        assert processor.used <= processor.total by { Bounded(processor.View()); }
        if |active| == workers || processor.total - processor.used < pending[0].memory {
          break;
        }
        StartNext();
      }
      assert Fill(View(), processor.View()) == (View(), processor.View()) by { FillStops(View(), processor.View()); }
      return Some(task);
    }

    /** Time goes by for the front, and so for all; fails exactly when it would go backwards. */
    method Advance(elapsed: real) returns (ok: bool)
      requires Valid()
      modifies this`active
      ensures Valid() && ok == (elapsed >= 0.0)
      ensures ok ==> Ordered(old(View()).active) && TimeToOps(processor.cores, processor.speed, processor.running, elapsed) >= 0
      ensures View() == if ok then AdvancedBox(old(View()), TimeToOps(processor.cores, processor.speed, processor.running, elapsed)) else old(View())
      ensures ok && active != [] ==> (
        |active| == |old(active)| && active[1..] == old(active)[1..] &&
        active[0].ops == OpsLeft(old(active)[0].ops, processor.cores, processor.speed, processor.running, elapsed))
    {
      hide BoxOk, ProcOk, Ids, Absolute, Wholes, TimeToOps, Lower;
      if elapsed < 0.0 {
        return false;
      }
      ok := true;
      ghost var b := View();
      IsOrdered(b, processor.View());
      TimeIsNotLost(processor.cores, processor.speed, processor.running, elapsed);
      if active != [] {
        var operations := TimeToOps(processor.cores, processor.speed, processor.running, elapsed);
        var actual: u64 := if active[0].ops <= operations then active[0].ops else operations;
        AdvanceOk(b, processor.View(), operations);
        PopLowersAll(active);
        FrontLowersAll(active, actual);
        FrontLowersAll(active, 0);
        if actual != 0 {
          active := active[0 := active[0].(ops := active[0].ops - actual)];
        } else {
          assert active[0 := active[0].(ops := active[0].ops - 0)] == active;
        }
      }
    }
  }

  lemma Bounded(p: Proc)
    requires ProcOk(p)
    ensures p.used <= p.total
  {}

  lemma IsStarted(c: Box, j: Job, d: Box)
    requires c.pending != [] && d == Box(Enqueue(c.active, j), c.pending[1..], c.workers)
    ensures d == Started(c, j).(pending := c.pending[1..])
  {}

  lemma FillStops(b: Box, p: Proc)
    requires b.pending == [] || |b.active| == b.workers || Free(p) < b.pending[0].memory
    ensures Fill(b, p) == (b, p)
  {}

  // --- the computer ---

  /** Cores and speed of a processor. */
  datatype Model = Model(cores: nat, speed: real)

  /** Time enough for a task is enough for its operations. */
  lemma EnoughTime(cores: nat, speed: real, running: nat, ops: nat, time: real)
    requires cores > 0 && speed > 0.0 && running > 0
    requires EquivalentSpeed(cores, speed, running) > 0.0 && OpsToTime(cores, speed, running, ops) <= time
    ensures ops <= TimeToOps(cores, speed, running, time)
  {
    var v := EquivalentSpeed(cores, speed, running);
    hide EquivalentSpeed;
    Quotient(ops as real, v);
    Scaled(ops as real / v, time, v);
  }

  lemma Scaled(x: real, y: real, v: real)
    requires x <= y && v >= 0.0
    ensures x * v <= y * v
  {}

  /** Containers and processors are held by name; each container names the processor it is on. */
  class Computer {
    var boxes: map<string, Box>
    var on: map<string, string>
    var procs: map<string, Proc>
    var models: map<string, Model>
    var names: set<string>
    ghost var queued: set<nat>
    var nextId: nat
    var called: seq<nat>
    var initDone: bool
    var ticking: bool
    ghost var refused: bool

    constructor ()
      ensures Valid() && Clocked() && View() == M.Machine(map[], map[], map[], {}, [], 0) && !initDone && !ticking && !refused
    {
      boxes, on, procs, models, names := map[], map[], map[], map[], {};
      queued, nextId, called := {}, 0, [];
      initDone, ticking, refused := false, false, false;
      new;
      M.EmptyInv();
    }

    ghost function View(): M.Machine
      reads this`boxes, this`on, this`procs, this`queued, this`called, this`nextId
    {
      M.Machine(boxes, on, procs, queued, called, nextId)
    }

    ghost predicate Valid()
      reads this`boxes, this`on, this`procs, this`queued, this`called, this`nextId, this`models
    {
      M.Inv(View()) && Modelled(procs, models)
    }

    /** The clock runs exactly when some task is active, and no task has been refused since it was set last. */
    ghost predicate Clocked()
      reads this`boxes, this`ticking, this`refused
    {
      ticking <==> SomeActive() && !refused
    }

    /** Refused once the first task has been added, and for a name that is taken. */
    method AddProcessor(name: string, speed: real, cores: nat, total: u64) returns (ok: bool)
      requires Valid()
      modifies this
      ensures Valid() && initDone == old(initDone) && (old(Clocked()) ==> Clocked())
      ensures ok == (!initDone && name !in old(procs) && name != "" && speed > 0.0 && cores > 0 && total > 0)
      ensures View() == if ok then M.AddProc(old(View()), name, total) else old(View())
      ensures models == if ok then old(models)[name := Model(cores, speed)] else old(models)
    {
      hide M.Inv;
      if initDone || name in procs || name == "" || speed <= 0.0 || cores == 0 || total == 0 {
        return false;
      }
      M.AddProcKeepsInv(View(), name, total);
      procs := procs[name := Proc(total, 0, 0, {})];
      models := models[name := Model(cores, speed)];
      return true;
    }

    /** The name of the container is taken even when it has no workers and is refused. */
    method AddContainer(name: string, proc: string, lambda: string, workers: nat) returns (ok: bool)
      requires Valid()
      modifies this
      ensures Valid() && initDone == old(initDone) && (old(Clocked()) ==> Clocked())
      ensures ok == (!initDone && name !in old(names) && lambda !in old(boxes) && proc in procs && workers > 0)
      ensures View() == if ok then M.AddBox(old(View()), lambda, proc, workers) else old(View())
      ensures models == old(models) && names == if !initDone && name !in old(names) && lambda !in old(boxes) && proc in procs then old(names) + {name} else old(names)
    {
      hide M.Inv;
      if initDone || name in names || lambda in boxes || proc !in procs {
        return false;
      }
      names := names + {name};
      if workers == 0 {
        return false;
      }
      M.AddBoxKeepsInv(View(), lambda, proc, workers);
      IdleAdded(boxes, lambda, workers);
      boxes, on := boxes[lambda := Box([], [], workers)], on[lambda := proc];
      return true;
    }

    /** The operations that a container does in some time. */
    function Operations(l: string, elapsed: real): int
      requires Placed(l)
      reads this`on, this`procs, this`models
    {
      TimeToOps(models[on[l]].cores, models[on[l]].speed, procs[on[l]].running, elapsed)
    }

    /** The elapsed time goes by in one container. */
    method AdvanceOne(l: string, elapsed: real)
      requires Valid() && elapsed >= 0.0 && l in boxes
      modifies this`boxes
      ensures Valid() && boxes.Keys == old(boxes).Keys
      ensures Placed(l) && Ordered(old(boxes)[l].active) && Operations(l, elapsed) >= 0
      ensures boxes == old(boxes)[l := AdvancedBox(old(boxes)[l], Operations(l, elapsed))] && Ids(boxes[l]) == Ids(old(boxes)[l])
    {
      hide M.Inv, TimeToOps, AdvancedBox, Ids, Ordered, Modelled;
      Parts(l, elapsed);
      M.AdvanceKeepsInv(View(), l, Operations(l, elapsed));
      AdvanceKeepsIds(View(), l, Operations(l, elapsed));
      boxes := boxes[l := AdvancedBox(boxes[l], Operations(l, elapsed))];
    }

    /** The elapsed time has gone by in a container with these tasks. */
    ghost predicate Elapsed(l: string, was: Box, now: Box, elapsed: real)
      reads this`on, this`procs, this`models
    {
      Placed(l) && Ordered(was.active) && Operations(l, elapsed) >= 0 &&
      now == AdvancedBox(was, Operations(l, elapsed)) && Ids(now) == Ids(was)
    }

    /** The elapsed time goes by in every container, in the order of their names. */
    method AdvanceAll(elapsed: real)
      requires Valid() && elapsed >= 0.0
      modifies this`boxes
      ensures Valid() && boxes == old(Goal(elapsed))
    {
      hide Computer.Valid, TimeToOps, AdvancedBox, Ids, Ordered, Sorted, Mixed, Computer.Goal;
      ghost var (was, goal) := (boxes, Goal(elapsed));
      var list := Sorted(boxes.Keys);
      ghost var done: set<string> := {};
      MixedStep(was, goal, done, "");
      for i := 0 to |list|
        invariant Valid() && boxes == Mixed(was, goal, done)
        invariant forall l :: l in done <==> l in list[..i]
      {
        var l := list[i];
        NextPrefix(list, i);
        assert l !in list[..i];
        MixedStep(was, goal, done, l);
        assert Elapsed(l, was[l], goal[l], elapsed);
        AdvanceOne(l, elapsed);
        done := done + {l};
      }
      assert done == was.Keys;
      MixedStep(was, goal, done, "");
    }

    /** Stops the clock and lets the elapsed time go by. */
    method Pause(elapsed: real)
      requires Valid() && elapsed >= 0.0
      modifies this`ticking, this`boxes
      ensures Valid() && !ticking && boxes == old(Later(elapsed))
    {
      hide Computer.Valid, Computer.Goal;
      if ticking {
        ticking := false;
        AdvanceAll(elapsed);
      }
    }

    /** Every container after the elapsed time. */
    ghost function Goal(elapsed: real): (goal: map<string, Box>)
      requires Valid() && elapsed >= 0.0
      reads this`boxes, this`on, this`procs, this`queued, this`called, this`nextId, this`models
      ensures goal.Keys == boxes.Keys && forall l | l in boxes :: Elapsed(l, boxes[l], goal[l], elapsed)
    {
      hide Computer.Valid, AdvancedBox, Ids, TimeToOps, Ordered;
      assert forall l | l in boxes :: Elapses(l, elapsed) by {
        forall l | l in boxes ensures Elapses(l, elapsed) {
          hide *;
          AllElapse(l, elapsed);
        }
      }
      map l | l in boxes :: AdvancedBox(boxes[l], Operations(l, elapsed))
    }

    /** Every container after the elapsed time, which goes by only when the clock runs. */
    ghost function Later(elapsed: real): (later: map<string, Box>)
      requires Valid() && elapsed >= 0.0
      reads this`boxes, this`on, this`procs, this`queued, this`called, this`nextId, this`models, this`ticking
      ensures later.Keys == boxes.Keys
    {
      if ticking then Goal(elapsed) else boxes
    }

    ghost predicate Elapses(l: string, elapsed: real)
      reads this`boxes, this`on, this`procs, this`models
    {
      l in boxes && Placed(l) && Ordered(boxes[l].active) && Operations(l, elapsed) >= 0 &&
      Ids(AdvancedBox(boxes[l], Operations(l, elapsed))) == Ids(boxes[l])
    }

    lemma AllElapse(l: string, elapsed: real)
      requires Valid() && l in boxes && elapsed >= 0.0
      ensures Elapses(l, elapsed)
    {
      hide M.Inv, TimeToOps, AdvancedBox, Ids;
      Parts(l, elapsed);
      AdvanceKeepsIds(View(), l, Operations(l, elapsed));
    }

    predicate Placed(l: string)
      reads this`on, this`procs, this`models
    {
      l in on && on[l] in procs && on[l] in models
    }

    lemma Parts(l: string, elapsed: real)
      requires Valid() && l in boxes && elapsed >= 0.0
      ensures Placed(l) && Ordered(boxes[l].active) && Operations(l, elapsed) >= 0
    {
      hide M.Inv, BoxOk, ProcOk, TimeToOps;
      M.PartsOf(View(), l);
      IsOrdered(boxes[l], procs[on[l]]);
      TimeIsNotLost(models[on[l]].cores, models[on[l]].speed, procs[on[l]].running, elapsed);
    }

    predicate SomeActive()
      reads this`boxes
    {
      AnyActive(boxes)
    }

    /** The clock runs as long as some task is active. */
    method Resume()
      requires !ticking
      modifies this`ticking, this`refused
      ensures ticking == SomeActive() && !refused && Clocked()
    {
      refused := false;
      if SomeActive() {
        ticking := true;
      }
    }

    /**
     * A new task for the container of a lambda. The id is lost when the processor can never hold
     * the task, and the clock then stays still.
     */
    method AddTask(lambda: string, memory: u64, ops: u64, elapsed: real) returns (r: Option<nat>)
      requires Valid() && Clocked() && elapsed >= 0.0
      modifies this
      ensures Valid() && Clocked() && called == old(called) && on == old(on) && models == old(models)
      ensures initDone == (old(initDone) || lambda in old(boxes))
      ensures lambda !in old(boxes) ==> View() == old(View()) && ticking == old(ticking)
      ensures lambda in old(boxes) && r.None? ==>
        View() == old(View()).(boxes := old(Later(elapsed)), nextId := old(nextId) + 1)
      ensures r.Some? ==> (
        lambda in old(boxes) && M.Placed(old(View()).(boxes := old(Later(elapsed)))) &&
        View() == M.Push(old(View()).(boxes := old(Later(elapsed))), lambda, Job(r.value, memory, ops)))
      ensures refused == if lambda in old(boxes) then r.None? else old(refused)
      ensures r.None? && lambda in old(boxes) ==> !ticking
      ensures r.Some? <==> lambda in old(boxes) && lambda in on && on[lambda] in old(procs) && memory <= old(procs)[on[lambda]].total
      ensures r.None? ==> queued == old(queued)
      ensures r.Some? ==> r.value == old(nextId) && r.value !in old(queued) && queued == old(queued) + {r.value} && ticking == SomeActive()
      ensures r.Some? ==> lambda in boxes && r.value in Ids(boxes[lambda])
    {
      hide M.Inv, Pushed, Ids, AdvancedBox, TimeToOps, Modelled, AnyActive, Computer.Later, Computer.Valid, M.Push;
      if lambda !in boxes {
        return None;
      }
      initDone := true;
      Parts(lambda, elapsed);
      Pause(elapsed);
      if memory > procs[on[lambda]].total {
        Refuse();
        return None;
      }
      r := Some(nextId);
      Enter(lambda, Job(nextId, memory, ops));
    }

    /** The task goes to its container, and the clock runs again. */
    method Enter(lambda: string, j: Job)
      requires Valid() && !ticking && lambda in boxes && Placed(lambda) && j.id == nextId && j.memory <= procs[on[lambda]].total
      modifies this`boxes, this`procs, this`nextId, this`queued, this`ticking, this`refused
      ensures Valid() && Clocked() && !refused && ticking == SomeActive() && M.Placed(old(View())) && View() == M.Push(old(View()), lambda, j)
      ensures lambda in boxes && j.id in Ids(boxes[lambda]) && j.id !in old(queued) && queued == old(queued) + {j.id}
    {
      hide M.Inv, Pushed, Ids, M.Push, Computer.Valid, AnyActive;
      PushTask(lambda, j);
      Resume();
    }

    /** The id of a task that is refused is not used again. */
    method Refuse()
      requires Valid()
      modifies this`nextId, this`refused
      ensures Valid() && refused && nextId == old(nextId) + 1
    {
      hide M.Inv;
      M.SkipId(View());
      nextId, refused := nextId + 1, true;
    }

    /** A task with a new id goes to its container. */
    method PushTask(lambda: string, j: Job)
      requires Valid() && lambda in boxes && Placed(lambda) && j.id == nextId && j.memory <= procs[on[lambda]].total
      modifies this`boxes, this`procs, this`nextId, this`queued
      ensures Valid() && M.Placed(old(View())) && View() == M.Push(old(View()), lambda, j)
      ensures lambda in boxes && j.id in Ids(boxes[lambda]) && j.id !in old(queued) && queued == old(queued) + {j.id}
    {
      hide M.Inv, Pushed, Ids, BoxOk, ProcOk, NoStall;
      ghost var m := View();
      M.PartsOf(m, lambda);
      M.NewId(m, on[lambda], nextId);
      M.PushKeepsInv(m, lambda, j);
      PushHolds(m, lambda, j);
      var (c, q) := Pushed(boxes[lambda], procs[on[lambda]], j);
      boxes, procs := boxes[lambda := c], procs[on[lambda] := q];
      nextId, queued := nextId + 1, queued + {j.id};
    }

    /** The front of a container leaves and is handed to the callback. */
    method PopTask(l: string)
      requires Valid() && l in boxes && boxes[l].active != []
      modifies this`boxes, this`procs, this`called
      ensures Valid() && View() == M.Pop(old(View()), l)
      ensures l in boxes && Size(boxes[l]) < old(Size(boxes[l])) && called == old(called) + [old(boxes)[l].active[0].id]
      ensures boxes.Keys == old(boxes).Keys && forall k | k in boxes && k != l :: boxes[k] == old(boxes)[k]
    {
      hide M.Inv, Popped, BoxOk, ProcOk, Ids;
      ghost var m := View();
      M.PartsOf(m, l);
      PopOk(boxes[l], procs[on[l]]);
      PopShrinks(boxes[l], procs[on[l]]);
      M.PopKeepsInv(m, l);
      var task := boxes[l].active[0];
      var (c, q) := Popped(boxes[l], procs[on[l]]);
      assert Size(c) < Size(boxes[l]);
      boxes, procs, called := boxes[l := c], procs[on[l] := q], called + [task.id];
    }

    /** Tasks of one container that are complete are handed to the callback. */
    method DispatchOne(l: string)
      requires Valid() && l in boxes
      modifies this`boxes, this`procs, this`called
      ensures Valid() && boxes.Keys == old(boxes).Keys && old(called) <= called
      ensures forall k | k in boxes && k != l :: boxes[k] == old(boxes)[k]
      ensures Cleared(old(boxes)[l], boxes[l], called)
    {
      hide M.Inv, Modelled, M.Pop, Size, Unfinished;
      ghost var (was, start) := (called, boxes);
      while boxes[l].active != [] && boxes[l].active[0].left == 0
        invariant Valid() && boxes.Keys == start.Keys && was <= called
        invariant forall k | k in boxes && k != l :: boxes[k] == start[k]
        invariant Clearing(start[l], boxes[l], called)
        decreases Size(boxes[l])
      {
        PopComplete(l, start[l]);
      }
      assert Ordered(boxes[l].active) by { M.PartsOf(View(), l); IsOrdered(boxes[l], procs[on[l]]); }
    }

    /** One complete task leaves, and the others stay as they are. */
    method PopComplete(l: string, ghost start: Box)
      requires Valid() && l in boxes && NextIsComplete(boxes[l]) && Clearing(start, boxes[l], called)
      modifies this`boxes, this`procs, this`called
      ensures Valid() && l in boxes && Size(boxes[l]) < old(Size(boxes[l])) && old(called) <= called
      ensures boxes.Keys == old(boxes).Keys && forall k | k in boxes && k != l :: boxes[k] == old(boxes)[k]
      ensures Clearing(start, boxes[l], called)
    {
      hide M.Inv, Modelled, M.Pop, Size, Unfinished;
      ghost var (b, was) := (boxes[l], called);
      PopClears(View(), l);
      PopTask(l);
      OneMoreCleared(start, b, boxes[l], was);
    }

    /** All containers in the order of their names. */
    method DispatchCompleted()
      requires Valid()
      modifies this`boxes, this`procs, this`called
      ensures Valid() && boxes.Keys == old(boxes).Keys && old(called) <= called
      ensures forall l | l in boxes :: Cleared(old(boxes)[l], boxes[l], called)
    {
      hide Computer.Valid, Sorted, DoneUpto;
      var list := Sorted(boxes.Keys);
      ghost var (was, start) := (called, boxes);
      ghost var done: set<string> := {};
      NoneDone(start, called);
      for i := 0 to |list|
        invariant Valid() && was <= called && DoneUpto(start, boxes, called, done)
        invariant forall l :: l in done <==> l in list[..i]
      {
        var l := list[i];
        NextPrefix(list, i);
        SameNames(start, boxes, called, done);
        assert l !in list[..i];
        ghost var (before, earlier) := (boxes, called);
        DispatchOne(l);
        OneMoreDone(start, before, boxes, earlier, called, done, l);
        done := done + {l};
      }
      assert done == start.Keys;
      AllDone(start, boxes, called, done);
    }

    /** The front of a container needs no more time than has elapsed. */
    ghost predicate Due(l: string, elapsed: real)
      reads this
    {
      l in boxes && boxes[l].active != [] && Placed(l) && var (v, n) := (models[on[l]], procs[on[l]].running);
      n > 0 && EquivalentSpeed(v.cores, v.speed, n) > 0.0 && OpsToTime(v.cores, v.speed, n, boxes[l].active[0].left) <= elapsed
    }

    lemma DueIsDone(l: string, elapsed: real)
      requires Valid() && elapsed >= 0.0 && Due(l, elapsed)
      ensures l in boxes && boxes[l].active != [] && Placed(l) && Operations(l, elapsed) >= boxes[l].active[0].left
    {
      hide M.Inv, TimeToOps, OpsToTime, EquivalentSpeed;
      Parts(l, elapsed);
      EnoughTime(models[on[l]].cores, models[on[l]].speed, procs[on[l]].running, boxes[l].active[0].left, elapsed);
    }

    /** One round of the dispatcher: the tasks that are due by now are handed to the callback. */
    method Dispatch(elapsed: real)
      requires Valid() && Clocked() && elapsed >= 0.0
      modifies this
      ensures Valid() && Clocked() && queued == old(queued) && old(called) <= called
      ensures refused == (old(refused) && !old(SomeActive()))
      ensures models == old(models) && on == old(on) && boxes.Keys == old(boxes).Keys
      ensures old(SomeActive()) ==> ticking == SomeActive() && forall l | l in boxes :: Cleared(old(Later(elapsed))[l], boxes[l], called)
      ensures !old(SomeActive()) ==> View() == old(View())
      ensures forall l | old(ticking) && old(Due(l, elapsed)) :: old(boxes)[l].active[0].id in called
    {
      hide M.Inv, TimeToOps, OpsToTime, EquivalentSpeed, Ids, Modelled, Due, AnyActive;
      DueIsActive(boxes);
      forall l | Due(l, elapsed) ensures l in boxes && boxes[l].active != [] && Placed(l) && Operations(l, elapsed) >= boxes[l].active[0].left {
        DueIsDone(l, elapsed);
      }
      if SomeActive() {
        ghost var was := boxes;
        Pause(elapsed);
        ghost var mid := boxes;
        DispatchCompleted();
        forall l | old(ticking) && old(Due(l, elapsed)) ensures was[l].active[0].id in called {
          assert Handed(mid[l], called);
        }
        Resume();
      }
    }
  }

  /** The containers in done have nothing complete left, and what was has been handed over; the others are untouched. */
  ghost predicate DoneUpto(start: map<string, Box>, now: map<string, Box>, called: seq<nat>, done: set<string>) {
    now.Keys == start.Keys &&
    forall l | l in start :: if l in done then Cleared(start[l], now[l], called) else now[l] == start[l]
  }

  lemma NoneDone(start: map<string, Box>, called: seq<nat>)
    ensures DoneUpto(start, start, called, {})
  {}

  lemma SameNames(start: map<string, Box>, now: map<string, Box>, called: seq<nat>, done: set<string>)
    requires DoneUpto(start, now, called, done)
    ensures now.Keys == start.Keys
  {}

  lemma AllDone(start: map<string, Box>, now: map<string, Box>, called: seq<nat>, done: set<string>)
    requires DoneUpto(start, now, called, done) && done == start.Keys
    ensures now.Keys == start.Keys && forall l | l in start :: Cleared(start[l], now[l], called)
  {}

  lemma OneMoreDone(start: map<string, Box>, before: map<string, Box>, now: map<string, Box>, earlier: seq<nat>, called: seq<nat>, done: set<string>, l: string)
    requires DoneUpto(start, before, earlier, done) && l in start && l !in done && earlier <= called && now.Keys == before.Keys
    requires forall k | k in now && k != l :: now[k] == before[k]
    requires Cleared(before[l], now[l], called)
    ensures DoneUpto(start, now, called, done + {l})
  {
    hide Cleared;
    forall k | k in start && k in done ensures Cleared(start[k], before[k], earlier) ==> Cleared(start[k], before[k], called) {
      if Cleared(start[k], before[k], earlier) { ClearedMore(start[k], before[k], earlier, called); }
    }
  }

  ghost function Mixed(was: map<string, Box>, goal: map<string, Box>, done: set<string>): map<string, Box>
    requires was.Keys == goal.Keys
  {
    map l | l in was :: if l in done then goal[l] else was[l]
  }

  lemma MixedStep(was: map<string, Box>, goal: map<string, Box>, done: set<string>, l: string)
    requires was.Keys == goal.Keys
    ensures Mixed(was, goal, {}) == was && Mixed(was, goal, was.Keys) == goal && Mixed(was, goal, done).Keys == was.Keys
    ensures l in was && l !in done ==> Mixed(was, goal, done)[l] == was[l] && Mixed(was, goal, done)[l := goal[l]] == Mixed(was, goal, done + {l})
  {}

  predicate AnyActive(boxes: map<string, Box>) {
    exists l | l in boxes :: boxes[l].active != []
  }

  lemma IdleAdded(boxes: map<string, Box>, l: string, workers: nat)
    requires l !in boxes
    ensures AnyActive(boxes[l := Box([], [], workers)]) <==> AnyActive(boxes)
  {
    var more := boxes[l := Box([], [], workers)];
    if k :| k in boxes && boxes[k].active != [] { assert k in more && more[k].active != []; }
    if k :| k in more && more[k].active != [] { assert k in boxes && boxes[k].active != []; }
  }

  lemma DueIsActive(boxes: map<string, Box>)
    ensures forall l | l in boxes && boxes[l].active != [] :: AnyActive(boxes)
  {}

  predicate NothingComplete(b: Box) {
    b.active == [] || b.active[0].left > 0
  }

  predicate NextIsComplete(b: Box) {
    b.active != [] && b.active[0].left == 0
  }

  /** The callback has got all the active tasks that were complete. */
  ghost predicate Handed(b: Box, called: seq<nat>) {
    forall j | j in b.active && j.left == 0 :: j.id in called
  }

  /** The callback has got the complete tasks, none with operations left, and no complete one is active any more. */
  ghost predicate Cleared(was: Box, now: Box, called: seq<nat>) {
    NothingComplete(now) && Handed(was, called) && Unfinished(now) == Unfinished(was)
  }

  /** The same on the way there: some of the complete tasks may still be active. */
  ghost predicate Clearing(was: Box, now: Box, called: seq<nat>) {
    (forall j | j in was.active && j.left == 0 :: j in now.active || j.id in called) && Unfinished(now) == Unfinished(was)
  }

  lemma ClearedMore(was: Box, now: Box, called: seq<nat>, more: seq<nat>)
    requires Cleared(was, now, called) && called <= more
    ensures Cleared(was, now, more)
  {
    hide Unfinished;
  }

  /** What the front leaves behind, when it is complete. */
  ghost predicate FrontLeft(b: Box, c: Box) {
    b.active != [] && Unfinished(c) == Unfinished(b) && forall j | j in b.active :: j == b.active[0] || j in c.active
  }

  lemma PopClears(m: M.Machine, l: string)
    requires M.Inv(m) && l in m.boxes && NextIsComplete(m.boxes[l])
    ensures l in M.Pop(m, l).boxes && FrontLeft(m.boxes[l], M.Pop(m, l).boxes[l])
  {
    hide M.Inv, BoxOk, ProcOk, Popped, Unfinished, Jobs;
    M.PartsOf(m, l);
    PopOk(m.boxes[l], m.procs[m.on[l]]);
    CompleteLeaves(m.boxes[l], m.procs[m.on[l]]);
    assert m.boxes[l].active == [m.boxes[l].active[0]] + m.boxes[l].active[1..];
  }

  lemma OneMoreCleared(start: Box, b: Box, c: Box, called: seq<nat>)
    requires Clearing(start, b, called) && FrontLeft(b, c)
    ensures Clearing(start, c, called + [b.active[0].id])
  {
    hide Unfinished;
  }

  ghost predicate Modelled(procs: map<string, Proc>, models: map<string, Model>) {
    models.Keys == procs.Keys && forall p | p in models :: models[p].cores > 0 && models[p].speed > 0.0
  }

  lemma AdvanceKeepsIds(m: M.Machine, l: string, ops: nat)
    requires M.Inv(m) && l in m.boxes
    ensures l in m.on && m.on[l] in m.procs && Ordered(m.boxes[l].active)
    ensures Ids(AdvancedBox(m.boxes[l], ops)) == Ids(m.boxes[l])
  {
    hide BoxOk, ProcOk, Ids, AdvancedBox, M.Inv, M.Sound;
    M.PartsOf(m, l);
    IsOrdered(m.boxes[l], m.procs[m.on[l]]);
    AdvanceOk(m.boxes[l], m.procs[m.on[l]], ops);
  }

  lemma PushHolds(m: M.Machine, l: string, j: Job)
    requires M.Inv(m) && l in m.boxes && j.id == m.nextId && l in m.on && m.on[l] in m.procs && j.memory <= m.procs[m.on[l]].total
    ensures j.id in Ids(Pushed(m.boxes[l], m.procs[m.on[l]], j).0)
  {
    hide BoxOk, ProcOk, Ids, Pushed, M.Inv;
    M.PartsOf(m, l);
    M.NewId(m, m.on[l], j.id);
    M.NewIdApart(m, l, j.id);
    PushOk(m.boxes[l], m.procs[m.on[l]], j);
  }

  lemma PopShrinks(b: Box, p: Proc)
    requires b.active != [] && Ordered(b.active) && b.active[0].memory <= p.used && p.running > 0
    ensures Size(Popped(b, p).0) == Size(b) - 1
  {
    hide Fill;
    FillKeepsSize(WithoutFront(b), Released(p, b.active[0]));
  }
}
