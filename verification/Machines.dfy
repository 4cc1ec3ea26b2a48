/** A simulated computer: its processors, the containers on them and the fate of every task. */
module Machines {
  import opened Containers
  import opened RunQueue

  /**
   * Containers by the lambda they serve, the processor each is on, and the ids of the tasks
   * that were accepted and of those handed to the callback.
   */
  datatype Machine = Machine(boxes: map<string, Box>, on: map<string, string>, procs: map<string, Proc>,
                             queued: set<nat>, called: seq<nat>, nextId: nat)

  ghost predicate Placed(m: Machine) {
    m.on.Keys == m.boxes.Keys && forall l | l in m.on :: m.on[l] in m.procs
  }

  /** Every container fits its processor, and no task is in two containers. */
  ghost predicate Sound(m: Machine) {
    Placed(m) &&
    (forall p | p in m.procs :: ProcOk(m.procs[p])) &&
    (forall l | l in m.boxes :: BoxOk(m.boxes[l], m.procs[m.on[l]])) &&
    forall l, k | l in m.boxes && k in m.boxes && l != k :: Ids(m.boxes[l]) !! Ids(m.boxes[k])
  }

  ghost predicate Hosted(m: Machine, p: string, id: nat)
    requires Placed(m)
  {
    exists l :: l in m.boxes && m.on[l] == p && id in Ids(m.boxes[l])
  }

  /** All that is resident on a processor belongs to a container on it. */
  ghost predicate Owned(m: Machine)
    requires Placed(m)
  {
    forall p | p in m.procs :: forall x | x in m.procs[p].resident :: Hosted(m, p, x.0)
  }

  ghost predicate Held(m: Machine, id: nat) {
    exists l :: l in m.boxes && id in Ids(m.boxes[l])
  }

  /** Every accepted task is held by a container or was called back, never both, never twice. */
  ghost predicate Accounted(m: Machine) {
    (forall id :: id in m.queued <==> Held(m, id) || id in m.called) &&
    (forall id | id in m.called :: !Held(m, id)) &&
    (forall i, j | 0 <= i < j < |m.called| :: m.called[i] != m.called[j]) &&
    forall id | id in m.queued :: id < m.nextId
  }

  ghost predicate Only(m: Machine, l: string)
    requires Placed(m) && l in m.boxes
  {
    forall k | k in m.boxes && m.on[k] == m.on[l] :: k == l
  }

  /** A container that has a processor for itself works as long as it has tasks. */
  ghost predicate Flowing(m: Machine)
    requires Placed(m)
  {
    forall l | l in m.boxes && Only(m, l) :: NoStall(m.boxes[l])
  }

  ghost predicate Inv(m: Machine) {
    Sound(m) && Owned(m) && Accounted(m) && Flowing(m)
  }

  /** The used memory and the number of running tasks are those of the active tasks on the processor. */
  lemma ResidentAreActive(m: Machine, p: string)
    requires Inv(m) && p in m.procs
    ensures m.procs[p].resident == set l, j | l in m.boxes && m.on[l] == p && j in m.boxes[l].active :: Pair(j)
  {
    hide ProcOk, NoDups, Ordered;
    var all := set l, j | l in m.boxes && m.on[l] == p && j in m.boxes[l].active :: Pair(j);
    forall x | x in m.procs[p].resident ensures x in all {
      assert Hosted(m, p, x.0);
      var l :| l in m.boxes && m.on[l] == p && x.0 in Ids(m.boxes[l]);
      assert x in Pairs(m.boxes[l].active);
    }
    forall x | x in all ensures x in m.procs[p].resident {
      var l, j :| l in m.boxes && m.on[l] == p && j in m.boxes[l].active && x == Pair(j);
      assert x.0 in Ids(m.boxes[l]);
    }
  }

  /** Every accepted task is in exactly one place. */
  lemma ExactlyOnePlace(m: Machine, id: nat)
    requires Inv(m) && id in m.queued
    ensures id in m.called <==> !Held(m, id)
    ensures forall l | l in m.boxes && id in Ids(m.boxes[l]) ::
      (id in Names(m.boxes[l].active) <==> id !in Names(m.boxes[l].pending)) &&
      forall k | k in m.boxes && id in Ids(m.boxes[k]) :: k == l
  {
    hide ProcOk;
  }

  // --- one container moves ---

  ghost predicate Moves(b: Box, p: Proc, c: Box, q: Proc, ids: set<nat>) {
    BoxOk(c, q) && ProcOk(q) && Touches(p, q, ids) && (forall x | x in q.resident && x.0 in ids :: x.0 in Ids(c)) &&
    Ids(b) <= Ids(c) + ids
  }

  function With(m: Machine, l: string, c: Box, q: Proc): Machine
    requires l in m.on
  {
    m.(boxes := m.boxes[l := c], procs := m.procs[m.on[l] := q])
  }

  /** The tasks of other containers are not concerned. */
  ghost predicate Apart(m: Machine, l: string, ids: set<nat>) {
    forall k | k in m.boxes && k != l :: Ids(m.boxes[k]) !! ids
  }

  lemma MoveKeepsSound(m: Machine, l: string, c: Box, q: Proc, ids: set<nat>)
    requires Sound(m) && l in m.boxes && Moves(m.boxes[l], m.procs[m.on[l]], c, q, ids)
    requires Apart(m, l, ids) && Apart(m, l, Ids(c))
    ensures Sound(With(m, l, c, q))
  {
    hide BoxOk, ProcOk, Ids, Touches;
    var n := With(m, l, c, q);
    forall k | k in n.boxes ensures BoxOk(n.boxes[k], n.procs[n.on[k]]) {
      if k != l && m.on[k] == m.on[l] {
        Untouched(m.boxes[k], m.procs[m.on[l]], q, ids);
      }
    }
  }

  lemma MoveKeepsOwned(m: Machine, l: string, c: Box, q: Proc, ids: set<nat>)
    requires Placed(m) && Owned(m) && l in m.boxes && Moves(m.boxes[l], m.procs[m.on[l]], c, q, ids)
    ensures Owned(With(m, l, c, q))
  {
    hide BoxOk, ProcOk, Ids;
    var n := With(m, l, c, q);
    forall p, x | p in n.procs && x in n.procs[p].resident ensures Hosted(n, p, x.0) {
      if p == m.on[l] && x.0 in ids {
        assert x.0 in Ids(n.boxes[l]) && n.on[l] == p;
      } else {
        assert x in m.procs[p].resident;
        var k :| k in m.boxes && m.on[k] == p && x.0 in Ids(m.boxes[k]);
        assert k in n.boxes && n.on[k] == p && x.0 in Ids(n.boxes[k]);
      }
    }
  }

  lemma MoveKeepsFlowing(m: Machine, l: string, c: Box, q: Proc)
    requires Placed(m) && Flowing(m) && l in m.boxes && (Only(m, l) ==> NoStall(c))
    ensures Flowing(With(m, l, c, q))
  {
    var n := With(m, l, c, q);
    forall k | k in n.boxes && Only(n, k) ensures NoStall(n.boxes[k]) {
      assert Only(m, k) by { forall j | j in m.boxes && m.on[j] == m.on[k] ensures j == k { assert j in n.boxes; } }
    }
  }

  lemma HeldAfter(m: Machine, l: string, c: Box, q: Proc, id: nat)
    requires Placed(m) && l in m.boxes
    ensures Held(With(m, l, c, q), id) <==> id in Ids(c) || exists k :: k in m.boxes && k != l && id in Ids(m.boxes[k])
  {
    hide Ids;
    var n := With(m, l, c, q);
    if id in Ids(c) {
      assert l in n.boxes && id in Ids(n.boxes[l]);
    }
    if k :| k in m.boxes && k != l && id in Ids(m.boxes[k]) {
      assert k in n.boxes && id in Ids(n.boxes[k]);
    }
  }

  lemma OnlyIsAlone(m: Machine, l: string)
    requires Placed(m) && Owned(m) && l in m.boxes && Only(m, l)
    ensures Alone(m.boxes[l], m.procs[m.on[l]])
  {
    hide Ids;
    forall x | x in m.procs[m.on[l]].resident ensures x.0 in Ids(m.boxes[l]) {
      assert Hosted(m, m.on[l], x.0);
    }
  }

  /** A container moves, and its tasks are still accounted for. */
  lemma MoveKeepsInv(m: Machine, l: string, c: Box, q: Proc, ids: set<nat>, n: Machine)
    requires Inv(m) && l in m.boxes && Moves(m.boxes[l], m.procs[m.on[l]], c, q, ids)
    requires Apart(m, l, ids) && Apart(m, l, Ids(c)) && (Only(m, l) ==> NoStall(c))
    requires n == With(m, l, c, q).(queued := n.queued, called := n.called, nextId := n.nextId) && Accounted(n)
    ensures Inv(n)
  {
    hide Moves, Accounted, NoStall, BoxOk, ProcOk, Ids, Apart;
    MoveKeepsSound(m, l, c, q, ids);
    MoveKeepsOwned(m, l, c, q, ids);
    MoveKeepsFlowing(m, l, c, q);
    SameParts(With(m, l, c, q), n);
  }

  lemma SameParts(m: Machine, n: Machine)
    requires Sound(m) && Owned(m) && Flowing(m) && n.boxes == m.boxes && n.on == m.on && n.procs == m.procs
    ensures Sound(n) && Owned(n) && Flowing(n)
  {
    hide NoStall, BoxOk, ProcOk, Ids;
    forall p, x | p in n.procs && x in n.procs[p].resident ensures Hosted(n, p, x.0) {
      assert Hosted(m, p, x.0);
    }
    forall l | l in n.boxes && Only(n, l) ensures NoStall(n.boxes[l]) {
      assert Only(m, l);
    }
  }

  /** What holds of one container and its processor. */
  lemma PartsOf(m: Machine, l: string)
    requires Inv(m) && l in m.boxes
    ensures Sound(m) && Placed(m) && BoxOk(m.boxes[l], m.procs[m.on[l]]) && ProcOk(m.procs[m.on[l]])
    ensures Apart(m, l, Ids(m.boxes[l]))
    ensures Only(m, l) ==> Alone(m.boxes[l], m.procs[m.on[l]]) && NoStall(m.boxes[l])
  {
    hide BoxOk, ProcOk, Ids, NoStall, Alone;
    if Only(m, l) { OnlyIsAlone(m, l); }
  }

  // --- the steps ---

  function Push(m: Machine, l: string, j: Job): Machine
    requires Placed(m) && l in m.boxes
  {
    var (c, q) := Containers.Pushed(m.boxes[l], m.procs[m.on[l]], j);
    With(m, l, c, q).(queued := m.queued + {j.id}, nextId := m.nextId + 1)
  }

  lemma PushKeepsInv(m: Machine, l: string, j: Job)
    requires Inv(m) && l in m.boxes && j.id == m.nextId && j.memory <= m.procs[m.on[l]].total
    ensures Inv(Push(m, l, j))
  {
    hide Inv, BoxOk, ProcOk, Ids, Pushed, NoStall, Touches, Alone, Sound, Only;
    PartsOf(m, l);
    var (b, p) := (m.boxes[l], m.procs[m.on[l]]);
    NewId(m, m.on[l], j.id);
    NewIdApart(m, l, j.id);
    PushOk(b, p, j);
    var (c, q) := Pushed(b, p, j);
    PushAccounts(m, l, j, c, q);
    MoveKeepsInv(m, l, c, q, {j.id}, Push(m, l, j));
  }

  lemma NewIdApart(m: Machine, l: string, id: nat)
    requires Inv(m) && l in m.boxes && id >= m.nextId
    ensures Apart(m, l, {id}) && id !in Ids(m.boxes[l])
  {
    hide Ids, BoxOk, ProcOk;
    assert id !in m.queued;
    forall k | k in m.boxes ensures Ids(m.boxes[k]) <= m.queued {
      forall i | i in Ids(m.boxes[k]) ensures Held(m, i) {}
    }
  }

  lemma NewId(m: Machine, p: string, id: nat)
    requires Inv(m) && p in m.procs && id >= m.nextId
    ensures id !in m.queued && forall x | x in m.procs[p].resident :: x.0 != id
  {
    hide Ids, BoxOk, ProcOk;
    forall x | x in m.procs[p].resident ensures x.0 in m.queued {
      assert Hosted(m, p, x.0);
      assert Held(m, x.0);
    }
  }

  /** An id that is never used for a task. */
  lemma SkipId(m: Machine)
    requires Inv(m)
    ensures Inv(m.(nextId := m.nextId + 1))
  {
    hide Sound, Owned, Flowing, Ids;
    assert Accounted(m.(nextId := m.nextId + 1)) by {
      forall id ensures Held(m.(nextId := m.nextId + 1), id) <==> Held(m, id) {}
    }
    SameParts(m, m.(nextId := m.nextId + 1)) by { SoundIsPlaced(m); }
  }

  lemma PushAccounts(m: Machine, l: string, j: Job, c: Box, q: Proc)
    requires Inv(m) && l in m.boxes && j.id == m.nextId && Ids(c) == Ids(m.boxes[l]) + {j.id}
    ensures Accounted(With(m, l, c, q).(queued := m.queued + {j.id}, nextId := m.nextId + 1))
  {
    hide Ids, BoxOk, ProcOk;
    var n := With(m, l, c, q).(queued := m.queued + {j.id}, nextId := m.nextId + 1);
    forall id ensures Held(n, id) <==> Held(m, id) || id == j.id {
      HeldAfter(m, l, c, q, id);
      assert Held(n, id) <==> Held(With(m, l, c, q), id);
    }
  }

  function Pop(m: Machine, l: string): Machine
    requires Inv(m) && l in m.boxes && m.boxes[l].active != []
  {
    PopOk(m.boxes[l], m.procs[m.on[l]]);
    var (c, q) := Popped(m.boxes[l], m.procs[m.on[l]]);
    With(m, l, c, q).(called := m.called + [m.boxes[l].active[0].id])
  }

  lemma PopKeepsInv(m: Machine, l: string)
    requires Inv(m) && l in m.boxes && m.boxes[l].active != []
    ensures Inv(Pop(m, l))
  {
    hide Inv, BoxOk, ProcOk, Ids, Popped, NoStall, Touches, Alone, Sound, Only;
    PartsOf(m, l);
    var (b, p) := (m.boxes[l], m.procs[m.on[l]]);
    PopOk(b, p);
    var (c, q) := Popped(b, p);
    PopAccounts(m, l, b.active[0].id, c, q);
    MoveKeepsInv(m, l, c, q, Ids(b), Pop(m, l));
  }

  lemma PopAccounts(m: Machine, l: string, out: nat, c: Box, q: Proc)
    requires Inv(m) && l in m.boxes && Ids(m.boxes[l]) == Ids(c) + {out} && out !in Ids(c)
    ensures Accounted(With(m, l, c, q).(called := m.called + [out]))
  {
    hide Ids, BoxOk, ProcOk;
    var n := With(m, l, c, q).(called := m.called + [out]);
    assert Held(m, out) by { assert out in Ids(m.boxes[l]); }
    forall id ensures Held(n, id) <==> Held(m, id) && id != out {
      HeldAfter(m, l, c, q, id);
      assert Held(n, id) <==> Held(With(m, l, c, q), id);
    }
  }

  function Advance(m: Machine, l: string, ops: nat): Machine
    requires Sound(m) && l in m.boxes
  {
    IsOrdered(m.boxes[l], m.procs[m.on[l]]);
    m.(boxes := m.boxes[l := AdvancedBox(m.boxes[l], ops)])
  }

  lemma AdvanceKeepsInv(m: Machine, l: string, ops: nat)
    requires Inv(m) && l in m.boxes
    ensures Inv(Advance(m, l, ops))
  {
    hide Inv, BoxOk, ProcOk, Ids, AdvancedBox, NoStall, Alone, Sound, Only;
    PartsOf(m, l);
    var (b, p) := (m.boxes[l], m.procs[m.on[l]]);
    IsOrdered(b, p);
    AdvanceOk(b, p, ops);
    var (c, n) := (AdvancedBox(b, ops), Advance(m, l, ops));
    assert n == With(m, l, c, p);
    AdvanceAccounts(m, l, c, p);
    NoTouch(b, p, c);
    MoveKeepsInv(m, l, c, p, {}, n);
  }

  lemma NoTouch(b: Box, p: Proc, c: Box)
    requires BoxOk(c, p) && ProcOk(p) && Ids(b) == Ids(c)
    ensures Moves(b, p, c, p, {})
  {}

  lemma AdvanceAccounts(m: Machine, l: string, c: Box, p: Proc)
    requires Inv(m) && l in m.boxes && Ids(c) == Ids(m.boxes[l])
    ensures Accounted(With(m, l, c, p)) && Apart(m, l, {})
  {
    hide Ids, BoxOk, ProcOk;
    var n := With(m, l, c, p);
    forall id ensures Held(n, id) <==> Held(m, id) { HeldAfter(m, l, c, p, id); }
  }

  // --- configuration ---

  function AddProc(m: Machine, name: string, total: u64): Machine {
    m.(procs := m.procs[name := Proc(total, 0, 0, {})])
  }

  lemma IdleIsOk(total: u64)
    ensures ProcOk(Proc(total, 0, 0, {}))
  {
    var none: set<(nat, nat)> := {};
    assert multiset(none) == multiset{};
  }

  lemma AddProcKeepsSound(m: Machine, name: string, total: u64)
    requires Sound(m) && name !in m.procs
    ensures Sound(AddProc(m, name, total))
  {
    hide BoxOk, Ids, ProcOk;
    IdleIsOk(total);
  }

  lemma AddProcKeepsRest(m: Machine, name: string, total: u64)
    requires Placed(m) && Owned(m) && Accounted(m) && Flowing(m) && name !in m.procs
    ensures Placed(AddProc(m, name, total)) && Owned(AddProc(m, name, total))
    ensures Accounted(AddProc(m, name, total)) && Flowing(AddProc(m, name, total))
  {
    hide Ids, NoStall;
    var n := AddProc(m, name, total);
    forall id ensures Held(n, id) <==> Held(m, id) {}
    forall p, x | p in n.procs && x in n.procs[p].resident ensures Hosted(n, p, x.0) {
      assert Hosted(m, p, x.0);
    }
    forall l | l in n.boxes && Only(n, l) ensures NoStall(n.boxes[l]) { assert Only(m, l); }
  }

  lemma AddProcKeepsInv(m: Machine, name: string, total: u64)
    requires Inv(m) && name !in m.procs
    ensures Inv(AddProc(m, name, total))
  {
    hide Sound, Owned, Accounted, Flowing;
    assert Placed(m) by { SoundIsPlaced(m); }
    AddProcKeepsSound(m, name, total);
    AddProcKeepsRest(m, name, total);
  }

  lemma SoundIsPlaced(m: Machine)
    requires Sound(m)
    ensures Placed(m)
  {}

  function AddBox(m: Machine, lambda: string, proc: string, workers: nat): Machine {
    m.(boxes := m.boxes[lambda := Box([], [], workers)], on := m.on[lambda := proc])
  }

  lemma EmptyBox(p: Proc, workers: nat)
    requires workers > 0
    ensures BoxOk(Box([], [], workers), p) && Ids(Box([], [], workers)) == {} && NoStall(Box([], [], workers))
  {}

  lemma AddBoxKeepsSound(m: Machine, lambda: string, proc: string, workers: nat)
    requires Sound(m) && lambda !in m.boxes && proc in m.procs && workers > 0
    ensures Sound(AddBox(m, lambda, proc, workers))
  {
    hide BoxOk, Ids, ProcOk;
    EmptyBox(m.procs[proc], workers);
  }

  lemma AddBoxKeepsOwned(m: Machine, lambda: string, proc: string, workers: nat)
    requires Placed(m) && Owned(m) && lambda !in m.boxes && proc in m.procs
    ensures Placed(AddBox(m, lambda, proc, workers)) && Owned(AddBox(m, lambda, proc, workers))
  {
    hide Ids;
    var n := AddBox(m, lambda, proc, workers);
    forall p, x | p in n.procs && x in n.procs[p].resident ensures Hosted(n, p, x.0) {
      assert Hosted(m, p, x.0);
      var l :| l in m.boxes && m.on[l] == p && x.0 in Ids(m.boxes[l]);
      assert l in n.boxes && n.on[l] == p && x.0 in Ids(n.boxes[l]);
    }
  }

  lemma AddBoxKeepsAccounts(m: Machine, lambda: string, proc: string, workers: nat)
    requires Accounted(m) && lambda !in m.boxes && Ids(Box([], [], workers)) == {}
    ensures Accounted(AddBox(m, lambda, proc, workers))
  {
    hide Ids;
    var n := AddBox(m, lambda, proc, workers);
    forall id ensures Held(n, id) <==> Held(m, id) {
      if l :| l in m.boxes && id in Ids(m.boxes[l]) { assert l in n.boxes && id in Ids(n.boxes[l]); }
    }
  }

  lemma AddBoxKeepsFlowing(m: Machine, lambda: string, proc: string, workers: nat)
    requires Placed(m) && Flowing(m) && lambda !in m.boxes && proc in m.procs && NoStall(Box([], [], workers))
    ensures Placed(AddBox(m, lambda, proc, workers)) && Flowing(AddBox(m, lambda, proc, workers))
  {
    hide NoStall;
    var n := AddBox(m, lambda, proc, workers);
    forall l | l in n.boxes && Only(n, l) ensures NoStall(n.boxes[l]) {
      if l != lambda {
        assert Only(m, l) by { forall k | k in m.boxes && m.on[k] == m.on[l] ensures k == l { assert k in n.boxes; } }
      }
    }
  }

  lemma AddBoxKeepsInv(m: Machine, lambda: string, proc: string, workers: nat)
    requires Inv(m) && lambda !in m.boxes && proc in m.procs && workers > 0
    ensures Inv(AddBox(m, lambda, proc, workers))
  {
    hide Sound, Owned, Accounted, Flowing;
    SoundIsPlaced(m);
    EmptyBox(m.procs[proc], workers);
    AddBoxKeepsSound(m, lambda, proc, workers);
    AddBoxKeepsOwned(m, lambda, proc, workers);
    AddBoxKeepsAccounts(m, lambda, proc, workers);
    AddBoxKeepsFlowing(m, lambda, proc, workers);
  }

  lemma EmptyInv()
    ensures Inv(Machine(map[], map[], map[], {}, [], 0))
  {}
}
