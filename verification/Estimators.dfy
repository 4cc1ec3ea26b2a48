/**
 * Choosing destinations by estimated time: tables by lambda and destination that several
 * components keep, and that have to stay in step.
 */
module Estimators {
  import opened Lists
  import opened StringOrder
  import opened Wrappers

  type Nested<T> = map<string, map<string, T>>

  function Pairs<T>(t: Nested<T>): set<(string, string)> {
    set l, d | l in t && d in t[l] :: (l, d)
  }

  /** No lambda without destinations. */
  ghost predicate Normal<T>(t: Nested<T>) {
    forall l | l in t :: t[l].Keys != {}
  }

  function Put<T>(t: Nested<T>, l: string, d: string, x: T): Nested<T> {
    t[l := (if l in t then t[l] else map[])[d := x]]
  }

  function Take<T>(t: Nested<T>, l: string, d: string): Nested<T> {
    if l in t && d in t[l] then
      var rest := t[l] - {d};
      if rest == map[] then t - {l} else t[l := rest]
    else t
  }

  lemma PairIn<T>(t: Nested<T>, l: string, d: string)
    ensures (l, d) in Pairs(t) <==> l in t && d in t[l]
  {}

  lemma PutPairs<T>(t: Nested<T>, l: string, d: string, x: T)
    requires Normal(t)
    ensures Pairs(Put(t, l, d, x)) == Pairs(t) + {(l, d)} && Normal(Put(t, l, d, x))
  {
    var r := Put(t, l, d, x);
    forall p | p in Pairs(t) + {(l, d)} ensures p in Pairs(r) {}
  }

  lemma TakePairs<T>(t: Nested<T>, l: string, d: string)
    requires Normal(t)
    ensures Pairs(Take(t, l, d)) == Pairs(t) - {(l, d)} && Normal(Take(t, l, d))
  {
    var r := Take(t, l, d);
    if l in t && d in t[l] {
      var rest := t[l] - {d};
      assert forall k | k in t && k != l :: k in r && r[k] == t[k];
      assert l in r <==> rest != map[];
      assert rest.Keys == {} ==> rest == map[];
    }
  }

  /** A lambda goes away with its last destination, and other entries stay. */
  lemma LastOne<T>(t: Nested<T>, l: string, d: string)
    requires Normal(t)
    ensures l !in Take(t, l, d) <==> l !in t || t[l].Keys == {d}
    ensures forall m, e | Has(Take(t, l, d), m, e) :: Has(t, m, e) && Take(t, l, d)[m][e] == t[m][e]
  {
    if l in t && d in t[l] {
      var rest := t[l] - {d};
      assert rest.Keys == t[l].Keys - {d};
      assert rest == map[] <==> rest.Keys == {};
    }
  }

  lemma NotThere(pairs: set<(string, string)>, p: (string, string))
    ensures p !in pairs ==> pairs - {p} == pairs
  {}

  /** Tables with the same pairs have the same lambdas, and the same destinations for each. */
  lemma SameKeys<S, T>(t: Nested<S>, u: Nested<T>, l: string)
    requires Normal(t) && Normal(u) && Pairs(t) == Pairs(u)
    ensures l in t <==> l in u
    ensures l in t ==> t[l].Keys == u[l].Keys
  {
    if l in t {
      forall d | d in t[l] ensures l in u && d in u[l] { assert (l, d) in Pairs(t); }
    }
    if l in u {
      forall d | d in u[l] ensures l in t && d in t[l] { assert (l, d) in Pairs(u); }
    }
  }

  // --- tables of descriptors ---

  class DestinationTable<T(!new)> {
    var descriptors: Nested<T>

    constructor ()
      ensures descriptors == map[]
    {
      descriptors := map[];
    }

    /** A descriptor that is there already stays. */
    method Add(l: string, d: string, x: T) returns (added: bool)
      requires Normal(descriptors)
      modifies this
      ensures added == ((l, d) !in Pairs(old(descriptors)))
      ensures Pairs(descriptors) == Pairs(old(descriptors)) + {(l, d)} && Normal(descriptors)
      ensures Has(descriptors, l, d) && (added ==> descriptors[l][d] == x) && (!added ==> descriptors == old(descriptors))
      ensures Part(old(descriptors), descriptors)
    {
      PutPairs(descriptors, l, d, x);
      PairIn(descriptors, l, d);
      AlreadyThere(Pairs(descriptors), (l, d));
      hide Pairs, Normal;
      if l in descriptors && d in descriptors[l] {
        return false;
      }
      descriptors := Put(descriptors, l, d, x);
      return true;
    }

    /** The last destination of a lambda takes the lambda with it. */
    method Remove(l: string, d: string) returns (removed: bool)
      requires Normal(descriptors)
      modifies this
      ensures removed == ((l, d) in Pairs(old(descriptors)))
      ensures Pairs(descriptors) == Pairs(old(descriptors)) - {(l, d)} && Normal(descriptors)
      ensures l !in descriptors <==> l !in old(descriptors) || old(descriptors)[l].Keys == {d}
      ensures Part(descriptors, old(descriptors))
    {
      TakePairs(descriptors, l, d);
      PairIn(descriptors, l, d);
      LastOne(descriptors, l, d);
      NotThere(Pairs(descriptors), (l, d));
      hide Pairs, Normal;
      if l !in descriptors || d !in descriptors[l] {
        return false;
      }
      descriptors := Take(descriptors, l, d);
      return true;
    }

    /** What a measurement has changed; fails for a destination that is not there. */
    method Update(l: string, d: string, x: T) returns (found: bool)
      modifies this
      ensures found == ((l, d) in Pairs(old(descriptors)))
      ensures descriptors == if found then Put(old(descriptors), l, d, x) else old(descriptors)
    {
      if l !in descriptors || d !in descriptors[l] {
        return false;
      }
      descriptors := Put(descriptors, l, d, x);
      return true;
    }

    /** The first destination with the highest value, or none for an unknown lambda. */
    method Best(l: string, value: T -> real, lowest: real) returns (r: Option<(string, real)>)
      requires Normal(descriptors)
      requires l in descriptors ==> forall d | d in descriptors[l] :: value(descriptors[l][d]) > lowest
      ensures r.Some? <==> l in descriptors
      ensures r.Some? ==> r.value.0 in descriptors[l] && r.value.1 == value(descriptors[l][r.value.0])
      ensures r.Some? ==> forall d | d in descriptors[l] :: value(descriptors[l][d]) <= r.value.1
      ensures r.Some? ==> forall d | d in descriptors[l] && Leq(d, r.value.0) && d != r.value.0 :: value(descriptors[l][d]) < r.value.1
    {
      hide Sorted, Leq;
      if l !in descriptors {
        return None;
      }
      var row := descriptors[l];
      var list := Sorted(row.Keys);
      var (dest, max) := ("", lowest);
      ghost var best := 0;
      for i := 0 to |list|
        invariant if i == 0 then max == lowest else best < i && dest == list[best] && max == value(row[dest])
        invariant forall k | 0 <= k < i :: value(row[list[k]]) <= max
        invariant 0 <= best <= i && forall k | 0 <= k < best :: value(row[list[k]]) < max
      {
        if value(row[list[i]]) > max {
          dest, max := list[i], value(row[list[i]]);
          best := i;
        }
      }
      forall d | d in row ensures value(row[d]) <= max && (Leq(d, dest) && d != dest ==> value(row[d]) < max) {
        var k := PlaceOf(list, d, best);
      }
      return Some((dest, max));
    }
  }

  /** Where an entry is in a sorted list: before another one if it is smaller. */
  lemma PlaceOf(list: seq<string>, d: string, best: nat) returns (k: nat)
    requires d in list && best < |list| && forall i, j | 0 <= i < j < |list| :: list[i] != list[j] && Leq(list[i], list[j])
    ensures k < |list| && list[k] == d && (Leq(d, list[best]) && d != list[best] ==> k < best)
  {
    k :| 0 <= k < |list| && list[k] == d;
    if k > best && Leq(d, list[best]) {
      LeqAntisymmetric(d, list[best]);
    }
  }

  // --- the smallest estimated time ---

  /**
   * The two maps are walked together, entry by entry. With the same keys this finds the first
   * destination with the smallest sum; inf stands for the highest floating-point number.
   */
  method SmallestSum(rtts: map<string, real>, ptimes: map<string, real>, inf: real) returns (dest: string, rtt: real, ptime: real)
    requires rtts.Keys == ptimes.Keys && rtts.Keys != {}
    requires forall d | d in rtts :: rtts[d] + ptimes[d] < inf
    ensures dest in rtts && rtt == rtts[dest] && ptime == ptimes[dest]
    ensures forall d | d in rtts :: rtt + ptime <= rtts[d] + ptimes[d]
    ensures forall d | d in rtts && Leq(d, dest) && d != dest :: rtt + ptime < rtts[d] + ptimes[d]
  {
    hide Sorted, Leq, LeastUpto;
    var it := Sorted(rtts.Keys);
    var jt := Sorted(ptimes.Keys);
    dest, rtt, ptime := "", 0.0, 0.0;
    var (min, i) := (inf, 0);
    ghost var best := 0;
    while i < |it| && i < |jt|
      invariant 0 <= i <= |it|
      invariant if i == 0 then min == inf else dest in rtts && rtt == rtts[dest] && ptime == ptimes[dest] && min == rtt + ptime
      invariant i > 0 ==> 0 <= best < i && dest == it[best] && LeastUpto(rtts, ptimes, it, i, best)
    {
      assert it[i] == jt[i];
      var time := rtts[it[i]] + ptimes[jt[i]];
      LeastNext(rtts, ptimes, it, i, best);
      if time < min {
        dest, rtt, ptime := it[i], rtts[it[i]], ptimes[jt[i]];
        min, best := time, i;
      }
      i := i + 1;
    }
    LeastIsFirst(rtts, ptimes, it, best);
  }

  /** Among the first n destinations, the one at best is the first with the smallest time. */
  ghost predicate LeastUpto(rtts: map<string, real>, ptimes: map<string, real>, it: seq<string>, n: nat, best: nat)
    requires best < n <= |it|
  {
    (forall k | 0 <= k < n :: Time(rtts, ptimes, it[best]) <= Time(rtts, ptimes, it[k])) &&
    forall k | 0 <= k < best :: Time(rtts, ptimes, it[best]) < Time(rtts, ptimes, it[k])
  }

  lemma LeastNext(rtts: map<string, real>, ptimes: map<string, real>, it: seq<string>, n: nat, best: nat)
    requires n < |it| && (n > 0 ==> best < n && LeastUpto(rtts, ptimes, it, n, best))
    ensures n == 0 || Time(rtts, ptimes, it[n]) < Time(rtts, ptimes, it[best]) ==> LeastUpto(rtts, ptimes, it, n + 1, n)
    ensures n > 0 && Time(rtts, ptimes, it[n]) >= Time(rtts, ptimes, it[best]) ==> LeastUpto(rtts, ptimes, it, n + 1, best)
  {
    hide Time;
  }

  lemma LeastIsFirst(rtts: map<string, real>, ptimes: map<string, real>, it: seq<string>, best: nat)
    requires best < |it| && LeastUpto(rtts, ptimes, it, |it|, best)
    requires forall i, j | 0 <= i < j < |it| :: it[i] != it[j] && Leq(it[i], it[j])
    ensures forall d | d in it :: Time(rtts, ptimes, it[best]) <= Time(rtts, ptimes, d)
    ensures forall d | d in it && Leq(d, it[best]) && d != it[best] :: Time(rtts, ptimes, it[best]) < Time(rtts, ptimes, d)
  {
    hide Time, Leq;
    forall d | d in it
      ensures Time(rtts, ptimes, it[best]) <= Time(rtts, ptimes, d)
      ensures Leq(d, it[best]) && d != it[best] ==> Time(rtts, ptimes, it[best]) < Time(rtts, ptimes, d)
    {
      var k := PlaceOf(it, d, best);
    }
  }

  function Time(rtts: map<string, real>, ptimes: map<string, real>, d: string): real {
    if d in rtts && d in ptimes then rtts[d] + ptimes[d] else 0.0
  }

  // --- the estimator ---

  /** The lambdas by destination are exactly the pairs, the other way round. */
  ghost predicate Index(computers: map<string, set<string>>, pairs: set<(string, string)>) {
    (forall d | d in computers :: computers[d] != {}) &&
    forall l, d :: (d in computers && l in computers[d]) <==> (l, d) in pairs
  }

  lemma IndexAdd(computers: map<string, set<string>>, pairs: set<(string, string)>, l: string, d: string)
    requires Index(computers, pairs)
    ensures Index(computers[d := (if d in computers then computers[d] else {}) + {l}], pairs + {(l, d)})
  {}

  lemma IndexRemove(computers: map<string, set<string>>, pairs: set<(string, string)>, l: string, d: string)
    requires Index(computers, pairs) && (l, d) in pairs
    ensures d in computers
    ensures Index(if computers[d] - {l} == {} then computers - {d} else computers[d := computers[d] - {l}], pairs - {(l, d)})
  {}

  /** An estimate of a time by the size of the input. */
  type Estimate = nat -> real

  function Estimated(row: map<string, Estimate>, size: nat): (r: map<string, real>)
    ensures r.Keys == row.Keys && forall d | d in row :: r[d] == row[d](size)
  {
    map d | d in row :: row[d](size)
  }

  class PtimeEstimatorUtil {
    var table: Nested<bool>
    var lambdas: set<string>
    var estimates: map<nat, (real, real)>
    var computers: map<string, set<string>>
    const util: DestinationTable<Estimate>
    const rtt: DestinationTable<Estimate>

    /** The tables of the estimators have these pairs, and the computers are their index. */
    ghost predicate InStep(pairs: set<(string, string)>)
      reads this, util, rtt
    {
      util != rtt && Normal(util.descriptors) && Normal(rtt.descriptors) &&
      Pairs(util.descriptors) == pairs && Pairs(rtt.descriptors) == pairs && Index(computers, pairs)
    }

    ghost predicate Valid()
      reads this, util, rtt
    {
      Normal(table) && lambdas == table.Keys && InStep(Pairs(table))
    }

    constructor ()
      ensures Valid() && fresh(util) && fresh(rtt) && table == map[] && estimates == map[]
    {
      table, lambdas, estimates, computers := map[], {}, map[], map[];
      util := new DestinationTable();
      rtt := new DestinationTable();
    }

    method PrivateAdd(l: string, d: string, ghost pairs: set<(string, string)>)
      requires InStep(pairs)
      modifies this`computers, util, rtt
      ensures InStep(pairs + {(l, d)})
      ensures Begins(old(util.descriptors), util.descriptors, l, d) && Begins(old(rtt.descriptors), rtt.descriptors, l, d)
    {
      hide Normal, Put, Index, Part;
      PutPairs(util.descriptors, l, d, Nothing);
      PutPairs(rtt.descriptors, l, d, Nothing);
      IndexAdd(computers, pairs, l, d);
      computers := computers[d := (if d in computers then computers[d] else {}) + {l}];
      AlreadyThere(pairs, (l, d));
      var _ := util.Add(l, d, Nothing);
      var _ := rtt.Add(l, d, Nothing);
    }

    method PrivateRemove(l: string, d: string, ghost pairs: set<(string, string)>)
      requires InStep(pairs) && (l, d) in pairs
      modifies this`computers, util, rtt
      ensures InStep(pairs - {(l, d)})
      ensures Part(util.descriptors, old(util.descriptors)) && Part(rtt.descriptors, old(rtt.descriptors))
    {
      hide Pairs, Normal, Take, Index, Part;
      TakePairs(util.descriptors, l, d);
      TakePairs(rtt.descriptors, l, d);
      IndexRemove(computers, pairs, l, d);
      var rest := computers[d] - {l};
      computers := if rest == {} then computers - {d} else computers[d := rest];
      var _ := util.Remove(l, d);
      var _ := rtt.Remove(l, d);
    }

    /** A new destination for a lambda; one that is there already stays as it is. */
    method Change(l: string, d: string, final: bool)
      requires Valid()
      modifies this`table, this`lambdas, this`computers, util, rtt
      ensures Valid() && table == if (l, d) in Pairs(old(table)) then old(table) else Put(old(table), l, d, final)
      ensures Begins(old(util.descriptors), util.descriptors, l, d) && Begins(old(rtt.descriptors), rtt.descriptors, l, d)
    {
      hide Pairs, Normal, Index, Begins;
      HasInStep(Pairs(table), util.descriptors, l, d);
      HasInStep(Pairs(table), rtt.descriptors, l, d);
      PairIn(table, l, d);
      if l in table && d in table[l] {
        return;
      }
      PutPairs(table, l, d, final);
      ghost var pairs := Pairs(table);
      table := Put(table, l, d, final);
      lambdas := lambdas + {l};
      PrivateAdd(l, d, pairs);
    }

    /** A destination of a lambda goes away. */
    method RemoveOne(l: string, d: string)
      requires Valid()
      modifies this`table, this`lambdas, this`computers, util, rtt
      ensures Valid() && table == Take(old(table), l, d)
      ensures Part(util.descriptors, old(util.descriptors)) && Part(rtt.descriptors, old(rtt.descriptors))
    {
      hide Pairs, Normal, Index, Part;
      PartOfItself(util.descriptors);
      PartOfItself(rtt.descriptors);
      PairIn(table, l, d);
      if l !in table || d !in table[l] {
        return;
      }
      TakePairs(table, l, d);
      ghost var pairs := Pairs(table);
      var rest := table[l] - {d};
      table := if rest == map[] then table - {l} else table[l := rest];
      lambdas := if rest == map[] then lambdas - {l} else lambdas;
      PrivateRemove(l, d, pairs);
    }

    /** All destinations of a lambda go away. */
    method RemoveAll(l: string)
      requires Valid()
      modifies this`table, this`lambdas, this`computers, util, rtt
      ensures Valid() && table == old(table) - {l}
      ensures Part(util.descriptors, old(util.descriptors)) && Part(rtt.descriptors, old(rtt.descriptors))
    {
      hide Pairs, Normal, Index, Sorted, Part;
      PartOfItself(util.descriptors);
      PartOfItself(rtt.descriptors);
      ghost var pairs := Pairs(table);
      WithoutLambda(table, l);
      if l in table {
        var list := Sorted(table[l].Keys);
        ghost var left := pairs;
        for i := 0 to |list|
          invariant InStep(left) && table == old(table) && lambdas == old(lambdas)
          invariant forall p :: p in left <==> p in pairs && !(p.0 == l && p.1 in list[..i])
          invariant Part(util.descriptors, old(util.descriptors)) && Part(rtt.descriptors, old(rtt.descriptors))
        {
          ghost var (us, rs) := (util.descriptors, rtt.descriptors);
          NextPrefix(list, i);
          assert list[i] !in list[..i];
          PairIn(table, l, list[i]);
          PrivateRemove(l, list[i], left);
          PartOfPart(util.descriptors, us, old(util.descriptors));
          PartOfPart(rtt.descriptors, rs, old(rtt.descriptors));
          left := left - {(l, list[i])};
        }
        AllGone(table, l, list, left);
      } else {
        assert table - {l} == table;
      }
      lambdas := lambdas - {l};
      table := table - {l};
    }

    /** A request failed on a destination, which goes away for its lambda. */
    method ProcessFailure(request: nat, l: string, d: string)
      requires Valid()
      modifies this`table, this`lambdas, this`estimates, this`computers, util, rtt
      ensures Valid() && estimates == old(estimates) - {request} && table == Take(old(table), l, d)
      ensures Part(util.descriptors, old(util.descriptors)) && Part(rtt.descriptors, old(rtt.descriptors))
    {
      hide Part, Take;
      estimates := estimates - {request};
      RemoveOne(l, d);
    }

    /**
     * A response updates both estimates of its destination. If the destination has gone away in
     * the meantime neither is touched; they are never out of step.
     */
    method ProcessSuccess(request: nat, l: string, d: string, ptime: Estimate, time: Estimate) returns (ok: bool)
      requires Valid()
      modifies this`estimates, util, rtt
      ensures Valid() && estimates == old(estimates) - {request} && ok == ((l, d) in Pairs(table))
      ensures util.descriptors == if ok then Put(old(util.descriptors), l, d, ptime) else old(util.descriptors)
      ensures rtt.descriptors == if ok then Put(old(rtt.descriptors), l, d, time) else old(rtt.descriptors)
    {
      hide Pairs, Normal, Put, Index;
      estimates := estimates - {request};
      PutPairs(util.descriptors, l, d, ptime);
      PutPairs(rtt.descriptors, l, d, time);
      AlreadyThere(Pairs(table), (l, d));
      ok := util.Update(l, d, ptime);
      if ok {
        var found := rtt.Update(l, d, time);
        assert found;
      }
    }

    /** The estimated time of a destination, for an input of some size. */
    ghost function TimeOf(l: string, d: string, size: nat): real
      reads util, rtt
    {
      if Has(rtt.descriptors, l, d) && Has(util.descriptors, l, d) then rtt.descriptors[l][d](size) + util.descriptors[l][d](size) else 0.0
    }

    /** The destination of a request: with the smallest estimated time among those in the table, or none for an unknown lambda. */
    method Select(request: nat, l: string, size: nat, inf: real) returns (r: Option<string>)
      requires Valid() && forall d | Has(table, l, d) :: TimeOf(l, d, size) < inf
      modifies this`estimates
      ensures Valid() && (r.Some? <==> l in table)
      ensures r.Some? ==> Has(table, l, r.value) && Has(rtt.descriptors, l, r.value) && Has(util.descriptors, l, r.value)
      ensures r.Some? ==> forall d | Has(table, l, d) :: TimeOf(l, r.value, size) <= TimeOf(l, d, size)
      ensures r.Some? ==> forall d | Has(table, l, d) && Leq(d, r.value) && d != r.value :: TimeOf(l, r.value, size) < TimeOf(l, d, size)
      ensures r.Some? ==> estimates == old(estimates)[request := (rtt.descriptors[l][r.value](size), util.descriptors[l][r.value](size))]
      ensures r.None? ==> estimates == old(estimates)
    {
      hide Pairs, Index, Estimated, Leq;
      SameKeys(table, rtt.descriptors, l);
      SameKeys(table, util.descriptors, l);
      if l !in rtt.descriptors {
        return None;
      }
      var rtts := Estimated(rtt.descriptors[l], size);
      var ptimes := Estimated(util.descriptors[l], size);
      forall d | d in rtts ensures rtts[d] + ptimes[d] == TimeOf(l, d, size) < inf {
        assert Has(table, l, d);
      }
      var dest, time, ptime := SmallestSum(rtts, ptimes, inf);
      estimates := estimates[request := (time, ptime)];
      return Some(dest);
    }
  }

  predicate Has<T>(t: Nested<T>, l: string, d: string) {
    l in t && d in t[l]
  }

  /** All entries of t are in u, with the same values. */
  ghost predicate Part<T>(t: Nested<T>, u: Nested<T>) {
    forall l, d | Has(t, l, d) :: Has(u, l, d) && t[l][d] == u[l][d]
  }

  lemma PartOfPart<T>(t: Nested<T>, u: Nested<T>, v: Nested<T>)
    requires Part(t, u) && Part(u, v)
    ensures Part(t, v)
  {}

  lemma PartOfItself<T>(t: Nested<T>)
    ensures Part(t, t)
  {}

  /** Entry (l, d) is new and empty, and the others are as before. */
  ghost predicate Begins(was: Nested<Estimate>, now: Nested<Estimate>, l: string, d: string) {
    Part(was, now) && Has(now, l, d) && (!Has(was, l, d) ==> now[l][d] == Nothing)
  }

  lemma WithoutLambda<T>(t: Nested<T>, l: string)
    requires Normal(t)
    ensures Normal(t - {l}) && forall p :: p in Pairs(t - {l}) <==> p in Pairs(t) && p.0 != l
  {}

  lemma HasInStep(pairs: set<(string, string)>, t: Nested<Estimate>, l: string, d: string)
    requires Pairs(t) == pairs
    ensures (l, d) in pairs ==> Begins(t, t, l, d)
  {}

  lemma AllGone<T>(t: Nested<T>, l: string, list: seq<string>, left: set<(string, string)>)
    requires l in t && (forall d :: d in list <==> d in t[l])
    requires forall p :: p in left <==> p in Pairs(t) && !(p.0 == l && p.1 in list[..|list|])
    ensures left == Pairs(t - {l})
  {
    assert list[..|list|] == list;
  }

  function Nothing(size: nat): real { 0.0 }

  lemma AlreadyThere(pairs: set<(string, string)>, p: (string, string))
    ensures p in pairs ==> pairs + {p} == pairs
  {}
}
