/** Lists that are changed at an iterator. */
module Lists {
  function Insert<T>(q: seq<T>, i: nat, x: T): (r: seq<T>)
    requires i <= |q|
    ensures |r| == |q| + 1 && r[i] == x
    ensures forall k | 0 <= k < i :: r[k] == q[k]
    ensures forall k | i < k <= |q| :: r[k] == q[k - 1]
  {
    q[..i] + [x] + q[i..]
  }

  function Erase<T>(q: seq<T>, i: nat): (r: seq<T>)
    requires i < |q|
    ensures |r| == |q| - 1
    ensures forall k | 0 <= k < i :: r[k] == q[k]
    ensures forall k | i <= k < |r| :: r[k] == q[k + 1]
  {
    q[..i] + q[i + 1..]
  }

  lemma InsertMembers<T>(q: seq<T>, i: nat, x: T)
    requires i <= |q|
    ensures forall y :: y in Insert(q, i, x) <==> y in q || y == x
    ensures multiset(Insert(q, i, x)) == multiset(q) + multiset{x}
  {
    assert q == q[..i] + q[i..];
  }

  lemma EraseMembers<T>(q: seq<T>, i: nat)
    requires i < |q|
    ensures forall y :: y in q <==> y in Erase(q, i) || y == q[i]
    ensures multiset(q) == multiset(Erase(q, i)) + multiset{q[i]}
  {
    assert q == q[..i] + [q[i]] + q[i + 1..];
  }

  lemma NextPrefix<T>(q: seq<T>, i: nat)
    requires i < |q|
    ensures q[..i + 1] == q[..i] + [q[i]]
    ensures forall y :: y in q[..i + 1] <==> y in q[..i] || y == q[i]
  {}
}
