/** Sums of weights over multisets. */
module Sums {
  ghost function Pick<T(!new)>(m: multiset<T>): (x: T)
    requires m != multiset{}
    ensures x in m
  {
    var x :| x in m;
    x
  }

  ghost function SumOver<T(!new)>(m: multiset<T>, w: T -> nat): nat
    decreases |m|
  {
    if m == multiset{} then 0 else w(Pick(m)) + SumOver(m - multiset{Pick(m)}, w)
  }

  /** Any element may be taken out first. */
  lemma {:induction false} TakeOut<T(!new)>(m: multiset<T>, w: T -> nat, x: T)
    requires x in m
    ensures SumOver(m, w) == w(x) + SumOver(m - multiset{x}, w)
    decreases |m|
  {
    var y := Pick(m);
    if y != x {
      TakeOut(m - multiset{y}, w, x);
      TakeOut(m - multiset{x}, w, y);
      assert m - multiset{y} - multiset{x} == m - multiset{x} - multiset{y};
    }
  }

  lemma PutIn<T(!new)>(m: multiset<T>, w: T -> nat, x: T)
    ensures SumOver(m + multiset{x}, w) == SumOver(m, w) + w(x)
  {
    TakeOut(m + multiset{x}, w, x);
    assert m + multiset{x} - multiset{x} == m;
  }
}
