/** Sharing weights among computers: what giving each weight to a least loaded computer achieves. */
module LoadSharing {
  function Total(ws: seq<nat>): nat {
    if ws == [] then 0 else Total(ws[..|ws| - 1]) + ws[|ws| - 1]
  }

  /** The weights that the assignment gives to e, in order. */
  function Share<E(==)>(ws: seq<nat>, to: seq<E>, e: E): seq<nat>
    requires |to| == |ws|
  {
    if ws == [] then []
    else
      var last := |ws| - 1;
      Share(ws[..last], to[..last], e) + if to[last] == e then [ws[last]] else []
  }

  function Load<E(==)>(ws: seq<nat>, to: seq<E>, e: E): nat
    requires |to| == |ws|
  {
    Total(Share(ws, to, e))
  }

  function SumLoads<E(==)>(ws: seq<nat>, to: seq<E>, es: seq<E>): nat
    requires |to| == |ws|
  {
    if es == [] then 0 else SumLoads(ws, to, es[..|es| - 1]) + Load(ws, to, es[|es| - 1])
  }

  predicate Distinct<E(==)>(es: seq<E>) {
    forall i, j | 0 <= i < j < |es| :: es[i] != es[j]
  }

  ghost predicate Among<E>(to: seq<E>, es: seq<E>) {
    forall i | 0 <= i < |to| :: to[i] in es
  }

  /** One more weight adds to the load of its computer only. */
  lemma {:induction false} OneMore<E>(ws: seq<nat>, to: seq<E>, w: nat, e: E, x: E)
    requires |to| == |ws|
    ensures Share(ws + [w], to + [e], x) == Share(ws, to, x) + if x == e then [w] else []
    ensures Load(ws + [w], to + [e], x) == Load(ws, to, x) + if x == e then w else 0
  {
    assert (ws + [w])[..|ws|] == ws && (to + [e])[..|to|] == to;
    var s := Share(ws, to, x);
    assert (s + [w])[..|s|] == s;
    assert s + [] == s;
  }

  lemma {:induction false} OneMoreSum<E>(ws: seq<nat>, to: seq<E>, w: nat, e: E, es: seq<E>)
    requires |to| == |ws| && Distinct(es)
    ensures SumLoads(ws + [w], to + [e], es) == SumLoads(ws, to, es) + if e in es then w else 0
  {
    if es != [] {
      var (front, last) := (es[..|es| - 1], es[|es| - 1]);
      assert es == front + [last];
      OneMoreSum(ws, to, w, e, front);
      OneMore(ws, to, w, e, last);
    }
  }

  /** Nothing is lost: the loads add up to the total. */
  lemma {:induction false} LoadsAddUp<E>(ws: seq<nat>, to: seq<E>, es: seq<E>)
    requires |to| == |ws| && Distinct(es) && Among(to, es)
    ensures SumLoads(ws, to, es) == Total(ws)
  {
    if ws == [] {
      NoLoads(to, es);
    } else {
      var last := |ws| - 1;
      LoadsAddUp(ws[..last], to[..last], es);
      assert ws == ws[..last] + [ws[last]] && to == to[..last] + [to[last]];
      OneMoreSum(ws[..last], to[..last], ws[last], to[last], es);
    }
  }

  lemma {:induction false} NoLoads<E>(to: seq<E>, es: seq<E>)
    requires to == []
    ensures SumLoads([], to, es) == 0
  {
    if es != [] {
      NoLoads(to, es[..|es| - 1]);
    }
  }

  /** b for each of n, and for one more. */
  function Times(n: nat, b: nat): nat { n * b }

  lemma TimesStep(n: nat, b: nat)
    ensures Times(n + 1, b) == Times(n, b) + b
  {}

  lemma {:induction false} LoadsAtMost<E>(ws: seq<nat>, to: seq<E>, es: seq<E>, b: nat)
    requires |to| == |ws| && forall e | e in es :: Load(ws, to, e) <= b
    ensures SumLoads(ws, to, es) <= Times(|es|, b)
  {
    if es != [] {
      hide Times, Load;
      LoadsAtMost(ws, to, es[..|es| - 1], b);
      TimesStep(|es| - 1, b);
    }
  }

  lemma {:induction false} LoadsAtLeast<E>(ws: seq<nat>, to: seq<E>, es: seq<E>, b: nat)
    requires |to| == |ws| && forall e | e in es :: Load(ws, to, e) >= b
    ensures SumLoads(ws, to, es) >= Times(|es|, b)
  {
    if es == [] {
      assert Times(|es|, b) == 0;
    } else {
      hide Times, Load;
      LoadsAtLeast(ws, to, es[..|es| - 1], b);
      TimesStep(|es| - 1, b);
    }
  }

  /** Weight k goes to a computer that is least loaded among es at that point. */
  ghost predicate GreedyAt<E(!new)>(ws: seq<nat>, to: seq<E>, es: seq<E>, k: nat)
    requires |to| == |ws| && k < |ws|
  {
    to[k] in es && forall e | e in es :: Load(ws[..k], to[..k], to[k]) <= Load(ws[..k], to[..k], e)
  }

  ghost predicate Greedy<E(!new)>(ws: seq<nat>, to: seq<E>, es: seq<E>)
    requires |to| == |ws|
  {
    forall k | 0 <= k < |ws| :: GreedyAt(ws, to, es, k)
  }

  lemma GreedyIsAmong<E(!new)>(ws: seq<nat>, to: seq<E>, es: seq<E>)
    requires |to| == |ws| && Greedy(ws, to, es)
    ensures Among(to, es)
  {
    forall k | 0 <= k < |to| ensures to[k] in es { assert GreedyAt(ws, to, es, k); }
  }

  ghost predicate Descending(ws: seq<nat>) {
    forall i, j | 0 <= i < j < |ws| :: ws[i] >= ws[j]
  }

  /** The last weight of a loaded computer. */
  lemma {:induction false} LastGiven<E>(ws: seq<nat>, to: seq<E>, e: E) returns (k: nat)
    requires |to| == |ws| && Load(ws, to, e) > 0
    ensures k < |ws| && to[k] == e && Load(ws, to, e) == Load(ws[..k], to[..k], e) + ws[k]
  {
    var last := |ws| - 1;
    assert ws == ws[..last] + [ws[last]] && to == to[..last] + [to[last]];
    OneMore(ws[..last], to[..last], ws[last], to[last], e);
    if to[last] == e { return last; }
    k := LastGiven(ws[..last], to[..last], e);
    assert ws[..last][..k] == ws[..k] && to[..last][..k] == to[..k];
  }

  lemma {:induction false} LoadGrows<E>(ws: seq<nat>, to: seq<E>, e: E, k: nat)
    requires |to| == |ws| && k <= |ws|
    ensures Load(ws[..k], to[..k], e) <= Load(ws, to, e)
  {
    if k < |ws| {
      var last := |ws| - 1;
      assert ws == ws[..last] + [ws[last]] && to == to[..last] + [to[last]];
      OneMore(ws[..last], to[..last], ws[last], to[last], e);
      LoadGrows(ws[..last], to[..last], e, k);
      assert ws[..last][..k] == ws[..k] && to[..last][..k] == to[..k];
    } else {
      assert ws[..k] == ws && to[..k] == to;
    }
  }

  lemma {:induction false} TotalGrows(ws: seq<nat>, k: nat)
    requires k <= |ws|
    ensures Total(ws[..k]) <= Total(ws)
    ensures k < |ws| ==> Total(ws[..k]) + ws[k] <= Total(ws)
  {
    if k < |ws| {
      var last := |ws| - 1;
      if k < last {
        TotalGrows(ws[..last], k);
        assert ws[..last][..k] == ws[..k];
      }
    } else {
      assert ws[..k] == ws;
    }
  }

  // --- how far from the best assignment ---

  function Big(w: nat, p: nat, b: nat): nat { if w + p > b then 2 else 1 }

  /** Every weight counts one, and two if it fits with no other weight of p or more below b. */
  function Marks(ws: seq<nat>, p: nat, b: nat): (ms: seq<nat>)
    ensures |ms| == |ws| && forall i | 0 <= i < |ws| :: ms[i] == Big(ws[i], p, b)
  {
    seq(|ws|, i requires 0 <= i < |ws| => Big(ws[i], p, b))
  }

  lemma {:induction false} MarksShare<E>(ws: seq<nat>, to: seq<E>, e: E, p: nat, b: nat)
    requires |to| == |ws|
    ensures Share(Marks(ws, p, b), to, e) == Marks(Share(ws, to, e), p, b)
  {
    if ws != [] {
      var last := |ws| - 1;
      assert Marks(ws, p, b)[..last] == Marks(ws[..last], p, b);
      MarksShare(ws[..last], to[..last], e, p, b);
      if to[last] == e {
        assert Marks(Share(ws[..last], to[..last], e) + [ws[last]], p, b)
            == Marks(Share(ws[..last], to[..last], e), p, b) + [Big(ws[last], p, b)];
      }
    }
  }

  lemma {:induction false} ShareFrom<E>(ws: seq<nat>, to: seq<E>, e: E, p: nat)
    requires |to| == |ws| && forall i | 0 <= i < |ws| :: ws[i] >= p
    ensures forall i | 0 <= i < |Share(ws, to, e)| :: Share(ws, to, e)[i] >= p
  {
    if ws != [] {
      ShareFrom(ws[..|ws| - 1], to[..|ws| - 1], e, p);
    }
  }

  lemma TotalOfOne(q: seq<nat>)
    requires |q| == 1
    ensures Total(q) == q[0]
  {
    assert q[..0] == [];
  }

  lemma TotalOfTwo(q: seq<nat>)
    requires |q| >= 2
    ensures Total(q) == Total(q[..|q| - 2]) + q[|q| - 2] + q[|q| - 1]
  {
    assert q[..|q| - 1][..|q| - 2] == q[..|q| - 2];
  }

  lemma TotalOfThree(q: seq<nat>, p: nat)
    requires |q| >= 3 && forall i | 0 <= i < |q| :: q[i] >= p
    ensures Total(q) >= 3 * p
  {
    TotalOfTwo(q);
    assert q[..|q| - 2][|q| - 3] >= p;
  }

  /** Weights of p or more, with 3p above b, that fit into b: two at most, and a big one stays alone. */
  lemma FewMarks(q: seq<nat>, p: nat, b: nat)
    requires (forall i | 0 <= i < |q| :: q[i] >= p) && 3 * p > b && Total(q) <= b
    ensures Total(Marks(q, p, b)) <= 2
  {
    var ms := Marks(q, p, b);
    if |q| == 1 {
      TotalOfOne(ms);
    } else if |q| == 2 {
      TotalOfTwo(q);
      TotalOfTwo(ms);
      assert ms[..0] == [];
    } else if |q| >= 3 {
      TotalOfThree(q, p);
    }
  }

  /** Weights that together leave no room for p in b: two at least, or a big one. */
  lemma ManyMarks(q: seq<nat>, p: nat, b: nat)
    requires Total(q) + p > b && p <= b
    ensures Total(Marks(q, p, b)) >= 2
  {
    var ms := Marks(q, p, b);
    if |q| == 1 {
      TotalOfOne(q);
      TotalOfOne(ms);
    } else if |q| >= 2 {
      TotalOfTwo(ms);
    }
  }

  /** The loads just before weight k goes to e, the least loaded of all: e has at most its part. */
  lemma LeastIsAtMostItsPart<E(!new)>(ws: seq<nat>, to: seq<E>, es: seq<E>, k: nat)
    requires |to| == |ws| && Distinct(es) && Greedy(ws, to, es) && k < |ws|
    ensures Times(|es|, Load(ws[..k], to[..k], to[k])) <= Total(ws[..k])
  {
    hide Times, Load, SumLoads, Total;
    assert GreedyAt(ws, to, es, k);
    GreedyIsAmong(ws, to, es);
    LoadsAddUp(ws[..k], to[..k], es);
    LoadsAtLeast(ws[..k], to[..k], es, Load(ws[..k], to[..k], to[k]));
  }

  /** No assignment whose loads are all within b carries more than b for each computer. */
  lemma RoomFor<E>(ws: seq<nat>, to: seq<E>, es: seq<E>, b: nat)
    requires |to| == |ws| && Distinct(es) && Among(to, es)
    requires forall e | e in es :: Load(ws, to, e) <= b
    ensures Total(ws) <= Times(|es|, b)
  {
    hide Times, Load, SumLoads, Total;
    LoadsAddUp(ws, to, es);
    LoadsAtMost(ws, to, es, b);
  }

  /** A weight fits within the bound of any assignment that places it. */
  lemma WeightWithin<E>(ws: seq<nat>, to: seq<E>, k: nat)
    requires |to| == |ws| && k < |ws|
    ensures ws[k] <= Load(ws, to, to[k])
  {
    assert ws[..k + 1] == ws[..k] + [ws[k]] && to[..k + 1] == to[..k] + [to[k]];
    OneMore(ws[..k], to[..k], ws[k], to[k], to[k]);
    LoadGrows(ws, to, to[k], k + 1);
  }

  /**
   * Weights above a third of b that some assignment fits into b: the greedy one, biggest first,
   * does not go beyond b either.
   */
  lemma LargeWeightsFit<E(!new)>(ws: seq<nat>, to: seq<E>, other: seq<E>, es: seq<E>, k: nat, b: nat)
    requires |to| == |ws| == |other| && Distinct(es) && Greedy(ws, to, es) && Descending(ws)
    requires Among(other, es) && (forall e | e in es :: Load(ws, other, e) <= b)
    requires k < |ws| && 3 * ws[k] > b
    ensures Load(ws[..k], to[..k], to[k]) + ws[k] <= b
  {
    hide Times, Load, SumLoads, Total, Big, Marks;
    var p := ws[k];
    if Load(ws[..k], to[..k], to[k]) + p > b {
      WeightWithin(ws, other, k);
      MarksBefore(ws, to, es, k, p, b);
      MarksAfter(ws[..k + 1], other[..k + 1], es, p, b) by {
        forall e | e in es ensures Load(ws[..k + 1], other[..k + 1], e) <= b { LoadGrows(ws, other, e, k + 1); }
      }
      OneMoreMark(ws, k, p, b);
    }
  }

  lemma OneMoreMark(ws: seq<nat>, k: nat, p: nat, b: nat)
    requires k < |ws|
    ensures Total(Marks(ws[..k], p, b)) < Total(Marks(ws[..k + 1], p, b))
  {
    assert Marks(ws[..k + 1], p, b)[..k] == Marks(ws[..k], p, b);
  }

  lemma MarksBefore<E(!new)>(ws: seq<nat>, to: seq<E>, es: seq<E>, k: nat, p: nat, b: nat)
    requires |to| == |ws| && Distinct(es) && Greedy(ws, to, es) && k < |ws|
    requires Load(ws[..k], to[..k], to[k]) + p > b && p <= b
    ensures Times(|es|, 2) <= Total(Marks(ws[..k], p, b))
  {
    hide Times, SumLoads, Total, Big;
    var (v, t) := (ws[..k], to[..k]);
    assert GreedyAt(ws, to, es, k);
    GreedyIsAmong(ws, to, es);
    forall e | e in es ensures Load(Marks(v, p, b), t, e) >= 2 {
      MarksShare(v, t, e, p, b);
      ManyMarks(Share(v, t, e), p, b);
    }
    LoadsAddUp(Marks(v, p, b), t, es);
    LoadsAtLeast(Marks(v, p, b), t, es, 2);
  }

  lemma MarksAfter<E>(ws: seq<nat>, to: seq<E>, es: seq<E>, p: nat, b: nat)
    requires |to| == |ws| && Distinct(es) && Among(to, es) && 3 * p > b
    requires forall i | 0 <= i < |ws| :: ws[i] >= p
    requires forall e | e in es :: Load(ws, to, e) <= b
    ensures Total(Marks(ws, p, b)) <= Times(|es|, 2)
  {
    hide Times, SumLoads, Total, Big;
    forall e | e in es ensures Load(Marks(ws, p, b), to, e) <= 2 {
      MarksShare(ws, to, e, p, b);
      ShareFrom(ws, to, e, p);
      FewMarks(Share(ws, to, e), p, b);
    }
    RoomFor(Marks(ws, p, b), to, es, 2);
  }

  /** m(L + p) <= total + (m - 1)p, with the total within mb and p within a third of b. */
  lemma SmallLast(m: nat, least: nat, p: nat, total: nat, b: nat)
    requires m > 0 && Times(m, least) + p <= total <= Times(m, b) && 3 * p <= b
    ensures 3 * m * (least + p) <= (4 * m - 1) * b
  {
    calc {
      3 * m * (least + p);
    ==
      3 * (m * least) + 3 * p + (m - 1) * (3 * p);
    <=  { MulMonotone(m - 1, 3 * p, b); }
      3 * (m * b) + (m - 1) * b;
    ==
      (4 * m - 1) * b;
    }
  }

  lemma MulMonotone(n: nat, x: nat, y: nat)
    requires x <= y
    ensures n * x <= n * y
  {}

  /**
   * Biggest groups first, each to a least loaded computer: with m computers no load exceeds
   * 4/3 - 1/(3m) times the highest load b of any other assignment.
   */
  lemma GreedyIsNearBest<E(!new)>(ws: seq<nat>, to: seq<E>, other: seq<E>, es: seq<E>, b: nat, e: E)
    requires |to| == |ws| == |other| && Distinct(es) && Greedy(ws, to, es) && Descending(ws)
    requires Among(other, es) && forall x | x in es :: Load(ws, other, x) <= b
    requires e in es
    ensures 3 * |es| * Load(ws, to, e) <= (4 * |es| - 1) * b
  {
    hide Times, Load, SumLoads, Total, Greedy;
    var m := |es|;
    if Load(ws, to, e) == 0 {
      assert (4 * m - 1) * b >= 0;
    } else {
      var k := LastGiven(ws, to, e);
      var least := Load(ws[..k], to[..k], e);
      if 3 * ws[k] <= b {
        LeastIsAtMostItsPart(ws, to, es, k);
        TotalGrows(ws, k);
        RoomFor(ws, other, es, b);
        SmallLast(m, least, ws[k], Total(ws), b);
      } else {
        LargeWeightsFit(ws, to, other, es, k, b);
        Within(m, Load(ws, to, e), b);
      }
    }
  }

  lemma Within(m: nat, x: nat, b: nat)
    requires m > 0 && x <= b
    ensures 3 * m * x <= (4 * m - 1) * b
  {
    MulMonotone(3 * m, x, b);
    assert (4 * m - 1) * b == 3 * m * b + (m - 1) * b;
  }

  /** The bound that holds in any order of the weights: 2 - 1/m. */
  lemma AnyOrderIsWithinTwice<E(!new)>(ws: seq<nat>, to: seq<E>, other: seq<E>, es: seq<E>, b: nat, e: E)
    requires |to| == |ws| == |other| && Distinct(es) && Greedy(ws, to, es)
    requires Among(other, es) && forall x | x in es :: Load(ws, other, x) <= b
    requires e in es
    ensures |es| * Load(ws, to, e) <= (2 * |es| - 1) * b
  {
    hide Times, Load, SumLoads, Total, Greedy;
    var m := |es|;
    if Load(ws, to, e) == 0 {
      assert (2 * m - 1) * b >= 0;
    } else {
      var k := LastGiven(ws, to, e);
      LeastIsAtMostItsPart(ws, to, es, k);
      TotalGrows(ws, k);
      RoomFor(ws, other, es, b);
      WeightWithin(ws, other, k);
      AnyLast(m, Load(ws[..k], to[..k], e), ws[k], Total(ws), b);
    }
  }

  lemma AnyLast(m: nat, least: nat, p: nat, total: nat, b: nat)
    requires m > 0 && Times(m, least) + p <= total <= Times(m, b) && p <= b
    ensures m * (least + p) <= (2 * m - 1) * b
  {
    calc {
      m * (least + p);
    ==
      m * least + p + (m - 1) * p;
    <=  { MulMonotone(m - 1, p, b); }
      m * b + (m - 1) * b;
    ==
      (2 * m - 1) * b;
    }
  }
}
