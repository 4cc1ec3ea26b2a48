/** Sums over vectors and matrices of units, and what one more unit changes. */
module Vectors {
  function Sum(v: seq<nat>): nat {
    if v == [] then 0 else Sum(v[..|v| - 1]) + v[|v| - 1]
  }

  lemma {:induction false} SumSet(v: seq<nat>, j: nat, x: nat)
    requires j < |v|
    ensures Sum(v[j := x]) + v[j] == Sum(v) + x
  {
    var last := |v| - 1;
    if j < last {
      SumSet(v[..last], j, x);
      assert v[j := x][..last] == v[..last][j := x];
    } else {
      assert v[j := x][..last] == v[..last];
    }
  }

  lemma {:induction false} SumAtLeast(v: seq<nat>, j: nat)
    requires j < |v|
    ensures v[j] <= Sum(v)
  {
    var last := |v| - 1;
    if j < last {
      SumAtLeast(v[..last], j);
    }
  }

  lemma {:induction false} SumZero(v: seq<nat>)
    ensures Sum(v) == 0 <==> forall j | 0 <= j < |v| :: v[j] == 0
  {
    if v != [] {
      SumZero(v[..|v| - 1]);
      assert forall j | 0 <= j < |v| - 1 :: v[j] == v[..|v| - 1][j];
    }
  }

  lemma {:induction false} SumMonotone(v: seq<nat>, w: seq<nat>)
    requires |v| == |w| && forall j | 0 <= j < |v| :: v[j] <= w[j]
    ensures Sum(v) <= Sum(w) && (Sum(v) == Sum(w) ==> v == w)
  {
    if v != [] {
      SumMonotone(v[..|v| - 1], w[..|w| - 1]);
      assert v == v[..|v| - 1] + [v[|v| - 1]] && w == w[..|w| - 1] + [w[|w| - 1]];
    }
  }

  // --- weighted sums ---

  /** A product that proofs handle by its laws only. */
  function Times(x: nat, c: real): real { x as real * c }

  lemma TimesStep(x: nat, c: real)
    ensures Times(x + 1, c) == Times(x, c) + c
    ensures Times(0, c) == 0.0
  {}

  lemma TimesSum(a: nat, b: nat, t: real)
    ensures Times(a + b, t) == Times(a, t) + Times(b, t)
  {}

  function Dot(v: seq<nat>, c: seq<real>): real
    requires |c| == |v|
  {
    if v == [] then 0.0 else Dot(v[..|v| - 1], c[..|v| - 1]) + Times(v[|v| - 1], c[|v| - 1])
  }

  lemma {:induction false} DotUp(v: seq<nat>, c: seq<real>, j: nat)
    requires |c| == |v| && j < |v|
    ensures Dot(v[j := v[j] + 1], c) == Dot(v, c) + c[j]
  {
    hide Times;
    var last := |v| - 1;
    if j < last {
      DotUp(v[..last], c[..last], j);
      assert v[j := v[j] + 1][..last] == v[..last][j := v[j] + 1];
    } else {
      assert v[j := v[j] + 1][..last] == v[..last];
      TimesStep(v[j], c[j]);
    }
  }

  // --- matrices ---

  type Matrix = seq<seq<nat>>

  predicate Shape<T>(m: seq<seq<T>>, rows: nat, cols: nat) {
    |m| == rows && forall i | 0 <= i < rows :: |m[i]| == cols
  }

  function ColSum(m: Matrix, j: nat): nat
    requires forall i | 0 <= i < |m| :: j < |m[i]|
  {
    if m == [] then 0 else ColSum(m[..|m| - 1], j) + m[|m| - 1][j]
  }

  lemma {:induction false} ColSumAtLeast(m: Matrix, i: nat, j: nat)
    requires i < |m| && forall k | 0 <= k < |m| :: j < |m[k]|
    ensures m[i][j] <= ColSum(m, j)
  {
    var last := |m| - 1;
    if i < last {
      ColSumAtLeast(m[..last], i, j);
    }
  }

  function GrandSum(m: Matrix): nat {
    if m == [] then 0 else GrandSum(m[..|m| - 1]) + Sum(m[|m| - 1])
  }

  predicate SameShape(m: Matrix, c: seq<seq<real>>) {
    |m| == |c| && forall i | 0 <= i < |m| :: |m[i]| == |c[i]|
  }

  function Cost(m: Matrix, c: seq<seq<real>>): real
    requires SameShape(m, c)
  {
    if m == [] then 0.0 else Cost(m[..|m| - 1], c[..|m| - 1]) + Dot(m[|m| - 1], c[|m| - 1])
  }

  function Up(m: Matrix, i: nat, j: nat): (r: Matrix)
    requires i < |m| && j < |m[i]|
    ensures |r| == |m| && forall k | 0 <= k < |m| :: |r[k]| == |m[k]|
  {
    m[i := m[i][j := m[i][j] + 1]]
  }

  lemma UpRow(m: Matrix, i: nat, j: nat)
    requires i < |m| && j < |m[i]|
    ensures Sum(Up(m, i, j)[i]) == Sum(m[i]) + 1
  {
    SumSet(m[i], j, m[i][j] + 1);
  }

  lemma UpPrefix(m: Matrix, i: nat, j: nat)
    requires i < |m| - 1 && j < |m[i]|
    ensures Up(m, i, j)[..|m| - 1] == Up(m[..|m| - 1], i, j)
  {}

  lemma {:induction false} UpCol(m: Matrix, i: nat, j: nat, k: nat)
    requires i < |m| && j < |m[i]| && forall r | 0 <= r < |m| :: k < |m[r]|
    ensures ColSum(Up(m, i, j), k) == ColSum(m, k) + if k == j then 1 else 0
  {
    var last := |m| - 1;
    if i < last {
      UpCol(m[..last], i, j, k);
      UpPrefix(m, i, j);
    } else {
      assert Up(m, i, j)[..last] == m[..last];
    }
  }

  lemma {:induction false} UpGrand(m: Matrix, i: nat, j: nat)
    requires i < |m| && j < |m[i]|
    ensures GrandSum(Up(m, i, j)) == GrandSum(m) + 1
  {
    hide Sum;
    var last := |m| - 1;
    if i < last {
      UpGrand(m[..last], i, j);
      UpPrefix(m, i, j);
    } else {
      UpRow(m, i, j);
      assert Up(m, i, j)[..last] == m[..last];
    }
  }

  lemma {:induction false} UpCost(m: Matrix, c: seq<seq<real>>, i: nat, j: nat)
    requires SameShape(m, c) && i < |m| && j < |m[i]|
    ensures Cost(Up(m, i, j), c) == Cost(m, c) + c[i][j]
  {
    hide Dot;
    var last := |m| - 1;
    if i < last {
      UpCost(m[..last], c[..last], i, j);
      UpPrefix(m, i, j);
    } else {
      DotUp(m[i], c[i], j);
      assert Up(m, i, j)[..last] == m[..last];
    }
  }

  function Zeros(rows: nat, cols: nat): (m: Matrix)
    ensures Shape(m, rows, cols) && forall i, j | 0 <= i < rows && 0 <= j < cols :: m[i][j] == 0
  {
    seq(rows, _ => seq(cols, _ => 0))
  }

  predicate AllZero(m: Matrix) {
    forall i, j | 0 <= i < |m| && 0 <= j < |m[i]| :: m[i][j] == 0
  }

  lemma {:induction false} ZeroDot(v: seq<nat>, c: seq<real>)
    requires |c| == |v| && forall j | 0 <= j < |v| :: v[j] == 0
    ensures Dot(v, c) == 0.0
  {
    if v != [] {
      ZeroDot(v[..|v| - 1], c[..|v| - 1]);
      TimesStep(0, c[|v| - 1]);
    }
  }

  lemma {:induction false} ZeroSums(m: Matrix, c: seq<seq<real>>, cols: nat)
    requires SameShape(m, c) && AllZero(m) && Shape(m, |m|, cols)
    ensures GrandSum(m) == 0 && Cost(m, c) == 0.0 && forall j | 0 <= j < cols :: ColSum(m, j) == 0
  {
    if m != [] {
      hide Sum, Dot;
      var last := |m| - 1;
      ZeroSums(m[..last], c[..last], cols);
      SumZero(m[last]);
      ZeroDot(m[last], c[last]);
    }
  }

  // --- cheaper and dearer ---

  lemma TimesGap(x: nat, c: real, d: real)
    requires c >= d
    ensures Times(x, c) >= Times(x, d)
    ensures Times(x, c) == Times(x, d) <==> x == 0 || c == d
  {
    var gap := x as real * (c - d);
    assert gap == Times(x, c) - Times(x, d);
    assert gap >= 0.0;
    if x > 0 && c > d {
      ProductIsPositive(x as real, c - d);
    }
  }

  lemma ProductIsPositive(x: real, y: real)
    requires x > 0.0 && y > 0.0
    ensures x * y > 0.0
  {}

  /** Dearer units make the sum dearer, and leave it as it is exactly when none is in use. */
  lemma {:induction false} DotGap(v: seq<nat>, c: seq<real>, d: seq<real>)
    requires |v| == |c| == |d| && forall j | 0 <= j < |v| :: c[j] >= d[j]
    ensures Dot(v, c) >= Dot(v, d)
    ensures Dot(v, c) == Dot(v, d) <==> forall j | 0 <= j < |v| :: v[j] == 0 || c[j] == d[j]
  {
    if v != [] {
      hide Times;
      var last := |v| - 1;
      DotGap(v[..last], c[..last], d[..last]);
      TimesGap(v[last], c[last], d[last]);
      assert forall j | 0 <= j < last :: v[..last][j] == v[j] && c[..last][j] == c[j] && d[..last][j] == d[j];
    }
  }

  ghost predicate Undisturbed(m: Matrix, c: seq<seq<real>>, d: seq<seq<real>>, i: nat)
    requires SameShape(m, c) && SameShape(m, d) && i < |m|
  {
    forall j | 0 <= j < |m[i]| :: m[i][j] == 0 || c[i][j] == d[i][j]
  }

  lemma {:induction false} CostGap(m: Matrix, c: seq<seq<real>>, d: seq<seq<real>>)
    requires SameShape(m, c) && SameShape(m, d) && forall i | 0 <= i < |m| :: forall j | 0 <= j < |m[i]| :: c[i][j] >= d[i][j]
    ensures Cost(m, c) >= Cost(m, d)
    ensures Cost(m, c) == Cost(m, d) <==> forall i | 0 <= i < |m| :: Undisturbed(m, c, d, i)
  {
    if m != [] {
      hide Dot;
      var last := |m| - 1;
      var (n, e, f) := (m[..last], c[..last], d[..last]);
      CostGap(n, e, f);
      DotGap(m[last], c[last], d[last]);
      assert forall i | 0 <= i < last :: Undisturbed(n, e, f, i) <==> Undisturbed(m, c, d, i);
      assert Undisturbed(m, c, d, last) <==> Dot(m[last], c[last]) == Dot(m[last], d[last]);
    }
  }
}
