/** Real vectors and matrices with the few sums the controller takes over them. */
module Vectors {

  type Vec = seq<real>
  type Matrix = seq<Vec>

  datatype Option<+T> = None | Some(value: T)

  function Abs(x: real): real {
    if x < 0.0 then -x else x
  }

  function Max(x: real, y: real): real {
    if x < y then y else x
  }

  function Min(x: real, y: real): real {
    if y < x then y else x
  }

  predicate Shape(a: Matrix, n: nat, m: nat) {
    |a| == n && forall i :: 0 <= i < n ==> |a[i]| == m
  }

  predicate NonNeg(v: Vec) {
    forall j :: 0 <= j < |v| ==> v[j] >= 0.0
  }

  function Sum(v: Vec): real {
    if |v| == 0 then 0.0 else v[0] + Sum(v[1..])
  }

  function Prod(x: real, y: real): real {
    x * y
  }

  function Weighted(c: Vec, v: Vec): (w: Vec)
    requires |c| == |v|
    ensures |w| == |c|
    ensures forall j :: 0 <= j < |c| ==> w[j] == Prod(c[j], v[j])
  {
    seq(|c|, j requires 0 <= j < |c| => Prod(c[j], v[j]))
  }

  function Dot(c: Vec, v: Vec): real
    requires |c| == |v|
  {
    Sum(Weighted(c, v))
  }

  function Zeros(m: nat): (v: Vec)
    ensures |v| == m
  {
    seq(m, _ => 0.0)
  }

  function Add(u: Vec, v: Vec): (w: Vec)
    requires |u| == |v|
    ensures |w| == |u|
  {
    seq(|u|, j requires 0 <= j < |u| => u[j] + v[j])
  }

  function Shift(x: real, s: real, y: real): real {
    x + s * y
  }

  /** u + s v. */
  function Plus(u: Vec, s: real, v: Vec): (w: Vec)
    requires |u| == |v|
    ensures |w| == |u|
    ensures forall j :: 0 <= j < |u| ==> w[j] == Shift(u[j], s, v[j])
  {
    seq(|u|, j requires 0 <= j < |u| => Shift(u[j], s, v[j]))
  }

  function Blend(s: real, x: real, y: real): real {
    (1.0 - s) * x + s * y
  }

  /** The point (1 - s) u + s v. */
  function Mix(s: real, u: Vec, v: Vec): (w: Vec)
    requires |u| == |v|
    ensures |w| == |u|
  {
    seq(|u|, j requires 0 <= j < |u| => Blend(s, u[j], v[j]))
  }

  function MixRows(s: real, a: Matrix, b: Matrix): (c: Matrix)
    requires |a| == |b|
    requires forall i :: 0 <= i < |a| ==> |a[i]| == |b[i]|
    ensures |c| == |a|
    ensures forall i :: 0 <= i < |a| ==> c[i] == Mix(s, a[i], b[i])
  {
    seq(|a|, i requires 0 <= i < |a| => Mix(s, a[i], b[i]))
  }

  /** Column sums. */
  function Loads(a: Matrix, m: nat): (v: Vec)
    requires forall i :: 0 <= i < |a| ==> |a[i]| == m
    ensures |v| == m
  {
    if |a| == 0 then Zeros(m) else Add(a[0], Loads(a[1..], m))
  }

  function RowSums(a: Matrix): (v: Vec)
    ensures |v| == |a|
    ensures forall i :: 0 <= i < |a| ==> v[i] == Sum(a[i])
  {
    seq(|a|, i requires 0 <= i < |a| => Sum(a[i]))
  }

  function RowDots(c: Vec, a: Matrix): (v: Vec)
    requires forall i :: 0 <= i < |a| ==> |a[i]| == |c|
    ensures |v| == |a|
    ensures forall i :: 0 <= i < |a| ==> v[i] == Dot(c, a[i])
  {
    seq(|a|, i requires 0 <= i < |a| => Dot(c, a[i]))
  }

  lemma {:induction false} SumPlus(u: Vec, s: real, v: Vec)
    requires |u| == |v|
    ensures Sum(Plus(u, s, v)) == Shift(Sum(u), s, Sum(v))
  {
    if |u| > 0 {
      SumPlus(u[1..], s, v[1..]);
      assert Plus(u, s, v)[1..] == Plus(u[1..], s, v[1..]);
      ShiftAdd(u[0], Sum(u[1..]), s, v[0], Sum(v[1..]));
    }
  }

  lemma ShiftAdd(x: real, x': real, s: real, y: real, y': real)
    ensures Shift(x, s, y) + Shift(x', s, y') == Shift(x + x', s, y + y')
  {
  }

  lemma {:induction false} SumMono(a: Vec, b: Vec)
    requires |a| == |b|
    requires forall j :: 0 <= j < |a| ==> a[j] <= b[j]
    ensures Sum(a) <= Sum(b)
  {
    if |a| > 0 {
      SumMono(a[1..], b[1..]);
    }
  }

  lemma {:induction false} SumStrict(a: Vec, b: Vec, k: nat)
    requires |a| == |b| && k < |a|
    requires forall j :: 0 <= j < |a| ==> a[j] <= b[j]
    requires a[k] < b[k]
    ensures Sum(a) < Sum(b)
  {
    if k == 0 {
      SumMono(a[1..], b[1..]);
    } else {
      SumStrict(a[1..], b[1..], k - 1);
    }
  }

  function Minus(u: Vec, v: Vec): (w: Vec)
    requires |u| == |v|
    ensures |w| == |u|
    ensures forall j :: 0 <= j < |u| ==> w[j] == u[j] - v[j]
  {
    seq(|u|, j requires 0 <= j < |u| => u[j] - v[j])
  }

  lemma {:induction false} SumMinus(u: Vec, v: Vec)
    requires |u| == |v|
    ensures Sum(Minus(u, v)) == Sum(u) - Sum(v)
  {
    if |u| > 0 {
      SumMinus(u[1..], v[1..]);
      assert Minus(u, v)[1..] == Minus(u[1..], v[1..]);
    }
  }

  /** Termwise bounds c + s (y - x) <= e add up, strictly if one of them is strict. */
  lemma {:induction false} SumSlope(c: Vec, s: real, x: Vec, y: Vec, e: Vec)
    requires |c| == |x| == |y| == |e|
    requires forall j :: 0 <= j < |c| ==> Shift(c[j], s, y[j] - x[j]) <= e[j]
    ensures Shift(Sum(c), s, Sum(y) - Sum(x)) <= Sum(e)
    ensures (exists j :: 0 <= j < |c| && Shift(c[j], s, y[j] - x[j]) < e[j]) ==>
      Shift(Sum(c), s, Sum(y) - Sum(x)) < Sum(e)
  {
    if |c| == 0 {
      assert Shift(0.0, s, 0.0) == 0.0;
    } else {
      hide Shift;
      SumSlope(c[1..], s, x[1..], y[1..], e[1..]);
      ShiftAdd(c[0], Sum(c[1..]), s, y[0] - x[0], Sum(y[1..]) - Sum(x[1..]));
      if j :| 0 <= j < |c| && Shift(c[j], s, y[j] - x[j]) < e[j] {
        if j > 0 {
          assert Shift(c[1..][j - 1], s, y[1..][j - 1] - x[1..][j - 1]) < e[1..][j - 1];
        }
      }
    }
  }

  lemma {:induction false} SumAdd(u: Vec, v: Vec)
    requires |u| == |v|
    ensures Sum(Add(u, v)) == Sum(u) + Sum(v)
  {
    if |u| > 0 {
      SumAdd(u[1..], v[1..]);
      assert Add(u, v)[1..] == Add(u[1..], v[1..]);
    }
  }

  lemma {:induction false} SumConst(v: Vec, x: real)
    requires forall j :: 0 <= j < |v| ==> v[j] == x
    ensures Sum(v) == Prod(|v| as real, x)
  {
    if |v| > 0 {
      SumConst(v[1..], x);
      ProdSucc(|v| as real - 1.0, x);
    }
  }

  lemma ProdSucc(n: real, x: real)
    ensures Prod(n + 1.0, x) == Prod(n, x) + x
  {
  }

  /** SumSlope with the same slack k in every term. */
  lemma {:induction false} SumSlopeSlack(c: Vec, k: real, s: real, x: Vec, y: Vec, e: Vec)
    requires |c| == |x| == |y| == |e|
    requires forall j :: 0 <= j < |c| ==> Shift(c[j] - k, s, y[j] - x[j]) <= e[j]
    ensures Shift(Sum(c) - Prod(|c| as real, k), s, Sum(y) - Sum(x)) <= Sum(e)
    ensures (exists j :: 0 <= j < |c| && Shift(c[j] - k, s, y[j] - x[j]) < e[j]) ==>
      Shift(Sum(c) - Prod(|c| as real, k), s, Sum(y) - Sum(x)) < Sum(e)
  {
    if |c| == 0 {
      assert Shift(0.0, s, 0.0) == 0.0;
      assert Prod(0.0, k) == 0.0;
    } else {
      hide Shift, Prod;
      SumSlopeSlack(c[1..], k, s, x[1..], y[1..], e[1..]);
      var n := |c| as real - 1.0;
      ProdSucc(n, k);
      ShiftAdd(c[0] - k, Sum(c[1..]) - Prod(n, k), s, y[0] - x[0], Sum(y[1..]) - Sum(x[1..]));
      if j :| 0 <= j < |c| && Shift(c[j] - k, s, y[j] - x[j]) < e[j] {
        if j > 0 {
          assert Shift(c[1..][j - 1] - k, s, y[1..][j - 1] - x[1..][j - 1]) < e[1..][j - 1];
        }
      }
    }
  }

  lemma {:induction false} SumNonNeg(v: Vec)
    requires NonNeg(v)
    ensures Sum(v) >= 0.0
    ensures forall j :: 0 <= j < |v| ==> v[j] <= Sum(v)
  {
    if |v| > 0 {
      SumNonNeg(v[1..]);
      assert forall j :: 0 < j < |v| ==> v[j] == v[1..][j - 1];
    }
  }

  lemma {:induction false} SumAppend(a: Vec, b: Vec)
    ensures Sum(a + b) == Sum(a) + Sum(b)
  {
    if |a| == 0 {
      assert a + b == b;
    } else {
      assert (a + b)[1..] == a[1..] + b;
      SumAppend(a[1..], b);
    }
  }

  lemma {:induction false} DotAdd(c: Vec, u: Vec, v: Vec)
    requires |c| == |u| == |v|
    ensures Dot(c, Add(u, v)) == Dot(c, u) + Dot(c, v)
  {
    if |c| > 0 {
      hide Prod;
      DotAdd(c[1..], u[1..], v[1..]);
      ProdAdd(c[0], u[0], v[0]);
      assert Weighted(c, u)[1..] == Weighted(c[1..], u[1..]);
      assert Weighted(c, v)[1..] == Weighted(c[1..], v[1..]);
      assert Weighted(c, Add(u, v))[1..] == Weighted(c[1..], Add(u[1..], v[1..]));
    }
  }

  lemma ProdAdd(c: real, x: real, y: real)
    ensures Prod(c, x + y) == Prod(c, x) + Prod(c, y)
  {
  }

  lemma DotZeros(c: Vec)
    ensures Dot(c, Zeros(|c|)) == 0.0
  {
    SumConst(Weighted(c, Zeros(|c|)), 0.0);
  }

  /** Weighing the column sums by c weighs every row by c. */
  lemma {:induction false} DotLoads(c: Vec, a: Matrix)
    requires forall i :: 0 <= i < |a| ==> |a[i]| == |c|
    ensures Dot(c, Loads(a, |c|)) == Sum(RowDots(c, a))
  {
    if |a| == 0 {
      DotZeros(c);
    } else {
      hide Dot;
      DotLoads(c, a[1..]);
      DotAdd(c, a[0], Loads(a[1..], |c|));
      assert RowDots(c, a)[1..] == RowDots(c, a[1..]);
    }
  }

  lemma {:induction false} LoadsMix(s: real, a: Matrix, b: Matrix, m: nat)
    requires Shape(a, |a|, m) && Shape(b, |a|, m)
    ensures Loads(MixRows(s, a, b), m) == Mix(s, Loads(a, m), Loads(b, m))
  {
    if |a| > 0 {
      LoadsMix(s, a[1..], b[1..], m);
      assert MixRows(s, a, b)[1..] == MixRows(s, a[1..], b[1..]);
      var u, v := Loads(a[1..], m), Loads(b[1..], m);
      forall j | 0 <= j < m
        ensures Add(Mix(s, a[0], b[0]), Mix(s, u, v))[j] == Mix(s, Add(a[0], u), Add(b[0], v))[j]
      {
        BlendAdd(s, a[0][j], b[0][j], u[j], v[j]);
      }
    } else {
      assert Zeros(m) == Mix(s, Zeros(m), Zeros(m));
    }
  }

  lemma {:induction false} LoadsNonNeg(a: Matrix, m: nat)
    requires Shape(a, |a|, m)
    requires forall i :: 0 <= i < |a| ==> NonNeg(a[i])
    ensures NonNeg(Loads(a, m))
    ensures forall i, j :: 0 <= i < |a| && 0 <= j < m ==> a[i][j] <= Loads(a, m)[j]
  {
    if |a| > 0 {
      LoadsNonNeg(a[1..], m);
      assert forall i :: 0 < i < |a| ==> a[i] == a[1..][i - 1];
    }
  }

  lemma BlendAdd(s: real, x: real, y: real, x': real, y': real)
    ensures Blend(s, x, y) + Blend(s, x', y') == Blend(s, x + x', y + y')
  {
  }

  lemma {:induction false} SumMix(s: real, u: Vec, v: Vec)
    requires |u| == |v|
    ensures Sum(Mix(s, u, v)) == Blend(s, Sum(u), Sum(v))
  {
    if |u| > 0 {
      SumMix(s, u[1..], v[1..]);
      BlendAdd(s, u[0], v[0], Sum(u[1..]), Sum(v[1..]));
      assert Mix(s, u, v)[1..] == Mix(s, u[1..], v[1..]);
    }
  }

  function MinOf(v: Vec): (m: real)
    requires |v| > 0
    ensures m in v
    ensures forall x :: x in v ==> m <= x
  {
    if |v| == 1 then v[0]
    else
      assert v == [v[0]] + v[1..];
      Min(v[0], MinOf(v[1..]))
  }

  function MaxOf(v: Vec): (m: real)
    requires |v| > 0
    ensures m in v
    ensures forall x :: x in v ==> x <= m
  {
    if |v| == 1 then v[0]
    else
      assert v == [v[0]] + v[1..];
      Max(v[0], MaxOf(v[1..]))
  }

  /** The entries that are present, in order. */
  function Known(v: seq<Option<real>>): (w: Vec)
    ensures forall x :: x in w <==> Some(x) in v
  {
    if |v| == 0 then []
    else
      assert v == [v[0]] + v[1..];
      if v[0].Some? then [v[0].value] + Known(v[1..]) else Known(v[1..])
  }

  /** Powers of two, the widths of doubling and bisection. */
  function Pow2(n: nat): (r: real)
    ensures r >= 1.0
  {
    if n == 0 then 1.0 else 2.0 * Pow2(n - 1)
  }
}
