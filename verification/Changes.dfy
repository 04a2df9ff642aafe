/** How far an iteration has moved routing and prices, relative to where they were (src/controller/synchronous.py). */
module Changes {
  import opened Vectors
  import opened Algebra
  import opened Threshold
  import opened Synchronous
  import opened Diagnostics

  function RowEnergies(a: Matrix): (v: Vec)
    ensures |v| == |a|
    ensures forall i :: 0 <= i < |a| ==> v[i] == Sum(Squares(a[i]))
  {
    seq(|a|, i requires 0 <= i < |a| => Sum(Squares(a[i])))
  }

  function TableNorm(sqrt: real -> real, a: Matrix): real {
    sqrt(Sum(RowEnergies(a)))
  }

  function RouteChange(sqrt: real -> real, a: Matrix, b: Matrix, eps: real): real
    requires |a| == |b| && (forall i :: 0 <= i < |a| ==> |a[i]| == |b[i]|) && eps > 0.0
  {
    TableNorm(sqrt, DiffRows(b, a)) / Max(TableNorm(sqrt, a), eps)
  }

  function PriceChange(sqrt: real -> real, p: Vec, q: Vec, eps: real): real
    requires |p| == |q| && eps > 0.0
  {
    Norm(sqrt, Minus(q, p)) / Max(Norm(sqrt, p), eps)
  }

  // ---------------------------------------------------------------- sums of squares

  /** The sum of the squared entries. */
  function Energy(v: Vec): real {
    if |v| == 0 then 0.0 else Prod(v[0], v[0]) + Energy(v[1..])
  }

  function TableEnergy(a: Matrix): real {
    if |a| == 0 then 0.0 else Energy(a[0]) + TableEnergy(a[1..])
  }

  lemma {:induction false} EnergyParts(v: Vec)
    ensures Energy(v) >= 0.0
    ensures forall j :: 0 <= j < |v| ==> Prod(v[j], v[j]) <= Energy(v)
    ensures Energy(v) == 0.0 <==> forall j :: 0 <= j < |v| ==> v[j] == 0.0
  {
    if |v| > 0 {
      hide Prod;
      var rest := v[1..];
      EnergyParts(rest);
      SquareSign(v[0]);
      assert forall j :: 1 <= j < |v| ==> v[j] == rest[j - 1];
      assert forall j :: 0 <= j < |rest| ==> rest[j] == v[j + 1];
    }
  }

  lemma SquareSign(x: real)
    ensures Prod(x, x) >= 0.0
    ensures Prod(x, x) == 0.0 <==> x == 0.0
  {
    var q := Prod(x, x);
    if q == 0.0 {
      NoSquare(x, q);
    }
  }

  lemma NoSquare(x: real, q: real)
    requires q == x * x && q == 0.0
    ensures x == 0.0
  {
    if x != 0.0 {
      DivIs(q, x, x);
    }
  }

  lemma {:induction false} EnergyIsSum(v: Vec)
    ensures Energy(v) == Sum(Squares(v))
  {
    if |v| > 0 {
      EnergyIsSum(v[1..]);
      SquaresTail(v);
    }
  }

  lemma SquaresTail(v: Vec)
    requires |v| > 0
    ensures Squares(v)[1..] == Squares(v[1..])
  {
    forall j | 0 <= j < |v| - 1 ensures Squares(v)[1..][j] == Squares(v[1..])[j] {
      SquareSame(v[j + 1], v[1..][j]);
    }
  }

  lemma SquareSame(x: real, y: real)
    requires x == y
    ensures x * x == y * y
  {
  }

  lemma {:induction false} TableEnergyParts(a: Matrix)
    ensures TableEnergy(a) >= 0.0
    ensures forall i, j :: 0 <= i < |a| && 0 <= j < |a[i]| ==> Prod(a[i][j], a[i][j]) <= TableEnergy(a)
    ensures TableEnergy(a) == 0.0 <==> forall i, j :: 0 <= i < |a| && 0 <= j < |a[i]| ==> a[i][j] == 0.0
  {
    if |a| > 0 {
      hide Energy, Prod;
      var rest := a[1..];
      EnergyParts(a[0]);
      TableEnergyParts(rest);
      assert forall i :: 1 <= i < |a| ==> a[i] == rest[i - 1];
      assert forall i :: 0 <= i < |rest| ==> rest[i] == a[i + 1];
    }
  }

  lemma {:induction false} TableEnergyIsSum(a: Matrix)
    ensures TableEnergy(a) == Sum(RowEnergies(a))
  {
    if |a| > 0 {
      TableEnergyIsSum(a[1..]);
      EnergyIsSum(a[0]);
      assert RowEnergies(a)[1..] == RowEnergies(a[1..]);
    }
  }

  lemma NormSquared(sqrt: real -> real, v: Vec)
    requires IsSqrt(sqrt)
    ensures Norm(sqrt, v) >= 0.0 && Norm(sqrt, v) * Norm(sqrt, v) == Energy(v)
  {
    hide Energy, Squares, Sum;
    EnergyParts(v);
    EnergyIsSum(v);
    Root(sqrt, Sum(Squares(v)));
  }

  lemma Root(sqrt: real -> real, q: real)
    requires IsSqrt(sqrt) && q >= 0.0
    ensures sqrt(q) >= 0.0 && sqrt(q) * sqrt(q) == q
  {
  }

  lemma TableNormSquared(sqrt: real -> real, a: Matrix)
    requires IsSqrt(sqrt)
    ensures TableNorm(sqrt, a) >= 0.0 && TableNorm(sqrt, a) * TableNorm(sqrt, a) == TableEnergy(a)
  {
    hide TableEnergy, RowEnergies, Sum;
    TableEnergyParts(a);
    TableEnergyIsSum(a);
    Root(sqrt, Sum(RowEnergies(a)));
  }

  // ---------------------------------------------------------------- relative change

  /** What it means that a distance d, relative to a positive n, is r; `energy` is the sum of the squared differences. */
  ghost predicate IsRelative(r: real, n: real, energy: real) {
    r >= 0.0 && r * r * (n * n) == energy && (r == 0.0 <==> energy == 0.0)
  }

  lemma Relative(d: real, n: real, energy: real)
    requires d >= 0.0 && n > 0.0 && d * d == energy
    ensures IsRelative(d / n, n, energy)
    ensures forall tol :: d / n < tol <==> tol > 0.0 && energy < Prod(tol, n) * Prod(tol, n)
  {
    var r := d / n;
    DivMul(d, n);
    DivGe(d, n, 0.0);
    assert r * r * (n * n) == (r * n) * (r * n);
    if energy == 0.0 {
      SquareSign(d);
      DivLe(d, n, 0.0);
    }
    forall tol
      ensures r < tol <==> tol > 0.0 && energy < Prod(tol, n) * Prod(tol, n)
    {
      DivGe(d, n, tol);
      if tol > 0.0 {
        MulPos(tol, n);
        SquareBelow(d, tol * n);
      }
    }
  }

  lemma SquareBelow(x: real, y: real)
    requires x >= 0.0 && y > 0.0
    ensures x < y <==> x * x < y * y
  {
    assert y * y - x * x == (y - x) * (y + x);
    if x < y {
      MulPos(y - x, y + x);
    } else {
      MulNonNeg(x - y, y + x);
      assert (y - x) * (y + x) == -((x - y) * (y + x));
    }
  }

  lemma Below(x: real, square: real, bound: real)
    requires Prod(x, x) <= square && square < bound * bound && bound > 0.0
    ensures Abs(x) < bound
  {
    var y := Abs(x);
    assert y * y == x * x;
    SquareBelow(y, bound);
  }

  /** What the old prices, or the old routes, are measured by. */
  function Base(norm: real, eps: real): real {
    Max(norm, eps)
  }

  /**
   The change of the routes: never negative, zero exactly when no route changed, and its square is the
   sum of the squared differences over the square of the old routes' norm, or of eps if that is more.
   */
  lemma RouteChangeMeans(sqrt: real -> real, a: Matrix, b: Matrix, eps: real)
    requires IsSqrt(sqrt) && eps > 0.0
    requires |a| == |b| && forall i :: 0 <= i < |a| ==> |a[i]| == |b[i]|
    ensures var r, n := RouteChange(sqrt, a, b, eps), Base(TableNorm(sqrt, a), eps);
      && IsRelative(r, n, TableEnergy(DiffRows(b, a)))
      && (r == 0.0 <==> a == b)
      && forall tol :: r < tol <==> tol > 0.0 && TableEnergy(DiffRows(b, a)) < Prod(tol, n) * Prod(tol, n)
  {
    hide TableNorm, TableEnergy;
    var d := DiffRows(b, a);
    TableNormSquared(sqrt, d);
    TableEnergyParts(d);
    Relative(TableNorm(sqrt, d), Base(TableNorm(sqrt, a), eps), TableEnergy(d));
    assert forall i, j :: 0 <= i < |a| && 0 <= j < |a[i]| ==> d[i][j] == b[i][j] - a[i][j];
    if forall i, j :: 0 <= i < |d| && 0 <= j < |d[i]| ==> d[i][j] == 0.0 {
      forall i | 0 <= i < |a| ensures a[i] == b[i] {
        assert forall j :: 0 <= j < |a[i]| ==> d[i][j] == b[i][j] - a[i][j];
      }
    }
  }

  lemma PriceChangeMeans(sqrt: real -> real, p: Vec, q: Vec, eps: real)
    requires IsSqrt(sqrt) && eps > 0.0 && |p| == |q|
    ensures var r, n := PriceChange(sqrt, p, q, eps), Base(Norm(sqrt, p), eps);
      && IsRelative(r, n, Energy(Minus(q, p)))
      && (r == 0.0 <==> p == q)
      && forall tol :: r < tol <==> tol > 0.0 && Energy(Minus(q, p)) < Prod(tol, n) * Prod(tol, n)
  {
    hide Norm, Energy;
    var d := Minus(q, p);
    NormSquared(sqrt, d);
    EnergyParts(d);
    Relative(Norm(sqrt, d), Base(Norm(sqrt, p), eps), Energy(d));
    assert forall j :: 0 <= j < |p| ==> d[j] == q[j] - p[j];
  }

  // ---------------------------------------------------------------- single routes and prices

  /** Every entry moved by less than the bound. */
  predicate EntriesWithin(a: Matrix, b: Matrix, bound: real)
    requires |a| == |b| && forall i :: 0 <= i < |a| ==> |a[i]| == |b[i]|
  {
    forall i, j :: 0 <= i < |a| && 0 <= j < |a[i]| ==> Abs(b[i][j] - a[i][j]) < bound
  }

  lemma EntriesMoved(sqrt: real -> real, a: Matrix, b: Matrix, eps: real, tol: real)
    requires IsSqrt(sqrt) && eps > 0.0
    requires |a| == |b| && forall i :: 0 <= i < |a| ==> |a[i]| == |b[i]|
    requires RouteChange(sqrt, a, b, eps) < tol
    ensures EntriesWithin(a, b, Prod(tol, Base(TableNorm(sqrt, a), eps)))
  {
    hide RouteChange, TableEnergy, TableNorm, Prod, IsRelative;
    var n, d := Base(TableNorm(sqrt, a), eps), DiffRows(b, a);
    RouteChangeMeans(sqrt, a, b, eps);
    TableEnergyParts(d);
    assert TableEnergy(d) < Prod(tol, n) * Prod(tol, n);
    ProdPositive(tol, n);
    forall i, j | 0 <= i < |a| && 0 <= j < |a[i]|
      ensures Abs(b[i][j] - a[i][j]) < Prod(tol, n)
    {
      assert d[i][j] == b[i][j] - a[i][j];
      Below(d[i][j], TableEnergy(d), Prod(tol, n));
    }
  }

  lemma ProdPositive(x: real, y: real)
    requires x > 0.0 && y > 0.0
    ensures Prod(x, y) > 0.0
  {
    MulPos(x, y);
  }

  lemma PricesMoved(sqrt: real -> real, p: Vec, q: Vec, eps: real, tol: real)
    requires IsSqrt(sqrt) && eps > 0.0 && |p| == |q| && PriceChange(sqrt, p, q, eps) < tol
    ensures forall j :: 0 <= j < |p| ==> Abs(q[j] - p[j]) < Prod(tol, Base(Norm(sqrt, p), eps))
  {
    hide PriceChange, Energy, Norm, Prod, IsRelative;
    var n, d := Base(Norm(sqrt, p), eps), Minus(q, p);
    PriceChangeMeans(sqrt, p, q, eps);
    EnergyParts(d);
    assert Energy(d) < Prod(tol, n) * Prod(tol, n);
    ProdPositive(tol, n);
    forall j | 0 <= j < |p|
      ensures Abs(q[j] - p[j]) < Prod(tol, n)
    {
      Below(d[j], Energy(d), Prod(tol, n));
    }
  }
}
