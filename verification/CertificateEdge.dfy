/** A state the certificate accepts although F is infinite there: its tolerances let a flow be slightly negative. */
module CertificateEdge {
  import opened Vectors
  import opened Algebra
  import opened Threshold
  import opened Topologies
  import opened Objective
  import opened Prices
  import opened BestResponse
  import opened Synchronous
  import opened Diagnostics

  /** One source, two brokers; the second link is not worth using at prices (2, 2). */
  const EDGE := Topology([1.0], [[2.0, 0.4]], [2.0, 0.5])

  const SLIP: real := 0.00000000001

  const SLIPPED: Matrix := [[1.0 + SLIP, -SLIP]]

  const PRICES: Vec := [2.0, 2.0]

  const EPS: real := 0.000000000001

  lemma EdgeValid()
    ensures EDGE.Valid() && EDGE.Fits(SLIPPED)
    ensures Loads(SLIPPED, 2) == [1.0 + SLIP, -SLIP]
  {
    assert EDGE.links[0][0] > 0.0;
    assert SLIPPED[1..] == [];
    assert Loads(SLIPPED, 2) == Add(SLIPPED[0], Zeros(2));
  }

  // ---------------------------------------------------------------- the best response

  function EdgeProblem(sqrt: real -> real): Problem {
    Problem(sqrt, [2.0, 0.4], PRICES, 1.0)
  }

  lemma EdgeLevels()
    ensures Thresholds([2.0, 0.4], PRICES) == [2.5, 4.5] && Unique([2.5, 4.5]) == [2.5, 4.5]
  {
    assert 1.0 / 2.0 == 0.5 && 1.0 / 0.4 == 2.5;
    assert [2.5, 4.5][1..] == [4.5] && [4.5][1..] == [];
    assert Unique([4.5]) == [4.5];
    assert Insert(2.5, [4.5]) == [2.5, 4.5];
  }

  /** The flow x = 2 (1 - 1 / s) with s the root of q, against one. */
  lemma RootSide(q: real, s: real, x: real)
    requires q > 1.0 && s > 0.0 && s * s == q && x == 2.0 * (1.0 - 1.0 / s)
    ensures x >= 1.0 <==> q >= 4.0
    ensures q == 4.0 ==> x == 1.0
    ensures q <= 3.0 ==> x <= 0.9
  {
    DivLe(1.0, s, 0.5);
    DivGe(1.0, s, 0.5);
    DivGe(1.0, s, 0.55);
    SquaresOrdered(2.0, s);
    SquaresOrdered(s, 2.0);
    SquaresOrdered(1.8, s);
  }

  lemma SquaresOrdered(x: real, y: real)
    requires x > 0.0 && y > 0.0
    ensures x <= y <==> x * x <= y * y
  {
    if x <= y {
      MulLe(x, y, x);
      MulLe(x, y, y);
    } else {
      MulLt(y, x, y);
      MulLt(y, x, x);
    }
  }

  /** At multipliers up to the second threshold only the first link is used. */
  lemma EdgeFlows(sqrt: real -> real, alpha: real)
    requires IsSqrt(sqrt) && 2.5 < alpha <= 4.5
    ensures var x := Flow(sqrt, 2.0, 2.0, alpha);
      && Flow(sqrt, 0.4, 2.0, alpha) == 0.0
      && (x >= 1.0 <==> alpha >= 4.0) && (alpha == 4.0 ==> x == 1.0) && (alpha <= 3.5 ==> x <= 0.9)
  {
    var q := 2.0 * (alpha - 2.0);
    RootAboveOne(sqrt, q);
    RootSide(q, sqrt(q), Flow(sqrt, 2.0, 2.0, alpha));
  }

  lemma EdgeAllocation(sqrt: real -> real, alpha: real)
    requires IsSqrt(sqrt)
    ensures var x, y := Flow(sqrt, 2.0, 2.0, alpha), Flow(sqrt, 0.4, 2.0, alpha);
      EdgeProblem(sqrt).At(alpha) == [x, y] && EdgeProblem(sqrt).TotalAt(alpha) == x + y
  {
    hide Flow;
    var x := EdgeProblem(sqrt).At(alpha);
    assert x == [x[0], x[1]];
    assert x[1..][1..] == [] && Sum(x[1..]) == x[1];
  }

  lemma EdgeSolves(sqrt: real -> real)
    requires IsSqrt(sqrt)
    ensures var b := EdgeProblem(sqrt);
      b.Acceptable() && SolveAvailable(b, FLOW_TOL, MAX_ITER).Ok?
      && SolveAvailable(b, FLOW_TOL, MAX_ITER).value.flow == [1.0, 0.0]
  {
    hide Total, Allocation, Unique, Thresholds, Flow;
    var b := EdgeProblem(sqrt);
    assert b.mu[1..] == [0.4] && b.mu[1..][1..] == [];
    assert Sum(b.mu) == 2.4;
    EdgeLevels();
    EdgeFlows(sqrt, 4.5);
    EdgeFlows(sqrt, 3.5);
    EdgeFlows(sqrt, 4.0);
    EdgeAllocation(sqrt, 4.5);
    EdgeAllocation(sqrt, 3.5);
    EdgeAllocation(sqrt, 4.0);
    var levels := [2.5, 4.5];
    assert Scan(b, levels, 1) == Bracket(2.5, Some(2.0));
    var tolerance := Tolerance(FLOW_TOL, 1.0);
    assert tolerance > 0.0;
    var first := Response(b.At(3.5), 3.5);
    var exact := Response(b.At(4.0), 4.0);
    assert Sum([1.0, 0.0]) == 1.0 by {
      assert [1.0, 0.0][1..] == [0.0] && [0.0][1..] == [];
    }
    assert Error(b, exact) == 0.0;
    EdgeBisects(b, tolerance, first, exact);
  }

  /** The second halving lands on the exact multiplier, if the first was not already close enough. */
  lemma EdgeBisects(b: Problem, tolerance: real, first: Response, exact: Response)
    requires b.Sound() && tolerance > 0.0
    requires first == Response(b.At(3.5), 3.5) && exact == Response(b.At(4.0), 4.0)
    requires Error(b, exact) == 0.0 && Error(b, first) > tolerance && Sum(first.flow) < b.demand
    ensures Bisect(b, 2.5, 0.0, 2.0, tolerance, None, MAX_ITER) == Ok(exact)
  {
    hide Error;
    assert 2.5 + 0.5 * (0.0 + 2.0) == 3.5 && 2.5 + 0.5 * (1.0 + 2.0) == 4.0;
    assert Bisect(b, 2.5, 0.0, 2.0, tolerance, None, MAX_ITER)
        == Bisect(b, 2.5, 1.0, 2.0, tolerance, Some(first), MAX_ITER - 1);
  }

  // ---------------------------------------------------------------- the residuals

  /** The price maps at the slipped flows, to within a billionth. */
  lemma SlippedPrices()
    ensures 2.0 <= PriceMap(1.0 + SLIP, 2.0, EPS) <= 2.000000001
    ensures 1.999999999 <= PriceMap(-SLIP, 0.5, EPS) <= 2.0
    ensures 2.4 <= PriceMap(-SLIP, 0.4, EPS) <= 2.5
  {
  }

  lemma EdgeTable()
    ensures EDGE.Valid() && EDGE.Fits(SLIPPED)
    ensures BrokerCosts(SLIPPED, EDGE, EPS) == [PriceMap(1.0 + SLIP, 2.0, EPS), PriceMap(-SLIP, 0.5, EPS)]
    ensures MarginalTable(SLIPPED, EDGE, EPS) ==
      [[Some(PriceMap(1.0 + SLIP, 2.0, EPS) + PriceMap(1.0 + SLIP, 2.0, EPS)),
        Some(PriceMap(-SLIP, 0.4, EPS) + PriceMap(-SLIP, 0.5, EPS))]]
  {
    hide PriceMap, Loads;
    EdgeValid();
    var c := BrokerCosts(SLIPPED, EDGE, EPS);
    assert c == [PriceMap(1.0 + SLIP, 2.0, EPS), PriceMap(-SLIP, 0.5, EPS)];
    var row := MarginalRow(SLIPPED[0], EDGE.links[0], c, EPS);
    assert row == [Some(PriceMap(1.0 + SLIP, 2.0, EPS) + c[0]), Some(PriceMap(-SLIP, 0.4, EPS) + c[1])];
    assert MarginalTable(SLIPPED, EDGE, EPS) == [row];
  }

  lemma MaxOfTwo(x: real, y: real)
    ensures MaxOf([x, y]) == Max(x, y) && MinOf([x, y]) == Min(x, y) && MaxOf([x]) == x && MinOf([x]) == x
    ensures Sum([x]) == x && Sum([x, y]) == x + y
  {
    assert [x, y][1..] == [y] && [x][1..] == [] && [y][1..] == [];
  }

  lemma WorstOfOneRow(v: Vec)
    requires |v| > 0
    ensures Worst([v]) == MaxOf(v)
  {
    assert [v][0] == v;
    assert MaxOf(v) in v;
  }

  /** The used route is the first, and the second would cost more. */
  lemma EdgeReport(m1: real, m2: real)
    requires 4.0 <= m1 <= 4.1 && 4.3 <= m2
    ensures ReportRow([Some(m1), Some(m2)], SLIPPED[0], ACTIVE_TOL) == RowReport(Some(m1), Finite(0.0), Finite(0.0), 0.0)
    ensures RowMinOf([Some(m1), Some(m2)]) == m1
  {
    var m, x := [Some(m1), Some(m2)], SLIPPED[0];
    MaxOfTwo(m1, m2);
    MaxOfTwo(m2, m2);
    MaxOfTwo(0.0, 0.0);
    var used := seq(2, j requires 0 <= j < 2 => if (x[j] > ACTIVE_TOL) == true then m[j] else None);
    var unused := seq(2, j requires 0 <= j < 2 => if (x[j] > ACTIVE_TOL) == false then m[j] else None);
    assert used == [Some(m1), None] && unused == [None, Some(m2)];
    KnownOfTwo(Some(m1), None);
    KnownOfTwo(None, Some(m2));
    KnownOfTwo(Some(m1), Some(m2));
    assert Deviations([m1], m1) == [0.0];
  }

  lemma KnownOfTwo(x: Option<real>, y: Option<real>)
    ensures Known([x, y]) == (if x.Some? then [x.value] else []) + (if y.Some? then [y.value] else [])
  {
    assert [x, y][1..] == [y] && [y][1..] == [];
    assert Known([y]) == if y.Some? then [y.value] else [];
  }

  lemma EdgeResponse(sqrt: real -> real)
    requires IsSqrt(sqrt)
    ensures EDGE.Valid() && BestRow(sqrt, EDGE, PRICES, 0).Ok? && BestRow(sqrt, EDGE, PRICES, 0).value.flow == [1.0, 0.0]
  {
    hide SolveAvailable;
    EdgeValid();
    EdgeSolves(sqrt);
    assert SourceProblem(sqrt, EDGE, PRICES, 0) == EdgeProblem(sqrt);
  }

  /** Two rows that differ by a little on each of two links are close. */
  lemma SmallDistance(sqrt: real -> real, x: Vec, z: Vec, d: real)
    requires IsSqrt(sqrt) && |x| == |z| == 2 && Minus(x, z) == [d, -d] && 0.0 <= d <= 0.0000001
    ensures 0.0 <= Norm(sqrt, RowDistances(sqrt, [x], [z])) <= 0.000001
  {
    var q := SmallSquare(d);
    SquaresOfTwo(d, -d, q);
    MaxOfTwo(q, q);
    var v := Norm(sqrt, [d, -d]);
    RootBelow(sqrt, q + q, 0.000001);
    assert RowDistances(sqrt, [x], [z]) == [v];
    SquaresOfOne(v, v * v);
    MaxOfTwo(v * v, 0.0);
    MulNonNeg(v, v);
    MulLe(v, 0.000001, v);
    MulLe(v, 0.000001, 0.000001);
    RootBelow(sqrt, v * v, 0.000001);
  }

  lemma SmallSquare(d: real) returns (q: real)
    requires 0.0 <= d <= 0.0000001
    ensures q == d * d == (-d) * (-d) && 0.0 <= q <= 0.0000000000001
  {
    q := d * d;
    MulNonNeg(d, d);
    SquareLe(d, 0.0000001);
  }

  lemma SquareLe(x: real, y: real)
    requires 0.0 <= x <= y
    ensures x * x <= y * y
  {
    MulNonNeg(y - x, y + x);
    assert (y - x) * (y + x) == y * y - x * x;
  }

  /** The distance to the best response is within tolerance. */
  lemma EdgeDistance(sqrt: real -> real)
    requires IsSqrt(sqrt)
    ensures 0.0 <= Norm(sqrt, RowDistances(sqrt, SLIPPED, [[1.0, 0.0]])) <= 0.000001
  {
    assert Minus(SLIPPED[0], [1.0, 0.0]) == [SLIP, -SLIP];
    SmallDistance(sqrt, SLIPPED[0], [1.0, 0.0], SLIP);
  }

  lemma SquaresOfTwo(x: real, y: real, square: real)
    requires square == x * x && square == y * y
    ensures Squares([x, y]) == [square, square]
  {
    var v := [x, y];
    var w := Squares(v);
    assert w[0] == v[0] * v[0] && w[1] == v[1] * v[1];
    assert v[0] == x && v[1] == y;
    Times(v[0], v[0], x);
    Times(x, v[0], x);
    Times(v[1], v[1], y);
    Times(y, v[1], y);
    assert w[0] == square && w[1] == square;
  }

  lemma SquaresOfOne(v: real, square: real)
    requires square == v * v
    ensures Squares([v]) == [square]
  {
    var x := [v];
    var w := Squares(x);
    assert w[0] == x[0] * x[0];
    assert x[0] == v;
    Times(x[0], x[0], v);
    Times(v, x[0], v);
    assert w[0] == square;
  }

  lemma SquareOrders(x: real, y: real)
    requires x >= 0.0 && y > 0.0
    ensures x > y ==> x * x > y * y
  {
    assert (x - y) * (x + y) == x * x - y * y;
    if x > y {
      MulPos(x - y, x + y);
    }
  }

  lemma RootBelow(sqrt: real -> real, q: real, c: real)
    requires IsSqrt(sqrt) && 0.0 <= q <= c * c && c > 0.0
    ensures 0.0 <= sqrt(q) <= c
  {
    var s := sqrt(q);
    assert s * s == q;
    SquareOrders(s, c);
  }

  lemma EdgeKktTable() returns (m1: real, m2: real)
    ensures 4.0 <= m1 <= 4.1 && 4.3 <= m2 <= 4.6
    ensures EDGE.Valid() && EDGE.Fits(SLIPPED)
    ensures KktTable(SLIPPED, EDGE, EPS) == [KktTerms([Some(m1), Some(m2)], SLIPPED[0])]
  {
    hide PriceMap, MarginalTable, BrokerCosts, KktTerms, Loads;
    EdgeTable();
    SlippedPrices();
    m1 := PriceMap(1.0 + SLIP, 2.0, EPS) + PriceMap(1.0 + SLIP, 2.0, EPS);
    m2 := PriceMap(-SLIP, 0.4, EPS) + PriceMap(-SLIP, 0.5, EPS);
  }

  lemma EdgeKkt()
    ensures EDGE.Valid() && EDGE.Fits(SLIPPED) && 0.0 <= Worst(KktTable(SLIPPED, EDGE, EPS)) <= 0.00000001
  {
    hide KktTable, KktTerms, Worst, Loads, Topology.Valid;
    var m1, m2 := EdgeKktTable();
    EdgeWaste(m1, m2);
  }

  lemma EdgeWaste(m1: real, m2: real)
    requires 4.0 <= m1 <= 4.1 && 4.3 <= m2 <= 4.6
    ensures 0.0 <= Worst([KktTerms([Some(m1), Some(m2)], SLIPPED[0])]) <= 0.00000001
  {
    hide RowMinOf, Prod, MaxOf, Worst, KktTerms;
    EdgeReport(m1, m2);
    SlipTimes(m2 - m1);
    var waste := Abs(Prod(-SLIP, m2 - m1));
    var kkt := KktTerms([Some(m1), Some(m2)], SLIPPED[0]);
    assert kkt[0] == Abs(Prod(1.0 + SLIP, 0.0)) && kkt[1] == waste;
    assert kkt == [0.0, waste];
    MaxOfTwo(0.0, waste);
    WorstOfOneRow(kkt);
  }

  lemma SlipTimes(d: real)
    requires 0.0 <= d <= 1.0
    ensures 0.0 <= Abs(Prod(-SLIP, d)) <= 0.00000001
    ensures Abs(Prod(1.0 + SLIP, 0.0)) == 0.0
  {
  }

  lemma EdgeReports()
    ensures EDGE.Valid() && EDGE.Fits(SLIPPED)
    ensures var r := Reports(SLIPPED, EDGE, EPS, ACTIVE_TOL);
      |r| == 1 && r[0].stationarity == Finite(0.0) && r[0].inactiveGap == 0.0
  {
    hide PriceMap, ReportRow;
    EdgeTable();
    SlippedPrices();
    EdgeReport(PriceMap(1.0 + SLIP, 2.0, EPS) + PriceMap(1.0 + SLIP, 2.0, EPS),
               PriceMap(-SLIP, 0.4, EPS) + PriceMap(-SLIP, 0.5, EPS));
  }

  lemma EdgePrices()
    ensures EDGE.Valid() && EDGE.Fits(SLIPPED)
    ensures 0.0 <= MaxOf(Misses(PRICES, BrokerCosts(SLIPPED, EDGE, EPS))) <= 0.00000001
  {
    hide PriceMap;
    EdgeTable();
    SlippedPrices();
    var c1, c2 := PriceMap(1.0 + SLIP, 2.0, EPS), PriceMap(-SLIP, 0.5, EPS);
    assert Misses(PRICES, [c1, c2]) == [Abs(2.0 - c1), Abs(2.0 - c2)];
    MaxOfTwo(Abs(2.0 - c1), Abs(2.0 - c2));
  }

  lemma OneReport(r: RowReport, v: real)
    requires r.stationarity == Finite(v) && v >= 0.0 && r.inactiveGap == 0.0
    ensures WorstStationarity([r]) == Finite(v) && MaxOf(InactiveGaps([r])) == 0.0
  {
    assert [r][1..] == [] && InactiveGaps([r]) == [0.0];
    MaxOfTwo(0.0, 0.0);
  }

  /** Residuals that are all within the default tolerances. */
  lemma WithinDefaults(d: Diagnosis, v: real)
    requires d.conservation == d.access == d.service == d.inactive == d.unavailable == 0.0
    requires 0.0 <= d.nonnegative <= 0.00000000001 && 0.0 <= d.price <= 0.00000001
    requires 0.0 <= d.fixedPoint <= 0.000001 && 0.0 <= d.kkt <= 0.00000001
    requires d.stationarity == Finite(v) && 0.0 <= v <= 0.0000001
    ensures d.Certified(DEFAULT_TOLERANCES)
  {
  }

  function Slipped(sqrt: real -> real, rows: seq<RowReport>): Diagnosis
    requires EDGE.Valid() && EDGE.Fits(SLIPPED) && |rows| == 1
  {
    Assemble(sqrt, SLIPPED, PRICES, EDGE, EPS, rows, [[1.0, 0.0]])
  }

  lemma EdgeFeasibility(sqrt: real -> real, rows: seq<RowReport>)
    requires EDGE.Valid() && EDGE.Fits(SLIPPED) && |rows| == 1
    ensures var d := Slipped(sqrt, rows);
      d.conservation == d.access == d.service == d.unavailable == 0.0 && d.nonnegative == SLIP
  {
    hide Norm, Worst, KktTable, Misses, RowSums, Overload, Negativity, Stray, BrokerCosts, MaxOf, RowDistances,
      WorstStationarity, InactiveGaps, Loads, Negatives, Overloads, Strays, Topology.Valid;
    EdgeValid();
    EdgeRows();
  }

  lemma EdgeAnswers(sqrt: real -> real, rows: seq<RowReport>)
    requires IsSqrt(sqrt) && EDGE.Valid() && EDGE.Fits(SLIPPED)
    requires |rows| == 1 && rows[0].stationarity == Finite(0.0) && rows[0].inactiveGap == 0.0
    ensures var d := Slipped(sqrt, rows);
      && 0.0 <= d.price <= 0.00000001 && 0.0 <= d.kkt <= 0.00000001 && 0.0 <= d.fixedPoint <= 0.000001
      && d.stationarity == Finite(0.0) && d.inactive == 0.0
  {
    hide Norm, Worst, KktTable, Misses, RowSums, Overload, BrokerCosts, MaxOf, RowDistances,
      WorstStationarity, InactiveGaps, Loads, Negatives, Overloads, Strays, Topology.Valid;
    EdgeDistance(sqrt);
    EdgeKkt();
    EdgePrices();
    assert rows == [rows[0]];
    OneReport(rows[0], 0.0);
  }

  lemma EdgeResiduals(sqrt: real -> real, rows: seq<RowReport>)
    requires IsSqrt(sqrt) && EDGE.Valid() && EDGE.Fits(SLIPPED)
    requires |rows| == 1 && rows[0].stationarity == Finite(0.0) && rows[0].inactiveGap == 0.0
    ensures Slipped(sqrt, rows).Certified(DEFAULT_TOLERANCES)
  {
    hide Slipped, IsSqrt, Topology.Valid, Diagnosis.Certified;
    EdgeFeasibility(sqrt, rows);
    EdgeAnswers(sqrt, rows);
    WithinDefaults(Slipped(sqrt, rows), 0.0);
  }

  /** The feasibility residuals: the sum is exact, and only the negative flow shows. */
  lemma EdgeRows()
    ensures EDGE.Fits(SLIPPED)
    ensures MaxOf(Misses(RowSums(SLIPPED), EDGE.rates)) == 0.0
    ensures Worst(Negatives(SLIPPED)) == SLIP
    ensures Worst(Overloads(SLIPPED, EDGE.links)) == Worst(Strays(SLIPPED, EDGE.links)) == 0.0
    ensures MaxOf(Overload([1.0 + SLIP, -SLIP], EDGE.brokers)) == 0.0
  {
    MaxOfTwo(1.0 + SLIP, -SLIP);
    MaxOfTwo(0.0, 0.0);
    MaxOfTwo(0.0, SLIP);
    assert RowSums(SLIPPED) == [1.0];
    assert Misses(RowSums(SLIPPED), EDGE.rates) == [0.0];
    assert Negativity(SLIPPED[0]) == [0.0, SLIP];
    assert Negatives(SLIPPED) == [[0.0, SLIP]];
    WorstOfOneRow([0.0, SLIP]);
    assert Overload(SLIPPED[0], EDGE.links[0]) == [0.0, 0.0] && Stray(SLIPPED[0], EDGE.links[0]) == [0.0, 0.0];
    assert Overloads(SLIPPED, EDGE.links) == [[0.0, 0.0]];
    assert Strays(SLIPPED, EDGE.links) == [[0.0, 0.0]];
    WorstOfOneRow([0.0, 0.0]);
    assert Overload([1.0 + SLIP, -SLIP], EDGE.brokers) == [0.0, 0.0];
  }

  /** Certified with the default tolerances and guards inactive, and yet F is infinite. */
  lemma CertifiedOutsideDomain(sqrt: real -> real)
    requires IsSqrt(sqrt)
    ensures EDGE.Valid() && EDGE.Fits(SLIPPED) && Unguarded(SLIPPED, EDGE, EPS)
    ensures IsCertified(sqrt, SLIPPED, PRICES, EDGE, EPS, ACTIVE_TOL, DEFAULT_TOLERANCES)
    ensures SystemObjective(SLIPPED, EDGE) == Infinite
  {
    hide IsCertified, F, Loads, Unguarded, InDomain, IsSqrt;
    EdgeUnguarded();
    EdgeCertified(sqrt);
  }

  lemma EdgeCertified(sqrt: real -> real)
    requires IsSqrt(sqrt)
    ensures EDGE.Valid() && EDGE.Fits(SLIPPED)
    ensures IsCertified(sqrt, SLIPPED, PRICES, EDGE, EPS, ACTIVE_TOL, DEFAULT_TOLERANCES)
  {
    hide BestRow, Reports, Assemble, Loads, Diagnosis.Certified, MarginalTable, ReportRow, IsSqrt;
    EdgeValid();
    EdgeResponse(sqrt);
    EdgeReports();
    assert FirstFailure(sqrt, EDGE, PRICES, 0).None?;
    assert BestRows(sqrt, EDGE, PRICES) == [[1.0, 0.0]];
    EdgeResiduals(sqrt, Reports(SLIPPED, EDGE, EPS, ACTIVE_TOL));
  }

  lemma EdgeUnguarded()
    ensures EDGE.Valid() && EDGE.Fits(SLIPPED) && Unguarded(SLIPPED, EDGE, EPS)
    ensures !InDomain(SLIPPED, EDGE)
  {
    hide Loads;
    EdgeValid();
    assert SLIPPED[0][1] < 0.0;
  }
}
