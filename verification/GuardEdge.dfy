/** A state the certificate accepts inside the open domain, with active guards, although F there is far above the optimum. */
module GuardEdge {
  import opened Vectors
  import opened Threshold
  import opened Topologies
  import opened Objective
  import opened Prices
  import opened BestResponse
  import opened Synchronous
  import opened Diagnostics
  import opened DualGaps
  import opened CertificateEdge

  const HAIR: real := 0.0000000000005

  const SLIT: real := 0.00000000000000000001

  /** One source of rate 1, two links of capacity 1, and brokers that can hardly take half of it each. */
  const TIGHT := Topology([1.0], [[1.0, 1.0]], [0.5 + HAIR, 0.5 + HAIR])

  /** The first broker is filled up to a slit, the second is within the guard as well. */
  const SQUEEZED: Matrix := [[0.5 + HAIR - SLIT, 0.5 - HAIR + SLIT]]

  /** The guarded marginal cost of both brokers. */
  const PRICE: real := 500000000000500000000000.0

  const EVEN: Matrix := [[0.5, 0.5]]

  lemma TightValid()
    ensures TIGHT.Valid() && TIGHT.Fits(SQUEEZED) && TIGHT.Fits(EVEN)
    ensures Loads(SQUEEZED, 2) == SQUEEZED[0] && Loads(EVEN, 2) == EVEN[0]
  {
    assert TIGHT.links[0][0] > 0.0;
    assert SQUEEZED[1..] == [] && EVEN[1..] == [];
    assert Loads(SQUEEZED, 2) == Add(SQUEEZED[0], Zeros(2)) && Loads(EVEN, 2) == Add(EVEN[0], Zeros(2));
  }

  // ---------------------------------------------------------------- the best response

  function TightProblem(sqrt: real -> real): Problem {
    Problem(sqrt, [1.0, 1.0], [PRICE, PRICE], 1.0)
  }

  lemma TightLevels()
    ensures Thresholds([1.0, 1.0], [PRICE, PRICE]) == [PRICE + 1.0, PRICE + 1.0]
    ensures Unique([PRICE + 1.0, PRICE + 1.0]) == [PRICE + 1.0]
  {
    var v := [PRICE + 1.0, PRICE + 1.0];
    assert v[1..] == [PRICE + 1.0] && v[1..][1..] == [];
    assert Unique(v[1..]) == [PRICE + 1.0];
  }

  /** Both links carry the same. */
  lemma TightAllocation(sqrt: real -> real, alpha: real)
    requires IsSqrt(sqrt)
    ensures var f := Flow(sqrt, 1.0, PRICE, alpha);
      TightProblem(sqrt).At(alpha) == [f, f] && TightProblem(sqrt).TotalAt(alpha) == f + f == Sum([f, f])
  {
    hide Flow;
    var x := TightProblem(sqrt).At(alpha);
    assert x == [x[0], x[1]];
    MaxOfTwo(x[0], x[1]);
  }

  /** Together they carry one exactly at a multiplier of four above the price. */
  lemma TightFlow(sqrt: real -> real, q: real, f: real)
    requires IsSqrt(sqrt) && q > 1.0 && f == Flow(sqrt, 1.0, PRICE, PRICE + q)
    ensures 2.0 * f >= 1.0 <==> q >= 4.0
    ensures q == 4.0 ==> f == 0.5
    ensures q <= 3.0 ==> 2.0 * f <= 0.9
  {
    RootAboveOne(sqrt, q);
    assert 1.0 * (PRICE + q - PRICE) == q;
    RootSide(q, sqrt(q), 2.0 * f);
  }

  lemma TightSolves(sqrt: real -> real)
    requires IsSqrt(sqrt)
    ensures var b := TightProblem(sqrt);
      b.Acceptable() && SolveAvailable(b, FLOW_TOL, MAX_ITER).Ok?
      && SolveAvailable(b, FLOW_TOL, MAX_ITER).value.flow == [0.5, 0.5]
  {
    hide Total, Allocation, Unique, Thresholds, Flow;
    var b := TightProblem(sqrt);
    MaxOfTwo(1.0, 1.0);
    MaxOfTwo(0.5, 0.5);
    TightLevels();
    TightAllocation(sqrt, PRICE + 2.0);
    TightFlow(sqrt, 2.0, Flow(sqrt, 1.0, PRICE, PRICE + 2.0));
    TightAllocation(sqrt, PRICE + 3.0);
    TightFlow(sqrt, 3.0, Flow(sqrt, 1.0, PRICE, PRICE + 3.0));
    TightAllocation(sqrt, PRICE + 4.0);
    TightFlow(sqrt, 4.0, Flow(sqrt, 1.0, PRICE, PRICE + 4.0));
    TightAllocation(sqrt, PRICE + 5.0);
    TightFlow(sqrt, 5.0, Flow(sqrt, 1.0, PRICE, PRICE + 5.0));
    assert Scan(b, [PRICE + 1.0], 1) == Bracket(PRICE + 1.0, None);
    TightDoubles(b);
    var tolerance := Tolerance(FLOW_TOL, 1.0);
    var first, exact := Response(b.At(PRICE + 3.0), PRICE + 3.0), Response(b.At(PRICE + 4.0), PRICE + 4.0);
    TightBisects(b, tolerance, first, exact);
  }

  lemma TightDoubles(b: Problem)
    requires b.Sound() && b.TotalAt(PRICE + 2.0) < b.demand && b.TotalAt(PRICE + 3.0) < b.demand
    requires b.TotalAt(PRICE + 5.0) >= b.demand
    ensures Double(b, PRICE + 1.0, 1.0, DOUBLINGS) == Some(4.0)
  {
    hide Total;
    assert Double(b, PRICE + 1.0, 1.0, DOUBLINGS) == Double(b, PRICE + 1.0, 2.0, DOUBLINGS - 1);
    assert Double(b, PRICE + 1.0, 2.0, DOUBLINGS - 1) == Double(b, PRICE + 1.0, 4.0, DOUBLINGS - 2);
  }

  lemma TightBisects(b: Problem, tolerance: real, first: Response, exact: Response)
    requires b.Sound() && tolerance > 0.0
    requires first == Response(b.At(PRICE + 3.0), PRICE + 3.0) && exact == Response(b.At(PRICE + 4.0), PRICE + 4.0)
    requires Error(b, exact) == 0.0 && Error(b, first) > tolerance && Sum(first.flow) < b.demand
    ensures Bisect(b, PRICE + 1.0, 0.0, 4.0, tolerance, None, MAX_ITER) == Ok(exact)
  {
    hide Error;
    assert PRICE + 1.0 + 0.5 * (0.0 + 4.0) == PRICE + 3.0 && PRICE + 1.0 + 0.5 * (2.0 + 4.0) == PRICE + 4.0;
    assert Bisect(b, PRICE + 1.0, 0.0, 4.0, tolerance, None, MAX_ITER)
        == Bisect(b, PRICE + 1.0, 2.0, 4.0, tolerance, Some(first), MAX_ITER - 1);
  }

  lemma TightResponse(sqrt: real -> real)
    requires IsSqrt(sqrt)
    ensures TIGHT.Valid() && BestRow(sqrt, TIGHT, [PRICE, PRICE], 0).Ok?
    ensures BestRow(sqrt, TIGHT, [PRICE, PRICE], 0).value.flow == [0.5, 0.5]
  {
    hide SolveAvailable;
    TightValid();
    TightSolves(sqrt);
    assert SourceProblem(sqrt, TIGHT, [PRICE, PRICE], 0) == TightProblem(sqrt);
  }

  // ---------------------------------------------------------------- the residuals

  /** Both brokers are guarded and report the same price; the links cost nearly the same. */
  lemma SqueezedPrices()
    ensures PriceMap(SQUEEZED[0][0], 0.5 + HAIR, EPS) == PRICE && PriceMap(SQUEEZED[0][1], 0.5 + HAIR, EPS) == PRICE
    ensures 4.0 <= PriceMap(SQUEEZED[0][0], 1.0, EPS) <= 4.000000001
    ensures 3.999999999 <= PriceMap(SQUEEZED[0][1], 1.0, EPS) <= 4.0
  {
  }

  /** What the two routes are reported to cost. */
  lemma SqueezedTable() returns (m1: real, m2: real)
    ensures TIGHT.Valid() && TIGHT.Fits(SQUEEZED)
    ensures m2 <= m1 <= m2 + 0.000000002 && m2 <= PRICE + 4.0
    ensures BrokerCosts(SQUEEZED, TIGHT, EPS) == [PRICE, PRICE]
    ensures MarginalTable(SQUEEZED, TIGHT, EPS) == [[Some(m1), Some(m2)]]
  {
    hide PriceMap, Loads;
    TightValid();
    SqueezedPrices();
    m1 := PriceMap(SQUEEZED[0][0], 1.0, EPS) + PRICE;
    m2 := PriceMap(SQUEEZED[0][1], 1.0, EPS) + PRICE;
    var c := BrokerCosts(SQUEEZED, TIGHT, EPS);
    assert c == [PRICE, PRICE];
    var row := MarginalRow(SQUEEZED[0], TIGHT.links[0], c, EPS);
    assert row == [Some(m1), Some(m2)];
    assert MarginalTable(SQUEEZED, TIGHT, EPS) == [row];
  }

  /** Two used routes that cost nearly the same. */
  lemma TwoUsed(m1: real, m2: real) returns (v: real)
    requires m2 <= m1 <= m2 + 0.0000001
    ensures var r := ReportRow([Some(m1), Some(m2)], SQUEEZED[0], ACTIVE_TOL);
      r.stationarity == Finite(v) && 0.0 <= v <= 0.0000001 && r.inactiveGap == 0.0
    ensures RowMinOf([Some(m1), Some(m2)]) == m2
  {
    hide Pick, Known, MaxOf, MinOf, Sum;
    var mean := (m1 + m2) / 2.0;
    BothUsed(Some(m1), Some(m2));
    KnownOfTwo(Some(m1), Some(m2));
    KnownOfTwo(None, None);
    assert [m1] + [m2] == [m1, m2];
    MaxOfTwo(m1, m2);
    MaxOfTwo(m1 - mean, mean - m2);
    assert Deviations([m1, m2], mean) == [m1 - mean, mean - m2];
    v := m1 - mean;
  }

  lemma BothUsed(m1: Option<real>, m2: Option<real>)
    ensures Pick([m1, m2], SQUEEZED[0], ACTIVE_TOL, true) == Known([m1, m2])
    ensures Pick([m1, m2], SQUEEZED[0], ACTIVE_TOL, false) == Known([None, None])
  {
    hide Known;
    var m, x := [m1, m2], SQUEEZED[0];
    var used := seq(2, j requires 0 <= j < 2 => if (x[j] > ACTIVE_TOL) == true then m[j] else None);
    var unused := seq(2, j requires 0 <= j < 2 => if (x[j] > ACTIVE_TOL) == false then m[j] else None);
    assert used == [m1, m2] && unused == [None, None];
  }

  lemma SqueezedReports() returns (v: real)
    ensures TIGHT.Valid() && TIGHT.Fits(SQUEEZED)
    ensures var r := Reports(SQUEEZED, TIGHT, EPS, ACTIVE_TOL);
      |r| == 1 && r[0].stationarity == Finite(v) && 0.0 <= v <= 0.0000001 && r[0].inactiveGap == 0.0
  {
    hide ReportRow, MarginalTable, BrokerCosts, Loads;
    var m1, m2 := SqueezedTable();
    v := TwoUsed(m1, m2);
  }

  lemma SqueezedWaste(m1: real, m2: real)
    requires m2 <= m1 <= m2 + 0.000000002
    ensures 0.0 <= Worst([KktTerms([Some(m1), Some(m2)], SQUEEZED[0])]) <= 0.00000001
  {
    hide RowMinOf, Prod, MaxOf, Worst, KktTerms;
    var v := TwoUsed(m1, m2);
    HalfTimes(m1 - m2);
    var waste := Abs(Prod(SQUEEZED[0][0], m1 - m2));
    var kkt := KktTerms([Some(m1), Some(m2)], SQUEEZED[0]);
    assert kkt[0] == waste && kkt[1] == Abs(Prod(SQUEEZED[0][1], 0.0));
    assert kkt == [waste, 0.0];
    MaxOfTwo(waste, 0.0);
    WorstOfOneRow(kkt);
  }

  lemma HalfTimes(d: real)
    requires 0.0 <= d <= 0.000000002
    ensures 0.0 <= Abs(Prod(SQUEEZED[0][0], d)) <= 0.00000001
    ensures Abs(Prod(SQUEEZED[0][1], 0.0)) == 0.0
  {
  }

  lemma SqueezedKkt()
    ensures TIGHT.Valid() && TIGHT.Fits(SQUEEZED) && 0.0 <= Worst(KktTable(SQUEEZED, TIGHT, EPS)) <= 0.00000001
  {
    hide MarginalTable, BrokerCosts, KktTerms, Worst, Loads, Topology.Valid;
    var m1, m2 := SqueezedTable();
    SqueezedWaste(m1, m2);
    assert KktTable(SQUEEZED, TIGHT, EPS) == [KktTerms([Some(m1), Some(m2)], SQUEEZED[0])];
  }

  lemma SqueezedPriced()
    ensures TIGHT.Valid() && TIGHT.Fits(SQUEEZED)
    ensures MaxOf(Misses([PRICE, PRICE], BrokerCosts(SQUEEZED, TIGHT, EPS))) == 0.0
  {
    hide PriceMap, Loads, MarginalTable;
    var m1, m2 := SqueezedTable();
    assert Misses([PRICE, PRICE], [PRICE, PRICE]) == [0.0, 0.0];
    MaxOfTwo(0.0, 0.0);
  }

  lemma SqueezedRows()
    ensures TIGHT.Fits(SQUEEZED)
    ensures MaxOf(Misses(RowSums(SQUEEZED), TIGHT.rates)) == 0.0
    ensures Worst(Negatives(SQUEEZED)) == 0.0
    ensures Worst(Overloads(SQUEEZED, TIGHT.links)) == Worst(Strays(SQUEEZED, TIGHT.links)) == 0.0
    ensures MaxOf(Overload(SQUEEZED[0], TIGHT.brokers)) == 0.0
  {
    MaxOfTwo(SQUEEZED[0][0], SQUEEZED[0][1]);
    MaxOfTwo(0.0, 0.0);
    assert RowSums(SQUEEZED) == [1.0];
    assert Misses(RowSums(SQUEEZED), TIGHT.rates) == [0.0];
    assert Negativity(SQUEEZED[0]) == [0.0, 0.0];
    assert Negatives(SQUEEZED) == [[0.0, 0.0]];
    assert Overload(SQUEEZED[0], TIGHT.links[0]) == [0.0, 0.0] && Stray(SQUEEZED[0], TIGHT.links[0]) == [0.0, 0.0];
    assert Overloads(SQUEEZED, TIGHT.links) == [[0.0, 0.0]];
    assert Strays(SQUEEZED, TIGHT.links) == [[0.0, 0.0]];
    WorstOfOneRow([0.0, 0.0]);
    assert Overload(SQUEEZED[0], TIGHT.brokers) == [0.0, 0.0];
  }

  function Squeezed(sqrt: real -> real, rows: seq<RowReport>): Diagnosis
    requires TIGHT.Valid() && TIGHT.Fits(SQUEEZED) && |rows| == 1
  {
    Assemble(sqrt, SQUEEZED, [PRICE, PRICE], TIGHT, EPS, rows, EVEN)
  }

  lemma SqueezedFeasibility(sqrt: real -> real, rows: seq<RowReport>)
    requires TIGHT.Valid() && TIGHT.Fits(SQUEEZED) && |rows| == 1
    ensures var d := Squeezed(sqrt, rows);
      d.conservation == d.nonnegative == d.access == d.service == d.unavailable == 0.0
  {
    hide Norm, Worst, KktTable, Misses, RowSums, Overload, Negativity, Stray, BrokerCosts, MaxOf, RowDistances,
      WorstStationarity, InactiveGaps, Loads, Negatives, Overloads, Strays, Topology.Valid;
    TightValid();
    SqueezedRows();
  }

  lemma SqueezedCosts(sqrt: real -> real, rows: seq<RowReport>)
    requires TIGHT.Valid() && TIGHT.Fits(SQUEEZED) && |rows| == 1
    ensures var d := Squeezed(sqrt, rows); d.price == 0.0 && 0.0 <= d.kkt <= 0.00000001
  {
    hide Norm, Worst, KktTable, Misses, RowSums, Overload, BrokerCosts, MaxOf, RowDistances,
      WorstStationarity, InactiveGaps, Loads, Negatives, Overloads, Strays, Topology.Valid;
    SqueezedKkt();
    SqueezedPriced();
  }

  lemma SqueezedAnswers(sqrt: real -> real, rows: seq<RowReport>, v: real)
    requires IsSqrt(sqrt) && TIGHT.Valid() && TIGHT.Fits(SQUEEZED)
    requires |rows| == 1 && rows[0].stationarity == Finite(v) && v >= 0.0 && rows[0].inactiveGap == 0.0
    ensures var d := Squeezed(sqrt, rows);
      0.0 <= d.fixedPoint <= 0.000001 && d.stationarity == Finite(v) && d.inactive == 0.0
  {
    hide Norm, Worst, KktTable, Misses, RowSums, Overload, BrokerCosts, MaxOf, RowDistances,
      WorstStationarity, InactiveGaps, Loads, Negatives, Overloads, Strays, Topology.Valid;
    SqueezedDistance(sqrt);
    assert rows == [rows[0]];
    OneReport(rows[0], v);
  }

  lemma SqueezedResiduals(sqrt: real -> real, rows: seq<RowReport>, v: real)
    requires IsSqrt(sqrt) && TIGHT.Valid() && TIGHT.Fits(SQUEEZED)
    requires |rows| == 1 && rows[0].stationarity == Finite(v) && 0.0 <= v <= 0.0000001 && rows[0].inactiveGap == 0.0
    ensures Squeezed(sqrt, rows).Certified(DEFAULT_TOLERANCES)
  {
    hide Squeezed, IsSqrt, Topology.Valid, Diagnosis.Certified;
    SqueezedFeasibility(sqrt, rows);
    SqueezedCosts(sqrt, rows);
    SqueezedAnswers(sqrt, rows, v);
    WithinDefaults(Squeezed(sqrt, rows), v);
  }

  lemma SqueezedDistance(sqrt: real -> real)
    requires IsSqrt(sqrt)
    ensures 0.0 <= Norm(sqrt, RowDistances(sqrt, SQUEEZED, EVEN)) <= 0.000001
  {
    assert Minus(SQUEEZED[0], EVEN[0]) == [HAIR - SLIT, -(HAIR - SLIT)];
    SmallDistance(sqrt, SQUEEZED[0], EVEN[0], HAIR - SLIT);
  }

  // ---------------------------------------------------------------- how far it is

  lemma SqueezedInDomain()
    ensures TIGHT.Valid() && InDomain(SQUEEZED, TIGHT) && InDomain(EVEN, TIGHT) && RowSums(EVEN) == TIGHT.rates
    ensures !Unguarded(SQUEEZED, TIGHT, EPS)
  {
    hide Loads;
    TightValid();
    MaxOfTwo(0.5, 0.5);
    assert RowSums(EVEN) == [1.0];
    assert TIGHT.brokers[0] - Loads(SQUEEZED, 2)[0] < EPS;
  }

  lemma SqueezedAllowance()
    ensures TIGHT.Valid() && TIGHT.Fits(SQUEEZED)
    ensures Allowance(SQUEEZED, TIGHT, EPS, DEFAULT_TOLERANCES) <= 6000000000000000.0
  {
    hide MarginalTable, BrokerCosts, Loads, RowMinOf;
    var m1, m2 := SqueezedTable();
    var v := TwoUsed(m1, m2);
    assert CheapestRoutes(SQUEEZED, TIGHT, EPS) == [m2];
    MaxOfTwo(m2, 0.0);
  }

  lemma EvenTerms()
    ensures LinkTerms([0.5, 0.5], [1.0, 1.0]) == [1.0, 1.0]
    ensures BrokerTerms([0.5, 0.5], [0.5 + HAIR, 0.5 + HAIR]) == [1000000000000.0, 1000000000000.0]
  {
    assert 0.5 / HAIR == 1000000000000.0;
  }

  lemma EvenObjective()
    ensures InDomain(EVEN, TIGHT) && F(EVEN, TIGHT) <= 3000000000000.0
  {
    hide Loads, Sum, LinkTerms, BrokerTerms, Unguarded;
    SqueezedInDomain();
    TightValid();
    EvenTerms();
    MaxOfTwo(1.0, 1.0);
    MaxOfTwo(2.0, 2.0);
    assert RowTerms(EVEN, TIGHT) == [2.0];
    MaxOfTwo(1000000000000.0, 1000000000000.0);
  }

  /** Certified at the default tolerances, inside the open domain, and yet not nearly optimal: the guards hide too much. */
  lemma CertifiedButFar(sqrt: real -> real)
    requires IsSqrt(sqrt)
    ensures TIGHT.Valid() && InDomain(SQUEEZED, TIGHT) && InDomain(EVEN, TIGHT) && RowSums(EVEN) == TIGHT.rates
    ensures IsCertified(sqrt, SQUEEZED, [PRICE, PRICE], TIGHT, EPS, ACTIVE_TOL, DEFAULT_TOLERANCES)
    ensures !NearlyOptimal(SQUEEZED, EVEN, TIGHT, EPS, DEFAULT_TOLERANCES)
  {
    hide BestRow, Reports, Assemble, Loads, Diagnosis.Certified, Unguarded, InDomain, MarginalTable, ReportRow,
      IsSqrt, F, Allowance;
    SqueezedInDomain();
    TightResponse(sqrt);
    var v := SqueezedReports();
    assert FirstFailure(sqrt, TIGHT, [PRICE, PRICE], 0).None?;
    assert BestRows(sqrt, TIGHT, [PRICE, PRICE]) == EVEN;
    SqueezedResiduals(sqrt, Reports(SQUEEZED, TIGHT, EPS, ACTIVE_TOL), v);
    FarFromEven();
  }

  lemma FarFromEven()
    ensures TIGHT.Valid() && TIGHT.Fits(SQUEEZED) && InDomain(EVEN, TIGHT)
    ensures !NearlyOptimal(SQUEEZED, EVEN, TIGHT, EPS, DEFAULT_TOLERANCES)
  {
    hide F, Allowance, Loads;
    SqueezedInDomain();
    TightValid();
    SqueezedAllowance();
    EvenObjective();
    TermsBelowF(SQUEEZED, TIGHT);
    FilledBroker();
  }

  lemma FilledBroker()
    ensures Congestion(SQUEEZED[0][0], 0.5 + HAIR) >= 10000000000000000000.0
  {
  }
}
