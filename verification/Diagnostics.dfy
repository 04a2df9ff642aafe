/** The Proposition 1 residuals of a state and the certificate (src/controller/diagnostics.py). */
module Diagnostics {
  import opened Vectors
  import opened Threshold
  import opened Topologies
  import opened Objective
  import opened Certificate
  import opened Prices
  import opened BestResponse
  import opened Synchronous

  datatype Tolerances = Tolerances(
    conservation: real, nonnegative: real, access: real, service: real, price: real, fixedPoint: real,
    kkt: real, stationarity: real, inactive: real, unavailable: real)

  const DEFAULT_TOLERANCES := Tolerances(
    0.00000001, 0.0000000001, 0.0000000001, 0.0000000001, 0.00000001, 0.000001,
    0.00000001, 0.000001, 0.00000001, 0.0)

  const ACTIVE_TOL: real := 0.0000001

  /** One source: mean cost of its used routes, their spread, and how far an unused route undercuts them. */
  datatype RowReport = RowReport(alpha: Option<real>, spread: Extended, stationarity: Extended, inactiveGap: real)

  datatype Diagnosis = Diagnosis(
    conservation: real, nonnegative: real, access: real, service: real, price: real, fixedPoint: real,
    kkt: real, stationarity: Extended, inactive: real, unavailable: real,
    rows: seq<RowReport>, responses: Matrix) {

    predicate Certified(tol: Tolerances) {
      && Abs(conservation) <= tol.conservation
      && Abs(nonnegative) <= tol.nonnegative
      && Abs(access) <= tol.access
      && Abs(service) <= tol.service
      && Abs(price) <= tol.price
      && Abs(fixedPoint) <= tol.fixedPoint
      && Abs(kkt) <= tol.kkt
      && stationarity.Finite? && Abs(stationarity.value) <= tol.stationarity
      && Abs(inactive) <= tol.inactive
      && Abs(unavailable) <= tol.unavailable
    }
  }

  // ---------------------------------------------------------------- marginal costs

  /** C_j with its guard. */
  function BrokerCosts(a: Matrix, t: Topology, eps: real): (c: Vec)
    requires t.Fits(a) && eps > 0.0
    ensures |c| == t.M()
    ensures forall j :: 0 <= j < t.M() ==> c[j] == PriceMap(Loads(a, t.M())[j], t.brokers[j], eps)
  {
    seq(t.M(), j requires 0 <= j < t.M() => PriceMap(Loads(a, t.M())[j], t.brokers[j], eps))
  }

  /** M_ij = C_ij + C_j along one row; absent on missing links. */
  function MarginalRow(x: Vec, mu: Vec, c: Vec, eps: real): (m: seq<Option<real>>)
    requires |x| == |mu| == |c| && eps > 0.0
    ensures |m| == |x|
    ensures forall j :: 0 <= j < |x| ==>
      m[j] == if mu[j] > 0.0 then Some(PriceMap(x[j], mu[j], eps) + c[j]) else None
  {
    seq(|x|, j requires 0 <= j < |x| => if mu[j] > 0.0 then Some(PriceMap(x[j], mu[j], eps) + c[j]) else None)
  }

  function RowMinOf(m: seq<Option<real>>): real {
    if |Known(m)| == 0 then 0.0 else MinOf(Known(m))
  }

  // ---------------------------------------------------------------- residuals

  /** The entries of m on routes whose flow is above the activity threshold, or not above it. */
  function Pick(m: seq<Option<real>>, x: Vec, activeTol: real, used: bool): (v: Vec)
    requires |m| == |x|
  {
    Known(seq(|m|, j requires 0 <= j < |m| => if (x[j] > activeTol) == used then m[j] else None))
  }

  function Deviations(v: Vec, mean: real): (d: Vec)
    ensures |d| == |v|
  {
    seq(|v|, k requires 0 <= k < |v| => Abs(v[k] - mean))
  }

  function ReportRow(m: seq<Option<real>>, x: Vec, activeTol: real): RowReport
    requires |m| == |x|
  {
    var used, unused := Pick(m, x, activeTol, true), Pick(m, x, activeTol, false);
    if |used| == 0 then RowReport(None, Infinite, Infinite, 0.0)
    else
      var mean := Sum(used) / |used| as real;
      RowReport(Some(mean), Finite(MaxOf(used) - MinOf(used)), Finite(MaxOf(Deviations(used, mean))),
                if |unused| == 0 then 0.0 else Max(0.0, MinOf(used) - MinOf(unused)))
  }

  /** The worst stationarity over the sources: infinite as soon as one source uses no route. */
  function WorstStationarity(rows: seq<RowReport>): Extended {
    if |rows| == 0 then Finite(0.0)
    else
      var rest := WorstStationarity(rows[1..]);
      if rows[0].stationarity.Infinite? || rest.Infinite? then Infinite
      else Finite(Max(rows[0].stationarity.value, rest.value))
  }

  function KktTerms(m: seq<Option<real>>, x: Vec): (v: Vec)
    requires |m| == |x|
    ensures |v| == |x|
    ensures forall j :: 0 <= j < |x| ==>
      v[j] == if m[j].Some? then Abs(Prod(x[j], m[j].value - RowMinOf(m))) else 0.0
  {
    seq(|x|, j requires 0 <= j < |x| => if m[j].Some? then Abs(Prod(x[j], m[j].value - RowMinOf(m))) else 0.0)
  }

  function Negativity(x: Vec): (v: Vec)
    ensures |v| == |x|
  {
    seq(|x|, j requires 0 <= j < |x| => Max(-x[j], 0.0))
  }

  function Overload(x: Vec, mu: Vec): (v: Vec)
    requires |x| == |mu|
    ensures |v| == |x|
  {
    seq(|x|, j requires 0 <= j < |x| => if mu[j] > 0.0 then Max(x[j] - mu[j], 0.0) else 0.0)
  }

  function Stray(x: Vec, mu: Vec): (v: Vec)
    requires |x| == |mu|
    ensures |v| == |x|
  {
    seq(|x|, j requires 0 <= j < |x| => if mu[j] > 0.0 then 0.0 else Abs(x[j]))
  }

  function Misses(sums: Vec, rates: Vec): (v: Vec)
    requires |sums| == |rates|
    ensures |v| == |sums|
    ensures forall i :: 0 <= i < |sums| ==> v[i] == Abs(sums[i] - rates[i])
  {
    seq(|sums|, i requires 0 <= i < |sums| => Abs(sums[i] - rates[i]))
  }

  /** The largest entry over all rows of a table. */
  function Worst(rows: Matrix): (w: real)
    requires |rows| > 0 && forall i :: 0 <= i < |rows| ==> |rows[i]| > 0
    ensures forall i, j :: 0 <= i < |rows| && 0 <= j < |rows[i]| ==> rows[i][j] <= w
    ensures exists i, j :: 0 <= i < |rows| && 0 <= j < |rows[i]| && rows[i][j] == w
  {
    var tops := seq(|rows|, i requires 0 <= i < |rows| => MaxOf(rows[i]));
    WorstIs(rows, tops);
    MaxOf(tops)
  }

  lemma WorstIs(rows: Matrix, tops: Vec)
    requires |rows| > 0 && |tops| == |rows|
    requires forall i :: 0 <= i < |rows| ==> |rows[i]| > 0 && tops[i] == MaxOf(rows[i])
    ensures forall i, j :: 0 <= i < |rows| && 0 <= j < |rows[i]| ==> rows[i][j] <= MaxOf(tops)
    ensures exists i, j :: 0 <= i < |rows| && 0 <= j < |rows[i]| && rows[i][j] == MaxOf(tops)
  {
    forall i, j | 0 <= i < |rows| && 0 <= j < |rows[i]|
      ensures rows[i][j] <= MaxOf(tops)
    {
      assert rows[i][j] in rows[i] && tops[i] in tops;
    }
    var k :| 0 <= k < |tops| && tops[k] == MaxOf(tops);
    assert MaxOf(rows[k]) in rows[k];
    var j :| 0 <= j < |rows[k]| && rows[k][j] == MaxOf(rows[k]);
  }

  function Norm(sqrt: real -> real, v: Vec): real {
    sqrt(Sum(Squares(v)))
  }

  function RowDistances(sqrt: real -> real, a: Matrix, br: Matrix): (v: Vec)
    requires |a| == |br| && forall i :: 0 <= i < |a| ==> |a[i]| == |br[i]|
    ensures |v| == |a|
  {
    seq(|a|, i requires 0 <= i < |a| => Norm(sqrt, Minus(a[i], br[i])))
  }

  function MarginalTable(a: Matrix, t: Topology, eps: real): (m: seq<seq<Option<real>>>)
    requires t.Valid() && t.Fits(a) && eps > 0.0
    ensures |m| == t.N()
    ensures forall i :: 0 <= i < t.N() ==> m[i] == MarginalRow(a[i], t.links[i], BrokerCosts(a, t, eps), eps)
  {
    seq(t.N(), i requires 0 <= i < t.N() => MarginalRow(a[i], t.links[i], BrokerCosts(a, t, eps), eps))
  }

  function KktTable(a: Matrix, t: Topology, eps: real): (k: Matrix)
    requires t.Valid() && t.Fits(a) && eps > 0.0
    ensures |k| == t.N()
    ensures forall i :: 0 <= i < t.N() ==> k[i] == KktTerms(MarginalTable(a, t, eps)[i], a[i])
  {
    seq(t.N(), i requires 0 <= i < t.N() => KktTerms(MarginalTable(a, t, eps)[i], a[i]))
  }

  function InactiveGaps(rows: seq<RowReport>): (v: Vec)
    ensures |v| == |rows|
  {
    seq(|rows|, i requires 0 <= i < |rows| => rows[i].inactiveGap)
  }

  function Negatives(a: Matrix): (v: Matrix)
    ensures |v| == |a| && forall i :: 0 <= i < |a| ==> v[i] == Negativity(a[i])
  {
    seq(|a|, i requires 0 <= i < |a| => Negativity(a[i]))
  }

  function Overloads(a: Matrix, mu: Matrix): (v: Matrix)
    requires |a| == |mu| && forall i :: 0 <= i < |a| ==> |a[i]| == |mu[i]|
    ensures |v| == |a| && forall i :: 0 <= i < |a| ==> v[i] == Overload(a[i], mu[i])
  {
    seq(|a|, i requires 0 <= i < |a| => Overload(a[i], mu[i]))
  }

  function Strays(a: Matrix, mu: Matrix): (v: Matrix)
    requires |a| == |mu| && forall i :: 0 <= i < |a| ==> |a[i]| == |mu[i]|
    ensures |v| == |a| && forall i :: 0 <= i < |a| ==> v[i] == Stray(a[i], mu[i])
  {
    seq(|a|, i requires 0 <= i < |a| => Stray(a[i], mu[i]))
  }

  /** The residuals, given the per-source reports and the sources' best responses to the prices. */
  function Assemble(sqrt: real -> real, a: Matrix, prices: Vec, t: Topology, eps: real,
                    rows: seq<RowReport>, br: Matrix): (d: Diagnosis)
    requires t.Valid() && t.Fits(a) && t.Fits(br) && |prices| == t.M() && |rows| == t.N() && eps > 0.0
    ensures d.conservation == MaxOf(Misses(RowSums(a), t.rates))
    ensures d.kkt == Worst(KktTable(a, t, eps))
  {
    Diagnosis(
      MaxOf(Misses(RowSums(a), t.rates)),
      Worst(Negatives(a)),
      Worst(Overloads(a, t.links)),
      MaxOf(Overload(Loads(a, t.M()), t.brokers)),
      MaxOf(Misses(prices, BrokerCosts(a, t, eps))),
      Norm(sqrt, RowDistances(sqrt, a, br)),
      Worst(KktTable(a, t, eps)),
      WorstStationarity(rows),
      MaxOf(InactiveGaps(rows)),
      Worst(Strays(a, t.links)),
      rows, br)
  }

  function Reports(a: Matrix, t: Topology, eps: real, activeTol: real): (r: seq<RowReport>)
    requires t.Valid() && t.Fits(a) && eps > 0.0
    ensures |r| == t.N()
    ensures forall i :: 0 <= i < t.N() ==> r[i] == ReportRow(MarginalTable(a, t, eps)[i], a[i], activeTol)
  {
    seq(t.N(), i requires 0 <= i < t.N() => ReportRow(MarginalTable(a, t, eps)[i], a[i], activeTol))
  }

  /** The first source whose best response fails, if any. */
  function FirstFailure(sqrt: real -> real, t: Topology, prices: Vec, i: nat): (r: Option<nat>)
    requires IsSqrt(sqrt) && t.Valid() && |prices| == t.M() && i <= t.N()
    ensures r.Some? ==> i <= r.value < t.N() && !BestRow(sqrt, t, prices, r.value).Ok?
    ensures r.None? <==> forall k :: i <= k < t.N() ==> BestRow(sqrt, t, prices, k).Ok?
    decreases t.N() - i
  {
    if i == t.N() then None
    else if !BestRow(sqrt, t, prices, i).Ok? then Some(i)
    else FirstFailure(sqrt, t, prices, i + 1)
  }

  function BestRows(sqrt: real -> real, t: Topology, prices: Vec): (br: Matrix)
    requires IsSqrt(sqrt) && t.Valid() && |prices| == t.M()
    requires forall i :: 0 <= i < t.N() ==> BestRow(sqrt, t, prices, i).Ok?
    ensures t.Fits(br)
    ensures forall i :: 0 <= i < t.N() ==> br[i] == BestRow(sqrt, t, prices, i).value.flow
  {
    seq(t.N(), i requires 0 <= i < t.N() => BestRow(sqrt, t, prices, i).value.flow)
  }

  /** What compute_diagnostics returns; a best response that raises makes it raise. */
  function Diagnose(sqrt: real -> real, a: Matrix, prices: Vec, t: Topology, eps: real, activeTol: real)
    : (r: Option<Diagnosis>)
    requires IsSqrt(sqrt) && t.Valid() && t.Fits(a) && |prices| == t.M() && eps > 0.0
  {
    if FirstFailure(sqrt, t, prices, 0).Some? then None
    else Some(Assemble(sqrt, a, prices, t, eps, Reports(a, t, eps, activeTol), BestRows(sqrt, t, prices)))
  }

  method ComputeDiagnostics(sqrt: real -> real, a: Matrix, prices: Vec, t: Topology, eps: real, activeTol: real)
    returns (r: Option<Diagnosis>)
    requires IsSqrt(sqrt) && t.Valid() && t.Fits(a) && |prices| == t.M() && eps > 0.0
    ensures r == Diagnose(sqrt, a, prices, t, eps, activeTol)
  {
    hide SolveAvailable, ReportRow, Assemble;
    var table := MarginalTable(a, t, eps);
    var rows: seq<RowReport> := [];
    for i := 0 to t.N()
      invariant |rows| == i
      invariant forall k :: 0 <= k < i ==> rows[k] == ReportRow(table[k], a[k], activeTol)
    {
      rows := rows + [ReportRow(table[i], a[i], activeTol)];
    }
    assert rows == Reports(a, t, eps, activeTol);
    var br: Matrix := [];
    for i := 0 to t.N()
      invariant |br| == i
      invariant forall k :: 0 <= k < i ==> BestRow(sqrt, t, prices, k).Ok? && br[k] == BestRow(sqrt, t, prices, k).value.flow
    {
      var row := BestResponseAvailable(SourceProblem(sqrt, t, prices, i), FLOW_TOL, MAX_ITER);
      assert row == BestRow(sqrt, t, prices, i);
      if !row.Ok? {
        return None;
      }
      br := br + [row.value.flow];
    }
    assert br == BestRows(sqrt, t, prices);
    return Some(Assemble(sqrt, a, prices, t, eps, rows, br));
  }

  // ---------------------------------------------------------------- what the residuals certify

  /** No guard is active: every link and broker is at least eps away from its capacity. */
  ghost predicate Unguarded(a: Matrix, t: Topology, eps: real)
    requires t.Valid() && t.Fits(a)
  {
    && (forall i, j :: 0 <= i < t.N() && 0 <= j < t.M() && t.links[i][j] > 0.0 ==> t.links[i][j] - a[i][j] >= eps)
    && (forall j :: 0 <= j < t.M() ==> t.brokers[j] - Loads(a, t.M())[j] >= eps)
  }

  function CheapestRoutes(a: Matrix, t: Topology, eps: real): (m: Vec)
    requires t.Valid() && t.Fits(a) && eps > 0.0
    ensures |m| == t.N()
    ensures forall i :: 0 <= i < t.N() ==> m[i] == RowMinOf(MarginalTable(a, t, eps)[i])
  {
    seq(t.N(), i requires 0 <= i < t.N() => RowMinOf(MarginalTable(a, t, eps)[i]))
  }

  lemma TableIsTrue(a: Matrix, t: Topology, eps: real, i: nat, j: nat)
    requires t.Valid() && InDomain(a, t) && eps > 0.0 && Unguarded(a, t, eps)
    requires i < t.N() && j < t.M()
    ensures MarginalTable(a, t, eps)[i][j]
      == if t.links[i][j] > 0.0 then Some(LinkMarginal(a, t, i, j)) else None
  {
    hide Loads, Marginal, PriceMap;
    if t.links[i][j] > 0.0 {
      PriceMapUnguarded(a[i][j], t.links[i][j], eps);
      PriceMapUnguarded(Loads(a, t.M())[j], t.brokers[j], eps);
    }
  }

  lemma CheapestAreRowMins(a: Matrix, t: Topology, eps: real)
    requires t.Valid() && InDomain(a, t) && eps > 0.0 && Unguarded(a, t, eps)
    ensures RowMins(a, t, CheapestRoutes(a, t, eps))
  {
    hide LinkMarginal, MarginalTable;
    var m := CheapestRoutes(a, t, eps);
    forall i | 0 <= i < t.N()
      ensures IsRowMin(a, t, i, m[i])
    {
      var row := MarginalTable(a, t, eps)[i];
      forall j | 0 <= j < t.M()
        ensures row[j] == if t.links[i][j] > 0.0 then Some(LinkMarginal(a, t, i, j)) else None
      {
        TableIsTrue(a, t, eps, i, j);
      }
      RowMinMeans(row);
    }
  }

  lemma RowMinMeans(row: seq<Option<real>>)
    ensures forall j :: 0 <= j < |row| && row[j].Some? ==> RowMinOf(row) <= row[j].value
    ensures (exists j :: 0 <= j < |row| && row[j] == Some(RowMinOf(row)))
      || (RowMinOf(row) == 0.0 && forall j :: 0 <= j < |row| ==> row[j].None?)
  {
    var v := Known(row);
    forall j | 0 <= j < |row| && row[j].Some?
      ensures RowMinOf(row) <= row[j].value
    {
      assert Some(row[j].value) in row;
    }
    if |v| == 0 {
      assert forall j :: 0 <= j < |row| && row[j].Some? ==> Some(row[j].value) in row;
    } else {
      assert MinOf(v) in v;
    }
  }

  lemma KktEntry(a: Matrix, t: Topology, eps: real, k: real, i: nat, j: nat)
    requires t.Valid() && InDomain(a, t) && eps > 0.0 && Unguarded(a, t, eps)
    requires Worst(KktTable(a, t, eps)) <= k
    requires i < t.N() && j < t.M() && t.links[i][j] > 0.0
    ensures WastesAtMost(a, t, i, j, CheapestRoutes(a, t, eps)[i], k)
  {
    hide LinkMarginal, MarginalTable, Prod, CheapestRoutes, KktTable, Unguarded, RowMinOf, KktTerms, Worst;
    TableIsTrue(a, t, eps, i, j);
    var row := MarginalTable(a, t, eps)[i];
    assert KktTable(a, t, eps)[i][j] == Abs(Prod(a[i][j], row[j].value - RowMinOf(row)));
  }

  lemma KktBound(a: Matrix, t: Topology, eps: real, k: real)
    requires t.Valid() && InDomain(a, t) && eps > 0.0 && Unguarded(a, t, eps)
    requires Worst(KktTable(a, t, eps)) <= k
    ensures Complementary(a, t, CheapestRoutes(a, t, eps), k)
  {
    hide WastesAtMost, Worst, CheapestRoutes, KktTable, Unguarded;
    forall i, j | 0 <= i < t.N() && 0 <= j < t.M() && t.links[i][j] > 0.0
      ensures WastesAtMost(a, t, i, j, CheapestRoutes(a, t, eps)[i], k)
    {
      KktEntry(a, t, eps, k, i, j);
    }
  }

  /** The state's diagnostics say certified. */
  ghost predicate IsCertified(sqrt: real -> real, a: Matrix, prices: Vec, t: Topology, eps: real, activeTol: real,
                              tol: Tolerances)
    requires IsSqrt(sqrt) && t.Valid() && t.Fits(a) && |prices| == t.M() && eps > 0.0
  {
    var d := Diagnose(sqrt, a, prices, t, eps, activeTol);
    d.Some? && d.value.Certified(tol)
  }

  lemma CertifiedKkt(sqrt: real -> real, a: Matrix, prices: Vec, t: Topology, eps: real, activeTol: real,
                     tol: Tolerances)
    requires IsSqrt(sqrt) && t.Valid() && t.Fits(a) && |prices| == t.M() && eps > 0.0
    ensures IsCertified(sqrt, a, prices, t, eps, activeTol, tol) ==>
      Worst(KktTable(a, t, eps)) <= tol.kkt && tol.kkt >= 0.0
  {
    hide Worst, Sum, BestRow, KktTable, Assemble, Reports, FirstFailure, BestRows;
  }

  lemma CertifiedConserves(sqrt: real -> real, a: Matrix, prices: Vec, t: Topology, eps: real, activeTol: real,
                           tol: Tolerances)
    requires IsSqrt(sqrt) && t.Valid() && t.Fits(a) && |prices| == t.M() && eps > 0.0
    ensures IsCertified(sqrt, a, prices, t, eps, activeTol, tol) ==> Conserves(a, t, tol.conservation)
  {
    hide Worst, Sum, BestRow, KktTable, Assemble, Reports, FirstFailure, BestRows;
    var miss := Misses(RowSums(a), t.rates);
    assert forall i :: 0 <= i < t.N() ==> miss[i] in miss;
  }

  /** What a certified state may be worse than the optimum: N M times one tolerance, and the other times the cheapest routes. */
  function Allowance(a: Matrix, t: Topology, eps: real, tol: Tolerances): real
    requires t.Valid() && t.Fits(a) && eps > 0.0
  {
    Prod(t.N() as real, Prod(t.M() as real, tol.kkt)) + Prod(tol.conservation, Sum(CheapestRoutes(a, t, eps)))
  }
}
