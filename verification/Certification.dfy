/** What a certificate says of routing, prices and topology, residual by residual: no more and no less. */
module Certification {
  import opened Vectors
  import opened Algebra
  import opened Threshold
  import opened Topologies
  import opened Objective
  import opened Prices
  import opened Synchronous
  import opened Diagnostics
  import opened Changes

  // ---------------------------------------------------------------- used and unused routes of one source

  /** A route of known cost that carries more than the activity threshold, or does not. */
  predicate Uses(m: seq<Option<real>>, x: Vec, activeTol: real, used: bool, j: nat)
    requires |m| == |x|
  {
    j < |m| && m[j].Some? && (x[j] > activeTol) == used
  }

  /** The costs of the used routes, each less the mean, added up. */
  function Deviation(m: seq<Option<real>>, x: Vec, activeTol: real, mean: real): real
    requires |m| == |x|
  {
    if |m| == 0 then 0.0
    else (if m[0].Some? && x[0] > activeTol then m[0].value - mean else 0.0)
         + Deviation(m[1..], x[1..], activeTol, mean)
  }

  lemma PickMeans(m: seq<Option<real>>, x: Vec, activeTol: real, used: bool)
    requires |m| == |x|
    ensures forall j: nat :: Uses(m, x, activeTol, used, j) ==> m[j].value in Pick(m, x, activeTol, used)
    ensures forall v :: v in Pick(m, x, activeTol, used) ==>
      exists j: nat :: Uses(m, x, activeTol, used, j) && m[j].value == v
  {
    var kept := seq(|m|, j requires 0 <= j < |m| => if (x[j] > activeTol) == used then m[j] else None);
    forall j: nat | Uses(m, x, activeTol, used, j)
      ensures m[j].value in Pick(m, x, activeTol, used)
    {
      assert kept[j] == Some(m[j].value);
    }
    forall v | v in Pick(m, x, activeTol, used)
      ensures exists j: nat :: Uses(m, x, activeTol, used, j) && m[j].value == v
    {
      var j: nat :| j < |m| && kept[j] == Some(v);
      assert Uses(m, x, activeTol, used, j);
    }
  }

  lemma {:induction false} PickDeviation(m: seq<Option<real>>, x: Vec, activeTol: real, mean: real)
    requires |m| == |x|
    ensures var used := Pick(m, x, activeTol, true);
      Deviation(m, x, activeTol, mean) == Sum(used) - Prod(|used| as real, mean)
  {
    if |m| > 0 {
      hide Pick, Prod;
      var rest := Pick(m[1..], x[1..], activeTol, true);
      PickDeviation(m[1..], x[1..], activeTol, mean);
      PickTail(m, x, activeTol);
      if m[0].Some? && x[0] > activeTol {
        assert ([m[0].value] + rest)[1..] == rest;
        ProdSucc(|rest| as real, mean);
      } else {
        assert [] + rest == rest;
      }
    }
  }

  lemma Picked(m: seq<Option<real>>, x: Vec, activeTol: real, used: bool, v: real) returns (j: nat)
    requires |m| == |x| && v in Pick(m, x, activeTol, used)
    ensures Uses(m, x, activeTol, used, j) && m[j].value == v
  {
    PickMeans(m, x, activeTol, used);
    j :| Uses(m, x, activeTol, used, j) && m[j].value == v;
  }

  lemma PickTail(m: seq<Option<real>>, x: Vec, activeTol: real)
    requires |m| == |x| > 0
    ensures Pick(m, x, activeTol, true)
      == (if m[0].Some? && x[0] > activeTol then [m[0].value] else []) + Pick(m[1..], x[1..], activeTol, true)
  {
    var kept := seq(|m|, j requires 0 <= j < |m| => if (x[j] > activeTol) == true then m[j] else None);
    var m', x' := m[1..], x[1..];
    assert kept[1..] == seq(|m'|, j requires 0 <= j < |m'| => if (x'[j] > activeTol) == true then m'[j] else None);
  }

  /** The mean cost of the used routes: the number from which their deviations cancel. */
  ghost predicate IsMean(m: seq<Option<real>>, x: Vec, activeTol: real, mean: real)
    requires |m| == |x|
  {
    (exists j: nat :: Uses(m, x, activeTol, true, j)) && Deviation(m, x, activeTol, mean) == 0.0
  }

  lemma MeanIs(m: seq<Option<real>>, x: Vec, activeTol: real)
    requires |m| == |x|
    ensures var used := Pick(m, x, activeTol, true);
      && (|used| > 0 <==> exists j: nat :: Uses(m, x, activeTol, true, j))
      && (|used| > 0 ==> forall mean :: IsMean(m, x, activeTol, mean) <==> mean == Sum(used) / |used| as real)
  {
    hide Deviation, Pick, Sum;
    var used := Pick(m, x, activeTol, true);
    PickMeans(m, x, activeTol, true);
    if |used| > 0 {
      var j := Picked(m, x, activeTol, true, used[0]);
      forall mean
        ensures IsMean(m, x, activeTol, mean) <==> mean == Sum(used) / |used| as real
      {
        PickDeviation(m, x, activeTol, mean);
        Cancels(|used| as real, Sum(used), mean);
      }
    }
  }

  lemma Cancels(n: real, total: real, mean: real)
    requires n > 0.0
    ensures total - Prod(n, mean) == 0.0 <==> mean == total / n
  {
    DivMul(total, n);
    if Prod(n, mean) == total {
      DivIs(total, n, mean);
    }
  }

  /** All used routes cost within tol of their mean, and there are some. */
  ghost predicate Stationary(m: seq<Option<real>>, x: Vec, activeTol: real, tol: real)
    requires |m| == |x|
  {
    exists mean :: IsMean(m, x, activeTol, mean)
      && forall j: nat :: Uses(m, x, activeTol, true, j) ==> Abs(m[j].value - mean) <= tol
  }

  /** No unused route undercuts every used one by more than tol. */
  ghost predicate NotUndercut(m: seq<Option<real>>, x: Vec, activeTol: real, tol: real)
    requires |m| == |x|
  {
    (exists j: nat :: Uses(m, x, activeTol, true, j)) ==>
      forall k: nat :: Uses(m, x, activeTol, false, k) ==>
        exists j: nat :: Uses(m, x, activeTol, true, j) && m[j].value <= m[k].value + tol
  }

  lemma StationaryIs(m: seq<Option<real>>, x: Vec, activeTol: real, tol: real)
    requires |m| == |x|
    ensures var r := ReportRow(m, x, activeTol);
      r.stationarity.Finite? && r.stationarity.value <= tol <==> Stationary(m, x, activeTol, tol)
  {
    hide Pick, Sum, IsMean, MaxOf;
    var used := Pick(m, x, activeTol, true);
    MeanIs(m, x, activeTol);
    if |used| > 0 {
      var mean := Sum(used) / |used| as real;
      assert IsMean(m, x, activeTol, mean);
      LargestBelow(Deviations(used, mean), tol);
      DeviationsBelow(m, x, activeTol, mean, tol);
    } else {
      NoMean(m, x, activeTol);
    }
  }

  lemma NoMean(m: seq<Option<real>>, x: Vec, activeTol: real)
    requires |m| == |x| && Pick(m, x, activeTol, true) == []
    ensures forall mean :: !IsMean(m, x, activeTol, mean)
  {
    hide Pick;
    MeanIs(m, x, activeTol);
  }

  lemma DeviationsBelow(m: seq<Option<real>>, x: Vec, activeTol: real, mean: real, tol: real)
    requires |m| == |x|
    ensures var used := Pick(m, x, activeTol, true);
      (forall k :: 0 <= k < |used| ==> Deviations(used, mean)[k] <= tol)
      <==> forall j: nat :: Uses(m, x, activeTol, true, j) ==> Abs(m[j].value - mean) <= tol
  {
    hide Pick;
    var used := Pick(m, x, activeTol, true);
    var d := Deviations(used, mean);
    PickMeans(m, x, activeTol, true);
    assert forall k :: 0 <= k < |used| ==> d[k] == Abs(used[k] - mean) && used[k] in used;
    if forall k :: 0 <= k < |used| ==> d[k] <= tol {
      forall j: nat | Uses(m, x, activeTol, true, j)
        ensures Abs(m[j].value - mean) <= tol
      {
        var k :| 0 <= k < |used| && used[k] == m[j].value;
        assert d[k] <= tol;
      }
    }
  }

  lemma UndercutIs(m: seq<Option<real>>, x: Vec, activeTol: real, tol: real)
    requires |m| == |x| && tol >= 0.0
    ensures ReportRow(m, x, activeTol).inactiveGap <= tol <==> NotUndercut(m, x, activeTol, tol)
    ensures ReportRow(m, x, activeTol).inactiveGap >= 0.0
  {
    hide Pick, Sum;
    var used, unused := Pick(m, x, activeTol, true), Pick(m, x, activeTol, false);
    PickMeans(m, x, activeTol, true);
    PickMeans(m, x, activeTol, false);
    if |used| > 0 {
      var j := Picked(m, x, activeTol, true, MinOf(used));
      if |unused| > 0 {
        var k := Picked(m, x, activeTol, false, MinOf(unused));
      }
    }
  }

  /** The reported mean and spread of one source. */
  lemma ReportMeans(m: seq<Option<real>>, x: Vec, activeTol: real)
    requires |m| == |x|
    ensures var r := ReportRow(m, x, activeTol);
      if exists j: nat :: Uses(m, x, activeTol, true, j) then
        && r.alpha.Some? && IsMean(m, x, activeTol, r.alpha.value) && r.spread.Finite?
        && (forall j: nat, k: nat :: Uses(m, x, activeTol, true, j) && Uses(m, x, activeTol, true, k) ==>
              m[j].value - m[k].value <= r.spread.value)
        && exists j: nat, k: nat :: Uses(m, x, activeTol, true, j) && Uses(m, x, activeTol, true, k)
             && m[j].value - m[k].value == r.spread.value
      else r == RowReport(None, Infinite, Infinite, 0.0)
  {
    hide Pick, Deviation, Sum;
    var used := Pick(m, x, activeTol, true);
    MeanIs(m, x, activeTol);
    PickMeans(m, x, activeTol, true);
    if |used| > 0 {
      var j := Picked(m, x, activeTol, true, MaxOf(used));
      var k := Picked(m, x, activeTol, true, MinOf(used));
      assert ReportRow(m, x, activeTol).spread == Finite(m[j].value - m[k].value);
    }
  }

  // ---------------------------------------------------------------- largest entries

  lemma LargestBelow(v: Vec, tol: real)
    requires |v| > 0
    ensures MaxOf(v) <= tol <==> forall k :: 0 <= k < |v| ==> v[k] <= tol
  {
    assert forall k :: 0 <= k < |v| ==> v[k] in v;
  }

  lemma WorstBelow(rows: Matrix, tol: real)
    requires |rows| > 0 && forall i :: 0 <= i < |rows| ==> |rows[i]| > 0
    ensures Worst(rows) <= tol <==> forall i, j :: 0 <= i < |rows| && 0 <= j < |rows[i]| ==> rows[i][j] <= tol
  {
  }

  // ---------------------------------------------------------------- the residuals one by one

  ghost predicate RatesMet(a: Matrix, t: Topology, tol: real)
    requires t.Fits(a)
  {
    forall i :: 0 <= i < t.N() ==> Abs(Sum(a[i]) - t.rates[i]) <= tol
  }

  ghost predicate FlowsSigned(a: Matrix, t: Topology, tol: real)
    requires t.Fits(a)
  {
    forall i, j :: 0 <= i < t.N() && 0 <= j < t.M() ==> a[i][j] >= -tol
  }

  ghost predicate LinksWithin(a: Matrix, t: Topology, tol: real)
    requires Shape(t.links, t.N(), t.M()) && t.Fits(a)
  {
    forall i, j :: 0 <= i < t.N() && 0 <= j < t.M() && t.links[i][j] > 0.0 ==> a[i][j] <= t.links[i][j] + tol
  }

  ghost predicate BrokersWithin(a: Matrix, t: Topology, tol: real)
    requires t.Fits(a)
  {
    forall j :: 0 <= j < t.M() ==> Loads(a, t.M())[j] <= t.brokers[j] + tol
  }

  ghost predicate PricesTrue(a: Matrix, prices: Vec, t: Topology, eps: real, tol: real)
    requires t.Fits(a) && |prices| == t.M() && eps > 0.0
  {
    forall j :: 0 <= j < t.M() ==> Abs(prices[j] - PriceMap(Loads(a, t.M())[j], t.brokers[j], eps)) <= tol
  }

  ghost predicate NoneStray(a: Matrix, t: Topology, tol: real)
    requires Shape(t.links, t.N(), t.M()) && t.Fits(a)
  {
    forall i, j :: 0 <= i < t.N() && 0 <= j < t.M() && t.links[i][j] <= 0.0 ==> Abs(a[i][j]) <= tol
  }

  lemma RatesMetIs(a: Matrix, t: Topology, tol: real)
    requires t.Valid() && t.Fits(a)
    ensures Abs(MaxOf(Misses(RowSums(a), t.rates))) <= tol <==> RatesMet(a, t, tol)
  {
    hide Sum, MaxOf;
    var v := Misses(RowSums(a), t.rates);
    LargestBelow(v, tol);
    assert v[0] in v;
  }

  lemma FlowsSignedIs(a: Matrix, t: Topology, tol: real)
    requires t.Valid() && t.Fits(a) && tol >= 0.0
    ensures Abs(Worst(Negatives(a))) <= tol <==> FlowsSigned(a, t, tol)
  {
    hide Worst;
    var rows := Negatives(a);
    WorstBelow(rows, tol);
    assert forall i, j :: 0 <= i < t.N() && 0 <= j < t.M() ==> rows[i][j] == Max(-a[i][j], 0.0);
    assert Worst(rows) >= rows[0][0];
  }

  lemma LinksWithinIs(a: Matrix, t: Topology, tol: real)
    requires t.Valid() && t.Fits(a) && tol >= 0.0
    ensures Abs(Worst(Overloads(a, t.links))) <= tol <==> LinksWithin(a, t, tol)
  {
    hide Worst;
    var rows := Overloads(a, t.links);
    WorstBelow(rows, tol);
    assert forall i, j :: 0 <= i < t.N() && 0 <= j < t.M() ==>
      rows[i][j] == if t.links[i][j] > 0.0 then Max(a[i][j] - t.links[i][j], 0.0) else 0.0;
    assert Worst(rows) >= rows[0][0];
  }

  lemma BrokersWithinIs(a: Matrix, t: Topology, tol: real)
    requires t.Valid() && t.Fits(a) && tol >= 0.0
    ensures Abs(MaxOf(Overload(Loads(a, t.M()), t.brokers))) <= tol <==> BrokersWithin(a, t, tol)
  {
    hide Loads, MaxOf;
    var v := Overload(Loads(a, t.M()), t.brokers);
    LargestBelow(v, tol);
    assert forall j :: 0 <= j < t.M() ==> v[j] == Max(Loads(a, t.M())[j] - t.brokers[j], 0.0);
    assert v[0] in v;
  }

  lemma PricesTrueIs(a: Matrix, prices: Vec, t: Topology, eps: real, tol: real)
    requires t.Valid() && t.Fits(a) && |prices| == t.M() && eps > 0.0
    ensures Abs(MaxOf(Misses(prices, BrokerCosts(a, t, eps)))) <= tol <==> PricesTrue(a, prices, t, eps, tol)
  {
    hide Loads, MaxOf, PriceMap;
    var v := Misses(prices, BrokerCosts(a, t, eps));
    LargestBelow(v, tol);
    assert v[0] in v;
  }

  lemma NoneStrayIs(a: Matrix, t: Topology, tol: real)
    requires t.Valid() && t.Fits(a) && tol >= 0.0
    ensures Abs(Worst(Strays(a, t.links))) <= tol <==> NoneStray(a, t, tol)
  {
    hide Worst;
    var rows := Strays(a, t.links);
    WorstBelow(rows, tol);
    assert forall i, j :: 0 <= i < t.N() && 0 <= j < t.M() ==>
      rows[i][j] == if t.links[i][j] > 0.0 then 0.0 else Abs(a[i][j]);
    assert Worst(rows) >= rows[0][0];
  }

  // ---------------------------------------------------------------- distance to the best responses

  lemma {:induction false} DistancesEnergy(sqrt: real -> real, a: Matrix, br: Matrix)
    requires IsSqrt(sqrt) && |a| == |br| && forall i :: 0 <= i < |a| ==> |a[i]| == |br[i]|
    ensures Energy(RowDistances(sqrt, a, br)) == TableEnergy(DiffRows(a, br))
  {
    if |a| > 0 {
      hide Norm, Prod;
      DistancesEnergy(sqrt, a[1..], br[1..]);
      RootTimesRoot(sqrt, Minus(a[0], br[0]));
      assert RowDistances(sqrt, a, br)[1..] == RowDistances(sqrt, a[1..], br[1..]);
      assert DiffRows(a, br)[1..] == DiffRows(a[1..], br[1..]);
    }
  }

  lemma RootTimesRoot(sqrt: real -> real, v: Vec)
    requires IsSqrt(sqrt)
    ensures Prod(Norm(sqrt, v), Norm(sqrt, v)) == Energy(v)
  {
    NormSquared(sqrt, v);
  }

  /** The squared differences from the best responses add up to at most the square of tol. */
  ghost predicate NearResponses(a: Matrix, br: Matrix, tol: real)
    requires |a| == |br| && forall i :: 0 <= i < |a| ==> |a[i]| == |br[i]|
  {
    TableEnergy(DiffRows(a, br)) <= tol * tol
  }

  lemma NearResponsesIs(sqrt: real -> real, a: Matrix, br: Matrix, tol: real)
    requires IsSqrt(sqrt) && |a| == |br| && (forall i :: 0 <= i < |a| ==> |a[i]| == |br[i]|) && tol >= 0.0
    ensures Abs(Norm(sqrt, RowDistances(sqrt, a, br))) <= tol <==> NearResponses(a, br, tol)
  {
    hide Norm, Energy, TableEnergy;
    var d := Norm(sqrt, RowDistances(sqrt, a, br));
    DistancesEnergy(sqrt, a, br);
    NormSquared(sqrt, RowDistances(sqrt, a, br));
    SquareAtMost(d, tol);
  }

  lemma SquareAtMost(x: real, y: real)
    requires x >= 0.0 && y >= 0.0
    ensures x <= y <==> x * x <= y * y
  {
    if x <= y {
      MulLe(x, y, x);
      MulLe(x, y, y);
    } else {
      SquareBelow(y, x);
    }
  }

  // ---------------------------------------------------------------- marginal costs

  /** What the controller reports a unit on an existing link to cost: C_ij + C_j with their guards. */
  function Cost(a: Matrix, t: Topology, eps: real, i: nat, j: nat): real
    requires Shape(t.links, t.N(), t.M()) && t.Fits(a) && eps > 0.0 && i < t.N() && j < t.M()
  {
    PriceMap(a[i][j], t.links[i][j], eps) + PriceMap(Loads(a, t.M())[j], t.brokers[j], eps)
  }

  /** The costs of one source's routes, absent on missing links. */
  function Costs(a: Matrix, t: Topology, eps: real, i: nat): (m: seq<Option<real>>)
    requires Shape(t.links, t.N(), t.M()) && t.Fits(a) && eps > 0.0 && i < t.N()
    ensures |m| == t.M()
    ensures forall j :: 0 <= j < t.M() ==> m[j] == if t.links[i][j] > 0.0 then Some(Cost(a, t, eps, i, j)) else None
  {
    seq(t.M(), j requires 0 <= j < t.M() => if t.links[i][j] > 0.0 then Some(Cost(a, t, eps, i, j)) else None)
  }

  lemma CostsAreTable(a: Matrix, t: Topology, eps: real, i: nat)
    requires t.Valid() && t.Fits(a) && eps > 0.0 && i < t.N()
    ensures MarginalTable(a, t, eps)[i] == Costs(a, t, eps, i)
  {
    hide PriceMap, Loads;
  }

  /** m is the least cost among source i's routes. */
  ghost predicate IsCheapest(a: Matrix, t: Topology, eps: real, i: nat, m: real)
    requires Shape(t.links, t.N(), t.M()) && t.Fits(a) && eps > 0.0 && i < t.N()
  {
    && (exists k :: 0 <= k < t.M() && t.links[i][k] > 0.0 && Cost(a, t, eps, i, k) == m)
    && forall k :: 0 <= k < t.M() && t.links[i][k] > 0.0 ==> m <= Cost(a, t, eps, i, k)
  }

  /** Flow sits only on routes that cost hardly more than the source's cheapest. */
  ghost predicate FlowsCheap(a: Matrix, t: Topology, eps: real, tol: real)
    requires Shape(t.links, t.N(), t.M()) && t.Fits(a) && eps > 0.0
  {
    forall i, j :: 0 <= i < t.N() && 0 <= j < t.M() && t.links[i][j] > 0.0 ==> FlowCheap(a, t, eps, tol, i, j)
  }

  ghost predicate FlowCheap(a: Matrix, t: Topology, eps: real, tol: real, i: nat, j: nat)
    requires Shape(t.links, t.N(), t.M()) && t.Fits(a) && eps > 0.0 && i < t.N() && j < t.M()
  {
    forall m :: IsCheapest(a, t, eps, i, m) ==> Abs(Prod(a[i][j], Cost(a, t, eps, i, j) - m)) <= tol
  }

  lemma CheapestIs(a: Matrix, t: Topology, eps: real, i: nat)
    requires t.Valid() && t.Fits(a) && eps > 0.0 && i < t.N() && HasLink(t.links[i])
    ensures forall m :: IsCheapest(a, t, eps, i, m) <==> m == RowMinOf(Costs(a, t, eps, i))
  {
    hide Cost, RowMinOf;
    var row := Costs(a, t, eps, i);
    RowMinMeans(row);
    var k :| 0 <= k < t.M() && t.links[i][k] > 0.0;
    assert row[k].Some?;
  }

  lemma FlowsCheapIs(a: Matrix, t: Topology, eps: real, tol: real)
    requires t.Valid() && t.Fits(a) && eps > 0.0 && tol >= 0.0
    ensures Abs(Worst(KktTable(a, t, eps))) <= tol <==> FlowsCheap(a, t, eps, tol)
  {
    hide Worst, Cost, FlowCheap, KktTable, Costs;
    var rows := KktTable(a, t, eps);
    WorstBelow(rows, tol);
    forall i, j | 0 <= i < t.N() && 0 <= j < t.M()
      ensures rows[i][j] >= 0.0
      ensures rows[i][j] <= tol <==> t.links[i][j] > 0.0 ==> FlowCheap(a, t, eps, tol, i, j)
    {
      FlowCheapIs(a, t, eps, tol, i, j);
    }
    assert Worst(rows) >= rows[0][0];
  }

  lemma FlowCheapIs(a: Matrix, t: Topology, eps: real, tol: real, i: nat, j: nat)
    requires t.Valid() && t.Fits(a) && eps > 0.0 && tol >= 0.0 && i < t.N() && j < t.M()
    ensures KktTable(a, t, eps)[i][j] >= 0.0
    ensures KktTable(a, t, eps)[i][j] <= tol <==> t.links[i][j] > 0.0 ==> FlowCheap(a, t, eps, tol, i, j)
  {
    hide Cost, RowMinOf, MarginalTable, IsCheapest, Prod;
    CostsAreTable(a, t, eps, i);
    if t.links[i][j] > 0.0 {
      CheapestIs(a, t, eps, i);
      assert IsCheapest(a, t, eps, i, RowMinOf(Costs(a, t, eps, i)));
    }
  }

  // ---------------------------------------------------------------- used and unused routes of all sources

  ghost predicate AllStationary(a: Matrix, t: Topology, eps: real, activeTol: real, tol: real)
    requires Shape(t.links, t.N(), t.M()) && t.Fits(a) && eps > 0.0
  {
    forall i :: 0 <= i < t.N() ==> Stationary(Costs(a, t, eps, i), a[i], activeTol, tol)
  }

  ghost predicate NoneUndercut(a: Matrix, t: Topology, eps: real, activeTol: real, tol: real)
    requires Shape(t.links, t.N(), t.M()) && t.Fits(a) && eps > 0.0
  {
    forall i :: 0 <= i < t.N() ==> NotUndercut(Costs(a, t, eps, i), a[i], activeTol, tol)
  }

  lemma {:induction false} WorstStationarityIs(rows: seq<RowReport>, tol: real)
    requires forall i :: 0 <= i < |rows| && rows[i].stationarity.Finite? ==> rows[i].stationarity.value >= 0.0
    ensures var w := WorstStationarity(rows);
      && (w.Finite? ==> w.value >= 0.0)
      && (tol >= 0.0 ==>
            (w.Finite? && w.value <= tol
             <==> forall i :: 0 <= i < |rows| ==> rows[i].stationarity.Finite? && rows[i].stationarity.value <= tol))
  {
    if |rows| > 0 {
      var rest := rows[1..];
      WorstStationarityIs(rest, tol);
      assert forall i :: 1 <= i < |rows| ==> rows[i] == rest[i - 1];
      assert forall i :: 0 <= i < |rest| ==> rest[i] == rows[i + 1];
    }
  }

  lemma StationarityNonNeg(m: seq<Option<real>>, x: Vec, activeTol: real)
    requires |m| == |x|
    ensures var s := ReportRow(m, x, activeTol).stationarity; s.Finite? ==> s.value >= 0.0
  {
    hide Pick, Sum;
    var used := Pick(m, x, activeTol, true);
    if |used| > 0 {
      var d := Deviations(used, Sum(used) / |used| as real);
      assert d[0] in d;
    }
  }

  lemma AllStationaryIs(a: Matrix, t: Topology, eps: real, activeTol: real, tol: real)
    requires t.Valid() && t.Fits(a) && eps > 0.0 && tol >= 0.0
    ensures var w := WorstStationarity(Reports(a, t, eps, activeTol));
      w.Finite? && Abs(w.value) <= tol <==> AllStationary(a, t, eps, activeTol, tol)
  {
    hide ReportRow, Stationary, Costs, MarginalTable, WorstStationarity;
    var rows := Reports(a, t, eps, activeTol);
    forall i | 0 <= i < t.N()
      ensures rows[i].stationarity.Finite? ==> rows[i].stationarity.value >= 0.0
      ensures rows[i].stationarity.Finite? && rows[i].stationarity.value <= tol
        <==> Stationary(Costs(a, t, eps, i), a[i], activeTol, tol)
    {
      CostsAreTable(a, t, eps, i);
      StationarityNonNeg(Costs(a, t, eps, i), a[i], activeTol);
      StationaryIs(Costs(a, t, eps, i), a[i], activeTol, tol);
    }
    WorstStationarityIs(rows, tol);
  }

  lemma NoneUndercutIs(a: Matrix, t: Topology, eps: real, activeTol: real, tol: real)
    requires t.Valid() && t.Fits(a) && eps > 0.0 && tol >= 0.0
    ensures Abs(MaxOf(InactiveGaps(Reports(a, t, eps, activeTol)))) <= tol <==> NoneUndercut(a, t, eps, activeTol, tol)
  {
    hide ReportRow, NotUndercut, Costs, MarginalTable, MaxOf;
    var v := InactiveGaps(Reports(a, t, eps, activeTol));
    forall i | 0 <= i < t.N()
      ensures v[i] >= 0.0
      ensures v[i] <= tol <==> NotUndercut(Costs(a, t, eps, i), a[i], activeTol, tol)
    {
      CostsAreTable(a, t, eps, i);
      UndercutIs(Costs(a, t, eps, i), a[i], activeTol, tol);
    }
    LargestBelow(v, tol);
    assert v[0] in v;
  }

  // ---------------------------------------------------------------- the certificate

  ghost predicate NonNegative(tol: Tolerances) {
    && tol.conservation >= 0.0 && tol.nonnegative >= 0.0 && tol.access >= 0.0 && tol.service >= 0.0
    && tol.price >= 0.0 && tol.fixedPoint >= 0.0 && tol.kkt >= 0.0 && tol.stationarity >= 0.0
    && tol.inactive >= 0.0 && tol.unavailable >= 0.0
  }

  /** Every source has a best response to the prices. */
  ghost predicate AllRespond(sqrt: real -> real, t: Topology, prices: Vec)
    requires IsSqrt(sqrt) && t.Valid() && |prices| == t.M()
  {
    forall i :: 0 <= i < t.N() ==> BestRow(sqrt, t, prices, i).Ok?
  }

  /** Feasibility: rates, signs, links, brokers and missing links. */
  ghost predicate NearlyFeasible(a: Matrix, t: Topology, tol: Tolerances)
    requires t.Valid() && t.Fits(a)
  {
    && RatesMet(a, t, tol.conservation) && FlowsSigned(a, t, tol.nonnegative) && LinksWithin(a, t, tol.access)
    && BrokersWithin(a, t, tol.service) && NoneStray(a, t, tol.unavailable)
  }

  /** Eqs. (17) and (18): true prices, rows that answer them, and flow on cheapest routes only. */
  ghost predicate NearlyFixed(sqrt: real -> real, a: Matrix, prices: Vec, t: Topology, eps: real, activeTol: real,
                              tol: Tolerances)
    requires IsSqrt(sqrt) && t.Valid() && t.Fits(a) && |prices| == t.M() && eps > 0.0
    requires AllRespond(sqrt, t, prices)
  {
    && PricesTrue(a, prices, t, eps, tol.price)
    && NearResponses(a, BestRows(sqrt, t, prices), tol.fixedPoint)
    && FlowsCheap(a, t, eps, tol.kkt)
    && AllStationary(a, t, eps, activeTol, tol.stationarity)
    && NoneUndercut(a, t, eps, activeTol, tol.inactive)
  }

  lemma FeasibleIs(sqrt: real -> real, a: Matrix, prices: Vec, t: Topology, eps: real, rows: seq<RowReport>,
                   br: Matrix, tol: Tolerances)
    requires t.Valid() && t.Fits(a) && t.Fits(br) && |prices| == t.M() && |rows| == t.N() && eps > 0.0
    requires NonNegative(tol)
    ensures var d := Assemble(sqrt, a, prices, t, eps, rows, br);
      NearlyFeasible(a, t, tol) <==>
        && Abs(d.conservation) <= tol.conservation && Abs(d.nonnegative) <= tol.nonnegative
        && Abs(d.access) <= tol.access && Abs(d.service) <= tol.service && Abs(d.unavailable) <= tol.unavailable
  {
    hide RatesMet, FlowsSigned, LinksWithin, BrokersWithin, NoneStray, Worst, MaxOf, Misses, Overload, Negatives,
      Overloads, Strays, Loads, RowSums, KktTable, WorstStationarity, InactiveGaps, Norm, RowDistances, BrokerCosts, Abs;
    RatesMetIs(a, t, tol.conservation);
    FlowsSignedIs(a, t, tol.nonnegative);
    LinksWithinIs(a, t, tol.access);
    BrokersWithinIs(a, t, tol.service);
    NoneStrayIs(a, t, tol.unavailable);
  }

  lemma FixedIs(sqrt: real -> real, a: Matrix, prices: Vec, t: Topology, eps: real, activeTol: real, tol: Tolerances)
    requires IsSqrt(sqrt) && t.Valid() && t.Fits(a) && |prices| == t.M() && eps > 0.0
    requires NonNegative(tol) && AllRespond(sqrt, t, prices)
    ensures var d := Assemble(sqrt, a, prices, t, eps, Reports(a, t, eps, activeTol), BestRows(sqrt, t, prices));
      NearlyFixed(sqrt, a, prices, t, eps, activeTol, tol) <==>
        && Abs(d.price) <= tol.price && Abs(d.fixedPoint) <= tol.fixedPoint && Abs(d.kkt) <= tol.kkt
        && d.stationarity.Finite? && Abs(d.stationarity.value) <= tol.stationarity
        && Abs(d.inactive) <= tol.inactive
  {
    hide PricesTrue, NearResponses, FlowsCheap, AllStationary, NoneUndercut, Worst, MaxOf, Misses, Overload, Negatives,
      Overloads, Strays, Loads, RowSums, KktTable, WorstStationarity, InactiveGaps, Norm, RowDistances, BrokerCosts, Abs,
      BestRow, Reports;
    var br := BestRows(sqrt, t, prices);
    PricesTrueIs(a, prices, t, eps, tol.price);
    NearResponsesIs(sqrt, a, br, tol.fixedPoint);
    FlowsCheapIs(a, t, eps, tol.kkt);
    AllStationaryIs(a, t, eps, activeTol, tol.stationarity);
    NoneUndercutIs(a, t, eps, activeTol, tol.inactive);
  }

  /**
   A state is certified exactly when every source has a best response to its prices, it is feasible to
   within the tolerances, its prices are the marginal costs of its loads, its rows answer the prices
   and its flow sits on cheapest routes: for all tolerances, so that every residual is pinned down.
   */
  lemma CertifiedIff(sqrt: real -> real, a: Matrix, prices: Vec, t: Topology, eps: real, activeTol: real, tol: Tolerances)
    requires IsSqrt(sqrt) && t.Valid() && t.Fits(a) && |prices| == t.M() && eps > 0.0 && NonNegative(tol)
    ensures IsCertified(sqrt, a, prices, t, eps, activeTol, tol)
      <==> AllRespond(sqrt, t, prices) && NearlyFeasible(a, t, tol)
           && NearlyFixed(sqrt, a, prices, t, eps, activeTol, tol)
  {
    hide NearlyFeasible, NearlyFixed, NonNegative, IsCertified, AllRespond, Topology.Valid;
    AssembledIs(sqrt, a, prices, t, eps, activeTol, tol);
    if AllRespond(sqrt, t, prices) {
      AssembledIff(sqrt, a, prices, t, eps, activeTol, tol);
    }
  }

  ghost predicate AssembledCertifies(sqrt: real -> real, a: Matrix, prices: Vec, t: Topology, eps: real, activeTol: real,
                                     tol: Tolerances)
    requires IsSqrt(sqrt) && t.Valid() && t.Fits(a) && |prices| == t.M() && eps > 0.0 && AllRespond(sqrt, t, prices)
  {
    Assemble(sqrt, a, prices, t, eps, Reports(a, t, eps, activeTol), BestRows(sqrt, t, prices)).Certified(tol)
  }

  lemma AssembledIff(sqrt: real -> real, a: Matrix, prices: Vec, t: Topology, eps: real, activeTol: real, tol: Tolerances)
    requires IsSqrt(sqrt) && t.Valid() && t.Fits(a) && |prices| == t.M() && eps > 0.0
    requires NonNegative(tol) && AllRespond(sqrt, t, prices)
    ensures AssembledCertifies(sqrt, a, prices, t, eps, activeTol, tol)
      <==> NearlyFeasible(a, t, tol) && NearlyFixed(sqrt, a, prices, t, eps, activeTol, tol)
  {
    hide NearlyFeasible, NearlyFixed, Assemble, BestRow, Reports, BestRows, NonNegative, Abs;
    FeasibleIs(sqrt, a, prices, t, eps, Reports(a, t, eps, activeTol), BestRows(sqrt, t, prices), tol);
    FixedIs(sqrt, a, prices, t, eps, activeTol, tol);
  }

  lemma AssembledIs(sqrt: real -> real, a: Matrix, prices: Vec, t: Topology, eps: real, activeTol: real, tol: Tolerances)
    requires IsSqrt(sqrt) && t.Valid() && t.Fits(a) && |prices| == t.M() && eps > 0.0
    ensures IsCertified(sqrt, a, prices, t, eps, activeTol, tol)
      <==> AllRespond(sqrt, t, prices) && AssembledCertifies(sqrt, a, prices, t, eps, activeTol, tol)
  {
    hide Assemble, BestRow, Reports, BestRows, Diagnosis.Certified;
  }

  /** The certificate as Algorithm 1 asks for it, in numbers. */
  lemma CertifiedAtDefaults(sqrt: real -> real, a: Matrix, prices: Vec, t: Topology, eps: real)
    requires IsSqrt(sqrt) && t.Valid() && t.Fits(a) && |prices| == t.M() && eps > 0.0
    ensures IsCertified(sqrt, a, prices, t, eps, ACTIVE_TOL, DEFAULT_TOLERANCES) <==>
      && AllRespond(sqrt, t, prices)
      && RatesMet(a, t, 0.00000001) && FlowsSigned(a, t, 0.0000000001) && LinksWithin(a, t, 0.0000000001)
      && BrokersWithin(a, t, 0.0000000001) && NoneStray(a, t, 0.0)
      && PricesTrue(a, prices, t, eps, 0.00000001)
      && NearResponses(a, BestRows(sqrt, t, prices), 0.000001)
      && FlowsCheap(a, t, eps, 0.00000001)
      && AllStationary(a, t, eps, 0.0000001, 0.000001) && NoneUndercut(a, t, eps, 0.0000001, 0.00000001)
  {
    hide IsCertified, RatesMet, FlowsSigned, LinksWithin, BrokersWithin, NoneStray, PricesTrue, NearResponses,
      FlowsCheap, AllStationary, NoneUndercut, BestRow, Topology.Valid;
    CertifiedIff(sqrt, a, prices, t, eps, ACTIVE_TOL, DEFAULT_TOLERANCES);
  }
}
