/** The closed-form optimum of the symmetric instance (src/model/symmetric.py). */
module Symmetric {
  import opened Vectors
  import opened Algebra
  import opened Threshold
  import opened Topologies
  import opened Objective
  import opened Certificate

  function Fill(n: nat, x: real): (v: Vec)
    ensures |v| == n
    ensures forall j :: 0 <= j < n ==> v[j] == x
  {
    seq(n, _ => x)
  }

  function FillRows(n: nat, m: nat, x: real): (a: Matrix)
    ensures Shape(a, n, m)
    ensures forall i :: 0 <= i < n ==> a[i] == Fill(m, x)
  {
    seq(n, _ => Fill(m, x))
  }

  function SymmetricTopology(n: nat, m: nat, lam: real, muAccess: real, muServer: real): Topology {
    Topology(Fill(n, lam), FillRows(n, m, muAccess), Fill(m, muServer))
  }

  datatype Solution = Solution(routing: Matrix, load: real, accessCost: real, price: real, alpha: real,
                               meanDelay: real, objective: real)

  /** None where the source raises ValueError. */
  function SymmetricSolution(n: nat, m: nat, lam: real, muAccess: real, muServer: real): Option<Solution>
    requires m > 0
  {
    var x, load := lam / m as real, n as real * lam / m as real;
    if x >= muAccess || load >= muServer then None
    else
      var cost, price := Marginal(x, muAccess), Marginal(load, muServer);
      var dAccess, dServer := 1.0 / (muAccess - x), 1.0 / (muServer - load);
      Some(Solution(FillRows(n, m, x), load, cost, price, cost + price, dAccess + dServer,
                    n as real * lam * (dAccess + dServer)))
  }

  lemma {:induction false} FillLoads(a: Matrix, m: nat, x: real)
    requires Shape(a, |a|, m) && forall i :: 0 <= i < |a| ==> a[i] == Fill(m, x)
    ensures Loads(a, m) == Fill(m, Prod(|a| as real, x))
  {
    if |a| > 0 {
      hide Prod;
      FillLoads(a[1..], m, x);
      ProdSucc(|a| as real - 1.0, x);
    }
  }

  /** The numbers of the equal split: x on every link, load on every broker. */
  lemma SplitNumbers(n: real, m: real, lam: real, x: real, load: real)
    requires m > 0.0 && x == lam / m && load == n * lam / m
    ensures Prod(m, x) == lam && Prod(n, x) == load && Prod(m, load) == Prod(n, lam)
    ensures lam >= 0.0 ==> x >= 0.0
  {
    DivMul(lam, m);
    DivMul(n * lam, m);
    DivIs(n * lam, m, n * x) by {
      Times(n, x * m, lam);
    }
    DivGe(lam, m, 0.0);
  }

  lemma EqualSplitInDomain(n: nat, m: nat, lam: real, muAccess: real, muServer: real)
    requires n > 0 && m > 0 && lam >= 0.0 && muAccess > 0.0 && muServer > 0.0
    requires SymmetricSolution(n, m, lam, muAccess, muServer).Some?
    ensures var t := SymmetricTopology(n, m, lam, muAccess, muServer);
      var s := SymmetricSolution(n, m, lam, muAccess, muServer).value;
      t.Valid() && InDomain(s.routing, t) && RowSums(s.routing) == t.rates
      && Loads(s.routing, m) == Fill(m, s.load)
  {
    hide Prod, Marginal, Loads;
    var s := SymmetricSolution(n, m, lam, muAccess, muServer).value;
    var x := lam / m as real;
    SplitNumbers(n as real, m as real, lam, x, s.load);
    FillLoads(s.routing, m, x);
    SumConst(Fill(m, x), x);
    var t := SymmetricTopology(n, m, lam, muAccess, muServer);
    SymmetricValid(n, m, lam, muAccess, muServer);
    assert forall i, j :: 0 <= i < n && 0 <= j < m ==> t.links[i][j] == muAccess && s.routing[i][j] == x;
    assert RowSums(s.routing) == t.rates;
  }

  lemma SymmetricValid(n: nat, m: nat, lam: real, muAccess: real, muServer: real)
    requires n > 0 && m > 0 && lam >= 0.0 && muAccess > 0.0 && muServer > 0.0
    ensures SymmetricTopology(n, m, lam, muAccess, muServer).Valid()
  {
    var t := SymmetricTopology(n, m, lam, muAccess, muServer);
    forall i | 0 <= i < n
      ensures HasLink(t.links[i])
    {
      assert t.links[i][0] > 0.0;
    }
  }

  lemma EqualMarginals(n: nat, m: nat, lam: real, muAccess: real, muServer: real)
    requires n > 0 && m > 0 && lam >= 0.0 && muAccess > 0.0 && muServer > 0.0
    requires SymmetricSolution(n, m, lam, muAccess, muServer).Some?
    ensures var t := SymmetricTopology(n, m, lam, muAccess, muServer);
      var s := SymmetricSolution(n, m, lam, muAccess, muServer).value;
      && t.Valid() && InDomain(s.routing, t)
      && RowMins(s.routing, t, Fill(n, s.alpha)) && Complementary(s.routing, t, Fill(n, s.alpha), 0.0)
  {
    hide Marginal, Loads;
    EqualSplitInDomain(n, m, lam, muAccess, muServer);
    var t := SymmetricTopology(n, m, lam, muAccess, muServer);
    var s := SymmetricSolution(n, m, lam, muAccess, muServer).value;
    forall i, j | 0 <= i < n && 0 <= j < m
      ensures t.links[i][j] > 0.0 && LinkMarginal(s.routing, t, i, j) == s.alpha
      ensures WastesAtMost(s.routing, t, i, j, s.alpha, 0.0)
    {
      assert s.routing[i][j] == lam / m as real && t.links[i][j] == muAccess;
      assert Prod(s.routing[i][j], 0.0) == 0.0;
    }
    forall i | 0 <= i < n
      ensures IsRowMin(s.routing, t, i, s.alpha)
    {
      assert t.links[i][0] > 0.0 && LinkMarginal(s.routing, t, i, 0) == s.alpha;
    }
  }

  lemma SplitObjective(n: real, m: real, lam: real, x: real, load: real, muAccess: real, muServer: real)
    requires Prod(m, x) == lam && Prod(m, load) == Prod(n, lam) && x < muAccess && load < muServer
    ensures Prod(n, Prod(m, Congestion(x, muAccess))) + Prod(m, Congestion(load, muServer))
      == n * lam * (1.0 / (muAccess - x) + 1.0 / (muServer - load))
  {
    var u, v := 1.0 / (muAccess - x), 1.0 / (muServer - load);
    ScaledCongestion(m, x, muAccess, u, lam);
    ScaledCongestion(m, load, muServer, v, Prod(n, lam));
    Times(n, Prod(m, Congestion(x, muAccess)), lam * u);
  }

  lemma ScaledCongestion(m: real, x: real, mu: real, u: real, total: real)
    requires x < mu && u == 1.0 / (mu - x) && Prod(m, x) == total
    ensures Prod(m, Congestion(x, mu)) == total * u
  {
    var gap := mu - x;
    DivMul(1.0, gap);
    DivIs(x, gap, x * u) by {
      Times(x, u * gap, 1.0);
    }
    Times(m, Congestion(x, mu), x * u);
    Times(u, m * x, total);
  }

  /** When a solution is returned it is the only minimiser of F over all routings, at the stated objective. */
  lemma SymmetricOptimal(n: nat, m: nat, lam: real, muAccess: real, muServer: real, y: Matrix)
    requires n > 0 && m > 0 && lam >= 0.0 && muAccess > 0.0 && muServer > 0.0
    requires SymmetricSolution(n, m, lam, muAccess, muServer).Some?
    ensures var t := SymmetricTopology(n, m, lam, muAccess, muServer);
      var s := SymmetricSolution(n, m, lam, muAccess, muServer).value;
      && InDomain(s.routing, t) && RowSums(s.routing) == t.rates
      && F(s.routing, t) == s.objective
      && (InDomain(y, t) && RowSums(y) == t.rates ==>
            s.objective <= F(y, t) && (y != s.routing ==> s.objective < F(y, t)))
  {
    hide Marginal, Loads, Congestion, Prod, Complementary, IsRowMin, Sum;
    var t := SymmetricTopology(n, m, lam, muAccess, muServer);
    var s := SymmetricSolution(n, m, lam, muAccess, muServer).value;
    EqualSplitInDomain(n, m, lam, muAccess, muServer);
    EqualMarginals(n, m, lam, muAccess, muServer);
    EqualSplitObjective(n, m, lam, muAccess, muServer);
    if InDomain(y, t) && RowSums(y) == t.rates {
      forall i | 0 <= i < n
        ensures Abs(Sum(s.routing[i]) - t.rates[i]) <= 0.0
      {
        assert RowSums(s.routing)[i] == t.rates[i];
      }
      ZeroResidualsUniqueOptimum(s.routing, y, t, Fill(n, s.alpha));
    }
  }

  lemma EqualSplitObjective(n: nat, m: nat, lam: real, muAccess: real, muServer: real)
    requires n > 0 && m > 0 && lam >= 0.0 && muAccess > 0.0 && muServer > 0.0
    requires SymmetricSolution(n, m, lam, muAccess, muServer).Some?
    ensures var t := SymmetricTopology(n, m, lam, muAccess, muServer);
      var s := SymmetricSolution(n, m, lam, muAccess, muServer).value;
      InDomain(s.routing, t) && F(s.routing, t) == s.objective
  {
    hide Marginal, Loads, Congestion, Prod, Sum;
    var t := SymmetricTopology(n, m, lam, muAccess, muServer);
    var s := SymmetricSolution(n, m, lam, muAccess, muServer).value;
    var x := lam / m as real;
    EqualSplitInDomain(n, m, lam, muAccess, muServer);
    SplitNumbers(n as real, m as real, lam, x, s.load);
    forall i | 0 <= i < n
      ensures RowTerms(s.routing, t)[i] == Prod(m as real, Congestion(x, muAccess))
    {
      SumConst(LinkTerms(s.routing[i], t.links[i]), Congestion(x, muAccess));
    }
    SumConst(RowTerms(s.routing, t), Prod(m as real, Congestion(x, muAccess)));
    SumConst(BrokerTerms(Loads(s.routing, m), t.brokers), Congestion(s.load, muServer));
    SplitObjective(n as real, m as real, lam, x, s.load, muAccess, muServer);
  }

  /**
   The mean delay is what a unit spends on its link and at its broker, on every route, and by Little's
   law the units in system at the optimum are the total rate times it.
   */
  lemma MeanDelayIs(n: nat, m: nat, lam: real, muAccess: real, muServer: real, i: nat, j: nat)
    returns (onLink: real, atBroker: real)
    requires n > 0 && m > 0 && lam >= 0.0 && muAccess > 0.0 && muServer > 0.0 && i < n && j < m
    requires SymmetricSolution(n, m, lam, muAccess, muServer).Some?
    ensures var t := SymmetricTopology(n, m, lam, muAccess, muServer);
      var s := SymmetricSolution(n, m, lam, muAccess, muServer).value;
      && InDomain(s.routing, t) && s.load == Loads(s.routing, m)[j]
      && onLink * (muAccess - s.routing[i][j]) == 1.0 && atBroker * (muServer - Loads(s.routing, m)[j]) == 1.0
      && s.meanDelay == onLink + atBroker
      && F(s.routing, t) == n as real * lam * s.meanDelay
      && s.accessCost == Marginal(s.routing[i][j], muAccess) && s.price == TruePrices(s.routing, t)[j]
      && s.alpha == LinkMarginal(s.routing, t, i, j)
  {
    hide Loads, F, Marginal;
    var t := SymmetricTopology(n, m, lam, muAccess, muServer);
    var s := SymmetricSolution(n, m, lam, muAccess, muServer).value;
    EqualSplitInDomain(n, m, lam, muAccess, muServer);
    EqualSplitObjective(n, m, lam, muAccess, muServer);
    assert s.routing[i][j] == lam / m as real && t.links[i][j] == muAccess;
    onLink, atBroker := 1.0 / (muAccess - s.routing[i][j]), 1.0 / (muServer - s.load);
    DivMul(1.0, muAccess - s.routing[i][j]);
    DivMul(1.0, muServer - s.load);
  }

  // ---------------------------------------------------------------- infeasible instances

  /** Total flow counted by brokers equals total flow counted by sources. */
  lemma TotalFlow(a: Matrix, m: nat)
    requires Shape(a, |a|, m)
    ensures Sum(Loads(a, m)) == Sum(RowSums(a))
  {
    hide Loads, Sum;
    var ones := Fill(m, 1.0);
    DotLoads(ones, a);
    forall i | 0 <= i < |a|
      ensures RowDots(ones, a)[i] == RowSums(a)[i]
    {
      assert Weighted(ones, a[i]) == a[i];
    }
    assert RowDots(ones, a) == RowSums(a);
    assert Weighted(ones, Loads(a, m)) == Loads(a, m);
  }

  lemma SumBelow(v: Vec, x: real)
    requires |v| > 0 && forall j :: 0 <= j < |v| ==> v[j] < x
    ensures Sum(v) < Prod(|v| as real, x)
  {
    hide Prod, Sum;
    SumStrict(v, Fill(|v|, x), 0);
    SumConst(Fill(|v|, x), x);
  }

  /** When no solution is returned, no routing of the rates fits the links and the brokers. */
  lemma SymmetricInfeasible(n: nat, m: nat, lam: real, muAccess: real, muServer: real, y: Matrix)
    requires n > 0 && m > 0 && lam >= 0.0 && muAccess > 0.0 && muServer > 0.0
    requires SymmetricSolution(n, m, lam, muAccess, muServer).None?
    ensures var t := SymmetricTopology(n, m, lam, muAccess, muServer);
      !(InDomain(y, t) && RowSums(y) == t.rates)
  {
    hide Prod, Sum, Loads, Marginal;
    var t := SymmetricTopology(n, m, lam, muAccess, muServer);
    var x, load := lam / m as real, n as real * lam / m as real;
    SplitNumbers(n as real, m as real, lam, x, load);
    if InDomain(y, t) && RowSums(y) == t.rates {
      if x >= muAccess {
        assert Sum(y[0]) == lam by {
          assert RowSums(y)[0] == t.rates[0];
        }
        assert forall j :: 0 <= j < m ==> t.links[0][j] == muAccess && y[0][j] < muAccess;
        SumBelow(y[0], muAccess);
        ProdMono(m as real, muAccess, x);
      } else {
        TotalFlow(y, m);
        SumConst(t.rates, lam);
        SumBelow(Loads(y, m), muServer);
        ProdMono(m as real, muServer, load);
      }
    }
  }

  lemma ProdMono(m: real, x: real, y: real)
    requires m >= 0.0 && x <= y
    ensures Prod(m, x) <= Prod(m, y)
  {
    MulLe(x, y, m);
  }
}
