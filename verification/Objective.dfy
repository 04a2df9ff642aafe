/** The system objective F (eq. 4) and its price decomposition (src/controller/central.py). */
module Objective {
  import opened Vectors
  import opened Threshold
  import opened Topologies

  /** A real or plus infinity. */
  datatype Extended = Finite(value: real) | Infinite

  /** Where F is finite: no negative flow, nothing on missing links, every queue below its capacity. */
  predicate InDomain(a: Matrix, t: Topology) {
    && Shape(t.links, t.N(), t.M())
    && t.Fits(a)
    && (forall i, j :: 0 <= i < t.N() && 0 <= j < t.M() ==>
          if t.links[i][j] > 0.0 then 0.0 <= a[i][j] < t.links[i][j] else a[i][j] == 0.0)
    && forall j :: 0 <= j < t.M() ==> Loads(a, t.M())[j] < t.brokers[j]
  }

  lemma DomainRows(a: Matrix, t: Topology)
    requires InDomain(a, t)
    ensures forall i :: 0 <= i < t.N() ==> IsSplit(a[i], t.links[i])
  {
  }

  function LinkTerm(x: real, mu: real): real
    requires mu > 0.0 ==> x < mu
  {
    if mu > 0.0 then Congestion(x, mu) else 0.0
  }

  function LinkTerms(x: Vec, mu: Vec): (v: Vec)
    requires |x| == |mu|
    requires forall j :: 0 <= j < |x| && mu[j] > 0.0 ==> x[j] < mu[j]
    ensures |v| == |x|
    ensures forall j :: 0 <= j < |x| ==> v[j] == LinkTerm(x[j], mu[j])
  {
    seq(|x|, j requires 0 <= j < |x| => LinkTerm(x[j], mu[j]))
  }

  function RowTerms(a: Matrix, t: Topology): (v: Vec)
    requires InDomain(a, t)
    ensures |v| == t.N()
    ensures forall i :: 0 <= i < t.N() ==> v[i] == Sum(LinkTerms(a[i], t.links[i]))
  {
    seq(t.N(), i requires 0 <= i < t.N() => Sum(LinkTerms(a[i], t.links[i])))
  }

  function BrokerTerms(load: Vec, mu: Vec): (v: Vec)
    requires |load| == |mu|
    requires forall j :: 0 <= j < |mu| ==> load[j] < mu[j]
    ensures |v| == |mu|
    ensures forall j :: 0 <= j < |mu| ==> v[j] == Congestion(load[j], mu[j])
  {
    seq(|mu|, j requires 0 <= j < |mu| => Congestion(load[j], mu[j]))
  }

  function F(a: Matrix, t: Topology): real
    requires InDomain(a, t)
  {
    Sum(RowTerms(a, t)) + Sum(BrokerTerms(Loads(a, t.M()), t.brokers))
  }

  function SystemObjective(a: Matrix, t: Topology): Extended {
    if InDomain(a, t) then Finite(F(a, t)) else Infinite
  }

  /** The price map C of the brokers at a routing inside the domain. */
  function TruePrices(a: Matrix, t: Topology): (p: Vec)
    requires InDomain(a, t)
    ensures |p| == t.M()
    ensures forall j :: 0 <= j < t.M() ==> p[j] == Marginal(Loads(a, t.M())[j], t.brokers[j])
  {
    seq(t.M(), j requires 0 <= j < t.M() => Marginal(Loads(a, t.M())[j], t.brokers[j]))
  }

  // ---------------------------------------------------------------- decomposition

  /** What each source pays when the brokers' prices are held at p. */
  function SourceCosts(a: Matrix, t: Topology, p: Vec): (v: Vec)
    requires InDomain(a, t) && |p| == t.M()
    ensures |v| == t.N()
    ensures forall i :: 0 <= i < t.N() ==> v[i] == SplitCost(a[i], t.links[i], p)
  {
    seq(t.N(), i requires 0 <= i < t.N() => SplitCost(a[i], t.links[i], p))
  }

  lemma SplitCostParts(x: Vec, mu: Vec, p: Vec)
    requires |x| == |mu| == |p| && IsSplit(x, mu)
    ensures SplitCost(x, mu, p) == Sum(LinkTerms(x, mu)) + Dot(p, x)
  {
    hide Congestion, Sum;
    var u, v := LinkTerms(x, mu), Weighted(p, x);
    SumAdd(u, v);
    forall j | 0 <= j < |x|
      ensures LinkCosts(x, mu, p)[j] == u[j] + v[j]
    {
    }
    assert LinkCosts(x, mu, p) == Add(u, v);
  }

  lemma SourceCostParts(a: Matrix, t: Topology, p: Vec)
    requires InDomain(a, t) && |p| == t.M()
    ensures Sum(SourceCosts(a, t, p)) == Sum(RowTerms(a, t)) + Dot(p, Loads(a, t.M()))
  {
    hide Sum, SplitCost, LinkTerms, Dot, Loads;
    DomainRows(a, t);
    forall i | 0 <= i < t.N()
      ensures SourceCosts(a, t, p)[i] == RowTerms(a, t)[i] + RowDots(p, a)[i]
    {
      SplitCostParts(a[i], t.links[i], p);
    }
    assert SourceCosts(a, t, p) == Add(RowTerms(a, t), RowDots(p, a));
    SumAdd(RowTerms(a, t), RowDots(p, a));
    DotLoads(p, a);
  }

  /** Brokers' congestion is convex: it grows at least as fast as its prices say. */
  lemma BrokerTangent(x: Vec, y: Vec, mu: Vec, p: Vec)
    requires |x| == |y| == |mu| == |p|
    requires forall j :: 0 <= j < |mu| ==> mu[j] > 0.0 && x[j] < mu[j] && y[j] < mu[j]
    requires forall j :: 0 <= j < |mu| ==> p[j] == Marginal(x[j], mu[j])
    ensures Sum(BrokerTerms(y, mu)) - Sum(BrokerTerms(x, mu)) >= Dot(p, y) - Dot(p, x)
  {
    hide Congestion, Marginal, Prod, Sum;
    var fx, fy, px, py := BrokerTerms(x, mu), BrokerTerms(y, mu), Weighted(p, x), Weighted(p, y);
    forall j | 0 <= j < |mu|
      ensures Minus(py, px)[j] <= Minus(fy, fx)[j]
    {
      Tangent(x[j], y[j], mu[j]);
      ProdDiff(p[j], Marginal(x[j], mu[j]), y[j], x[j]);
    }
    SumMono(Minus(py, px), Minus(fy, fx));
    SumMinus(py, px);
    SumMinus(fy, fx);
  }

  lemma ProdDiff(p: real, m: real, y: real, x: real)
    requires p == m
    ensures m * (y - x) == Prod(p, y) - Prod(p, x)
  {
  }

  /**
   Holding the prices at their value in a turns the change of F into a bound on the change of
   what the sources pay: all coupling between sources is in the prices.
   */
  lemma PriceDecomposition(a: Matrix, y: Matrix, t: Topology)
    requires t.Valid() && InDomain(a, t) && InDomain(y, t)
    ensures var p := TruePrices(a, t);
      F(y, t) - F(a, t) >= Sum(SourceCosts(y, t, p)) - Sum(SourceCosts(a, t, p))
  {
    hide Sum, Dot, Loads, Congestion, Marginal;
    var p := TruePrices(a, t);
    SourceCostParts(a, t, p);
    SourceCostParts(y, t, p);
    BrokerTangent(Loads(a, t.M()), Loads(y, t.M()), t.brokers, p);
  }
}
