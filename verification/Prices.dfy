/** The brokers' price map C_j with its guard, and the damped price (src/model/marginal_costs.py). */
module Prices {
  import opened Vectors
  import opened Algebra
  import opened Threshold
  import opened Topologies
  import opened Objective

  function PriceMap(load: real, mu: real, eps: real): real
    requires eps > 0.0
  {
    CostRate(mu, Max(mu - load, eps))
  }

  lemma PriceMapUnguarded(load: real, mu: real, eps: real)
    requires eps > 0.0 && mu - load >= eps
    ensures PriceMap(load, mu, eps) == Marginal(load, mu)
  {
  }

  /** p <- (1 - gamma) p + gamma C(load), broker by broker. */
  function UpdatePrices(prices: Vec, loads: Vec, mu: Vec, gamma: real, eps: real): (p: Vec)
    requires |prices| == |loads| == |mu| && eps > 0.0
    ensures |p| == |mu|
    ensures forall j :: 0 <= j < |mu| ==> p[j] == Blend(gamma, prices[j], PriceMap(loads[j], mu[j], eps))
  {
    seq(|mu|, j requires 0 <= j < |mu| => Blend(gamma, prices[j], PriceMap(loads[j], mu[j], eps)))
  }

  /** What one broker process computes from its own price and load. */
  function BrokerPrice(price: real, load: real, mu: real, gamma: real, eps: real): real
    requires eps > 0.0
  {
    UpdatePrices([price], [load], [mu], gamma, eps)[0]
  }

  /** A damped price stays put exactly when it equals its target. */
  lemma BlendFixed(s: real, x: real, y: real)
    requires s != 0.0
    ensures Blend(s, x, y) == x <==> y == x
  {
    assert Blend(s, x, y) - x == s * (y - x);
    if y != x {
      MulNonZero(s, y - x);
    }
  }

  ghost predicate Guarded(a: Matrix, t: Topology, deltaS: real)
    requires t.Fits(a)
  {
    forall j :: 0 <= j < t.M() ==> Loads(a, t.M())[j] <= t.brokers[j] - deltaS
  }

  /** Prices are left unchanged exactly when they are the marginal costs of the loads. */
  lemma PricesFixed(a: Matrix, t: Topology, prices: Vec, gamma: real, eps: real)
    requires InDomain(a, t) && |prices| == t.M() && gamma != 0.0 && eps > 0.0 && Guarded(a, t, eps)
    ensures UpdatePrices(prices, Loads(a, t.M()), t.brokers, gamma, eps) == prices
      <==> prices == TruePrices(a, t)
  {
    hide PriceMap, Blend, Marginal;
    var loads := Loads(a, t.M());
    forall j | 0 <= j < t.M()
      ensures Blend(gamma, prices[j], PriceMap(loads[j], t.brokers[j], eps)) == prices[j]
        <==> prices[j] == TruePrices(a, t)[j]
    {
      PriceMapUnguarded(loads[j], t.brokers[j], eps);
      BlendFixed(gamma, prices[j], PriceMap(loads[j], t.brokers[j], eps));
    }
    var p := UpdatePrices(prices, loads, t.brokers, gamma, eps);
    assert p == prices <==> forall j :: 0 <= j < t.M() ==> p[j] == prices[j];
    assert prices == TruePrices(a, t) <==> forall j :: 0 <= j < t.M() ==> prices[j] == TruePrices(a, t)[j];
  }
}
