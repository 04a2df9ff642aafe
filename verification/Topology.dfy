/** Source rates, access-link and broker capacities, as validated by src/model/topology.py. */
module Topologies {
  import opened Vectors

  predicate HasLink(mu: Vec) {
    exists j :: 0 <= j < |mu| && mu[j] > 0.0
  }

  /** links[i][j] == 0 stands for a missing link. */
  datatype Topology = Topology(rates: Vec, links: Matrix, brokers: Vec) {

    function N(): nat { |rates| }

    function M(): nat { |brokers| }

    ghost predicate Valid() {
      && N() > 0 && M() > 0
      && Shape(links, N(), M())
      && NonNeg(rates)
      && (forall i :: 0 <= i < N() ==> NonNeg(links[i]))
      && (forall i :: 0 <= i < N() && rates[i] > 0.0 ==> HasLink(links[i]))
      && (forall j :: 0 <= j < M() ==> brokers[j] > 0.0)
    }

    predicate Fits(a: Matrix) {
      Shape(a, N(), M())
    }
  }
}
