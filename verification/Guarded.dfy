/**
 The objective whose slopes are the guarded marginal costs: every congestion term is continued
 linearly once its gap is below eps.
 */
module Guarded {
  import opened Vectors
  import opened Algebra
  import opened Threshold
  import opened Topologies
  import opened Objective
  import opened Prices
  import opened Diagnostics

  // ---------------------------------------------------------------- one queue

  /** x / (mu - x) up to a gap of eps, then its tangent there: the function whose slope is the guarded marginal cost. */
  function Eased(x: real, mu: real, eps: real): real
    requires eps > 0.0
  {
    if mu - x >= eps then Congestion(x, mu)
    else Shift(Congestion(mu - eps, mu), Marginal(mu - eps, mu), x - (mu - eps))
  }

  /** What easing takes off a queue whose gap is below eps. */
  function Overshoot(gap: real, mu: real, eps: real): (r: real)
    requires gap > 0.0 && eps > 0.0
  {
    var w := 1.0 / gap - 1.0 / eps;
    if gap >= eps then 0.0 else mu * (gap * (w * w))
  }

  /** The guarded marginal cost is a tangent of the eased function everywhere. */
  lemma EasedTangent(x: real, y: real, mu: real, eps: real)
    requires mu > 0.0 && eps > 0.0
    ensures Eased(y, mu, eps) >= Shift(Eased(x, mu, eps), PriceMap(x, mu, eps), y - x)
  {
    hide Congestion, Marginal, CostRate;
    var knee := mu - eps;
    var s := Marginal(knee, mu);
    GuardedSlope(x, mu, eps);
    if x <= knee {
      if y <= knee {
        Tangent(x, y, mu);
      } else {
        Tangent(x, knee, mu);
        if x < knee {
          MarginalIncreasing(x, knee, mu);
        }
        MulLe(Marginal(x, mu), s, y - knee);
        assert Marginal(x, mu) * (y - x) == Marginal(x, mu) * (knee - x) + Marginal(x, mu) * (y - knee);
      }
    } else {
      assert s * (y - knee) == s * (x - knee) + s * (y - x);
      if y <= knee {
        Tangent(knee, y, mu);
      }
    }
  }

  lemma GuardedSlope(x: real, mu: real, eps: real)
    requires eps > 0.0
    ensures PriceMap(x, mu, eps) == if mu - x >= eps then Marginal(x, mu) else Marginal(mu - eps, mu)
  {
    assert mu - (mu - eps) == eps;
  }

  /** The congestion is the eased one plus the overshoot, which vanishes exactly at gaps of eps and more. */
  lemma CongestionParts(x: real, mu: real, eps: real)
    requires mu > 0.0 && eps > 0.0 && x < mu
    ensures Congestion(x, mu) == Eased(x, mu, eps) + Overshoot(mu - x, mu, eps)
    ensures Overshoot(mu - x, mu, eps) >= 0.0
    ensures Overshoot(mu - x, mu, eps) == 0.0 <==> mu - x >= eps
  {
    hide Congestion, Marginal;
    var g := mu - x;
    if g < eps {
      var v, u := 1.0 / g, 1.0 / eps;
      DivMul(1.0, g);
      DivMul(1.0, eps);
      CongestionIs(x, mu, v);
      CongestionIs(mu - eps, mu, u);
      MarginalIs(mu - eps, mu, u);
      OvershootIs(mu, g, eps, u, v, Congestion(mu - eps, mu), Marginal(mu - eps, mu));
      assert x - (mu - eps) == eps - g;
    }
  }

  lemma OvershootIs(mu: real, g: real, eps: real, u: real, v: real, c: real, s: real)
    requires mu > 0.0 && 0.0 < g < eps && v * g == 1.0 && u * eps == 1.0
    requires c == mu * u - 1.0 && s == mu * (u * u)
    ensures mu * v - 1.0 == Shift(c, s, eps - g) + mu * (g * ((v - u) * (v - u)))
    ensures mu * (g * ((v - u) * (v - u))) > 0.0
  {
    var w := v - u;
    assert w != 0.0 by {
      if w == 0.0 {
        Times(v, eps, g + (eps - g));
        assert v * (eps - g) == 0.0;
        assert v > 0.0;
        MulPos(v, eps - g);
        assert false;
      }
    }
    var e := g * (w * w);
    MulNonZero(w, w);
    assert w * w > 0.0;
    MulPos(g, w * w);
    MulPos(mu, e);
    assert e == v - 2.0 * u + g * (u * u) by {
      Times(v, v * g, 1.0);
      Times(u, v * g, 1.0);
      assert e == v * (v * g) - 2.0 * (u * (v * g)) + g * (u * u);
    }
    Times(mu, e, v - 2.0 * u + g * (u * u));
    Times(mu * u, u * eps, 1.0);
    assert s * (eps - g) == (mu * u) * (u * eps) - mu * (g * (u * u));
  }

  // ---------------------------------------------------------------- the eased objective

  function EasedTerms(x: Vec, mu: Vec, eps: real): (v: Vec)
    requires |x| == |mu| && eps > 0.0
    ensures |v| == |x|
    ensures forall j :: 0 <= j < |x| ==> v[j] == if mu[j] > 0.0 then Eased(x[j], mu[j], eps) else 0.0
  {
    seq(|x|, j requires 0 <= j < |x| => if mu[j] > 0.0 then Eased(x[j], mu[j], eps) else 0.0)
  }

  function EasedRows(a: Matrix, t: Topology, eps: real): (v: Vec)
    requires Shape(t.links, t.N(), t.M()) && t.Fits(a) && eps > 0.0
    ensures |v| == t.N()
    ensures forall i :: 0 <= i < t.N() ==> v[i] == Sum(EasedTerms(a[i], t.links[i], eps))
  {
    seq(t.N(), i requires 0 <= i < t.N() => Sum(EasedTerms(a[i], t.links[i], eps)))
  }

  function EasedF(a: Matrix, t: Topology, eps: real): real
    requires Shape(t.links, t.N(), t.M()) && t.Fits(a) && eps > 0.0
  {
    Sum(EasedRows(a, t, eps)) + Sum(EasedTerms(Loads(a, t.M()), t.brokers, eps))
  }

  function Overshoots(x: Vec, mu: Vec, eps: real): (v: Vec)
    requires |x| == |mu| && eps > 0.0
    requires forall j :: 0 <= j < |x| && mu[j] > 0.0 ==> x[j] < mu[j]
    ensures |v| == |x|
    ensures forall j :: 0 <= j < |x| ==> v[j] == if mu[j] > 0.0 then Overshoot(mu[j] - x[j], mu[j], eps) else 0.0
  {
    seq(|x|, j requires 0 <= j < |x| => if mu[j] > 0.0 then Overshoot(mu[j] - x[j], mu[j], eps) else 0.0)
  }

  function RowOvershoots(a: Matrix, t: Topology, eps: real): (v: Vec)
    requires InDomain(a, t) && eps > 0.0
    ensures |v| == t.N()
    ensures forall i :: 0 <= i < t.N() ==> v[i] == Sum(Overshoots(a[i], t.links[i], eps))
  {
    seq(t.N(), i requires 0 <= i < t.N() => Sum(Overshoots(a[i], t.links[i], eps)))
  }

  /** What the guards hide of F: a sum over the links and brokers whose gap is below eps. */
  function Hidden(a: Matrix, t: Topology, eps: real): real
    requires InDomain(a, t) && eps > 0.0
  {
    Sum(RowOvershoots(a, t, eps)) + Sum(Overshoots(Loads(a, t.M()), t.brokers, eps))
  }

  lemma OvershootsParts(x: Vec, mu: Vec, eps: real)
    requires |x| == |mu| && eps > 0.0
    requires forall j :: 0 <= j < |x| && mu[j] > 0.0 ==> x[j] < mu[j]
    ensures Sum(LinkTerms(x, mu)) == Sum(EasedTerms(x, mu, eps)) + Sum(Overshoots(x, mu, eps))
    ensures NonNeg(Overshoots(x, mu, eps)) && Sum(Overshoots(x, mu, eps)) >= 0.0
    ensures Sum(Overshoots(x, mu, eps)) == 0.0 <==> forall j :: 0 <= j < |x| && mu[j] > 0.0 ==> mu[j] - x[j] >= eps
  {
    hide Congestion, Eased, Overshoot, Sum;
    var f, e, o := LinkTerms(x, mu), EasedTerms(x, mu, eps), Overshoots(x, mu, eps);
    forall j | 0 <= j < |x|
      ensures f[j] == e[j] + o[j] && o[j] >= 0.0 && (o[j] == 0.0 <==> mu[j] > 0.0 ==> mu[j] - x[j] >= eps)
    {
      if mu[j] > 0.0 {
        CongestionParts(x[j], mu[j], eps);
      }
    }
    assert f == Add(e, o);
    SumAdd(e, o);
    SumNonNeg(o);
    if forall j :: 0 <= j < |x| && mu[j] > 0.0 ==> mu[j] - x[j] >= eps {
      SumConst(o, 0.0);
      assert Prod(|o| as real, 0.0) == 0.0;
    }
  }

  lemma BrokerTermsAreLinkTerms(load: Vec, mu: Vec)
    requires |load| == |mu| && forall j :: 0 <= j < |mu| ==> mu[j] > 0.0 && load[j] < mu[j]
    ensures BrokerTerms(load, mu) == LinkTerms(load, mu)
  {
  }

  /** In the domain F is the eased objective plus what the guards hide, which is nothing exactly when no guard is active. */
  lemma ObjectiveParts(a: Matrix, t: Topology, eps: real)
    requires t.Valid() && InDomain(a, t) && eps > 0.0
    ensures F(a, t) == EasedF(a, t, eps) + Hidden(a, t, eps)
    ensures Hidden(a, t, eps) >= 0.0
    ensures Hidden(a, t, eps) == 0.0 <==> Unguarded(a, t, eps)
  {
    hide Sum, LinkTerms, EasedTerms, Overshoots, Loads, BrokerTerms;
    DomainRows(a, t);
    forall i | 0 <= i < t.N()
      ensures RowTerms(a, t)[i] == EasedRows(a, t, eps)[i] + RowOvershoots(a, t, eps)[i]
      ensures RowOvershoots(a, t, eps)[i] >= 0.0
      ensures RowOvershoots(a, t, eps)[i] == 0.0
        <==> forall j :: 0 <= j < t.M() && t.links[i][j] > 0.0 ==> t.links[i][j] - a[i][j] >= eps
    {
      OvershootsParts(a[i], t.links[i], eps);
    }
    var rows := RowOvershoots(a, t, eps);
    assert RowTerms(a, t) == Add(EasedRows(a, t, eps), rows);
    SumAdd(EasedRows(a, t, eps), rows);
    SumNonNeg(rows);
    BrokerTermsAreLinkTerms(Loads(a, t.M()), t.brokers);
    OvershootsParts(Loads(a, t.M()), t.brokers, eps);
    if forall i :: 0 <= i < t.N() ==> rows[i] == 0.0 {
      SumConst(rows, 0.0);
      assert Prod(|rows| as real, 0.0) == 0.0;
    }
  }

  // ---------------------------------------------------------------- what sources and brokers pay

  /** Nothing on missing links. */
  predicate NoStray(a: Matrix, t: Topology)
    requires Shape(t.links, t.N(), t.M()) && t.Fits(a)
  {
    forall i, j :: 0 <= i < t.N() && 0 <= j < t.M() && t.links[i][j] <= 0.0 ==> a[i][j] == 0.0
  }

  /** What the row pays at prices p. */
  function Paid(x: Vec, mu: Vec, p: Vec, eps: real): (v: Vec)
    requires |x| == |mu| == |p| && eps > 0.0
    ensures |v| == |x|
    ensures forall j :: 0 <= j < |x| ==>
      v[j] == (if mu[j] > 0.0 then Eased(x[j], mu[j], eps) else 0.0) + Prod(p[j], x[j])
  {
    Add(EasedTerms(x, mu, eps), Weighted(p, x))
  }

  lemma PaidParts(x: Vec, mu: Vec, p: Vec, eps: real)
    requires |x| == |mu| == |p| && eps > 0.0
    ensures Sum(Paid(x, mu, p, eps)) == Sum(EasedTerms(x, mu, eps)) + Dot(p, x)
  {
    SumAdd(EasedTerms(x, mu, eps), Weighted(p, x));
  }

  lemma PaidBroker(x: real, y: real, mu: real, p: real, eps: real)
    requires mu > 0.0 && eps > 0.0 && p == PriceMap(x, mu, eps)
    ensures Prod(p, y) - Prod(p, x) <= Eased(y, mu, eps) - Eased(x, mu, eps)
  {
    hide Eased, PriceMap;
    EasedTangent(x, y, mu, eps);
    ProdDiff(p, PriceMap(x, mu, eps), y, x);
  }

  /** The brokers' reported prices are tangents of their eased congestion. */
  lemma BrokersPaid(x: Vec, y: Vec, mu: Vec, p: Vec, eps: real)
    requires |x| == |y| == |mu| == |p| && eps > 0.0
    requires forall j :: 0 <= j < |mu| ==> mu[j] > 0.0 && p[j] == PriceMap(x[j], mu[j], eps)
    ensures Sum(EasedTerms(y, mu, eps)) - Sum(EasedTerms(x, mu, eps)) >= Dot(p, y) - Dot(p, x)
  {
    hide Eased, PriceMap, Prod, Sum;
    var fx, fy, px, py := EasedTerms(x, mu, eps), EasedTerms(y, mu, eps), Weighted(p, x), Weighted(p, y);
    forall j | 0 <= j < |mu|
      ensures Minus(py, px)[j] <= Minus(fy, fx)[j]
    {
      PaidBroker(x[j], y[j], mu[j], p[j], eps);
    }
    SumMono(Minus(py, px), Minus(fy, fx));
    SumMinus(py, px);
    SumMinus(fy, fx);
  }

  function PaidRows(a: Matrix, t: Topology, p: Vec, eps: real): (v: Vec)
    requires Shape(t.links, t.N(), t.M()) && t.Fits(a) && |p| == t.M() && eps > 0.0
    ensures |v| == t.N()
    ensures forall i :: 0 <= i < t.N() ==> v[i] == Sum(Paid(a[i], t.links[i], p, eps))
  {
    seq(t.N(), i requires 0 <= i < t.N() => Sum(Paid(a[i], t.links[i], p, eps)))
  }

  lemma PaidRowsParts(a: Matrix, t: Topology, p: Vec, eps: real)
    requires Shape(t.links, t.N(), t.M()) && t.Fits(a) && |p| == t.M() && eps > 0.0
    ensures Sum(PaidRows(a, t, p, eps)) == Sum(EasedRows(a, t, eps)) + Dot(p, Loads(a, t.M()))
  {
    hide Sum, Paid, EasedTerms, Dot, Loads;
    forall i | 0 <= i < t.N()
      ensures PaidRows(a, t, p, eps)[i] == EasedRows(a, t, eps)[i] + RowDots(p, a)[i]
    {
      PaidParts(a[i], t.links[i], p, eps);
    }
    assert PaidRows(a, t, p, eps) == Add(EasedRows(a, t, eps), RowDots(p, a));
    SumAdd(EasedRows(a, t, eps), RowDots(p, a));
    DotLoads(p, a);
  }
}
