/**
 How far a state can be from the optimum, read off the state itself: the flow it keeps on routes that
 are not its cheapest, and the rates it misses, priced at the reported marginal costs.
 */
module DualGaps {
  import opened Vectors
  import opened Algebra
  import opened Threshold
  import opened Topologies
  import opened Objective
  import opened Certificate
  import opened Prices
  import opened Diagnostics
  import opened Guarded

  // ---------------------------------------------------------------- the gap

  /** Per link, the flow times what the route costs above m, as reported. */
  function Wastes(x: Vec, mu: Vec, p: Vec, eps: real, m: real): (v: Vec)
    requires |x| == |mu| == |p| && eps > 0.0
    ensures |v| == |x|
    ensures forall j :: 0 <= j < |x| ==>
      v[j] == if mu[j] > 0.0 then Prod(x[j], PriceMap(x[j], mu[j], eps) + p[j] - m) else 0.0
  {
    seq(|x|, j requires 0 <= j < |x| =>
      if mu[j] > 0.0 then Prod(x[j], PriceMap(x[j], mu[j], eps) + p[j] - m) else 0.0)
  }

  /** One source: what its flow wastes, and m for every unit it sends beyond its rate. */
  function RowGap(x: Vec, mu: Vec, p: Vec, eps: real, m: real, rate: real): real
    requires |x| == |mu| == |p| && eps > 0.0
  {
    Sum(Wastes(x, mu, p, eps, m)) + Prod(m, Sum(x) - rate)
  }

  function RowGaps(a: Matrix, t: Topology, eps: real): (v: Vec)
    requires t.Valid() && t.Fits(a) && eps > 0.0
    ensures |v| == t.N()
    ensures forall i :: 0 <= i < t.N() ==>
      v[i] == RowGap(a[i], t.links[i], BrokerCosts(a, t, eps), eps, CheapestRoutes(a, t, eps)[i], t.rates[i])
  {
    seq(t.N(), i requires 0 <= i < t.N() =>
      RowGap(a[i], t.links[i], BrokerCosts(a, t, eps), eps, CheapestRoutes(a, t, eps)[i], t.rates[i]))
  }

  function DualGap(a: Matrix, t: Topology, eps: real): real
    requires t.Valid() && t.Fits(a) && eps > 0.0
  {
    Sum(RowGaps(a, t, eps))
  }

  // ---------------------------------------------------------------- one source

  lemma PaidLink(x: real, y: real, mu: real, p: real, eps: real, m: real, w: real)
    requires mu > 0.0 && eps > 0.0 && y >= 0.0 && PriceMap(x, mu, eps) + p >= m
    requires w == Prod(x, PriceMap(x, mu, eps) + p - m)
    ensures Shift(Eased(x, mu, eps) + Prod(p, x) - w, m, y - x) <= Eased(y, mu, eps) + Prod(p, y)
  {
    hide Eased, PriceMap;
    EasedTangent(x, y, mu, eps);
    ExcessPaid(x, y, PriceMap(x, mu, eps), p, m, w, Eased(x, mu, eps), Eased(y, mu, eps));
  }

  lemma ExcessPaid(x: real, y: real, c: real, p: real, m: real, w: real, ex: real, ey: real)
    requires y >= 0.0 && c + p >= m && w == Prod(x, c + p - m) && ey >= Shift(ex, c, y - x)
    ensures Shift(ex + Prod(p, x) - w, m, y - x) <= ey + Prod(p, y)
  {
    Excess(x, y, c, p, m, w);
    ProdDiff(p, p, y, x);
  }

  lemma PaidEntry(x: real, y: real, mu: real, p: real, eps: real, m: real, cx: real, w: real, cy: real)
    requires eps > 0.0
    requires if mu > 0.0 then y >= 0.0 && PriceMap(x, mu, eps) + p >= m else x == 0.0 && y == 0.0
    requires cx == (if mu > 0.0 then Eased(x, mu, eps) else 0.0) + Prod(p, x)
    requires cy == (if mu > 0.0 then Eased(y, mu, eps) else 0.0) + Prod(p, y)
    requires w == if mu > 0.0 then Prod(x, PriceMap(x, mu, eps) + p - m) else 0.0
    ensures Shift(cx - w, m, y - x) <= cy
  {
    hide Eased, PriceMap;
    if mu > 0.0 {
      PaidLink(x, y, mu, p, eps, m, w);
    }
  }

  /** Leaving x for y saves at most the gap of x against the total of y. */
  lemma PaidRow(x: Vec, y: Vec, mu: Vec, p: Vec, eps: real, m: real)
    requires |x| == |y| == |mu| == |p| && eps > 0.0
    requires forall j :: 0 <= j < |mu| ==>
      if mu[j] > 0.0 then y[j] >= 0.0 && PriceMap(x[j], mu[j], eps) + p[j] >= m else x[j] == 0.0 && y[j] == 0.0
    ensures Sum(Paid(x, mu, p, eps)) <= Sum(Paid(y, mu, p, eps)) + RowGap(x, mu, p, eps, m, Sum(y))
  {
    hide Eased, PriceMap, Prod, Sum, Shift, Paid, Wastes;
    var cx, w, cy := Paid(x, mu, p, eps), Wastes(x, mu, p, eps, m), Paid(y, mu, p, eps);
    var low := Minus(cx, w);
    forall j | 0 <= j < |mu|
      ensures Shift(low[j], m, y[j] - x[j]) <= cy[j]
    {
      PaidEntry(x[j], y[j], mu[j], p[j], eps, m, cx[j], w[j], cy[j]);
    }
    SumSlope(low, m, x, y, cy);
    SumMinus(cx, w);
    Turned(Sum(cx) - Sum(w), m, Sum(x), Sum(y));
  }

  lemma Turned(c: real, m: real, x: real, y: real)
    ensures Shift(c, m, y - x) == c - Prod(m, x - y)
  {
  }

  // ---------------------------------------------------------------- all sources

  lemma ReportedPositive(x: real, mu: real, eps: real)
    requires mu > 0.0 && eps > 0.0
    ensures PriceMap(x, mu, eps) > 0.0
  {
  }

  /** A source's cheapest route is reported to cost no more than any other, and something. */
  lemma CheapestIsLeast(a: Matrix, t: Topology, eps: real, i: nat)
    requires t.Valid() && t.Fits(a) && eps > 0.0 && i < t.N()
    ensures var m := CheapestRoutes(a, t, eps)[i];
      && m >= 0.0
      && forall j :: 0 <= j < t.M() && t.links[i][j] > 0.0 ==>
           PriceMap(a[i][j], t.links[i][j], eps) + BrokerCosts(a, t, eps)[j] >= m
  {
    hide RowMinOf, PriceMap, Loads;
    var row := MarginalTable(a, t, eps)[i];
    RowMinMeans(row);
    forall j | 0 <= j < t.M() && row[j].Some? ensures row[j].value >= 0.0 {
      ReportedPositive(a[i][j], t.links[i][j], eps);
      ReportedPositive(Loads(a, t.M())[j], t.brokers[j], eps);
    }
  }

  lemma SourcePaid(a: Matrix, y: Matrix, t: Topology, eps: real, i: nat)
    requires t.Valid() && t.Fits(a) && NoStray(a, t) && InDomain(y, t) && eps > 0.0 && i < t.N()
    requires Sum(y[i]) == t.rates[i]
    ensures var p := BrokerCosts(a, t, eps);
      PaidRows(a, t, p, eps)[i] <= PaidRows(y, t, p, eps)[i] + RowGaps(a, t, eps)[i]
  {
    hide Sum, Paid, PriceMap, RowGap, Loads, RowMinOf;
    CheapestIsLeast(a, t, eps, i);
    PaidRow(a[i], y[i], t.links[i], BrokerCosts(a, t, eps), eps, CheapestRoutes(a, t, eps)[i]);
  }

  lemma RowsPaid(a: Matrix, y: Matrix, t: Topology, eps: real)
    requires t.Valid() && t.Fits(a) && NoStray(a, t) && InDomain(y, t) && eps > 0.0 && RowSums(y) == t.rates
    ensures var p := BrokerCosts(a, t, eps);
      Sum(PaidRows(a, t, p, eps)) <= Sum(PaidRows(y, t, p, eps)) + DualGap(a, t, eps)
  {
    hide Sum, PaidRows, RowGaps, NoStray, BrokerCosts, Loads;
    var p := BrokerCosts(a, t, eps);
    var ca, cy, gaps := PaidRows(a, t, p, eps), PaidRows(y, t, p, eps), RowGaps(a, t, eps);
    forall i | 0 <= i < t.N()
      ensures ca[i] <= Add(cy, gaps)[i]
    {
      assert RowSums(y)[i] == t.rates[i];
      SourcePaid(a, y, t, eps, i);
    }
    SumMono(ca, Add(cy, gaps));
    SumAdd(cy, gaps);
  }

  /**
   Weak duality. For every state without stray flow, certified or not, in the domain of F or not and
   guarded or not, the eased objective is within the state's own gap of every feasible routing's.
   */
  lemma GapBound(a: Matrix, y: Matrix, t: Topology, eps: real)
    requires t.Valid() && t.Fits(a) && NoStray(a, t) && InDomain(y, t) && eps > 0.0 && RowSums(y) == t.rates
    ensures EasedF(a, t, eps) <= EasedF(y, t, eps) + DualGap(a, t, eps)
    ensures EasedF(a, t, eps) <= F(y, t) + DualGap(a, t, eps)
  {
    hide Sum, Paid, PaidRows, EasedRows, EasedTerms, PriceMap, Loads, Dot, DualGap, F, Hidden;
    var p := BrokerCosts(a, t, eps);
    RowsPaid(a, y, t, eps);
    PaidRowsParts(a, t, p, eps);
    PaidRowsParts(y, t, p, eps);
    BrokersPaid(Loads(a, t.M()), Loads(y, t.M()), t.brokers, p, eps);
    ObjectiveParts(y, t, eps);
  }

  /** In the domain, F itself is within the gap and what the guards hide: both computed from the state alone. */
  lemma WithinGap(a: Matrix, y: Matrix, t: Topology, eps: real)
    requires t.Valid() && InDomain(a, t) && InDomain(y, t) && eps > 0.0 && RowSums(y) == t.rates
    ensures F(a, t) <= F(y, t) + DualGap(a, t, eps) + Hidden(a, t, eps)
  {
    hide EasedF, F, Hidden, DualGap, Loads;
    ObjectiveParts(a, t, eps);
    GapBound(a, y, t, eps);
  }

  /** At most this far above F(y), and finite. */
  ghost predicate NearlyOptimal(a: Matrix, y: Matrix, t: Topology, eps: real, tol: Tolerances)
    requires t.Valid() && t.Fits(a) && InDomain(y, t) && eps > 0.0
  {
    SystemObjective(a, t).Finite?
    && SystemObjective(a, t).value <= F(y, t) + Allowance(a, t, eps, tol)
  }

  /**
   A condition on the state alone: in the domain, with a gap and a hidden part that together fit the
   allowance, it is nearly optimal against every feasible routing.
   */
  lemma NearlyOptimalIf(a: Matrix, y: Matrix, t: Topology, eps: real, tol: Tolerances)
    requires t.Valid() && InDomain(a, t) && InDomain(y, t) && eps > 0.0 && RowSums(y) == t.rates
    requires DualGap(a, t, eps) + Hidden(a, t, eps) <= Allowance(a, t, eps, tol)
    ensures NearlyOptimal(a, y, t, eps, tol)
  {
    hide F, Hidden, DualGap, Allowance, Loads;
    WithinGap(a, y, t, eps);
  }

  // ---------------------------------------------------------------- certified states

  lemma RowGapAtMost(x: Vec, mu: Vec, p: Vec, eps: real, m: real, rate: real, k: real, c: real)
    requires |x| == |mu| == |p| && eps > 0.0 && m >= 0.0 && Abs(Sum(x) - rate) <= c
    requires forall j :: 0 <= j < |mu| ==> Wastes(x, mu, p, eps, m)[j] <= k
    ensures RowGap(x, mu, p, eps, m, rate) <= Shift(Prod(|mu| as real, k), c, m)
  {
    hide Wastes, Sum, Prod, Shift;
    var w, cap := Wastes(x, mu, p, eps, m), seq(|mu|, _ => k);
    SumMono(w, cap);
    SumConst(cap, k);
    MissAtMost(Sum(x) - rate, c, m);
    ShiftIsProd(Prod(|mu| as real, k), c, m);
  }

  lemma MissAtMost(miss: real, c: real, m: real)
    requires m >= 0.0 && miss <= c
    ensures Prod(m, miss) <= Prod(c, m)
  {
    MulLe(miss, c, m);
  }

  lemma WasteAtMost(a: Matrix, t: Topology, eps: real, k: real, i: nat, j: nat)
    requires t.Valid() && t.Fits(a) && eps > 0.0 && k >= 0.0 && Worst(KktTable(a, t, eps)) <= k
    requires i < t.N() && j < t.M()
    ensures Wastes(a[i], t.links[i], BrokerCosts(a, t, eps), eps, CheapestRoutes(a, t, eps)[i])[j] <= k
  {
    hide RowMinOf, PriceMap, Loads, Worst, Prod;
    if t.links[i][j] > 0.0 {
      var row := MarginalTable(a, t, eps)[i];
      assert KktTable(a, t, eps)[i][j] == Abs(Prod(a[i][j], row[j].value - RowMinOf(row)));
    }
  }

  lemma WastesOfSource(a: Matrix, t: Topology, eps: real, k: real, i: nat)
    requires t.Valid() && t.Fits(a) && eps > 0.0 && k >= 0.0 && Worst(KktTable(a, t, eps)) <= k && i < t.N()
    ensures var w := Wastes(a[i], t.links[i], BrokerCosts(a, t, eps), eps, CheapestRoutes(a, t, eps)[i]);
      forall j :: 0 <= j < t.M() ==> w[j] <= k
  {
    hide Wastes, KktTable, Worst, BrokerCosts, CheapestRoutes, PriceMap, Prod, Loads;
    forall j | 0 <= j < t.M()
      ensures Wastes(a[i], t.links[i], BrokerCosts(a, t, eps), eps, CheapestRoutes(a, t, eps)[i])[j] <= k
    {
      WasteAtMost(a, t, eps, k, i, j);
    }
  }

  lemma SourceGap(a: Matrix, t: Topology, eps: real, k: real, c: real, i: nat)
    requires t.Valid() && t.Fits(a) && eps > 0.0 && k >= 0.0 && i < t.N()
    requires Worst(KktTable(a, t, eps)) <= k && Conserves(a, t, c)
    ensures RowGaps(a, t, eps)[i] <= Shift(Prod(t.M() as real, k), c, CheapestRoutes(a, t, eps)[i])
  {
    hide Sum, RowGap, Wastes, KktTable, Worst, BrokerCosts, CheapestRoutes, PriceMap, Prod, Shift, Loads, RowMinOf;
    var m := CheapestRoutes(a, t, eps)[i];
    assert m >= 0.0 by {
      CheapestIsLeast(a, t, eps, i);
    }
    WastesOfSource(a, t, eps, k, i);
    RowGapAtMost(a[i], t.links[i], BrokerCosts(a, t, eps), eps, m, t.rates[i], k, c);
  }

  /** Residuals bound the gap. */
  lemma ResidualsBoundGap(a: Matrix, t: Topology, eps: real, k: real, c: real)
    requires t.Valid() && t.Fits(a) && eps > 0.0 && k >= 0.0
    requires Worst(KktTable(a, t, eps)) <= k && Conserves(a, t, c)
    ensures DualGap(a, t, eps)
         <= Prod(t.N() as real, Prod(t.M() as real, k)) + Prod(c, Sum(CheapestRoutes(a, t, eps)))
  {
    hide Sum, RowGap, RowGaps, KktTable, Worst, CheapestRoutes, Prod, Shift, Conserves, Topology.Valid;
    var gaps, m, mk := RowGaps(a, t, eps), CheapestRoutes(a, t, eps), Prod(t.M() as real, k);
    var flat := seq(t.N(), _ => mk);
    var caps := Plus(flat, c, m);
    forall i | 0 <= i < t.N()
      ensures gaps[i] <= caps[i]
    {
      SourceGap(a, t, eps, k, c, i);
    }
    SumMono(gaps, caps);
    SumPlus(flat, c, m);
    SumConst(flat, mk);
    ShiftIsProd(Sum(flat), c, Sum(m));
  }

  lemma ShiftIsProd(x: real, s: real, y: real)
    ensures Shift(x, s, y) == x + Prod(s, y)
  {
  }

  /** A certified state's gap fits the allowance, wherever the state lies and whichever guards are active. */
  lemma CertifiedGap(sqrt: real -> real, a: Matrix, prices: Vec, t: Topology, eps: real, activeTol: real,
                     tol: Tolerances)
    requires IsSqrt(sqrt) && t.Valid() && t.Fits(a) && |prices| == t.M() && eps > 0.0
    ensures IsCertified(sqrt, a, prices, t, eps, activeTol, tol) ==> DualGap(a, t, eps) <= Allowance(a, t, eps, tol)
  {
    hide IsCertified, DualGap, CheapestRoutes, KktTable, Worst, Conserves, Sum, Prod;
    if IsCertified(sqrt, a, prices, t, eps, activeTol, tol) {
      CertifiedKkt(sqrt, a, prices, t, eps, activeTol, tol);
      CertifiedConserves(sqrt, a, prices, t, eps, activeTol, tol);
      ResidualsBoundGap(a, t, eps, tol.kkt, tol.conservation);
    }
  }

  /**
   What every certified state guarantees, wherever it lies and whichever guards are active: its eased
   objective is within the allowance of F at every feasible routing.
   */
  lemma CertifiedEased(sqrt: real -> real, a: Matrix, prices: Vec, t: Topology, eps: real, activeTol: real,
                       tol: Tolerances, y: Matrix)
    requires IsSqrt(sqrt) && t.Valid() && t.Fits(a) && |prices| == t.M() && eps > 0.0 && NoStray(a, t)
    requires InDomain(y, t) && RowSums(y) == t.rates
    ensures IsCertified(sqrt, a, prices, t, eps, activeTol, tol) ==>
      EasedF(a, t, eps) <= F(y, t) + Allowance(a, t, eps, tol)
  {
    hide IsCertified, EasedF, F, DualGap, Allowance, NoStray;
    CertifiedGap(sqrt, a, prices, t, eps, activeTol, tol);
    GapBound(a, y, t, eps);
  }

  /** In the domain every certified state is within the allowance, plus what its own gaps hide, of every feasible routing. */
  lemma CertifiedWithin(sqrt: real -> real, a: Matrix, prices: Vec, t: Topology, eps: real, activeTol: real,
                        tol: Tolerances, y: Matrix)
    requires IsSqrt(sqrt) && t.Valid() && |prices| == t.M() && eps > 0.0 && InDomain(a, t)
    requires InDomain(y, t) && RowSums(y) == t.rates
    ensures IsCertified(sqrt, a, prices, t, eps, activeTol, tol) ==>
      F(a, t) <= F(y, t) + Allowance(a, t, eps, tol) + Hidden(a, t, eps)
  {
    hide IsCertified, F, Hidden, DualGap, Allowance, Loads;
    CertifiedGap(sqrt, a, prices, t, eps, activeTol, tol);
    WithinGap(a, y, t, eps);
  }

  /**
   A certified state inside the open domain, away from the guards, is within an explicit
   distance of the optimum over all routings of the exact rates.
   */
  lemma CertifiedNearOptimal(sqrt: real -> real, a: Matrix, prices: Vec, t: Topology, eps: real, activeTol: real,
                             tol: Tolerances, y: Matrix)
    requires IsSqrt(sqrt) && t.Valid() && |prices| == t.M() && eps > 0.0
    requires InDomain(a, t) && Unguarded(a, t, eps)
    requires InDomain(y, t) && RowSums(y) == t.rates
    ensures IsCertified(sqrt, a, prices, t, eps, activeTol, tol) ==>
      F(a, t) <= F(y, t) + Allowance(a, t, eps, tol)
  {
    hide IsCertified, EasedF, F, Hidden, Allowance, Unguarded, Loads;
    ObjectiveParts(a, t, eps);
    CertifiedWithin(sqrt, a, prices, t, eps, activeTol, tol, y);
  }

  /**
   When a certified state is nearly optimal: only in the open domain of F; there whenever what its
   guards hide fits what its gap leaves of the allowance, which is never negative; and so, with no
   guard active, exactly in the domain.
   */
  lemma CertificateNeedsDomain(sqrt: real -> real, a: Matrix, prices: Vec, t: Topology, eps: real, activeTol: real,
                               tol: Tolerances, y: Matrix)
    requires IsSqrt(sqrt) && t.Valid() && t.Fits(a) && |prices| == t.M() && eps > 0.0
    requires InDomain(y, t) && RowSums(y) == t.rates
    ensures IsCertified(sqrt, a, prices, t, eps, activeTol, tol) ==>
      var left := Allowance(a, t, eps, tol) - DualGap(a, t, eps);
      && left >= 0.0
      && (NearlyOptimal(a, y, t, eps, tol) ==> InDomain(a, t))
      && (InDomain(a, t) && Hidden(a, t, eps) <= left ==> NearlyOptimal(a, y, t, eps, tol))
      && (Unguarded(a, t, eps) ==> (NearlyOptimal(a, y, t, eps, tol) <==> InDomain(a, t)))
  {
    hide IsCertified, F, Hidden, EasedF, DualGap, Allowance, Unguarded, Loads;
    CertifiedGap(sqrt, a, prices, t, eps, activeTol, tol);
    if InDomain(a, t) {
      ObjectiveParts(a, t, eps);
      WithinGap(a, y, t, eps);
    }
  }

  /** Nearly optimal states keep every gap above the capacity over one plus the value they are near to. */
  lemma GapsOfNearlyOptimal(a: Matrix, y: Matrix, t: Topology, eps: real, tol: Tolerances)
    requires t.Valid() && t.Fits(a) && InDomain(y, t) && eps > 0.0 && NearlyOptimal(a, y, t, eps, tol)
    ensures InDomain(a, t)
    ensures var worth := 1.0 + F(y, t) + Allowance(a, t, eps, tol);
      && (forall i, j :: 0 <= i < t.N() && 0 <= j < t.M() && t.links[i][j] > 0.0 ==>
            t.links[i][j] <= Prod(worth, t.links[i][j] - a[i][j]))
      && (forall j :: 0 <= j < t.M() ==> t.brokers[j] <= Prod(worth, t.brokers[j] - Loads(a, t.M())[j]))
  {
    hide F, Allowance, Loads, Congestion;
    var worth := 1.0 + F(y, t) + Allowance(a, t, eps, tol);
    TermsBelowF(a, t);
    forall i, j | 0 <= i < t.N() && 0 <= j < t.M() && t.links[i][j] > 0.0
      ensures t.links[i][j] <= Prod(worth, t.links[i][j] - a[i][j])
    {
      GapOf(a[i][j], t.links[i][j], worth);
    }
    forall j | 0 <= j < t.M()
      ensures t.brokers[j] <= Prod(worth, t.brokers[j] - Loads(a, t.M())[j])
    {
      GapOf(Loads(a, t.M())[j], t.brokers[j], worth);
    }
  }

  lemma GapOf(x: real, mu: real, worth: real)
    requires x < mu && Congestion(x, mu) <= worth - 1.0
    ensures mu <= Prod(worth, mu - x)
  {
    DivLe(x, mu - x, worth - 1.0);
    assert Prod(worth, mu - x) == (worth - 1.0) * (mu - x) + (mu - x);
  }

  /** No single queue contributes more than F. */
  lemma TermsBelowF(a: Matrix, t: Topology)
    requires t.Valid() && InDomain(a, t)
    ensures forall i, j :: 0 <= i < t.N() && 0 <= j < t.M() && t.links[i][j] > 0.0 ==>
      Congestion(a[i][j], t.links[i][j]) <= F(a, t)
    ensures forall j :: 0 <= j < t.M() ==> Congestion(Loads(a, t.M())[j], t.brokers[j]) <= F(a, t)
  {
    hide Congestion, Loads, Sum;
    var brokers := BrokerTerms(Loads(a, t.M()), t.brokers);
    LoadsNonNegative(a, t);
    forall j | 0 <= j < t.M() ensures brokers[j] >= 0.0 {
      CongestionNonNeg(Loads(a, t.M())[j], t.brokers[j]);
    }
    SumNonNeg(brokers);
    forall i | 0 <= i < t.N()
      ensures NonNeg(LinkTerms(a[i], t.links[i])) && RowTerms(a, t)[i] >= 0.0
      ensures forall j :: 0 <= j < t.M() ==> LinkTerms(a[i], t.links[i])[j] <= RowTerms(a, t)[i]
    {
      forall j | 0 <= j < t.M() ensures LinkTerms(a[i], t.links[i])[j] >= 0.0 {
        if t.links[i][j] > 0.0 {
          CongestionNonNeg(a[i][j], t.links[i][j]);
        }
      }
      SumNonNeg(LinkTerms(a[i], t.links[i]));
    }
    SumNonNeg(RowTerms(a, t));
  }

  lemma CongestionNonNeg(x: real, mu: real)
    requires 0.0 <= x < mu
    ensures Congestion(x, mu) >= 0.0
  {
    DivGe(x, mu - x, 0.0);
  }
}
