/** The largest multiplier of the rates that still has a feasible routing (src/runtime/experiments.py). */
module Multiplier {
  import opened Vectors
  import opened Algebra
  import opened Topologies
  import opened Symmetric

  /** A routing of r times the rates that leaves the margin on every link and broker. */
  ghost predicate Headroom(y: Matrix, t: Topology, r: real, margin: real) {
    && Shape(t.links, t.N(), t.M()) && t.Fits(y)
    && (forall i :: 0 <= i < t.N() ==> Sum(y[i]) == Prod(r, t.rates[i]))
    && (forall i, j :: 0 <= i < t.N() && 0 <= j < t.M() ==>
          if t.links[i][j] > 0.0 then y[i][j] >= 0.0 && y[i][j] + margin <= t.links[i][j] else y[i][j] == 0.0)
    && (forall j :: 0 <= j < t.M() ==> Loads(y, t.M())[j] + margin <= t.brokers[j])
  }

  /** What the transportation LP decides. */
  ghost predicate FeasibleAt(t: Topology, r: real, margin: real) {
    exists y :: Headroom(y, t, r, margin)
  }

  function Scale(s: real, v: Vec): (w: Vec)
    ensures |w| == |v|
    ensures forall j :: 0 <= j < |v| ==> w[j] == Prod(s, v[j])
  {
    seq(|v|, j requires 0 <= j < |v| => Prod(s, v[j]))
  }

  function ScaleRows(s: real, a: Matrix): (b: Matrix)
    ensures |b| == |a|
    ensures forall i :: 0 <= i < |a| ==> b[i] == Scale(s, a[i])
  {
    seq(|a|, i requires 0 <= i < |a| => Scale(s, a[i]))
  }

  lemma {:induction false} ScaleSum(s: real, v: Vec)
    ensures Sum(Scale(s, v)) == Prod(s, Sum(v))
  {
    if |v| > 0 {
      hide Prod;
      ScaleSum(s, v[1..]);
      assert Scale(s, v)[1..] == Scale(s, v[1..]);
      ProdAdd(s, v[0], Sum(v[1..]));
    } else {
      assert Prod(s, 0.0) == 0.0;
    }
  }

  lemma {:induction false} ScaleLoads(s: real, a: Matrix, m: nat)
    requires Shape(a, |a|, m)
    ensures Loads(ScaleRows(s, a), m) == Scale(s, Loads(a, m))
  {
    if |a| > 0 {
      hide Prod;
      ScaleLoads(s, a[1..], m);
      assert ScaleRows(s, a)[1..] == ScaleRows(s, a[1..]);
      forall j | 0 <= j < m
        ensures Prod(s, a[0][j]) + Prod(s, Loads(a[1..], m)[j]) == Prod(s, Loads(a, m)[j])
      {
        ProdAdd(s, a[0][j], Loads(a[1..], m)[j]);
      }
    } else {
      assert Prod(s, 0.0) == 0.0;
    }
  }

  lemma Shrinks(s: real, x: real)
    requires 0.0 <= s <= 1.0 && x >= 0.0
    ensures 0.0 <= Prod(s, x) <= x
  {
    MulNonNeg(s, x);
    MulLe(s, 1.0, x);
  }

  /** Scaling a routing down scales the rates down and leaves at least the same headroom. */
  lemma ScaledHeadroom(y: Matrix, t: Topology, r: real, margin: real, s: real)
    requires Headroom(y, t, r, margin) && 0.0 <= s <= 1.0
    ensures Headroom(ScaleRows(s, y), t, Prod(s, r), margin)
  {
    hide Prod, Sum, Loads;
    var z := ScaleRows(s, y);
    forall i | 0 <= i < t.N()
      ensures Sum(z[i]) == Prod(Prod(s, r), t.rates[i])
    {
      ScaleSum(s, y[i]);
      ProdAssoc(s, r, t.rates[i]);
    }
    forall i, j | 0 <= i < t.N() && 0 <= j < t.M()
      ensures if t.links[i][j] > 0.0 then z[i][j] >= 0.0 && z[i][j] + margin <= t.links[i][j] else z[i][j] == 0.0
    {
      Shrinks(s, y[i][j]);
    }
    ScaleLoads(s, y, t.M());
    LoadsNonNeg(y, t.M());
    forall j | 0 <= j < t.M()
      ensures Loads(z, t.M())[j] + margin <= t.brokers[j]
    {
      Shrinks(s, Loads(y, t.M())[j]);
    }
  }

  lemma ProdAssoc(x: real, y: real, z: real)
    ensures Prod(x, Prod(y, z)) == Prod(Prod(x, y), z)
  {
  }

  /** Feasibility is closed downward in the multiplier. */
  lemma FeasibleBelow(t: Topology, r: real, r': real, margin: real)
    requires FeasibleAt(t, r, margin) && 0.0 <= r' <= r && r > 0.0
    ensures FeasibleAt(t, r', margin)
  {
    hide Headroom;
    var y :| Headroom(y, t, r, margin);
    var s := r' / r;
    DivGe(r', r, 0.0);
    DivLe(r', r, 1.0);
    DivMul(r', r);
    assert Prod(s, r) == r';
    ScaledHeadroom(y, t, r, margin, s);
  }

  /** No routing carries more than the brokers' total capacity. */
  lemma FeasibleBounded(t: Topology, r: real, margin: real)
    requires FeasibleAt(t, r, margin) && margin >= 0.0
    ensures Prod(r, Sum(t.rates)) <= Sum(t.brokers)
  {
    hide Prod, Sum, Loads;
    var y :| Headroom(y, t, r, margin);
    TotalFlow(y, t.M());
    SumMono(Loads(y, t.M()), t.brokers);
    assert RowSums(y) == Scale(r, t.rates);
    ScaleSum(r, t.rates);
  }

  /** With no traffic every multiplier is feasible, so the doubling loop has no end: a positive total is needed. */
  lemma NoTrafficNeverInfeasible(t: Topology, r: real, margin: real)
    requires FeasibleAt(t, 1.0, margin)
    requires forall i :: 0 <= i < t.N() ==> t.rates[i] == 0.0
    ensures FeasibleAt(t, r, margin)
  {
    hide Sum, Loads;
    var y :| Headroom(y, t, 1.0, margin);
    assert Headroom(y, t, r, margin);
  }

  lemma {:induction false} Pow2Large(n: nat)
    ensures Pow2(n) > n as real
  {
    if n > 0 {
      Pow2Large(n - 1);
    }
  }

  /** Enough doublings exceed what the brokers can carry. */
  lemma DoublingsSuffice(t: Topology, margin: real) returns (k: nat)
    requires Sum(t.rates) > 0.0 && margin >= 0.0
    ensures forall r :: r >= Pow2(k) ==> !FeasibleAt(t, r, margin)
  {
    hide Sum, FeasibleAt;
    var limit := Sum(t.brokers) / Sum(t.rates);
    k := if limit < 0.0 then 0 else (limit.Floor + 1) as nat;
    Pow2Large(k);
    forall r | r >= Pow2(k)
      ensures !FeasibleAt(t, r, margin)
    {
      if FeasibleAt(t, r, margin) {
        FeasibleBounded(t, r, margin);
        DivGe(Sum(t.brokers), Sum(t.rates), r);
        assert false;
      }
    }
  }

  /**
   The multiplier found is feasible, everything below it is, and everything from one 2^-60 part
   of the doubling bracket above it is not.
   */
  method MaxMultiplier(t: Topology, margin: real, feasible: real -> bool) returns (r: Option<real>, ghost width: real)
    requires Sum(t.rates) > 0.0 && margin >= 0.0
    requires forall x :: feasible(x) <==> FeasibleAt(t, x, margin)
    ensures r.None? <==> !FeasibleAt(t, 1.0, margin)
    ensures r.Some? ==>
      && (forall x :: 0.0 <= x <= r.value ==> FeasibleAt(t, x, margin))
      && (forall x :: x >= r.value + width / Pow2(60) ==> !FeasibleAt(t, x, margin))
      && 1.0 <= width <= r.value < 2.0 * width
  {
    hide Sum, FeasibleAt, Pow2;
    width := 1.0;
    var lo, hi := 1.0, 2.0;
    if !feasible(lo) {
      return None, width;
    }
    ghost var k := DoublingsSuffice(t, margin);
    ghost var n := 0;
    assert Pow2(0) == 1.0 by {
      Pow2Zero();
    }
    while feasible(hi)
      invariant n <= k && lo == Pow2(n) && hi == 2.0 * lo && feasible(lo)
      decreases k - n
    {
      Pow2Next(n);
      lo, hi := hi, 2.0 * hi;
      n := n + 1;
    }
    width := lo;
    for i := 0 to 60
      invariant feasible(lo) && !feasible(hi)
      invariant width <= lo < hi <= 2.0 * width
      invariant Prod(Pow2(i), hi - lo) == width
    {
      var mid := 0.5 * (lo + hi);
      HalveWidth(i, hi - lo);
      if feasible(mid) {
        lo := mid;
      } else {
        hi := mid;
      }
    }
    assert hi == lo + width / Pow2(60) by {
      WidthIs(width, Pow2(60), hi - lo);
    }
    forall x | 0.0 <= x <= lo
      ensures FeasibleAt(t, x, margin)
    {
      FeasibleBelow(t, lo, x, margin);
    }
    forall x | x >= hi
      ensures !FeasibleAt(t, x, margin)
    {
      if FeasibleAt(t, x, margin) {
        FeasibleBelow(t, x, hi, margin);
      }
    }
    return Some(lo), width;
  }

  lemma Pow2Zero()
    ensures Pow2(0) == 1.0
  {
  }

  lemma Pow2Next(n: nat)
    ensures Pow2(n + 1) == 2.0 * Pow2(n)
  {
  }

  lemma HalveWidth(i: nat, w: real)
    ensures Prod(Pow2(i + 1), 0.5 * w) == Prod(Pow2(i), w)
  {
  }

  lemma WidthIs(width: real, power: real, w: real)
    requires power > 0.0 && Prod(power, w) == width
    ensures w == width / power
  {
    DivIs(width, power, w);
  }
}
