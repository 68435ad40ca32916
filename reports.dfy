/** The derived views of a scored customer: risk topology (radar) and revenue exposure. */
module Reports {
  import opened Arith
  import opened Features

  /** A feature divided by its "worst case" bound, capped at 1. */
  function Saturated(x: real, bound: real): (r: real)
    requires bound > 0.0
    ensures 0.0 <= x ==> 0.0 <= r <= 1.0
    ensures x >= bound ==> r == 1.0
    ensures x <= bound ==> r * bound == x
  {
    assert x >= bound ==> x / bound >= 1.0 by {
      if x >= bound {
        var q := x / bound;
        assert q * bound == x;
        assert (q - 1.0) * bound == x - bound;
      }
    }
    Min(x / bound, 1.0)
  }

  /**
   * The six radar axes: age, support calls, payment delay, commitment, spend
   * and inactivity. Commitment and spend are inverted, since a short contract
   * and a low spend mean a higher risk.
   */
  function RadarValues(c: Customer): (v: seq<real>)
    ensures |v| == 6
  {
    [Saturated(c.age, 80.0), Saturated(c.supportCalls, 15.0), Saturated(c.paymentDelay, 30.0),
     1.0 - Saturated(c.contractLength, 24.0), 1.0 - Saturated(c.totalSpend, 10000.0),
     Saturated(c.lastInteraction, 90.0)]
  }

  /** Closes a polygon by repeating its first vertex. */
  function ClosedPolygon(v: seq<real>): (p: seq<real>)
    requires |v| > 0
    ensures |p| == |v| + 1 && p[..|v|] == v && p[|v|] == p[0]
  {
    v + [v[0]]
  }

  predicate NonNegativeInputs(c: Customer) {
    c.age >= 0.0 && c.supportCalls >= 0.0 && c.paymentDelay >= 0.0
    && c.contractLength >= 0.0 && c.totalSpend >= 0.0 && c.lastInteraction >= 0.0
  }

  /** With non-negative inputs every vertex of the closed radar polygon lies in [0, 1]. */
  lemma RadarWithinUnit(c: Customer)
    requires NonNegativeInputs(c)
    ensures |ClosedPolygon(RadarValues(c))| == 7
    ensures forall i :: 0 <= i < 7 ==> 0.0 <= ClosedPolygon(RadarValues(c))[i] <= 1.0
  {
  }

  /** A feature at or beyond its bound saturates its axis: 1 on a direct axis, 0 on an inverted one. */
  lemma RadarSaturation(c: Customer)
    ensures c.age >= 80.0 ==> RadarValues(c)[0] == 1.0
    ensures c.supportCalls >= 15.0 ==> RadarValues(c)[1] == 1.0
    ensures c.paymentDelay >= 30.0 ==> RadarValues(c)[2] == 1.0
    ensures c.contractLength >= 24.0 ==> RadarValues(c)[3] == 0.0
    ensures c.totalSpend >= 10000.0 ==> RadarValues(c)[4] == 0.0
    ensures c.lastInteraction >= 90.0 ==> RadarValues(c)[5] == 1.0
  {
  }

  /**
   * Below its bound every axis is the exact fraction of its bound: x / bound
   * on a direct axis and 1 - x / bound on an inverted one.
   */
  lemma RadarFractions(c: Customer)
    ensures c.age <= 80.0 ==> RadarValues(c)[0] * 80.0 == c.age
    ensures c.supportCalls <= 15.0 ==> RadarValues(c)[1] * 15.0 == c.supportCalls
    ensures c.paymentDelay <= 30.0 ==> RadarValues(c)[2] * 30.0 == c.paymentDelay
    ensures c.contractLength <= 24.0 ==> (1.0 - RadarValues(c)[3]) * 24.0 == c.contractLength
    ensures c.totalSpend <= 10000.0 ==> (1.0 - RadarValues(c)[4]) * 10000.0 == c.totalSpend
    ensures c.lastInteraction <= 90.0 ==> RadarValues(c)[5] * 90.0 == c.lastInteraction
  {
  }

  /**
   * The inverted axes point the other way: a longer contract or a larger
   * spend never raises its axis, while more support calls never lower theirs.
   */
  lemma RadarOrientation(c: Customer, longer: real, larger: real, more: real)
    requires c.contractLength <= longer && c.totalSpend <= larger && c.supportCalls <= more
    ensures RadarValues(c.(contractLength := longer))[3] <= RadarValues(c)[3]
    ensures RadarValues(c.(totalSpend := larger))[4] <= RadarValues(c)[4]
    ensures RadarValues(c.(supportCalls := more))[1] >= RadarValues(c)[1]
  {
  }

  /** Monthly and annual revenue and the annual split by the churn risk. */
  datatype Revenue = Revenue(mrr: real, annual: real, atRisk: real, secured: real)

  function RevenueSplit(totalSpend: real, contractLength: real, riskPct: real): (r: Revenue)
    requires contractLength + 1.0 != 0.0
    ensures r.mrr * (contractLength + 1.0) == totalSpend
    ensures r.annual == 12.0 * r.mrr
    ensures r.atRisk + r.secured == r.annual
    ensures r.atRisk * 100.0 == r.annual * riskPct
  {
    var risk := riskPct / 100.0;
    var mrr := totalSpend / (contractLength + 1.0);
    var annual := mrr * 12.0;
    Revenue(mrr, annual, annual * risk, annual * (1.0 - risk))
  }

  /** For a non-negative spend and a risk in [0, 100] both shares are non-negative and neither exceeds the annual figure. */
  lemma RevenueSharesBounded(totalSpend: real, contractLength: real, riskPct: real)
    requires totalSpend >= 0.0 && contractLength >= 0.0 && 0.0 <= riskPct <= 100.0
    ensures var r := RevenueSplit(totalSpend, contractLength, riskPct);
      0.0 <= r.atRisk <= r.annual && 0.0 <= r.secured <= r.annual
  {
    var r := RevenueSplit(totalSpend, contractLength, riskPct);
    AnnualNonNegative(totalSpend, contractLength, riskPct);
    MulNonNegative(r.annual, riskPct / 100.0);
    MulNonNegative(r.annual, 1.0 - riskPct / 100.0);
  }

  /** A higher risk never lowers the revenue at risk and never raises the secured revenue. */
  lemma RevenueMonotoneInRisk(totalSpend: real, contractLength: real, lower: real, higher: real)
    requires totalSpend >= 0.0 && contractLength >= 0.0 && lower <= higher
    ensures RevenueSplit(totalSpend, contractLength, lower).atRisk <= RevenueSplit(totalSpend, contractLength, higher).atRisk
    ensures RevenueSplit(totalSpend, contractLength, lower).secured >= RevenueSplit(totalSpend, contractLength, higher).secured
  {
    var lo := RevenueSplit(totalSpend, contractLength, lower);
    var hi := RevenueSplit(totalSpend, contractLength, higher);
    var annual := lo.annual;
    assert hi.annual == annual;
    AnnualNonNegative(totalSpend, contractLength, lower);
    MulNonNegative(annual, (higher - lower) / 100.0);
    assert hi.atRisk - lo.atRisk == annual * ((higher - lower) / 100.0);
    assert lo.secured - hi.secured == annual * ((higher - lower) / 100.0);
  }

  /** The annual figure of a non-negative spend over a non-negative contract is non-negative. */
  lemma AnnualNonNegative(totalSpend: real, contractLength: real, riskPct: real)
    requires totalSpend >= 0.0 && contractLength >= 0.0
    ensures RevenueSplit(totalSpend, contractLength, riskPct).annual >= 0.0
  {
    DivNonNegative(totalSpend, contractLength + 1.0);
  }

  lemma RevenueExample()
    ensures RevenueSplit(1200.0, 11.0, 25.0) == Revenue(100.0, 1200.0, 300.0, 900.0)
  {
  }
}
