/**
 * Reliability economics (server/finops-core.js:12, 128-139, 467-569): the
 * expected monthly cost of failing an availability objective, added to the
 * modelled cost, graded into a risk band and a data-confidence level.
 */
module Reliability {
  import opened Wrappers
  import opened Canonicalizer
  import opened CostModel
  import opened Domains

  /** DEFAULT_MINUTES_IN_MONTH: thirty days. */
  const DefaultMinutesInMonth: real := 43200.0

  /** The JS idiom `x || fallback` on a number: an absent value and a zero both give the fallback. */
  function OrElse(x: Option<real>, fallback: real): (r: real)
    ensures x.Some? && x.value != 0.0 ==> r == x.value
    ensures x.None? || x.value == 0.0 ==> r == fallback
  {
    if x.Some? && x.value != 0.0 then x.value else fallback
  }

  /** `clampPercent`: the number (zero included) or the fallback, clamped into [0, 100]. */
  function ClampPercent(x: Option<real>, fallback: real): (r: real)
    ensures 0.0 <= r <= 100.0
    ensures x.Some? && 0.0 <= x.value <= 100.0 ==> r == x.value
    ensures x.None? && 0.0 <= fallback <= 100.0 ==> r == fallback
  {
    var base := if x.Some? then x.value else fallback;
    if base < 0.0 then 0.0 else if base > 100.0 then 100.0 else base
  }

  /** `countProvided` on canonical values: the number of values present. */
  function CountProvided(values: seq<Option<real>>): (n: nat)
    ensures n <= |values|
    ensures n == |values| <==> forall i :: 0 <= i < |values| ==> values[i].Some?
  {
    if |values| == 0 then 0
    else (if values[0].Some? then 1 else 0) + CountProvided(values[1..])
  }

  /** The ten inputs whose presence grades the data confidence. */
  function ConfidenceInputs(ci: CanonicalInput): seq<Option<real>> {
    [ci.sloTargetAvailabilityPct, ci.sliObservedAvailabilityPct, ci.incidentCountMonthly, ci.mttrHours,
     ci.incidentBlendedHourlyRate, ci.criticalRevenuePerMinute, ci.arrExposedMonthly, ci.churnSensitivityPct,
     ci.breachProbabilityPct, ci.reliabilityInvestmentMonthly]
  }

  /** The inputs after their fallbacks and clamps. */
  datatype Resolved = Resolved(
    minutesInMonth: real,
    sloPct: real,
    sliPct: real,
    incidentCount: real,
    mttrHours: real,
    fteCount: real,
    hourlyRate: real,
    revenuePerMinute: real,
    trafficSharePct: real,
    arrExposed: real,
    churnPct: real,
    breachPct: real,
    investment: real,
    penaltyOverride: real,
    penaltyRate: real)

  /** The bounds the fallbacks and clamps guarantee. */
  predicate WellResolved(v: Resolved) {
    && v.minutesInMonth >= 1.0
    && 0.0 <= v.sloPct <= 100.0 && 0.0 <= v.sliPct <= 100.0 && 0.0 <= v.trafficSharePct <= 100.0
    && 0.0 <= v.churnPct <= 100.0 && 0.0 <= v.breachPct <= 100.0
    && v.incidentCount >= 0.0 && v.mttrHours >= 0.0 && v.fteCount >= 0.0 && v.hourlyRate >= 0.0
    && v.revenuePerMinute >= 0.0 && v.arrExposed >= 0.0 && v.investment >= 0.0 && v.penaltyRate >= 0.0
  }

  function Resolve(ci: CanonicalInput): (v: Resolved)
    ensures WellResolved(v)
    // the `|| 1` fallback turns a supplied zero head-count into one person
    ensures ci.incidentFteCount.None? || ci.incidentFteCount.value == 0.0 ==> v.fteCount == 1.0
    ensures ci.minutesInMonth.None? ==> v.minutesInMonth == DefaultMinutesInMonth
    ensures ci.sloTargetAvailabilityPct.None? ==> v.sloPct == 99.9
    ensures ci.sliObservedAvailabilityPct.None? ==> v.sliPct == 99.9
    ensures ci.criticalTrafficSharePct.None? ==> v.trafficSharePct == 100.0
  {
    Resolved(
      Max(1.0, OrElse(ci.minutesInMonth, DefaultMinutesInMonth)),
      ClampPercent(ci.sloTargetAvailabilityPct, 99.9),
      ClampPercent(ci.sliObservedAvailabilityPct, 99.9),
      Max(0.0, OrElse(ci.incidentCountMonthly, 0.0)),
      Max(0.0, OrElse(ci.mttrHours, 0.0)),
      Max(0.0, OrElse(ci.incidentFteCount, 1.0)),
      Max(0.0, OrElse(ci.incidentBlendedHourlyRate, 0.0)),
      Max(0.0, OrElse(ci.criticalRevenuePerMinute, 0.0)),
      ClampPercent(ci.criticalTrafficSharePct, 100.0),
      Max(0.0, OrElse(ci.arrExposedMonthly, 0.0)),
      ClampPercent(ci.churnSensitivityPct, 0.0),
      ClampPercent(ci.breachProbabilityPct, 0.0),
      Max(0.0, OrElse(ci.reliabilityInvestmentMonthly, 0.0)),
      OrElse(ci.slaPenaltyMonthly, 0.0),
      Max(0.0, OrElse(ci.slaPenaltyRatePerBreachPointMonthly, 0.0)))
  }

  datatype RiskBand = NoBand | LowRisk | MediumRisk | HighRisk

  /** The risk band from the failure-cost share, the SLO breach gap and observed availability. */
  function Band(failureShare: real, breachGapPct: real, sliPct: real): (b: RiskBand)
    ensures b != NoBand
    ensures b == HighRisk <==> failureShare >= 0.2 || breachGapPct >= 0.5 || sliPct < 99.0
    ensures b == MediumRisk <==> b != HighRisk && (failureShare >= 0.1 || breachGapPct >= 0.1 || sliPct < 99.5)
  {
    if failureShare >= 0.2 || breachGapPct >= 0.5 || sliPct < 99.0 then HighRisk
    else if failureShare >= 0.1 || breachGapPct >= 0.1 || sliPct < 99.5 then MediumRisk
    else LowRisk
  }

  /** The data confidence from how many of the ten inputs are present. */
  function DataGrade(providedCount: nat): (c: Confidence)
    ensures c == High <==> providedCount >= 8
    ensures c == Medium <==> 5 <= providedCount < 8
    ensures c == Low <==> providedCount < 5
  {
    if providedCount >= 8 then High else if providedCount >= 5 then Medium else Low
  }

  datatype Metrics = Metrics(
    enabled: bool,
    sloTargetAvailabilityPct: Option<real>,
    sliObservedAvailabilityPct: Option<real>,
    expectedDowntimeMinutes: Option<real>,
    expectedSlaPenaltyMonthly: Option<real>,
    expectedIncidentLaborMonthly: Option<real>,
    expectedRevenueAtRiskMonthly: Option<real>,
    expectedChurnRiskMonthly: Option<real>,
    expectedReliabilityFailureCostMonthly: Option<real>,
    reliabilityInvestmentMonthly: Option<real>,
    reliabilityAdjustedCostMonthly: Option<real>,
    riskBand: RiskBand,
    dataConfidence: Confidence)

  const Disabled: Metrics := Metrics(false, None, None, None, None, None, None, None, None, None, None, NoBand, Low)

  lemma RatioAtMostOne(p: real, q: real)
    requires 0.0 <= p <= q && q > 0.0
    ensures 0.0 <= p / q <= 1.0
  {
    assert (p / q) * q == p;
  }

  lemma MulNonNegative(x: real, y: real)
    requires x >= 0.0 && y >= 0.0
    ensures x * y >= 0.0
  {
  }

  /** `expectedDowntimeMinutes`: the unavailable share of the month. */
  function Downtime(v: Resolved): (d: real)
    requires WellResolved(v)
    ensures 0.0 <= d <= v.minutesInMonth
  {
    var unavailable := 1.0 - v.sliPct / 100.0;
    assert 0.0 <= unavailable <= 1.0;
    MulNonNegative(unavailable, v.minutesInMonth);
    MulNonNegative(1.0 - unavailable, v.minutesInMonth);
    Max(0.0, unavailable * v.minutesInMonth)
  }

  /** An explicit monthly penalty wins; otherwise the rate applies per point of breach. */
  function Penalty(v: Resolved): (p: real)
    requires WellResolved(v)
    ensures v.penaltyOverride > 0.0 ==> p == v.penaltyOverride
    ensures v.penaltyOverride <= 0.0 ==> p == Max(0.0, v.sloPct - v.sliPct) * v.penaltyRate
    ensures p >= 0.0
  {
    var gap := Max(0.0, v.sloPct - v.sliPct);
    MulNonNegative(gap, v.penaltyRate);
    if v.penaltyOverride > 0.0 then v.penaltyOverride else gap * v.penaltyRate
  }

  function Labor(v: Resolved): (l: real)
    requires WellResolved(v)
    ensures l >= 0.0
  {
    MulNonNegative(v.incidentCount, v.mttrHours);
    MulNonNegative(v.incidentCount * v.mttrHours, v.fteCount);
    MulNonNegative(v.incidentCount * v.mttrHours * v.fteCount, v.hourlyRate);
    v.incidentCount * v.mttrHours * v.fteCount * v.hourlyRate
  }

  function RevenueAtRisk(v: Resolved): (r: real)
    requires WellResolved(v)
    ensures r >= 0.0
  {
    var d := Downtime(v);
    MulNonNegative(d, v.revenuePerMinute);
    MulNonNegative(d * v.revenuePerMinute, v.trafficSharePct / 100.0);
    d * v.revenuePerMinute * (v.trafficSharePct / 100.0)
  }

  function ChurnRisk(v: Resolved): (c: real)
    requires WellResolved(v)
    ensures c >= 0.0
  {
    MulNonNegative(v.arrExposed, v.churnPct / 100.0);
    MulNonNegative(v.arrExposed * (v.churnPct / 100.0), v.breachPct / 100.0);
    v.arrExposed * (v.churnPct / 100.0) * (v.breachPct / 100.0)
  }

  /**
   * `computeReliabilityMetrics`: nothing when disabled; otherwise four
   * non-negative failure terms (SLA penalty, incident labour, revenue at
   * risk, churn risk) added to the modelled cost and the investment.
   */
  function ComputeReliabilityMetrics(ci: CanonicalInput, existingModeledCostMonthly: real): (r: Metrics)
    ensures !ci.reliabilityEnabled <==> r == Disabled
    ensures r.enabled == ci.reliabilityEnabled
    ensures ci.reliabilityEnabled ==>
      var v := Resolve(ci);
      && r.sloTargetAvailabilityPct == Some(v.sloPct)
      && r.sliObservedAvailabilityPct == Some(v.sliPct)
      && r.expectedDowntimeMinutes == Some(Downtime(v))
      && r.expectedSlaPenaltyMonthly == Some(Penalty(v))
      && r.expectedIncidentLaborMonthly == Some(Labor(v))
      && r.expectedRevenueAtRiskMonthly == Some(RevenueAtRisk(v))
      && r.expectedChurnRiskMonthly == Some(ChurnRisk(v))
      && r.reliabilityInvestmentMonthly == Some(v.investment)
    ensures ci.reliabilityEnabled ==>
      && r.expectedReliabilityFailureCostMonthly.Some? && r.reliabilityAdjustedCostMonthly.Some?
      && r.expectedSlaPenaltyMonthly.value >= 0.0 && r.expectedIncidentLaborMonthly.value >= 0.0
      && r.expectedRevenueAtRiskMonthly.value >= 0.0 && r.expectedChurnRiskMonthly.value >= 0.0
      && r.reliabilityInvestmentMonthly.value >= 0.0
      // the failure cost is the sum of the four terms
      && r.expectedReliabilityFailureCostMonthly.value ==
         r.expectedSlaPenaltyMonthly.value + r.expectedIncidentLaborMonthly.value +
         r.expectedRevenueAtRiskMonthly.value + r.expectedChurnRiskMonthly.value
      // adjusted = modelled + investment + failure
      && r.reliabilityAdjustedCostMonthly.value ==
         Max(0.0, existingModeledCostMonthly) + r.reliabilityInvestmentMonthly.value +
         r.expectedReliabilityFailureCostMonthly.value
      && r.reliabilityAdjustedCostMonthly.value >= r.expectedReliabilityFailureCostMonthly.value >= 0.0
    ensures ci.reliabilityEnabled ==>
      var failure := r.expectedReliabilityFailureCostMonthly.value;
      var adjusted := r.reliabilityAdjustedCostMonthly.value;
      r.riskBand == Band(if adjusted > 0.0 then failure / adjusted else 0.0,
                         Max(0.0, r.sloTargetAvailabilityPct.value - r.sliObservedAvailabilityPct.value),
                         r.sliObservedAvailabilityPct.value)
    ensures ci.reliabilityEnabled ==> r.dataConfidence == DataGrade(CountProvided(ConfidenceInputs(ci)))
  {
    if !ci.reliabilityEnabled then Disabled
    else
      var v := Resolve(ci);
      var penalty := Penalty(v);
      var labor := Labor(v);
      var revenueAtRisk := RevenueAtRisk(v);
      var churn := ChurnRisk(v);
      var failure := penalty + labor + revenueAtRisk + churn;
      var adjusted := Max(0.0, existingModeledCostMonthly) + v.investment + failure;
      var share := if adjusted > 0.0 then failure / adjusted else 0.0;
      Metrics(true, Some(v.sloPct), Some(v.sliPct), Some(Downtime(v)), Some(penalty), Some(labor),
              Some(revenueAtRisk), Some(churn), Some(failure), Some(v.investment), Some(adjusted),
              Band(share, Max(0.0, v.sloPct - v.sliPct), v.sliPct),
              DataGrade(CountProvided(ConfidenceInputs(ci))))
  }

  /** The failure cost is never more than the adjusted cost, so the share driving the band lies in [0, 1]. */
  lemma FailureShareBounded(ci: CanonicalInput, existingModeledCostMonthly: real)
    requires ci.reliabilityEnabled
    ensures var r := ComputeReliabilityMetrics(ci, existingModeledCostMonthly);
      var failure := r.expectedReliabilityFailureCostMonthly.value;
      var adjusted := r.reliabilityAdjustedCostMonthly.value;
      adjusted > 0.0 ==> 0.0 <= failure / adjusted <= 1.0
  {
    var r := ComputeReliabilityMetrics(ci, existingModeledCostMonthly);
    var failure := r.expectedReliabilityFailureCostMonthly.value;
    var adjusted := r.reliabilityAdjustedCostMonthly.value;
    if adjusted > 0.0 {
      RatioAtMostOne(failure, adjusted);
    }
  }

  /**
   * An observed availability below 99 is always high risk, whatever the
   * costs; a met objective at 99.5 or better with a cheap failure profile is low.
   */
  lemma BandByAvailability(ci: CanonicalInput, existingModeledCostMonthly: real)
    requires ci.reliabilityEnabled
    ensures var r := ComputeReliabilityMetrics(ci, existingModeledCostMonthly);
      Resolve(ci).sliPct < 99.0 ==> r.riskBand == HighRisk
  {
  }

  /** A supplied head-count of zero is charged as one person, like an absent one. */
  lemma ZeroFteCountsAsOne(ci: CanonicalInput)
    requires ci.incidentFteCount == Some(0.0)
    ensures Labor(Resolve(ci)) == Labor(Resolve(ci.(incidentFteCount := None)))
    ensures var v := Resolve(ci); Labor(v) == v.incidentCount * v.mttrHours * 1.0 * v.hourlyRate
  {
  }
}
