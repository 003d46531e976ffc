/**
 * The composition of the components into the three computing tools
 * (server/finops-core.js:571-714, 1029-1094): `computeOutputs` evaluates the
 * model at the reference client count, runs the scanners, the normalisation
 * snapshot and the reliability calculator, and picks the break-even count
 * by the ARPU mode; `healthTool` and `calculateTool` wire normalisation,
 * derivation, outputs, health, recommendations and the state token together.
 */
module Engine {
  import opened Wrappers
  import opened JsValues
  import opened Canonicalizer
  import opened CostModel
  import opened Scanner
  import Domains
  import opened Reliability
  import opened Health
  import Recommendations
  import ShareState

  /** A ratio that JavaScript may report as `Infinity`. */
  datatype Ratio = Finite(value: real) | Infinite

  /** `hasAnyCostInput`: a development or an infrastructure cost was given. */
  predicate HasAnyCostInput(ci: CanonicalInput) {
    ci.infraTotal.Some? || ci.devPerClient.Some?
  }

  /** `Math.ceil`. */
  function Ceil(x: real): (r: int)
    ensures x <= r as real < x + 1.0
  {
    -((-x).Floor)
  }

  // ---------------------------------------------------------------------------
  // The unit economics at the reference client count
  // ---------------------------------------------------------------------------

  datatype AtReference = AtReference(
    revenue: real,
    total: real,
    minPricePerClient: Option<real>,
    vcpu: Option<real>,
    contributionMargin: Option<real>,
    ccer: Option<Ratio>,
    cudMonthlySaving: Option<real>)

  /**
   * The figures at nSample clients, each present only when the inputs it
   * needs are: costs for the minimum price, infrastructure for the variable
   * cost per client and the commitment saving, both infrastructure and ARPU
   * for the margin and the efficiency ratio.
   */
  function ReferenceFigures(ci: CanonicalInput, model: Model, arpu: Option<real>, pow: Pow): (r: AtReference)
    requires Canonical(ci)
    ensures var n := ReferenceClients(ci.nRef);
      && n >= 1.0
      && r.total == TotalCost(n, model, pow)
      && r.revenue == (if arpu.Some? then arpu.value * n else 0.0)
      && (r.minPricePerClient.Some? <==> HasAnyCostInput(ci))
      && (r.minPricePerClient.Some? ==> r.minPricePerClient.value == MinPriceAtClients(n, model, pow))
      && (r.vcpu.Some? <==> ci.infraTotal.Some?)
      && (r.vcpu.Some? ==> r.vcpu.value * n == InfraRaw(n, model, pow))
      && (r.contributionMargin.Some? <==> ci.infraTotal.Some? && arpu.Some?)
      && (r.contributionMargin.Some? ==> r.contributionMargin.value == arpu.value - r.vcpu.value)
      && (r.ccer.Some? <==> ci.infraTotal.Some? && arpu.Some?)
      && (r.ccer == Some(Infinite) <==> ci.infraTotal.Some? && arpu.Some? && InfraRaw(n, model, pow) <= 0.0)
      && (r.ccer.Some? && r.ccer.value.Finite? ==> r.ccer.value.value * InfraRaw(n, model, pow) == r.revenue)
      && (r.cudMonthlySaving.Some? <==> ci.infraTotal.Some?)
      && (r.cudMonthlySaving.Some? ==> r.cudMonthlySaving.value == InfraRaw(n, model, pow) - InfraCud(n, model, pow))
  {
    var n := ReferenceClients(ci.nRef);
    var infraRaw := InfraRaw(n, model, pow);
    var infraCud := InfraCud(n, model, pow);
    var total := DevCost(n, model, pow) + infraRaw;
    var revenue := if arpu.Some? then arpu.value * n else 0.0;
    var vcpu := infraRaw / n;
    var hasInfra := ci.infraTotal.Some?;
    AtReference(
      revenue,
      total,
      if HasAnyCostInput(ci) then Some((total / n) * (1.0 + model.m)) else None,
      if hasInfra then Some(vcpu) else None,
      if hasInfra && arpu.Some? then Some(arpu.value - vcpu) else None,
      if hasInfra && arpu.Some? then (if infraRaw > 0.0 then Some(Finite(revenue / infraRaw)) else Some(Infinite)) else None,
      if hasInfra then Some(infraRaw - infraCud) else None)
  }

  // ---------------------------------------------------------------------------
  // Planning targets and the break-even choice
  // ---------------------------------------------------------------------------

  /**
   * The two planning figures: the least client count whose minimum price
   * reaches the target price (none when no count up to the scan limit does),
   * and the minimum price at the target client count; both need a cost input.
   */
  predicate PlanningMeaning(clientsAtPrice: Option<int>, priceAtClients: Option<real>,
                            ci: CanonicalInput, model: Model, pow: Pow) {
    var limit := Limit(SearchMax(model));
    var price := ci.startupTargetPrice;
    && (clientsAtPrice.Some? ==>
          Positive(price) && HasAnyCostInput(ci) && IsFirstAffordable(price.value, limit, clientsAtPrice.value, model, pow))
    && (clientsAtPrice.None? && Positive(price) && HasAnyCostInput(ci) ==>
          forall j :: 1 <= j <= limit ==> MinPrice(j, model, pow) > price.value)
    && priceAtClients ==
         if Positive(ci.startupTargetClients) && HasAnyCostInput(ci)
         then Some(MinPriceAtClients(ci.startupTargetClients.value, model, pow)) else None
  }

  method PlanningTargets(ci: CanonicalInput, model: Model, pow: Pow)
    returns (clientsAtPrice: Option<int>, priceAtClients: Option<real>)
    ensures PlanningMeaning(clientsAtPrice, priceAtClients, ci, model, pow)
  {
    clientsAtPrice := None;
    if Positive(ci.startupTargetPrice) && HasAnyCostInput(ci) {
      clientsAtPrice := FindRequiredClientsForTargetPrice(ci.startupTargetPrice.value, SearchMax(model), model, pow);
    }
    priceAtClients := None;
    if Positive(ci.startupTargetClients) && HasAnyCostInput(ci) {
      priceAtClients := Some(MinPriceAtClients(ci.startupTargetClients.value, model, pow));
    }
  }

  /** Some client count in [1, limit] has a minimum price within the (positive) target. */
  predicate AffordableWithin(target: real, limit: int, model: Model, pow: Pow) {
    target > 0.0 && exists j :: 1 <= j <= limit && MinPrice(j, model, pow) <= target
  }

  /**
   * The meaning of the reported break-even count: nothing without ARPU and a
   * cost input; in price mode the planning answer whenever there is one; in
   * clients mode the least count affordable at the required price whenever
   * some count is; otherwise the first break-even count, reported exactly
   * when one lies within nMax.
   */
  predicate BreakEvenMeaning(be: Option<int>, clientsAtPrice: Option<int>, priceAtClients: Option<real>,
                             ci: CanonicalInput, model: Model, arpu: Option<real>, arpuMode: ArpuMode, pow: Pow) {
    var limit := Limit(SearchMax(model));
    var eligible := arpu.Some? && HasAnyCostInput(ci);
    var fromPrice := arpuMode == StartupPrice && clientsAtPrice.Some?;
    var fromClients := arpuMode == StartupClients && priceAtClients.Some? &&
                       AffordableWithin(priceAtClients.value, limit, model, pow);
    && (!eligible ==> be.None?)
    && (eligible && fromPrice ==> be == clientsAtPrice)
    && (eligible && fromClients ==> be.Some? && IsFirstAffordable(priceAtClients.value, limit, be.value, model, pow))
    && (eligible && !fromPrice && !fromClients ==>
          && (be.Some? <==> BreaksEvenWithin(arpu.value, limit, model.nMax, model, pow))
          && (be.Some? ==> IsFirstBreakEven(arpu.value, limit, be.value, model, pow) && be.value as real <= model.nMax))
  }

  /** The meaning pins the count: two counts that both fit it are equal. */
  lemma BreakEvenDetermined(be1: Option<int>, be2: Option<int>, clientsAtPrice: Option<int>, priceAtClients: Option<real>,
                            ci: CanonicalInput, model: Model, arpu: Option<real>, arpuMode: ArpuMode, pow: Pow)
    requires BreakEvenMeaning(be1, clientsAtPrice, priceAtClients, ci, model, arpu, arpuMode, pow)
    requires BreakEvenMeaning(be2, clientsAtPrice, priceAtClients, ci, model, arpu, arpuMode, pow)
    ensures be1 == be2
  {
  }

  /**
   * The break-even count reported: nothing without ARPU and a cost input;
   * otherwise the planning answer of the current mode when there is one,
   * else the scanned break-even when it lies within the model's nMax.
   */
  function SelectBreakEven(eligible: bool, arpuMode: ArpuMode, fromPrice: Option<int>, fromClients: Option<int>,
                           beN: Option<int>, nMax: real): (r: Option<int>)
    ensures r.Some? ==> eligible
    ensures r.Some? ==>
      || (arpuMode == StartupPrice && r == fromPrice)
      || (arpuMode == StartupClients && r == fromClients)
      || (r == beN && beN.value as real <= nMax)
    ensures eligible && arpuMode == StartupPrice && fromPrice.Some? ==> r == fromPrice
    ensures eligible && arpuMode == StartupClients && fromClients.Some? ==> r == fromClients
    ensures eligible && !(arpuMode == StartupPrice && fromPrice.Some?) && !(arpuMode == StartupClients && fromClients.Some?) ==>
      r == (if beN.Some? && beN.value as real <= nMax then beN else None)
  {
    if !eligible then None
    else if arpuMode == StartupPrice && fromPrice.Some? then fromPrice
    else if arpuMode == StartupClients && fromClients.Some? then fromClients
    else if beN.Some? && beN.value as real <= nMax then beN
    else None
  }

  /** Some client count within nMax (and the scan range) breaks even. */
  predicate BreaksEvenWithin(arpu: real, limit: int, nMax: real, model: Model, pow: Pow) {
    exists j :: 1 <= j <= limit && j as real <= nMax && BreaksEven(arpu, j, model, pow)
  }

  /** Outside the planning answers the scanned break-even is reported exactly when one lies within nMax. */
  lemma ScannedBreakEvenWithin(arpu: real, limit: int, nMax: real, beN: Option<int>, model: Model, pow: Pow)
    requires arpu > 0.0
    requires beN.Some? ==> IsFirstBreakEven(arpu, limit, beN.value, model, pow)
    requires beN.None? ==> NeverBreaksEven(arpu, limit, model, pow)
    ensures (beN.Some? && beN.value as real <= nMax) <==> BreaksEvenWithin(arpu, limit, nMax, model, pow)
  {
    if BreaksEvenWithin(arpu, limit, nMax, model, pow) {
      var j :| 1 <= j <= limit && j as real <= nMax && BreaksEven(arpu, j, model, pow);
      assert beN.Some? ==> beN.value <= j;
    }
    if beN.Some? && beN.value as real <= nMax {
      assert BreaksEven(arpu, beN.value, model, pow);
    }
  }

  /**
   * The break-even count of `computeOutputs`: the clients-mode scan at the
   * required price, the economic-range scan, and the mode's precedence.
   */
  method BreakEvenChoice(ci: CanonicalInput, model: Model, arpu: Option<real>, arpuMode: ArpuMode,
                         clientsAtPrice: Option<int>, priceAtClients: Option<real>, pow: Pow)
    returns (be: Option<int>)
    requires PlanningMeaning(clientsAtPrice, priceAtClients, ci, model, pow)
    requires arpu.Some? ==> arpu.value > 0.0
    ensures BreakEvenMeaning(be, clientsAtPrice, priceAtClients, ci, model, arpu, arpuMode, pow)
  {
    var searchMax := SearchMax(model);
    var limit := Limit(searchMax);
    var clientsFromClientsMode: Option<int> := None;
    if arpuMode == StartupClients && priceAtClients.Some? {
      clientsFromClientsMode := FindRequiredClientsForTargetPrice(priceAtClients.value, searchMax, model, pow);
      if clientsFromClientsMode.Some? {
        assert MinPrice(clientsFromClientsMode.value, model, pow) <= priceAtClients.value;
      }
    }
    assert clientsFromClientsMode.Some? <==>
      arpuMode == StartupClients && priceAtClients.Some? && AffordableWithin(priceAtClients.value, limit, model, pow);
    var economics := ScanEconomicRange(arpu, searchMax, model, pow);
    var eligible := arpu.Some? && HasAnyCostInput(ci);
    be := SelectBreakEven(eligible, arpuMode, clientsAtPrice, clientsFromClientsMode, economics.breakEvenN, model.nMax);
    if eligible {
      ScannedBreakEvenWithin(arpu.value, limit, model.nMax, economics.breakEvenN, model, pow);
    }
  }

  /** `targetMonthlyRevenue`: target clients times the target (or required) price, else target price times required clients. */
  function TargetMonthlyRevenue(ci: CanonicalInput, priceAtClients: Option<real>, clientsAtPrice: Option<int>): Option<real> {
    if Positive(ci.startupTargetClients) && priceAtClients.Some? then
      var priceForRevenue := if Positive(ci.startupTargetPrice) then ci.startupTargetPrice.value else priceAtClients.value;
      Some(priceForRevenue * ci.startupTargetClients.value)
    else if Positive(ci.startupTargetPrice) && clientsAtPrice.Some? then
      Some(ci.startupTargetPrice.value * clientsAtPrice.value as real)
    else None
  }

  /**
   * Planning by client count alone: the target revenue is exactly the total
   * cost at the target count plus the markup.
   */
  lemma TargetRevenueAtTargetClients(ci: CanonicalInput, model: Model, pow: Pow,
                                     clientsAtPrice: Option<int>, priceAtClients: Option<real>)
    requires Canonical(ci)
    requires PlanningMeaning(clientsAtPrice, priceAtClients, ci, model, pow)
    requires HasAnyCostInput(ci) && Positive(ci.startupTargetClients) && !Positive(ci.startupTargetPrice)
    ensures var r := TargetMonthlyRevenue(ci, priceAtClients, clientsAtPrice);
      r.Some? && r.value == TotalCostAtClients(ci.startupTargetClients.value, model, pow) * (1.0 + model.m)
  {
    var t := ci.startupTargetClients.value;
    assert t >= 1.0;
    assert SafeN(t) == t;
    ShareTimesCount(TotalCostAtClients(t, model, pow), model.m, t);
  }

  lemma ShareTimesCount(total: real, m: real, n: real)
    requires n >= 1.0
    ensures (total / n) * (1.0 + m) * n == total * (1.0 + m)
  {
  }

  /**
   * Planning by price alone: the target revenue, the target price times the
   * least affordable count, covers the total cost plus the markup there.
   */
  lemma TargetRevenueAtTargetPrice(ci: CanonicalInput, model: Model, pow: Pow,
                                   clientsAtPrice: Option<int>, priceAtClients: Option<real>)
    requires PlanningMeaning(clientsAtPrice, priceAtClients, ci, model, pow)
    requires !Positive(ci.startupTargetClients) && clientsAtPrice.Some?
    ensures var k := clientsAtPrice.value;
      var r := TargetMonthlyRevenue(ci, priceAtClients, clientsAtPrice);
      && r.Some? && r.value == ci.startupTargetPrice.value * k as real
      && r.value >= TotalCostAtClients(k as real, model, pow) * (1.0 + model.m)
  {
    assert Positive(ci.startupTargetPrice);
    var k := clientsAtPrice.value;
    var n := k as real;
    assert SafeN(n) == n;
    PriceCoversCost(TotalCostAtClients(n, model, pow), model.m, ci.startupTargetPrice.value, n);
  }

  /** A per-client price at least the cost share plus the markup earns at least the cost plus the markup. */
  lemma PriceCoversCost(total: real, m: real, price: real, n: real)
    requires n >= 1.0 && (total / n) * (1.0 + m) <= price
    ensures price * n >= total * (1.0 + m)
  {
    assert (total / n) * (1.0 + m) * n <= price * n;
    assert (total / n) * (1.0 + m) * n == total * (1.0 + m);
  }

  // ---------------------------------------------------------------------------
  // The reliability-adjusted figures
  // ---------------------------------------------------------------------------

  /**
   * `reliabilityLoadMonthly`: investment plus expected failure cost, each
   * clamped at zero, when reliability is enabled and priced.
   */
  function ReliabilityLoad(r: Metrics): (load: Option<real>)
    ensures load.Some? <==> r.enabled && r.expectedReliabilityFailureCostMonthly.Some?
    ensures load.Some? ==>
      && load.value >= 0.0
      && load.value >= r.expectedReliabilityFailureCostMonthly.value
      && load.value >= r.reliabilityInvestmentMonthly.GetOr(0.0)
      && load.value == Max(0.0, r.reliabilityInvestmentMonthly.GetOr(0.0)) + Max(0.0, r.expectedReliabilityFailureCostMonthly.value)
  {
    if r.enabled && r.expectedReliabilityFailureCostMonthly.Some? then
      Some(Max(0.0, r.reliabilityInvestmentMonthly.GetOr(0.0)) + Max(0.0, r.expectedReliabilityFailureCostMonthly.value))
    else None
  }

  datatype WithReliability = WithReliability(
    adjustedProfit: Option<real>,
    requiredArpu: Option<real>,
    arpuUplift: Option<real>,
    requiredClients: Option<int>,
    extraClients: Option<int>)

  /**
   * The reliability-adjusted figures: the profit after the adjusted cost;
   * the ARPU that covers the adjusted cost per reference client plus the
   * markup, and the uplift to it (never negative); the least client count
   * whose price, with the reliability load spread over it, fits the current
   * ARPU, and the extra clients beyond nSample rounded up (never negative).
   */
  predicate ReliabilityMeaning(w: WithReliability, ci: CanonicalInput, model: Model, arpu: Option<real>, revenue: real,
                               reliability: Metrics, pow: Pow) {
    var adjusted := reliability.reliabilityAdjustedCostMonthly;
    var nSample := ReferenceClients(ci.nRef);
    var load := ReliabilityLoad(reliability);
    var limit := Limit(SearchMax(model));
    && (w.adjustedProfit.Some? <==> arpu.Some? && adjusted.Some?)
    && (w.adjustedProfit.Some? ==> w.adjustedProfit.value == revenue - adjusted.value)
    && (w.requiredArpu.Some? <==> adjusted.Some?)
    && (w.requiredArpu.Some? ==> w.requiredArpu.value == (adjusted.value / Max(1.0, nSample)) * (1.0 + model.m))
    && (w.arpuUplift.Some? <==> arpu.Some? && adjusted.Some?)
    && (w.arpuUplift.Some? ==>
          && w.arpuUplift.value == Max(0.0, w.requiredArpu.value - arpu.value)
          && w.arpuUplift.value >= 0.0 && arpu.value + w.arpuUplift.value >= w.requiredArpu.value)
    && (w.requiredClients.Some? ==>
          arpu.Some? && HasAnyCostInput(ci) && load.Some? &&
          IsFirstAffordableWithLoad(arpu.value, limit, load.value, w.requiredClients.value, model, pow))
    && (w.requiredClients.None? && arpu.Some? && arpu.value > 0.0 && HasAnyCostInput(ci) && load.Some? ==>
          forall j :: 1 <= j <= limit ==> AdjustedMinPrice(j, load.value, model, pow) > arpu.value)
    && (w.extraClients.Some? <==> w.requiredClients.Some?)
    && (w.extraClients.Some? ==>
          var short := Ceil(w.requiredClients.value as real - nSample);
          && w.extraClients.value == (if short > 0 then short else 0)
          && w.extraClients.value >= 0 && w.extraClients.value as real >= w.requiredClients.value as real - nSample)
  }

  method ReliabilityFigures(ci: CanonicalInput, model: Model, arpu: Option<real>, revenue: real,
                            reliability: Metrics, pow: Pow) returns (w: WithReliability)
    ensures ReliabilityMeaning(w, ci, model, arpu, revenue, reliability, pow)
  {
    var nSample := ReferenceClients(ci.nRef);
    var adjusted := reliability.reliabilityAdjustedCostMonthly;
    var adjustedProfit := if arpu.Some? && adjusted.Some? then Some(revenue - adjusted.value) else None;
    var requiredArpu := if adjusted.Some? then Some((adjusted.value / Max(1.0, nSample)) * (1.0 + model.m)) else None;
    var uplift := if arpu.Some? && requiredArpu.Some? then Some(Max(0.0, requiredArpu.value - arpu.value)) else None;
    var load := ReliabilityLoad(reliability);
    var requiredClients: Option<int> := None;
    if arpu.Some? && HasAnyCostInput(ci) && load.Some? {
      requiredClients := FindRequiredClientsForTargetPriceWithReliability(arpu.value, SearchMax(model), load.value, model, pow);
      assert Max(0.0, load.value) == load.value;
    }
    var extra := if requiredClients.Some? then Some(if Ceil(requiredClients.value as real - nSample) > 0 then Ceil(requiredClients.value as real - nSample) else 0) else None;
    w := WithReliability(adjustedProfit, requiredArpu, uplift, requiredClients, extra);
  }

  // ---------------------------------------------------------------------------
  // computeOutputs
  // ---------------------------------------------------------------------------

  datatype Outputs = Outputs(
    breakEvenClients: Option<int>,
    minPricePerClient: Option<real>,
    vcpu: Option<real>,
    contributionMargin: Option<real>,
    ccer: Option<Ratio>,
    cudMonthlySaving: Option<real>,
    requiredClientsAtTargetPrice: Option<int>,
    requiredPriceAtTargetClients: Option<real>,
    targetMonthlyRevenue: Option<real>,
    reliabilityAdjustedProfit: Option<real>,
    requiredArpuWithRel: Option<real>,
    arpuUpliftWithRel: Option<real>,
    requiredClientsWithRel: Option<int>,
    extraClientsWithRel: Option<int>,
    reliability: Metrics,
    normalization: Domains.Snapshot)

  /**
   * The meaning of the `computeOutputs` result. The break-even count exists
   * only with ARPU and a cost input and follows the mode's precedence; the
   * reference figures are those at nSample; the target revenue follows the
   * planning answers; the normalisation snapshot is the one the inputs
   * determine; the reliability figures are priced on its monthly total when
   * that is positive, else on the model's total at nSample.
   */
  ghost predicate OutputsMeaning(o: Outputs, ci: CanonicalInput, model: Model, effectiveARPU: Option<real>, arpuMode: ArpuMode,
                           pow: Pow)
    requires Canonical(ci)
  {
    var arpu := ArpuUsed(effectiveARPU, ci.ARPU);
    var figures := ReferenceFigures(ci, model, arpu, pow);
    && PlanningMeaning(o.requiredClientsAtTargetPrice, o.requiredPriceAtTargetClients, ci, model, pow)
    && BreakEvenMeaning(o.breakEvenClients, o.requiredClientsAtTargetPrice, o.requiredPriceAtTargetClients,
                        ci, model, arpu, arpuMode, pow)
    && o.targetMonthlyRevenue == TargetMonthlyRevenue(ci, o.requiredPriceAtTargetClients, o.requiredClientsAtTargetPrice)
    && ReferenceReported(o, figures)
    && Domains.SnapshotOf(o.normalization, ci)
    && o.reliability == ComputeReliabilityMetrics(ci,
         if o.normalization.totalMonthly > 0.0 then o.normalization.totalMonthly
         else TotalCost(ReferenceClients(ci.nRef), model, pow))
    && ReliabilityMeaning(WithReliability(o.reliabilityAdjustedProfit, o.requiredArpuWithRel, o.arpuUpliftWithRel,
                                          o.requiredClientsWithRel, o.extraClientsWithRel),
                          ci, model, arpu, figures.revenue, o.reliability, pow)
  }

  /** `computeOutputs`: the reference figures, the planning answers, the break-even choice and the reliability figures. */
  method ComputeOutputs(ci: CanonicalInput, model: Model, effectiveARPU: Option<real>, arpuMode: ArpuMode, pow: Pow)
    returns (o: Outputs)
    requires Canonical(ci)
    ensures OutputsMeaning(o, ci, model, effectiveARPU, arpuMode, pow)
  {
    var arpuUsed := ArpuUsed(effectiveARPU, ci.ARPU);
    var figures := ReferenceFigures(ci, model, arpuUsed, pow);
    var clientsAtPrice, priceAtClients := PlanningTargets(ci, model, pow);
    var breakEvenClients := BreakEvenChoice(ci, model, arpuUsed, arpuMode, clientsAtPrice, priceAtClients, pow);
    var normalization, reliability := PricedReliability(ci, figures.total);
    var w := ReliabilityFigures(ci, model, arpuUsed, figures.revenue, reliability, pow);
    o := Outputs(
      breakEvenClients,
      figures.minPricePerClient,
      figures.vcpu,
      figures.contributionMargin,
      figures.ccer,
      figures.cudMonthlySaving,
      clientsAtPrice,
      priceAtClients,
      TargetMonthlyRevenue(ci, priceAtClients, clientsAtPrice),
      w.adjustedProfit,
      w.requiredArpu,
      w.arpuUplift,
      w.requiredClients,
      w.extraClients,
      reliability,
      normalization);
  }

  /** The reference-point figures of the outputs are those of `ReferenceFigures`. */
  predicate ReferenceReported(o: Outputs, r: AtReference) {
    && o.minPricePerClient == r.minPricePerClient && o.vcpu == r.vcpu
    && o.contributionMargin == r.contributionMargin && o.ccer == r.ccer && o.cudMonthlySaving == r.cudMonthlySaving
  }

  /**
   * The normalisation snapshot and the reliability metrics priced on its
   * monthly total when that is positive, else on the model's total.
   */
  method PricedReliability(ci: CanonicalInput, modelTotal: real) returns (normalization: Domains.Snapshot, reliability: Metrics)
    ensures Domains.SnapshotOf(normalization, ci)
    ensures reliability == ComputeReliabilityMetrics(ci,
      if normalization.totalMonthly > 0.0 then normalization.totalMonthly else modelTotal)
  {
    normalization := Domains.BuildNormalizationSnapshot(ci);
    reliability := ComputeReliabilityMetrics(ci, if normalization.totalMonthly > 0.0 then normalization.totalMonthly else modelTotal);
  }

  /** The margin the outputs report is the one the health check scores. */
  lemma MarginAgreesWithHealth(ci: CanonicalInput, model: Model, effectiveARPU: Option<real>, pow: Pow)
    requires Canonical(ci)
    requires ci.infraTotal.Some? && ArpuUsed(effectiveARPU, ci.ARPU).Some?
    ensures var arpu := ArpuUsed(effectiveARPU, ci.ARPU).value;
      var n := ReferenceClients(ci.nRef);
      ReferenceFigures(ci, model, Some(arpu), pow).contributionMargin == Some(HealthSignals(n, arpu, model, pow).contributionMargin)
  {
    var n := ReferenceClients(ci.nRef);
    var arpu := ArpuUsed(effectiveARPU, ci.ARPU).value;
    var r := ReferenceFigures(ci, model, Some(arpu), pow);
    var s := HealthSignals(n, arpu, model, pow);
    assert r.vcpu.value * n == s.infraRaw;
    assert r.vcpu.value == s.infraRaw / n;
  }

  // ---------------------------------------------------------------------------
  // healthTool and calculateTool
  // ---------------------------------------------------------------------------

  /**
   * What `healthTool` answers: the health of the inputs once normalised and
   * derived.
   */
  ghost predicate HealthFor(h: HealthReport, args: Raw, parse: NumberParser, pow: Pow) {
    exists ci, d :: NormalizedFrom(ci, Get(args, "inputs"), parse) && DerivedFrom(ci, d, pow) &&
      HealthMeaning(h, ci, d.model, d.effectiveARPU, d.arpuMode, pow)
  }

  /** `healthTool`: normalise, derive, score. */
  method HealthTool(args: Raw, parse: NumberParser, pow: Pow) returns (h: HealthReport)
    requires PowPositive(pow)
    ensures HealthFor(h, args, parse, pow)
    ensures var inputs := Get(args, "inputs");
      NormalizeNumber(Get(inputs, "infraTotal"), NonNegative, parse).None? ==> h.zone == Awaiting && h.score.None?
    ensures h.score.Some? ==> 10 <= h.score.value <= 100 && h.zone == ZoneOf(h.score.value)
  {
    var ci := NormalizeInputs(Get(args, "inputs"), parse);
    var derived := DeriveModel(ci, pow);
    h := ComputeHealth(ci, derived.model, derived.effectiveARPU, derived.arpuMode, pow);
    HealthOfInputs(h, args, ci, derived, parse, pow);
  }

  lemma HealthOfInputs(h: HealthReport, args: Raw, ci: CanonicalInput, d: Derived, parse: NumberParser, pow: Pow)
    requires NormalizedFrom(ci, Get(args, "inputs"), parse) && DerivedFrom(ci, d, pow)
    requires HealthMeaning(h, ci, d.model, d.effectiveARPU, d.arpuMode, pow)
    ensures HealthFor(h, args, parse, pow)
  {
  }

  /** The normalised inputs as the JavaScript object `buildSerializedInputState` walks. */
  function CanonicalAsRaw(ci: CanonicalInput): (r: Raw)
    ensures r.Obj?
  {
    var num := (x: Option<real>) => if x.Some? then Num(x.value) else Null;
    Obj(map[
      "nRef" := num(ci.nRef),
      "currency" := if ci.currency.Some? then Str(ci.currency.value) else Null,
      "devPerClient" := num(ci.devPerClient),
      "infraTotal" := num(ci.infraTotal),
      "ARPU" := num(ci.ARPU),
      "startupTargetPrice" := num(ci.startupTargetPrice),
      "startupTargetClients" := num(ci.startupTargetClients),
      "cudPct" := num(ci.cudPct),
      "margin" := num(ci.margin),
      "nMax" := num(ci.nMax),
      "techDomains" := ShareState.StrArray(ci.techDomains),
      "costSaaS" := num(ci.costSaaS),
      "costLicensing" := num(ci.costLicensing),
      "costPrivateCloud" := num(ci.costPrivateCloud),
      "costDataCenter" := num(ci.costDataCenter),
      "costLabor" := num(ci.costLabor),
      "reliabilityEnabled" := Bool(ci.reliabilityEnabled),
      "sloTargetAvailabilityPct" := num(ci.sloTargetAvailabilityPct),
      "sliObservedAvailabilityPct" := num(ci.sliObservedAvailabilityPct),
      "incidentCountMonthly" := num(ci.incidentCountMonthly),
      "mttrHours" := num(ci.mttrHours),
      "incidentBlendedHourlyRate" := num(ci.incidentBlendedHourlyRate),
      "criticalRevenuePerMinute" := num(ci.criticalRevenuePerMinute),
      "arrExposedMonthly" := num(ci.arrExposedMonthly),
      "slaPenaltyRatePerBreachPointMonthly" := num(ci.slaPenaltyRatePerBreachPointMonthly),
      "reliabilityInvestmentMonthly" := num(ci.reliabilityInvestmentMonthly),
      "minutesInMonth" := num(ci.minutesInMonth),
      "incidentFteCount" := num(ci.incidentFteCount),
      "criticalTrafficSharePct" := num(ci.criticalTrafficSharePct),
      "churnSensitivityPct" := num(ci.churnSensitivityPct),
      "breachProbabilityPct" := num(ci.breachProbabilityPct),
      "slaPenaltyMonthly" := num(ci.slaPenaltyMonthly)])
  }

  /** A map of strings as a JavaScript object. */
  function StringsAsRaw(m: map<string, string>): Raw {
    Obj(map k | k in m :: Str(m[k]))
  }

  /** The share-state payload `calculateTool` builds before normalising it. */
  function TokenPayload(args: Raw, ci: CanonicalInput, providers: seq<string>, hiddenCurves: seq<string>,
                        show: ShareState.NumberFormatter): (payload: Raw)
    ensures payload.Obj?
    ensures Get(payload, "i") == StringsAsRaw(ShareState.SerializedInputState(CanonicalAsRaw(ci), show))
    ensures Get(payload, "p") == ShareState.StrArray(providers)
  {
    Obj(map[
      "ui" := Get(args, "uiIntent"),
      "um" := Get(args, "uiMode"),
      "i" := StringsAsRaw(ShareState.SerializedInputState(CanonicalAsRaw(ci), show)),
      "td" := ShareState.StrArray(ci.techDomains),
      "p" := ShareState.StrArray(providers),
      "h" := ShareState.StrArray(hiddenCurves)])
  }

  datatype Calculation = Calculation(
    normalizedInputs: CanonicalInput,
    derived: Derived,
    outputs: Outputs,
    health: Option<HealthReport>,
    recommendations: seq<Recommendations.Item>,
    stateToken: Option<string>)

  /** The zone key the recommendations use: the health zone, else "awaiting". */
  function HealthZoneKey(health: Option<HealthReport>): string {
    if health.Some? then Recommendations.ZoneKey(health.value.zone) else "awaiting"
  }

  /** The health report, when asked for, and the recommendations for its zone in every category. */
  method AssessFor(ci: CanonicalInput, derived: Derived, providers: seq<string>, options: Options, pow: Pow)
    returns (health: Option<HealthReport>, recommendations: seq<Recommendations.Item>)
    ensures health.Some? <==> options.includeHealth
    ensures health.Some? ==> HealthMeaning(health.value, ci, derived.model, derived.effectiveARPU, derived.arpuMode, pow)
    ensures !options.includeRecommendations ==> recommendations == []
    ensures options.includeRecommendations ==>
      && Recommendations.PrioritizedAs(recommendations, HealthZoneKey(health), providers, "all", Some((ci, derived)), pow)
      && Recommendations.WellRanked(recommendations, providers, "all")
    ensures health.None? || health.value.zone == Awaiting ==> recommendations == []
  {
    health := None;
    if options.includeHealth {
      var h := ComputeHealth(ci, derived.model, derived.effectiveARPU, derived.arpuMode, pow);
      health := Some(h);
    }
    recommendations := [];
    if options.includeRecommendations {
      assert Recommendations.NormalizeRecommendationCategory(Str("all")) == "all";
      recommendations := Recommendations.BuildPrioritizedRecommendations(HealthZoneKey(health), providers, Str("all"),
                                                                         Some((ci, derived)), pow);
    }
  }

  /**
   * `calculateTool`: the normalised inputs, the derived model and the
   * outputs; health, recommendations and the token only when their options
   * are on; recommendations use the health zone (else "awaiting") and every
   * category, so they are empty without a scored zone; the token carries the
   * serialised normalised inputs, the UI context and the normalised
   * providers and hidden curves.
   */
  method CalculateTool(args: Raw, parse: NumberParser, pow: Pow, show: ShareState.NumberFormatter,
                       serialize: ShareState.Serialize)
    returns (c: Calculation)
    requires PowPositive(pow)
    ensures Canonical(c.normalizedInputs) && NormalizedFrom(c.normalizedInputs, Get(args, "inputs"), parse)
    ensures DerivedFrom(c.normalizedInputs, c.derived, pow)
    ensures OutputsMeaning(c.outputs, c.normalizedInputs, c.derived.model, c.derived.effectiveARPU, c.derived.arpuMode, pow)
    ensures var options := NormalizeOptions(Get(args, "options"));
      var providers := Get(args, "providers");
      var ci, d := c.normalizedInputs, c.derived;
      && (c.health.Some? <==> options.includeHealth)
      && (c.health.Some? ==> HealthMeaning(c.health.value, ci, d.model, d.effectiveARPU, d.arpuMode, pow))
      && (!options.includeRecommendations ==> c.recommendations == [])
      && (options.includeRecommendations ==>
            Recommendations.PrioritizedAs(c.recommendations, HealthZoneKey(c.health),
              if providers.Arr? then KeepVocabulary(providers.items, ProviderKeys) else [], "all", Some((ci, d)), pow))
      && (c.health.None? || c.health.value.zone == Awaiting ==> c.recommendations == [])
      && (c.stateToken.Some? <==> options.includeStateToken)
    ensures var providers := Get(args, "providers");
      var hiddenCurves := Get(args, "hiddenCurves");
      c.stateToken.Some? ==>
        c.stateToken.value == ShareState.EncodeShareState(ShareState.NormalizedPayload(TokenPayload(args, c.normalizedInputs,
          if providers.Arr? then KeepVocabulary(providers.items, ProviderKeys) else [],
          if hiddenCurves.Arr? then KeepVocabulary(hiddenCurves.items, CurveKeys) else [], show), show), serialize)
  {
    var ci := NormalizeInputs(Get(args, "inputs"), parse);
    var providers := NormalizeProviders(Get(args, "providers"));
    var hiddenCurves := NormalizeHiddenCurves(Get(args, "hiddenCurves"));
    var options := NormalizeOptions(Get(args, "options"));
    var derived := DeriveModel(ci, pow);
    assert DerivedFrom(ci, derived, pow);
    var outputs := ComputeOutputs(ci, derived.model, derived.effectiveARPU, derived.arpuMode, pow);
    var health, recommendations := AssessFor(ci, derived, providers, options, pow);
    var stateToken: Option<string> := None;
    if options.includeStateToken {
      var state := ShareState.NormalizeShareStatePayload(TokenPayload(args, ci, providers, hiddenCurves, show), show);
      stateToken := Some(ShareState.EncodeShareState(state, serialize));
    }
    c := Calculation(ci, derived, outputs, health, recommendations, stateToken);
  }
}
