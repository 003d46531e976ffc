/**
 * Client-count scans over the cost curve (server/finops-core.js:274-329):
 * break-even, the cheapest unit cost, and the least client count at which
 * a target price covers cost plus markup.
 */
module Scanner {
  import opened Wrappers
  import opened JsValues
  import opened CostModel

  /** `Math.max(1, Math.round(maxN))`: the last client count a scan visits. */
  function Limit(maxN: real): (r: int)
    ensures r >= 1
    ensures Round(maxN) >= 1 ==> r == Round(maxN)
    ensures Round(maxN) < 1 ==> r == 1
  {
    if Round(maxN) >= 1 then Round(maxN) else 1
  }

  /** Total monthly cost with n clients. */
  function Total(n: int, model: Model, pow: Pow): real {
    TotalCostAtClients(n as real, model, pow)
  }

  /** Cost per client with n clients. */
  function UnitCost(n: int, model: Model, pow: Pow): real
    requires n >= 1
  {
    Total(n, model, pow) / n as real
  }

  /** Revenue covers cost: `arpu * n >= total`. */
  predicate BreaksEven(arpu: real, n: int, model: Model, pow: Pow) {
    arpu * n as real >= Total(n, model, pow)
  }

  /** k is the least client count in [1, limit] that breaks even. */
  predicate IsFirstBreakEven(arpu: real, limit: int, k: int, model: Model, pow: Pow) {
    1 <= k <= limit && BreaksEven(arpu, k, model, pow) &&
    forall j :: 1 <= j < k ==> !BreaksEven(arpu, j, model, pow)
  }

  predicate NeverBreaksEven(arpu: real, limit: int, model: Model, pow: Pow) {
    forall j :: 1 <= j <= limit ==> !BreaksEven(arpu, j, model, pow)
  }

  /** k is the first client count in [1, limit] whose unit cost is minimal. */
  predicate IsFirstMinimiser(limit: int, k: int, model: Model, pow: Pow) {
    1 <= k <= limit &&
    (forall j :: 1 <= j <= limit ==> UnitCost(k, model, pow) <= UnitCost(j, model, pow)) &&
    (forall j :: 1 <= j < k ==> UnitCost(k, model, pow) < UnitCost(j, model, pow))
  }

  /** The result of `scanEconomicRange`. */
  datatype Economics = Economics(breakEvenN: Option<int>, minUnitCostN: int, minUnitCostPerClient: real)

  /**
   * `scanEconomicRange`: one pass over 1..limit keeping the first break-even
   * count (only with a positive ARPU) and the first minimiser of the unit cost.
   */
  method ScanEconomicRange(arpu: Option<real>, maxN: real, model: Model, pow: Pow) returns (e: Economics)
    ensures e.breakEvenN.Some? ==>
      arpu.Some? && arpu.value > 0.0 && IsFirstBreakEven(arpu.value, Limit(maxN), e.breakEvenN.value, model, pow)
    ensures e.breakEvenN.None? ==>
      arpu.None? || arpu.value <= 0.0 || NeverBreaksEven(arpu.value, Limit(maxN), model, pow)
    ensures IsFirstMinimiser(Limit(maxN), e.minUnitCostN, model, pow)
    ensures e.minUnitCostPerClient == UnitCost(e.minUnitCostN, model, pow)
  {
    var limit := Limit(maxN);
    var hasArpu := arpu.Some? && arpu.value > 0.0;
    var breakEvenN: Option<int> := None;
    var minUnitCost := UnitCost(1, model, pow);
    var minUnitCostN := 1;
    for n := 1 to limit + 1
      invariant 1 <= minUnitCostN <= (if n == 1 then 1 else n - 1)
      invariant minUnitCost == UnitCost(minUnitCostN, model, pow)
      invariant forall j :: 1 <= j < n ==> minUnitCost <= UnitCost(j, model, pow)
      invariant forall j :: 1 <= j < minUnitCostN ==> minUnitCost < UnitCost(j, model, pow)
      invariant breakEvenN.Some? ==> hasArpu && IsFirstBreakEven(arpu.value, limit, breakEvenN.value, model, pow)
      invariant breakEvenN.Some? ==> breakEvenN.value < n
      invariant breakEvenN.None? && hasArpu ==> forall j :: 1 <= j < n ==> !BreaksEven(arpu.value, j, model, pow)
    {
      var total := Total(n, model, pow);
      var unitCost := total / n as real;
      if unitCost < minUnitCost {
        minUnitCost := unitCost;
        minUnitCostN := n;
      }
      if hasArpu && breakEvenN.None? && arpu.value * n as real >= total {
        breakEvenN := Some(n);
      }
    }
    e := Economics(breakEvenN, minUnitCostN, minUnitCost);
  }

  /** `minPriceAtClients` on a whole client count n >= 1. */
  function MinPrice(n: int, model: Model, pow: Pow): real {
    MinPriceAtClients(n as real, model, pow)
  }

  /** k is the least client count in [1, limit] whose minimum price fits the target. */
  predicate IsFirstAffordable(target: real, limit: int, k: int, model: Model, pow: Pow) {
    1 <= k <= limit && MinPrice(k, model, pow) <= target &&
    forall j :: 1 <= j < k ==> MinPrice(j, model, pow) > target
  }

  /**
   * `findRequiredClientsForTargetPrice`: the least client count whose minimum
   * price is at most the target, or none for a non-positive target or when
   * no count up to the limit reaches it.
   */
  method FindRequiredClientsForTargetPrice(target: real, maxN: real, model: Model, pow: Pow) returns (r: Option<int>)
    ensures r.Some? ==> target > 0.0 && IsFirstAffordable(target, Limit(maxN), r.value, model, pow)
    ensures r.None? ==>
      target <= 0.0 || forall j :: 1 <= j <= Limit(maxN) ==> MinPrice(j, model, pow) > target
  {
    if !(target > 0.0) {
      return None;
    }
    var limit := Limit(maxN);
    for n := 1 to limit + 1
      invariant forall j :: 1 <= j < n ==> MinPrice(j, model, pow) > target
    {
      if MinPrice(n, model, pow) <= target {
        return Some(n);
      }
    }
    return None;
  }

  /** `adjustedMinPrice`: the minimum price once a monthly reliability load is spread over n clients. */
  function AdjustedMinPrice(n: int, load: real, model: Model, pow: Pow): real {
    ((Total(n, model, pow) + load) / (if n >= 1 then n as real else 1.0)) * (1.0 + model.m)
  }

  predicate IsFirstAffordableWithLoad(target: real, limit: int, load: real, k: int, model: Model, pow: Pow) {
    1 <= k <= limit && AdjustedMinPrice(k, load, model, pow) <= target &&
    forall j :: 1 <= j < k ==> AdjustedMinPrice(j, load, model, pow) > target
  }

  /**
   * `findRequiredClientsForTargetPriceWithReliability`: as above, with a
   * reliability load clamped at zero added to the total before dividing.
   */
  method FindRequiredClientsForTargetPriceWithReliability(target: real, maxN: real, reliabilityLoadMonthly: real, model: Model, pow: Pow)
    returns (r: Option<int>)
    ensures var load := Max(0.0, reliabilityLoadMonthly);
      r.Some? ==> target > 0.0 && IsFirstAffordableWithLoad(target, Limit(maxN), load, r.value, model, pow)
    ensures var load := Max(0.0, reliabilityLoadMonthly);
      r.None? ==> target <= 0.0 || forall j :: 1 <= j <= Limit(maxN) ==> AdjustedMinPrice(j, load, model, pow) > target
  {
    if !(target > 0.0) {
      return None;
    }
    var limit := Limit(maxN);
    var load := Max(0.0, reliabilityLoadMonthly);
    for n := 1 to limit + 1
      invariant forall j :: 1 <= j < n ==> AdjustedMinPrice(j, load, model, pow) > target
    {
      if AdjustedMinPrice(n, load, model, pow) <= target {
        return Some(n);
      }
    }
    return None;
  }

  /** With no reliability load the two searches agree. */
  lemma NoLoadAgrees(n: int, model: Model, pow: Pow)
    requires n >= 1
    ensures AdjustedMinPrice(n, 0.0, model, pow) == MinPrice(n, model, pow)
  {
  }

  /** A load never lowers the minimum price, so it never lowers the client count needed. */
  lemma LoadRaisesPrice(n: int, load: real, model: Model, pow: Pow)
    requires n >= 1 && load >= 0.0 && model.m >= 0.0
    ensures AdjustedMinPrice(n, load, model, pow) >= AdjustedMinPrice(n, 0.0, model, pow)
  {
  }

  /** Consequence: the first count reachable with a load is never below the first without. */
  lemma {:induction false} LoadNeverHelps(target: real, limit: int, load: real, k0: int, k: int, model: Model, pow: Pow)
    requires load >= 0.0 && model.m >= 0.0
    requires IsFirstAffordable(target, limit, k0, model, pow)
    requires IsFirstAffordableWithLoad(target, limit, load, k, model, pow)
    ensures k0 <= k
  {
    if k < k0 {
      LoadRaisesPrice(k, load, model, pow);
      NoLoadAgrees(k, model, pow);
    }
  }
}
