/**
 * Model deriver and cost curves (server/finops-core.js:1-10, 244-306, 408-465).
 * `Math.pow` with fractional exponents has no exact counterpart here: every
 * curve takes it as a parameter `pow`.
 */
module CostModel {
  import opened Wrappers
  import opened JsValues
  import opened Canonicalizer

  /** The eight power-law parameters of one request. */
  datatype Model = Model(K: real, a: real, c: real, b: real, g: real, ARPU: real, m: real, nMax: real)

  /** MODEL_DEFAULTS. */
  const Defaults: Model := Model(50000.0, 0.45, 0.8, 1.28, 0.68, 30.0, 0.15, 1000.0)

  /** DEFAULT_N_REF: the client count used when nRef is absent. */
  const DefaultNRef: real := 100.0

  /** `Math.pow` as the engine uses it. */
  type Pow = (real, real) -> real

  /** What `Math.pow` guarantees and the calibration needs: a positive base gives a positive power. */
  ghost predicate PowPositive(pow: Pow) {
    forall x: real, y: real :: x > 0.0 ==> pow(x, y) > 0.0
  }

  predicate Positive(x: Option<real>) {
    x.Some? && x.value > 0.0
  }

  /** `isFiniteNumber(x) && x >= 0`: a cost basis was supplied. */
  predicate Supplied(x: Option<real>) {
    x.Some? && x.value >= 0.0
  }

  function Max(x: real, y: real): real {
    if x >= y then x else y
  }

  /** `nSample`: nRef when it is a positive number, else DEFAULT_N_REF. */
  function ReferenceClients(nRef: Option<real>): (n: real)
    ensures n > 0.0
    ensures Positive(nRef) ==> n == nRef.value
    ensures !Positive(nRef) ==> n == DefaultNRef
  {
    if Positive(nRef) then nRef.value else DefaultNRef
  }

  // ---------------------------------------------------------------------------
  // Cost curves at a client count n
  // ---------------------------------------------------------------------------

  /** Development cost per client shrinks with scale: K * n^-a. */
  function DevCost(n: real, model: Model, pow: Pow): real {
    model.K * pow(n, -model.a)
  }

  /** Raw infrastructure cost grows faster than clients: c * n^b. */
  function InfraRaw(n: real, model: Model, pow: Pow): real {
    model.c * pow(n, model.b)
  }

  /** Infrastructure cost after committed-use discounts: g * c * n^(0.96 b). */
  function InfraCud(n: real, model: Model, pow: Pow): real {
    model.g * model.c * pow(n, model.b * 0.96)
  }

  function TotalCost(n: real, model: Model, pow: Pow): real {
    DevCost(n, model, pow) + InfraRaw(n, model, pow)
  }

  /** `Math.max(1, n)`: the curves are never evaluated below one client. */
  function SafeN(n: real): (r: real)
    ensures r >= 1.0
    ensures n >= 1.0 ==> r == n
  {
    if n >= 1.0 then n else 1.0
  }

  /** `totalCostAtClients`. */
  function TotalCostAtClients(n: real, model: Model, pow: Pow): (r: real)
    ensures n >= 1.0 ==> r == TotalCost(n, model, pow)
    ensures n <= 1.0 ==> r == TotalCost(1.0, model, pow)
  {
    TotalCost(SafeN(n), model, pow)
  }

  /** `minPriceAtClients`: the per-client price that covers total cost plus the markup m. */
  function MinPriceAtClients(n: real, model: Model, pow: Pow): (r: real)
    ensures r * SafeN(n) == TotalCostAtClients(n, model, pow) * (1.0 + model.m)
  {
    var c := SafeN(n);
    var total := TotalCostAtClients(c, model, pow);
    assert total == TotalCostAtClients(n, model, pow);
    assert (total / c) * (1.0 + model.m) * c == total * (1.0 + model.m);
    (total / c) * (1.0 + model.m)
  }

  /** `totalCostAtClients` on the whole client counts the scanners walk. */
  function TotalCurve(model: Model, pow: Pow): int -> real {
    (n: int) => TotalCostAtClients(n as real, model, pow)
  }

  // ---------------------------------------------------------------------------
  // deriveModel
  // ---------------------------------------------------------------------------

  datatype ArpuMode = Manual | StartupPrice | StartupClients | Missing

  /** The entries of `derivations`; their text formatting is not modelled. */
  datatype Derivation =
    | DerivedG(g: real)
    | DerivedK(K: real)
    | DerivedC(c: real, atClients: real)
    | ArpuFromPrice(arpu: real)
    | ArpuFromClients(arpu: real, clients: int)

  datatype Derived = Derived(model: Model, effectiveARPU: Option<real>, arpuMode: ArpuMode, derivations: seq<Derivation>)

  /** Clients mode needs some cost basis to price from. */
  predicate HasCostBasis(inputs: CanonicalInput) {
    Supplied(inputs.devPerClient) || Supplied(inputs.infraTotal)
  }

  /** Everything `deriveModel` promises about its result, as one predicate for its callers. */
  predicate DerivedFrom(inputs: CanonicalInput, d: Derived, pow: Pow) {
    Overridden(inputs, d.model) && CalibratedAt(inputs, d.model, pow) && ArpuResolved(inputs, d, pow) && NotesRecorded(inputs, d)
  }

  /**
   * `deriveModel`: start from the defaults and override field by field.
   * ARPU is resolved by precedence: manual, then target price, then target
   * clients (with a cost basis), else missing.
   */
  method DeriveModel(inputs: CanonicalInput, pow: Pow) returns (d: Derived)
    requires PowPositive(pow)
    ensures Overridden(inputs, d.model)
    ensures CalibratedAt(inputs, d.model, pow)
    ensures ArpuResolved(inputs, d, pow)
    ensures NotesRecorded(inputs, d)
  {
    var model, gNotes := ApplyOverrides(inputs);
    assert Overridden(inputs, model);
    var kcNotes;
    model, kcNotes := Calibrate(inputs, model, pow);
    assert Overridden(inputs, model) && CalibratedAt(inputs, model, pow);
    var effectiveARPU, arpuMode, arpuNotes;
    var calibrated := model;
    model, effectiveARPU, arpuMode, arpuNotes := ResolveArpu(inputs, model, pow);
    d := Derived(model, effectiveARPU, arpuMode, gNotes + kcNotes + arpuNotes);
    CostsIgnoreArpu(inputs, calibrated, d.model, pow);
    NotesOfSteps(inputs, d, gNotes, kcNotes, arpuNotes);
  }

  /**
   * The plain overrides: the exponents stay fixed, nMax is replaced only by a
   * value of at least 10, the markup and the discount factor are clamped.
   */
  predicate Overridden(inputs: CanonicalInput, model: Model) {
    && model.a == Defaults.a && model.b == Defaults.b
    && model.nMax == (if inputs.nMax.Some? && inputs.nMax.value >= 10.0 then inputs.nMax.value else Defaults.nMax)
    && model.nMax >= 10.0
    && model.m == (if inputs.margin.Some? then Max(0.0, inputs.margin.value / 100.0) else Defaults.m)
    && model.m >= 0.0
    && model.g == (if inputs.cudPct.Some? then Max(0.01, 1.0 - inputs.cudPct.value / 100.0) else Defaults.g)
    && model.g >= 0.01
    && (Canonical(inputs) ==> 0.05 <= model.g <= 1.0)
  }

  /**
   * Calibration at the reference client count: with a development cost per
   * client, K reproduces it there (whenever `pow` is a true power); with an
   * infrastructure total, c reproduces it there; otherwise the defaults stay.
   */
  predicate CalibratedAt(inputs: CanonicalInput, model: Model, pow: Pow) {
    var n := ReferenceClients(inputs.nRef);
    && (!Supplied(inputs.devPerClient) ==> model.K == Defaults.K)
    && (Supplied(inputs.devPerClient) ==> model.K == inputs.devPerClient.value * pow(n, Defaults.a))
    && (Supplied(inputs.devPerClient) && pow(n, Defaults.a) * pow(n, -Defaults.a) == 1.0 ==>
          DevCost(n, model, pow) == inputs.devPerClient.value)
    && (!Supplied(inputs.infraTotal) ==> model.c == Defaults.c)
    && (Supplied(inputs.infraTotal) ==> InfraRaw(n, model, pow) == inputs.infraTotal.value)
  }

  /**
   * ARPU precedence: manual ARPU, then the target price, then the minimum
   * price at the target client count (only with a cost basis), else missing.
   */
  predicate ArpuResolved(inputs: CanonicalInput, d: Derived, pow: Pow) {
    && (d.arpuMode == Manual <==> Positive(inputs.ARPU))
    && (d.arpuMode == StartupPrice <==> !Positive(inputs.ARPU) && Positive(inputs.startupTargetPrice))
    && (d.arpuMode == StartupClients <==>
          !Positive(inputs.ARPU) && !Positive(inputs.startupTargetPrice) &&
          Positive(inputs.startupTargetClients) && HasCostBasis(inputs))
    && (d.effectiveARPU.None? <==> d.arpuMode == Missing)
    && (d.arpuMode == Manual ==> d.effectiveARPU == inputs.ARPU)
    && (d.arpuMode == StartupPrice ==> d.effectiveARPU == inputs.startupTargetPrice)
    && (d.arpuMode == StartupClients ==>
          d.effectiveARPU == Some(MinPriceAtClients(inputs.startupTargetClients.value, d.model, pow)))
    && d.model.ARPU == d.effectiveARPU.GetOr(Defaults.ARPU)
  }

  /** Setting the ARPU changes no cost figure. */
  lemma CostsIgnoreArpu(inputs: CanonicalInput, base: Model, model: Model, pow: Pow)
    requires model == base.(ARPU := model.ARPU)
    requires Overridden(inputs, base) && CalibratedAt(inputs, base, pow)
    ensures Overridden(inputs, model) && CalibratedAt(inputs, model, pow)
  {
    var n := ReferenceClients(inputs.nRef);
    assert DevCost(n, model, pow) == DevCost(n, base, pow);
    assert InfraRaw(n, model, pow) == InfraRaw(n, base, pow);
  }

  /**
   * The derivation notes: one for the discount factor when a commitment
   * share was given, one each for K and c when calibrated, and one for the
   * ARPU in each planning mode.
   */
  predicate NotesRecorded(inputs: CanonicalInput, d: Derived) {
    && (DerivedG(d.model.g) in d.derivations <==> inputs.cudPct.Some?)
    && (DerivedK(d.model.K) in d.derivations <==> Supplied(inputs.devPerClient))
    && (DerivedC(d.model.c, ReferenceClients(inputs.nRef)) in d.derivations <==> Supplied(inputs.infraTotal))
    && (d.arpuMode == StartupPrice <==> ArpuFromPrice(d.model.ARPU) in d.derivations)
    && (d.arpuMode == StartupClients <==>
          ArpuFromClients(d.model.ARPU, Round(inputs.startupTargetClients.GetOr(0.0))) in d.derivations)
  }

  /** The notes of the three steps, pushed in order, record what each step did. */
  lemma NotesOfSteps(inputs: CanonicalInput, d: Derived, gNotes: seq<Derivation>, kcNotes: seq<Derivation>,
                     arpuNotes: seq<Derivation>)
    requires d.derivations == gNotes + kcNotes + arpuNotes
    requires gNotes == (if inputs.cudPct.Some? then [DerivedG(d.model.g)] else [])
    requires kcNotes ==
      (if Supplied(inputs.devPerClient) then [DerivedK(d.model.K)] else []) +
      (if Supplied(inputs.infraTotal) then [DerivedC(d.model.c, ReferenceClients(inputs.nRef))] else [])
    requires arpuNotes ==
      (if d.arpuMode == StartupPrice then [ArpuFromPrice(d.model.ARPU)]
       else if d.arpuMode == StartupClients then [ArpuFromClients(d.model.ARPU, Round(inputs.startupTargetClients.GetOr(0.0)))]
       else [])
    ensures NotesRecorded(inputs, d)
  {
    var ds := d.derivations;
    var g, k, c := DerivedG(d.model.g), DerivedK(d.model.K), DerivedC(d.model.c, ReferenceClients(inputs.nRef));
    var p, q := ArpuFromPrice(d.model.ARPU), ArpuFromClients(d.model.ARPU, Round(inputs.startupTargetClients.GetOr(0.0)));
    assert g in ds <==> g in gNotes;
    assert k in ds <==> k in kcNotes;
    assert c in ds <==> c in kcNotes;
    assert p in ds <==> p in arpuNotes;
    assert q in ds <==> q in arpuNotes;
  }

  /** The plain overrides: nMax, the markup m and the discount factor g. */
  method ApplyOverrides(inputs: CanonicalInput) returns (model: Model, notes: seq<Derivation>)
    ensures model.K == Defaults.K && model.a == Defaults.a && model.c == Defaults.c
    ensures model.b == Defaults.b && model.ARPU == Defaults.ARPU
    ensures model.nMax == (if inputs.nMax.Some? && inputs.nMax.value >= 10.0 then inputs.nMax.value else Defaults.nMax)
    ensures model.m == (if inputs.margin.Some? then Max(0.0, inputs.margin.value / 100.0) else Defaults.m)
    ensures model.g == (if inputs.cudPct.Some? then Max(0.01, 1.0 - inputs.cudPct.value / 100.0) else Defaults.g)
    ensures model.nMax >= 10.0 && model.m >= 0.0 && model.g >= 0.01
    ensures notes == (if inputs.cudPct.Some? then [DerivedG(model.g)] else [])
  {
    model := Defaults;
    notes := [];
    if inputs.nMax.Some? && inputs.nMax.value >= 10.0 {
      model := model.(nMax := inputs.nMax.value);
    }
    if inputs.margin.Some? {
      model := model.(m := Max(0.0, inputs.margin.value / 100.0));
    }
    if inputs.cudPct.Some? {
      model := model.(g := Max(0.01, 1.0 - inputs.cudPct.value / 100.0));
      notes := [DerivedG(model.g)];
    }
  }

  /** Calibrate K and c so the curves pass through the observed costs at the reference count. */
  method Calibrate(inputs: CanonicalInput, base: Model, pow: Pow) returns (model: Model, notes: seq<Derivation>)
    requires PowPositive(pow)
    ensures model == base.(K := model.K, c := model.c)
    ensures !Supplied(inputs.devPerClient) ==> model.K == base.K
    ensures Supplied(inputs.devPerClient) ==>
      model.K == inputs.devPerClient.value * pow(ReferenceClients(inputs.nRef), base.a)
    ensures !Supplied(inputs.infraTotal) ==> model.c == base.c
    ensures Supplied(inputs.infraTotal) ==>
      InfraRaw(ReferenceClients(inputs.nRef), model, pow) == inputs.infraTotal.value
    ensures notes ==
      (if Supplied(inputs.devPerClient) then [DerivedK(model.K)] else []) +
      (if Supplied(inputs.infraTotal) then [DerivedC(model.c, ReferenceClients(inputs.nRef))] else [])
  {
    model := base;
    var kNotes: seq<Derivation> := [];
    var cNotes: seq<Derivation> := [];
    var n := ReferenceClients(inputs.nRef);
    if Supplied(inputs.devPerClient) {
      model := model.(K := inputs.devPerClient.value * pow(n, model.a));
      kNotes := [DerivedK(model.K)];
    }
    if Supplied(inputs.infraTotal) {
      var p := pow(n, model.b);
      model := model.(c := inputs.infraTotal.value / p);
      assert model.c * p == inputs.infraTotal.value;
      cNotes := [DerivedC(model.c, n)];
    }
    notes := kNotes + cNotes;
  }

  /** ARPU by precedence: manual, target price, target clients with a cost basis. */
  method ResolveArpu(inputs: CanonicalInput, base: Model, pow: Pow)
    returns (model: Model, effectiveARPU: Option<real>, arpuMode: ArpuMode, notes: seq<Derivation>)
    ensures model == base.(ARPU := model.ARPU)
    ensures arpuMode == Manual <==> Positive(inputs.ARPU)
    ensures arpuMode == StartupPrice <==> !Positive(inputs.ARPU) && Positive(inputs.startupTargetPrice)
    ensures arpuMode == StartupClients <==>
      !Positive(inputs.ARPU) && !Positive(inputs.startupTargetPrice) &&
      Positive(inputs.startupTargetClients) && HasCostBasis(inputs)
    ensures effectiveARPU.None? <==> arpuMode == Missing
    ensures arpuMode == Manual ==> effectiveARPU == inputs.ARPU
    ensures arpuMode == StartupPrice ==> effectiveARPU == inputs.startupTargetPrice
    ensures arpuMode == StartupClients ==>
      effectiveARPU == Some(MinPriceAtClients(inputs.startupTargetClients.value, model, pow))
    ensures model.ARPU == effectiveARPU.GetOr(base.ARPU)
    ensures notes ==
      (if arpuMode == StartupPrice then [ArpuFromPrice(model.ARPU)]
       else if arpuMode == StartupClients then [ArpuFromClients(model.ARPU, Round(inputs.startupTargetClients.value))]
       else [])
  {
    model := base;
    effectiveARPU := None;
    arpuMode := Missing;
    notes := [];
    if Positive(inputs.ARPU) {
      model := model.(ARPU := inputs.ARPU.value);
      effectiveARPU := inputs.ARPU;
      arpuMode := Manual;
    } else if Positive(inputs.startupTargetPrice) {
      model := model.(ARPU := inputs.startupTargetPrice.value);
      effectiveARPU := inputs.startupTargetPrice;
      arpuMode := StartupPrice;
      notes := [ArpuFromPrice(model.ARPU)];
    } else if Positive(inputs.startupTargetClients) && HasCostBasis(inputs) {
      var price := MinPriceAtClients(inputs.startupTargetClients.value, model, pow);
      model := model.(ARPU := price);
      // the price does not depend on the ARPU it sets
      assert MinPriceAtClients(inputs.startupTargetClients.value, model, pow) == price;
      effectiveARPU := Some(model.ARPU);
      arpuMode := StartupClients;
      notes := [ArpuFromClients(model.ARPU, Round(inputs.startupTargetClients.value))];
    }
  }

  /**
   * `arpuUsed` (shared by outputs, health and recommendations): the effective
   * ARPU when positive, else the raw ARPU input when positive, else absent.
   */
  function ArpuUsed(effectiveARPU: Option<real>, arpuInput: Option<real>): (r: Option<real>)
    ensures r.Some? ==> r.value > 0.0
    ensures r.None? <==> !Positive(effectiveARPU) && !Positive(arpuInput)
    ensures Positive(effectiveARPU) ==> r == effectiveARPU
    ensures !Positive(effectiveARPU) && Positive(arpuInput) ==> r == arpuInput
  {
    if Positive(effectiveARPU) then effectiveARPU
    else if Positive(arpuInput) then arpuInput
    else None
  }
}
